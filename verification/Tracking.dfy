/**
 The gateway's tracked jobs as a state machine. One step is what the code does while it holds
 the job lock once, or one call to a client, or one published event; steps of adds, adoptions,
 removals and the tasks of a poll pass interleave in any order, and a restart may fall anywhere.
 */
module Tracking {
  import opened Outcomes
  import opened JobViews

  type Key = string

  /** The key of a job in the tracked map. */
  function KeyOf(adapter: string, job: string): Key {
    adapter + ":" + job
  }

  /** How long a job may stay invisible, in nanoseconds. */
  const LOST_AFTER := 10 * 60 * 1_000_000_000

  /** One tracked job, kept under its key. The first six fields never change. */
  datatype Record = Record(
    key: Key,
    adapter: string,
    kind: string,
    job: string,
    title: string,
    wanted: string,
    last: Status,
    view: JobView,
    lastBytes: int,
    lastAt: Option<nat>,
    missingSince: Option<nat>)

  function NewRecord(adapter: string, kind: string, job: string, title: string, wanted: string): Record {
    Record(KeyOf(adapter, job), adapter, kind, job, title, wanted, Queued, NewJobView(Queued), 0, None, None)
  }

  // ---- what markMissing, clearMissing and observe do to a record ----

  function Marked(r: Record, now: nat): Record {
    if r.missingSince.None? then r.(missingSince := Some(now)) else r
  }

  /** The grace window is over. */
  predicate Overdue(r: Record, now: nat) {
    r.missingSince.Some? && now > r.missingSince.value + LOST_AFTER
  }

  function Cleared(r: Record): Record {
    r.(missingSince := None)
  }

  function Observed(r: Record, v: JobView, now: nat): Record {
    r.(last := v.state, view := v, lastBytes := v.bytesDone, lastAt := Some(now))
  }

  // ---- state ----

  type RecId = nat

  datatype Answer = Unreachable | Told(view: JobView)

  /** What a poll makes of an adapter's result. */
  function AnswerOf(r: Result<JobView, DescribeError>): Answer {
    match r case Success(v) => Told(v) case Failure(_) => Unreachable
  }

  datatype Kind = Completion | Breakdown | Loss | Progress

  datatype Event =
    | Heard(rec: RecId, key: Key, at: nat, answer: Answer)
    | Published(kind: Kind, rec: RecId, key: Key, at: nat, wanted: string)

  /** Where the poll of one job stands. */
  datatype Pc =
    | Start                    // before the client is looked up
    | Ask                      // before the client is asked
    | Answered(view: JobView)  // before the answer is acted on
    | GiveUp                   // found lost, before the event
    | Report(view: JobView)    // before the progress event
    | Note(view: JobView)      // before the snapshot is recorded
    | Drop                     // before the job is untracked
    | Done

  datatype Tracker = Tracker(
    jobs: map<Key, RecId>,
    recs: map<RecId, Record>,   // every record there ever was
    next: RecId,
    tasks: map<RecId, Pc>,      // the poll pass, empty between passes
    log: seq<Event>,
    now: nat)

  const EMPTY := Tracker(map[], map[], 0, map[], [], 0)

  /** What the poll of one job does next. */
  datatype Act =
    | FindClient(found: bool)
    | Hear(answer: Answer)
    | Decide
    | Publish
    | Observe
    | Remove

  datatype Step =
    | Advance(d: nat)
    | Track(adapter: string, kind: string, job: string, title: string, wanted: string)
    | TrackIfAbsent(adapter: string, kind: string, job: string, title: string)
    | Untrack(key: Key)
    | BeginPass
    | Poll(rec: RecId, act: Act)
    | EndPass
    | Restart

  predicate PollEnabled(t: Tracker, r: RecId, act: Act) {
    && r in t.tasks && r in t.recs
    && var pc := t.tasks[r];
       match act
       case FindClient(_) => pc.Start?
       case Hear(_) => pc.Ask?
       case Decide => pc.Answered? && !Terminal(pc.view)
       case Publish => pc.GiveUp? || pc.Report? || (pc.Answered? && Terminal(pc.view))
       case Observe => pc.Note?
       case Remove => pc.Drop?
  }

  predicate Enabled(t: Tracker, s: Step) {
    match s
    case BeginPass => t.tasks == map[]
    case EndPass => forall r :: r in t.tasks ==> t.tasks[r].Done?
    case Poll(r, act) => PollEnabled(t, r, act)
    case _ => true
  }

  function Added(t: Tracker, r: Record): Tracker {
    t.(jobs := t.jobs[r.key := t.next], recs := t.recs[t.next := r], next := t.next + 1)
  }

  /** There is a record under this key, and it is `cur`. */
  predicate Current(t: Tracker, k: Key) {
    k in t.jobs && t.jobs[k] in t.recs
  }

  function KindOf(pc: Pc): Kind {
    match pc
    case Answered(v) => if v.state.Completed? then Completion else Breakdown
    case GiveUp => Loss
    case _ => Progress
  }

  /** Where the poll of a record goes from here. */
  function PollPc(t: Tracker, r: RecId, act: Act): Pc
    requires PollEnabled(t, r, act)
  {
    var k, pc := t.recs[r].key, t.tasks[r];
    match act
    case FindClient(found) => if found then Ask else Drop
    case Hear(answer) => if answer.Told? then Answered(answer.view) else Done
    case Decide =>
      if Current(t, k) && Vanished(pc.view) && Overdue(t.recs[t.jobs[k]], t.now) then GiveUp else Report(pc.view)
    case Publish => if pc.Report? then Note(pc.view) else Drop
    case Observe => Done
    case Remove => Done
  }

  /** What it makes of the record now tracked under its key, which need not be the polled one. */
  function PollRecord(t: Tracker, r: RecId, act: Act, cur: Record): Record
    requires PollEnabled(t, r, act)
  {
    var pc := t.tasks[r];
    match act
    case Decide => if Vanished(pc.view) then Marked(cur, t.now) else Cleared(cur)
    case Observe => Observed(cur, pc.view, t.now)
    case _ => cur
  }

  function PollEvents(t: Tracker, r: RecId, act: Act): seq<Event>
    requires PollEnabled(t, r, act)
  {
    var rec := t.recs[r];
    match act
    case Hear(answer) => [Heard(r, rec.key, t.now, answer)]
    case Publish => [Published(KindOf(t.tasks[r]), r, rec.key, t.now, rec.wanted)]
    case _ => []
  }

  function PollNext(t: Tracker, r: RecId, act: Act): Tracker
    requires PollEnabled(t, r, act)
  {
    var k := t.recs[r].key;
    t.(jobs := if act.Remove? then t.jobs - {k} else t.jobs,
       recs := if Current(t, k) then t.recs[t.jobs[k] := PollRecord(t, r, act, t.recs[t.jobs[k]])] else t.recs,
       tasks := t.tasks[r := PollPc(t, r, act)],
       log := t.log + PollEvents(t, r, act))
  }

  function Next(t: Tracker, s: Step): Tracker
    requires Enabled(t, s)
  {
    match s
    case Advance(d) => t.(now := t.now + d)
    case Track(adapter, kind, job, title, wanted) => Added(t, NewRecord(adapter, kind, job, title, wanted))
    case TrackIfAbsent(adapter, kind, job, title) =>
      if KeyOf(adapter, job) in t.jobs then t else Added(t, NewRecord(adapter, kind, job, title, ""))
    case Untrack(k) => t.(jobs := t.jobs - {k})
    case BeginPass => t.(tasks := map r | r in t.jobs.Values :: Start)
    case Poll(r, act) => PollNext(t, r, act)
    case EndPass => t.(tasks := map[])
    case Restart => t.(jobs := map[], tasks := map[])
  }

  // ---- runs ----

  predicate Runnable(t: Tracker, steps: seq<Step>)
    decreases |steps|
  {
    steps == [] || (Enabled(t, steps[0]) && Runnable(Next(t, steps[0]), steps[1..]))
  }

  function Run(t: Tracker, steps: seq<Step>): Tracker
    requires Runnable(t, steps)
    decreases |steps|
  {
    if steps == [] then t else Run(Next(t, steps[0]), steps[1..])
  }

  // ---- well-formedness ----

  /** Both records are for the same job of the same client, tracked for the same purpose. */
  ghost predicate SameJob(r: Record, q: Record) {
    r.key == q.key && r.adapter == q.adapter && r.job == q.job && r.title == q.title && r.wanted == q.wanted
  }

  /** No record is forgotten or reused for something else. */
  ghost predicate Extends(recs: map<RecId, Record>, later: map<RecId, Record>) {
    forall r :: r in recs ==> r in later && SameJob(recs[r], later[r])
  }

  /** Every record has its own key, and every key maps to a record with that key. */
  ghost predicate RecordsKeyed(recs: map<RecId, Record>, next: RecId) {
    forall r :: r in recs ==> r < next && recs[r].key == KeyOf(recs[r].adapter, recs[r].job)
  }

  ghost predicate JobsKnown(jobs: map<Key, RecId>, recs: map<RecId, Record>) {
    forall k :: k in jobs ==> jobs[k] in recs && recs[jobs[k]].key == k
  }

  /** A pass has one task per key. */
  ghost predicate TasksKnown(tasks: map<RecId, Pc>, recs: map<RecId, Record>) {
    && tasks.Keys <= recs.Keys
    && (forall r, q :: r in tasks && q in tasks && recs[r].key == recs[q].key ==> r == q)
  }

  ghost predicate EventKnown(e: Event, recs: map<RecId, Record>, now: nat) {
    && e.rec in recs && e.key == recs[e.rec].key && e.at <= now
    && (e.Published? ==> e.wanted == recs[e.rec].wanted)
  }

  /** The log names known records, and an event carries the wanted item of its record. */
  ghost predicate LogKnown(log: seq<Event>, recs: map<RecId, Record>, now: nat) {
    forall i :: 0 <= i < |log| ==> EventKnown(log[i], recs, now)
  }

  ghost predicate WellFormed(t: Tracker) {
    && RecordsKeyed(t.recs, t.next) && JobsKnown(t.jobs, t.recs)
    && TasksKnown(t.tasks, t.recs) && LogKnown(t.log, t.recs, t.now)
  }

  lemma ExtendsKeeps(jobs: map<Key, RecId>, tasks: map<RecId, Pc>, log: seq<Event>, recs: map<RecId, Record>, now: nat,
                     fewer: map<Key, RecId>, moved: map<RecId, Pc>, later: map<RecId, Record>, then_: nat)
    requires JobsKnown(jobs, recs) && TasksKnown(tasks, recs) && LogKnown(log, recs, now)
    requires Extends(recs, later) && now <= then_ && moved.Keys <= tasks.Keys
    requires forall k :: k in fewer ==> k in jobs && fewer[k] == jobs[k]
    ensures JobsKnown(fewer, later) && TasksKnown(moved, later) && LogKnown(log, later, then_)
  {
    forall i | 0 <= i < |log| ensures EventKnown(log[i], later, then_) {
      assert EventKnown(log[i], recs, now);
    }
  }

  lemma PollExtends(t: Tracker, r: RecId, act: Act)
    requires WellFormed(t) && PollEnabled(t, r, act)
    ensures var u := PollNext(t, r, act);
            Extends(t.recs, u.recs) && u.recs.Keys == t.recs.Keys && RecordsKeyed(u.recs, u.next)
  {
    var k := t.recs[r].key;
    if Current(t, k) {
      var cur := t.recs[t.jobs[k]];
      assert SameJob(cur, PollRecord(t, r, act, cur));
    }
  }

  lemma LogGrows(log: seq<Event>, more: seq<Event>, recs: map<RecId, Record>, now: nat)
    requires LogKnown(log, recs, now) && LogKnown(more, recs, now)
    ensures LogKnown(log + more, recs, now)
  {
  }

  lemma PollKeepsWellFormed(t: Tracker, r: RecId, act: Act)
    requires WellFormed(t) && PollEnabled(t, r, act)
    ensures WellFormed(PollNext(t, r, act))
  {
    var u := PollNext(t, r, act);
    PollExtends(t, r, act);
    LogGrows(t.log, PollEvents(t, r, act), t.recs, t.now);
    ExtendsKeeps(t.jobs, t.tasks, u.log, t.recs, t.now, u.jobs, u.tasks, u.recs, u.now);
  }

  lemma AddedKeeps(t: Tracker, r: Record)
    requires WellFormed(t) && r.key == KeyOf(r.adapter, r.job)
    ensures WellFormed(Added(t, r)) && Extends(t.recs, Added(t, r).recs)
  {
    var u := Added(t, r);
    forall q | q in t.recs ensures q in u.recs && u.recs[q] == t.recs[q] {}
    ExtendsKeeps(t.jobs, t.tasks, t.log, t.recs, t.now, t.jobs, t.tasks, u.recs, t.now);
  }

  lemma BeginPassKeeps(t: Tracker)
    requires WellFormed(t) && Enabled(t, BeginPass)
    ensures WellFormed(Next(t, BeginPass))
  {
    forall r | r in t.jobs.Values ensures r in t.recs && t.recs[r].key in t.jobs && t.jobs[t.recs[r].key] == r {
      var k :| k in t.jobs && t.jobs[k] == r;
    }
  }

  lemma StepKeepsWellFormed(t: Tracker, s: Step)
    requires WellFormed(t) && Enabled(t, s)
    ensures WellFormed(Next(t, s)) && Extends(t.recs, Next(t, s).recs)
  {
    match s
    case Track(adapter, kind, job, title, wanted) => AddedKeeps(t, NewRecord(adapter, kind, job, title, wanted));
    case TrackIfAbsent(adapter, kind, job, title) => AddedKeeps(t, NewRecord(adapter, kind, job, title, ""));
    case Poll(r, act) =>
      PollKeepsWellFormed(t, r, act);
      PollExtends(t, r, act);
    case Advance(d) => ExtendsKeeps(t.jobs, t.tasks, t.log, t.recs, t.now, t.jobs, t.tasks, t.recs, t.now + d);
    case BeginPass => BeginPassKeeps(t);
    case _ =>
  }
}
