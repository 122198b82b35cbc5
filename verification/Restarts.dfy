/**
 The tracker together with its clients, across restarts, when every client is configured in the
 environment: a process lists the unfinished jobs of its clients and tracks them, and only then
 starts to poll and to serve. The process may die between any two steps. What adoption lists and
 what a poll is told come from the adapters and from what the clients hold; of the clients it is
 assumed that a completed job stays completed, and that an add does not get an id used before.
 */
module Restarts {
  import opened Outcomes
  import opened JobViews
  import opened Tracking
  import opened Lifecycle
  import opened Holdings
  import Gateways

  datatype Life = Booting(listed: set<Key>) | Serving(pending: set<Key>)

  /**
   `held` is what each client has held so far, latest last; `known` the keys listed or added so far;
   `pending` the adds that reached their client and are not tracked yet.
   */
  datatype Site = Site(t: Tracker, held: map<string, seq<Content>>, known: set<Key>, life: Life)

  datatype SiteStep =
    | Change(adapter: string, content: Content)  // a client goes on
    | List(adapter: string)                      // boot: adoption lists a client's unfinished jobs
    | Adopt(adapter: string, kind: string, job: string, title: string)
    | Serve                                      // boot is over
    | Reach(adapter: string, job: string)        // an add makes a client start a new job
    | Finish(adapter: string, kind: string, job: string, title: string, wanted: string)
    | Work(step: Step)                           // polls, removals, time
    | Crash

  function Now(past: seq<Content>): Content
    requires past != []
  {
    past[|past| - 1]
  }

  function ListedKeys(adapter: string, c: Content): set<Key> {
    set l | l in Listing(c) :: KeyOf(adapter, l.job)
  }

  /** Every answer comes from what the client has held: each call may have met it at another moment. */
  ghost predicate Answers(past: seq<Content>, job: string, answer: Answer) {
    answer.Unreachable? || exists c, d :: c in past && d in past && Says(c, d, job, answer)
  }

  ghost predicate WorkEnabled(s: Site, step: Step) {
    && !step.Track? && !step.TrackIfAbsent? && !step.Restart?
    && (step.Advance? || s.life.Serving?)
    && Enabled(s.t, step)
    && (step.Poll? && step.act.Hear? ==>
          var rec := s.t.recs[step.rec]; rec.adapter in s.held && Answers(s.held[rec.adapter], rec.job, step.act.answer))
  }

  ghost predicate SiteEnabled(s: Site, step: SiteStep) {
    match step
    case Change(adapter, c) =>
      adapter in s.held && s.held[adapter] != [] && Sane(c) && KeepsComplete(Now(s.held[adapter]), c)
    case List(adapter) => s.life.Booting? && adapter in s.held && s.held[adapter] != []
    case Adopt(adapter, _, job, _) => s.life.Booting? && adapter in s.held && KeyOf(adapter, job) in s.life.listed
    case Serve => s.life.Booting?
    case Reach(adapter, job) => s.life.Serving? && adapter in s.held && KeyOf(adapter, job) !in s.known
    case Finish(adapter, _, job, _, _) => s.life.Serving? && adapter in s.held && KeyOf(adapter, job) in s.life.pending
    case Work(w) => WorkEnabled(s, w)
    case Crash => true
  }

  ghost function SiteNext(s: Site, step: SiteStep): Site
    requires SiteEnabled(s, step)
  {
    match step
    case Change(adapter, c) => s.(held := s.held[adapter := s.held[adapter] + [c]])
    case List(adapter) =>
      var keys := ListedKeys(adapter, Now(s.held[adapter]));
      s.(known := s.known + keys, life := Booting(s.life.listed + keys))
    case Adopt(adapter, kind, job, title) => s.(t := Next(s.t, TrackIfAbsent(adapter, kind, job, title)))
    case Serve => s.(life := Serving({}))
    case Reach(adapter, job) =>
      s.(known := s.known + {KeyOf(adapter, job)}, life := Serving(s.life.pending + {KeyOf(adapter, job)}))
    case Finish(adapter, kind, job, title, wanted) =>
      s.(t := Next(s.t, Track(adapter, kind, job, title, wanted)), life := Serving(s.life.pending - {KeyOf(adapter, job)}))
    case Work(w) => s.(t := Next(s.t, w))
    case Crash => s.(t := Next(s.t, Restart), life := Booting({}))
  }

  ghost predicate SiteRunnable(s: Site, steps: seq<SiteStep>)
    decreases |steps|
  {
    steps == [] || (SiteEnabled(s, steps[0]) && SiteRunnable(SiteNext(s, steps[0]), steps[1..]))
  }

  ghost function SiteRun(s: Site, steps: seq<SiteStep>): Site
    requires SiteRunnable(s, steps)
    decreases |steps|
  {
    if steps == [] then s else SiteRun(SiteNext(s, steps[0]), steps[1..])
  }

  /** The first start of the gateway, beside clients that may hold any jobs already. */
  function FirstStart(contents: map<string, Content>): Site {
    Site(EMPTY, map adapter | adapter in contents :: [contents[adapter]], {}, Booting({}))
  }

  // ---- the invariant ----

  predicate Completes(e: Event, k: Key) {
    e.Published? && e.kind.Completion? && e.key == k
  }

  ghost predicate Reported(log: seq<Event>, k: Key) {
    exists i :: 0 <= i < |log| && Completes(log[i], k)
  }

  ghost predicate ReportedOnce(log: seq<Event>) {
    forall i, j, k :: 0 <= i < j < |log| && Completes(log[i], k) ==> !Completes(log[j], k)
  }

  /** Clients have colon-free ids, and what they completed stays completed. */
  ghost predicate HeldSound(held: map<string, seq<Content>>) {
    forall a :: a in held ==> ':' !in a && held[a] != [] && Steady(held[a]) && forall c :: c in held[a] ==> Sane(c)
  }

  /** The job under this key is completed by the client it belongs to. */
  ghost predicate Complete(held: map<string, seq<Content>>, k: Key) {
    exists a, job :: a in held && held[a] != [] && KeyOf(a, job) == k && CompleteIn(Now(held[a]), job)
  }

  ghost predicate Known(s: Site) {
    && (forall r :: r in s.t.recs ==> s.t.recs[r].key in s.known && s.t.recs[r].adapter in s.held)
    && (s.life.Booting? ==> s.t.tasks == map[] && s.life.listed <= s.known)
    && (s.life.Serving? ==> s.life.pending <= s.known)
  }

  /** A pending add has no record yet, and a polled key is tracked under the polled record or not at all. */
  ghost predicate TrackedOnce(s: Site) {
    && (s.life.Serving? ==> forall r :: r in s.t.recs ==> s.t.recs[r].key !in s.life.pending)
    && (forall r :: r in s.t.tasks && r in s.t.recs && s.t.recs[r].key in s.t.jobs ==> s.t.jobs[s.t.recs[r].key] == r)
  }

  /** A poll that heard "completed" heard it of a completed job. */
  ghost predicate HeardTrue(s: Site) {
    forall r :: r in s.t.tasks && r in s.t.recs && s.t.tasks[r].Answered? && s.t.tasks[r].view.state.Completed? ==>
      Complete(s.held, s.t.recs[r].key)
  }

  /** A reported job is complete for good: nothing will track it again. */
  ghost predicate ReportedIsOver(s: Site) {
    forall k :: Reported(s.t.log, k) ==>
      && k in s.known && Complete(s.held, k)
      && (s.life.Booting? ==> k !in s.t.jobs && k !in s.life.listed)
      && (s.life.Serving? ==> k !in s.life.pending)
      // a poll that could report it again is the one that did
      && (forall r :: r in s.t.tasks && r in s.t.recs && s.t.recs[r].key == k ==> Spent(s.t.log, r))
      && (k in s.t.jobs ==> s.t.jobs[k] in s.t.tasks)
  }

  ghost predicate SiteInv(s: Site) {
    && WellFormed(s.t) && TerminalInv(s.t) && HeldSound(s.held) && Known(s) && TrackedOnce(s) && HeardTrue(s)
    && ReportedIsOver(s) && ReportedOnce(s.t.log)
  }

  // ---- the clients ----

  /** A job that adoption lists now is not complete. */
  lemma ListedIsNotComplete(held: map<string, seq<Content>>, adapter: string, k: Key)
    requires HeldSound(held) && adapter in held && held[adapter] != [] && k in ListedKeys(adapter, Now(held[adapter]))
    ensures !Complete(held, k)
  {
    var l :| l in Listing(Now(held[adapter])) && KeyOf(adapter, l.job) == k;
    assert Now(held[adapter]) in held[adapter];
    ListedIsIncomplete(Now(held[adapter]), l);
    forall a, job | a in held && KeyOf(a, job) == k ensures a == adapter && job == l.job {
      Gateways.KeysAreFaithful(a, job, adapter, l.job);
    }
  }

  /** A job reported complete to a poll is complete. */
  lemma ToldIsComplete(held: map<string, seq<Content>>, adapter: string, job: string, answer: Answer)
    requires HeldSound(held) && adapter in held && Answers(held[adapter], job, answer) && ToldComplete(answer)
    ensures Complete(held, KeyOf(adapter, job))
  {
    var past := held[adapter];
    var c, d :| c in past && d in past && Says(c, d, job, answer);
    ToldOnlyWhenComplete(c, d, job, answer);
    var e := if CompleteIn(c, job) then c else d;
    var i :| 0 <= i < |past| && past[i] == e;
    assert CompleteIn(past[i], job);
  }

  /** What is complete stays so, whatever its client does next. */
  lemma ChangeKeepsComplete(held: map<string, seq<Content>>, adapter: string, c: Content)
    requires HeldSound(held) && adapter in held && Sane(c) && KeepsComplete(Now(held[adapter]), c)
    ensures var more := held[adapter := held[adapter] + [c]];
            HeldSound(more) && forall k :: Complete(held, k) ==> Complete(more, k)
  {
    var more := held[adapter := held[adapter] + [c]];
    SteadyGrows(held[adapter], c);
    forall k | Complete(held, k) ensures Complete(more, k) {
      var a, job :| a in held && KeyOf(a, job) == k && CompleteIn(Now(held[a]), job);
      assert CompleteIn(Now(more[a]), job);
    }
  }

  lemma ReportedGrows(log: seq<Event>, e: Event, k: Key)
    ensures Reported(log + [e], k) <==> Reported(log, k) || Completes(e, k)
  {
    if Reported(log, k) {
      var i :| 0 <= i < |log| && Completes(log[i], k);
      assert (log + [e])[i] == log[i];
    }
    assert (log + [e])[|log|] == e;
  }

  // ---- a poll ----

  /** What the log gains is at most one event, about the polled record. */
  lemma PollReports(s: Site, r: RecId, act: Act, k: Key)
    requires WellFormed(s.t) && PollEnabled(s.t, r, act)
    ensures Reported(PollNext(s.t, r, act).log, k) <==>
              Reported(s.t.log, k) || (act.Publish? && KindOf(s.t.tasks[r]).Completion? && s.t.recs[r].key == k)
  {
    var more := PollEvents(s.t, r, act);
    if more == [] {
      assert s.t.log + more == s.t.log;
    } else {
      assert more == [more[0]];
      ReportedGrows(s.t.log, more[0], k);
    }
  }

  lemma PollSpends(t: Tracker, r: RecId, act: Act, q: RecId)
    requires PollEnabled(t, r, act)
    ensures Spent(t.log, q) ==> Spent(PollNext(t, r, act).log, q)
    ensures act.Publish? && !t.tasks[r].Report? ==> Spent(PollNext(t, r, act).log, r)
  {
    var more := PollEvents(t, r, act);
    if more == [] {
      assert t.log + more == t.log;
    } else {
      assert more == [more[0]];
      SpentGrows(t.log, more[0], q);
      SpentGrows(t.log, more[0], r);
    }
  }

  lemma PollKeepsReportedOnce(s: Site, r: RecId, act: Act)
    requires SiteInv(s) && s.life.Serving? && PollEnabled(s.t, r, act)
    ensures ReportedOnce(PollNext(s.t, r, act).log)
  {
    var u, more := PollNext(s.t, r, act), PollEvents(s.t, r, act);
    if more == [] {
      assert u.log == s.t.log;
    } else {
      var e, k := more[0], s.t.recs[r].key;
      assert more == [e];
      assert Reported(s.t.log, k) ==> Spent(s.t.log, r);
      forall i, j, l | 0 <= i < j < |u.log| && Completes(u.log[i], l) ensures !Completes(u.log[j], l) {
        if j == |s.t.log| {
          assert Reported(s.t.log, l);
        }
      }
    }
  }

  lemma PollKeepsReportedIsOver(s: Site, r: RecId, act: Act, k: Key)
    requires WellFormed(s.t) && TerminalInv(s.t) && Known(s) && TrackedOnce(s) && HeardTrue(s) && ReportedIsOver(s)
    requires s.life.Serving? && PollEnabled(s.t, r, act)
    requires Reported(PollNext(s.t, r, act).log, k)
    ensures var u := PollNext(s.t, r, act);
            && k in s.known && Complete(s.held, k) && k !in s.life.pending
            && (forall q :: q in u.tasks && q in u.recs && u.recs[q].key == k ==> Spent(u.log, q))
            && (k in u.jobs ==> u.jobs[k] in u.tasks)
  {
    var u := PollNext(s.t, r, act);
    PollReports(s, r, act, k);
    PollExtends(s.t, r, act);
    forall q | q in u.tasks && q in u.recs && u.recs[q].key == k ensures Spent(u.log, q) {
      assert q in s.t.tasks && s.t.recs[q].key == k;
      PollSpends(s.t, r, act, q);
    }
  }

  lemma PollKeepsTrackedOnce(s: Site, r: RecId, act: Act)
    requires SiteInv(s) && s.life.Serving? && PollEnabled(s.t, r, act)
    ensures var u := s.(t := PollNext(s.t, r, act)); Known(u) && TrackedOnce(u)
  {
    PollExtends(s.t, r, act);
  }

  lemma PollKeepsHeardTrue(s: Site, r: RecId, act: Act)
    requires SiteInv(s) && WorkEnabled(s, Poll(r, act))
    ensures HeardTrue(s.(t := PollNext(s.t, r, act)))
  {
    PollExtends(s.t, r, act);
    assert act.Hear? && ToldComplete(act.answer) ==> Complete(s.held, s.t.recs[r].key) by {
      if act.Hear? && ToldComplete(act.answer) {
        ToldIsComplete(s.held, s.t.recs[r].adapter, s.t.recs[r].job, act.answer);
      }
    }
    HeardStays(s, r, act);
  }

  lemma HeardStays(s: Site, r: RecId, act: Act)
    requires WellFormed(s.t) && HeardTrue(s) && PollEnabled(s.t, r, act) && Extends(s.t.recs, PollNext(s.t, r, act).recs)
    requires PollNext(s.t, r, act).recs.Keys == s.t.recs.Keys
    requires act.Hear? && ToldComplete(act.answer) ==> Complete(s.held, s.t.recs[r].key)
    ensures HeardTrue(s.(t := PollNext(s.t, r, act)))
  {
  }

  lemma PollKeepsSiteInv(s: Site, r: RecId, act: Act)
    requires SiteInv(s) && WorkEnabled(s, Poll(r, act))
    ensures SiteInv(s.(t := PollNext(s.t, r, act)))
  {
    var u := s.(t := PollNext(s.t, r, act));
    PollKeepsWellFormed(s.t, r, act);
    PollKeepsTerminalInv(s.t, r, act);
    PollKeepsTrackedOnce(s, r, act);
    PollKeepsHeardTrue(s, r, act);
    PollKeepsReportedOnce(s, r, act);
    forall k | Reported(u.t.log, k)
      ensures && k in u.known && Complete(u.held, k) && k !in u.life.pending
              && (forall q :: q in u.t.tasks && q in u.t.recs && u.t.recs[q].key == k ==> Spent(u.t.log, q))
              && (k in u.t.jobs ==> u.t.jobs[k] in u.t.tasks)
    {
      PollKeepsReportedIsOver(s, r, act, k);
    }
  }

  // ---- tracking a job ----

  /** A job that was not reported, has no record under its key and is not polled may be tracked. */
  lemma AddedKeepsSiteInv(s: Site, r: Record, life: Life)
    requires SiteInv(s) && r.key == KeyOf(r.adapter, r.job)
    requires r.key in s.known && r.adapter in s.held && !Reported(s.t.log, r.key)
    requires forall q :: q in s.t.tasks && q in s.t.recs ==> s.t.recs[q].key != r.key
    requires if s.life.Booting? then life == s.life else life == Serving(s.life.pending - {r.key})
    ensures SiteInv(s.(t := Added(s.t, r), life := life))
  {
    AddedKeeps(s.t, r);
    AddedKeepsTerminalInv(s.t, r);
    AddedIsKnown(s, r, life);
    AddedIsNotReported(s, r, life);
  }

  lemma AddedIsKnown(s: Site, r: Record, life: Life)
    requires WellFormed(s.t) && Known(s) && TrackedOnce(s) && HeardTrue(s) && r.key in s.known && r.adapter in s.held
    requires forall q :: q in s.t.tasks && q in s.t.recs ==> s.t.recs[q].key != r.key
    requires if s.life.Booting? then life == s.life else life == Serving(s.life.pending - {r.key})
    ensures var u := s.(t := Added(s.t, r), life := life); Known(u) && TrackedOnce(u) && HeardTrue(u)
  {
    var u := s.(t := Added(s.t, r), life := life);
    forall q | q in s.t.tasks ensures q in s.t.recs && u.t.recs[q] == s.t.recs[q] {}
  }

  lemma AddedIsNotReported(s: Site, r: Record, life: Life)
    requires WellFormed(s.t) && ReportedIsOver(s) && !Reported(s.t.log, r.key)
    requires if s.life.Booting? then life == s.life else life == Serving(s.life.pending - {r.key})
    ensures ReportedIsOver(s.(t := Added(s.t, r), life := life))
  {
    var u := s.(t := Added(s.t, r), life := life);
    forall q | q in s.t.tasks ensures q in s.t.recs && u.t.recs[q] == s.t.recs[q] {}
  }

  // ---- everything else ----

  lemma PassKeepsSiteInv(s: Site, step: Step)
    requires SiteInv(s) && WorkEnabled(s, step) && !step.Poll?
    ensures SiteInv(s.(t := Next(s.t, step)))
  {
    var u := s.(t := Next(s.t, step));
    StepKeepsWellFormed(s.t, step);
    StepKeepsTerminalInv(s.t, step);
    assert u.t.recs == s.t.recs && u.t.log == s.t.log;
    forall k | Reported(s.t.log, k)
      ensures (forall r :: r in u.t.tasks && r in u.t.recs && u.t.recs[r].key == k ==> Spent(u.t.log, r))
      ensures k in u.t.jobs ==> u.t.jobs[k] in u.t.tasks
    {
      if k in s.t.jobs {
        assert s.t.jobs[k] in s.t.tasks && s.t.recs[s.t.jobs[k]].key == k;
        assert Spent(s.t.log, s.t.jobs[k]) && s.t.tasks[s.t.jobs[k]].Drop?;
      }
    }
  }

  lemma CrashKeepsSiteInv(s: Site)
    requires SiteInv(s)
    ensures SiteInv(SiteNext(s, Crash))
  {
    StepKeepsWellFormed(s.t, Restart);
    StepKeepsTerminalInv(s.t, Restart);
  }

  lemma ChangeKeepsSiteInv(s: Site, adapter: string, c: Content)
    requires SiteInv(s) && SiteEnabled(s, Change(adapter, c))
    ensures SiteInv(SiteNext(s, Change(adapter, c)))
  {
    ChangeKeepsComplete(s.held, adapter, c);
  }

  lemma ListKeepsSiteInv(s: Site, adapter: string)
    requires SiteInv(s) && SiteEnabled(s, List(adapter))
    ensures SiteInv(SiteNext(s, List(adapter)))
  {
    forall k | k in ListedKeys(adapter, Now(s.held[adapter])) ensures !Complete(s.held, k) {
      ListedIsNotComplete(s.held, adapter, k);
    }
  }

  lemma ReachKeepsSiteInv(s: Site, adapter: string, job: string)
    requires SiteInv(s) && SiteEnabled(s, Reach(adapter, job))
    ensures SiteInv(SiteNext(s, Reach(adapter, job)))
  {
  }

  lemma StepKeepsSiteInv(s: Site, step: SiteStep)
    requires SiteInv(s) && SiteEnabled(s, step)
    ensures SiteInv(SiteNext(s, step))
  {
    match step
    case Work(w) => if w.Poll? { PollKeepsSiteInv(s, w.rec, w.act); } else { PassKeepsSiteInv(s, w); }
    case Adopt(adapter, kind, job, title) =>
      if KeyOf(adapter, job) !in s.t.jobs {
        AddedKeepsSiteInv(s, NewRecord(adapter, kind, job, title, ""), s.life);
      }
    case Finish(adapter, kind, job, title, wanted) =>
      AddedKeepsSiteInv(s, NewRecord(adapter, kind, job, title, wanted), Serving(s.life.pending - {KeyOf(adapter, job)}));
    case Crash => CrashKeepsSiteInv(s);
    case Change(adapter, c) => ChangeKeepsSiteInv(s, adapter, c);
    case List(adapter) => ListKeepsSiteInv(s, adapter);
    case Reach(adapter, job) => ReachKeepsSiteInv(s, adapter, job);
    case Serve =>
  }

  lemma {:induction false} RunKeepsSiteInv(s: Site, steps: seq<SiteStep>)
    requires SiteInv(s) && SiteRunnable(s, steps)
    ensures SiteInv(SiteRun(s, steps))
    decreases |steps|
  {
    if steps != [] {
      StepKeepsSiteInv(s, steps[0]);
      RunKeepsSiteInv(SiteNext(s, steps[0]), steps[1..]);
    }
  }

  /** However often and wherever the process dies, a job is reported completed at most once. */
  lemma CompletedOnceAcrossRestarts(contents: map<string, Content>, steps: seq<SiteStep>, i: nat, j: nat, k: Key)
    requires forall a :: a in contents ==> ':' !in a && Sane(contents[a])
    requires SiteRunnable(FirstStart(contents), steps)
    requires var log := SiteRun(FirstStart(contents), steps).t.log; i < j < |log| && Completes(log[i], k)
    ensures var log := SiteRun(FirstStart(contents), steps).t.log; !Completes(log[j], k)
  {
    RunKeepsSiteInv(FirstStart(contents), steps);
  }
}
