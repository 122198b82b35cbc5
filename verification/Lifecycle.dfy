/** What every run of the tracker keeps, from the empty tracker on. */
module Lifecycle {
  import opened Outcomes
  import opened JobViews
  import opened Tracking
  import NzbGet

  // ---- terminal events ----

  /** Completed, failed or lost: the record is done with. */
  predicate Ends(e: Event) {
    e.Published? && !e.kind.Progress?
  }

  ghost predicate Spent(log: seq<Event>, r: RecId) {
    exists i :: 0 <= i < |log| && Ends(log[i]) && log[i].rec == r
  }

  /** Nothing is published about a record after its terminal event. */
  ghost predicate EndsOnce(log: seq<Event>) {
    forall i, j :: 0 <= i < j < |log| && Ends(log[i]) && log[j].Published? ==> log[i].rec != log[j].rec
  }

  /** A spent record is about to be untracked by its own poll, or is tracked no more. */
  ghost predicate SpentLeaves(log: seq<Event>, jobs: map<Key, RecId>, tasks: map<RecId, Pc>) {
    && (forall r :: r in tasks && Spent(log, r) ==> tasks[r].Drop? || tasks[r].Done?)
    && (forall k :: k in jobs && Spent(log, jobs[k]) ==> jobs[k] in tasks && tasks[jobs[k]].Drop?)
  }

  ghost predicate TerminalInv(t: Tracker) {
    EndsOnce(t.log) && SpentLeaves(t.log, t.jobs, t.tasks)
  }

  lemma SpentGrows(log: seq<Event>, e: Event, r: RecId)
    ensures Spent(log + [e], r) <==> Spent(log, r) || (Ends(e) && e.rec == r)
  {
    if Spent(log, r) {
      var i :| 0 <= i < |log| && Ends(log[i]) && log[i].rec == r;
      assert (log + [e])[i] == log[i];
    }
    if Ends(e) && e.rec == r {
      assert (log + [e])[|log|] == e;
    }
  }

  lemma SpentIsKnown(t: Tracker, r: RecId)
    requires WellFormed(t) && Spent(t.log, r)
    ensures r in t.recs && r < t.next
  {
    var i :| 0 <= i < |t.log| && Ends(t.log[i]) && t.log[i].rec == r;
    assert EventKnown(t.log[i], t.recs, t.now);
  }

  lemma PublishKeepsEndsOnce(t: Tracker, e: Event)
    requires EndsOnce(t.log) && (e.Published? ==> !Spent(t.log, e.rec))
    ensures EndsOnce(t.log + [e])
  {
    var log := t.log + [e];
    forall i, j | 0 <= i < j < |log| && Ends(log[i]) && log[j].Published? ensures log[i].rec != log[j].rec {
      if j == |t.log| {
        assert Ends(t.log[i]);
      }
    }
  }

  lemma PollKeepsTerminalInv(t: Tracker, r: RecId, act: Act)
    requires WellFormed(t) && TerminalInv(t) && PollEnabled(t, r, act)
    ensures TerminalInv(PollNext(t, r, act))
  {
    var u, more := PollNext(t, r, act), PollEvents(t, r, act);
    assert Spent(t.log, r) ==> act.Remove?;
    if more == [] {
      assert u.log == t.log;
    } else {
      PublishKeepsEndsOnce(t, more[0]);
      assert u.log == t.log + [more[0]];
      forall q ensures Spent(u.log, q) <==> Spent(t.log, q) || (Ends(more[0]) && r == q) {
        SpentGrows(t.log, more[0], q);
      }
    }
    SpentMoves(t, r, act);
  }

  lemma SpentMoves(t: Tracker, r: RecId, act: Act)
    requires WellFormed(t) && SpentLeaves(t.log, t.jobs, t.tasks) && PollEnabled(t, r, act)
    requires var u := PollNext(t, r, act);
             forall q :: Spent(u.log, q) <==> Spent(t.log, q) || (q == r && act.Publish? && !t.tasks[r].Report?)
    ensures var u := PollNext(t, r, act); SpentLeaves(u.log, u.jobs, u.tasks)
  {
    var u := PollNext(t, r, act);
    forall k | k in u.jobs && Spent(u.log, u.jobs[k]) ensures u.jobs[k] in u.tasks && u.tasks[u.jobs[k]].Drop? {
      assert t.jobs[k] == u.jobs[k] && t.recs[t.jobs[k]].key == k;
    }
  }

  lemma StepKeepsTerminalInv(t: Tracker, s: Step)
    requires WellFormed(t) && TerminalInv(t) && Enabled(t, s)
    ensures TerminalInv(Next(t, s))
  {
    match s
    case Poll(r, act) => PollKeepsTerminalInv(t, r, act);
    case Track(adapter, kind, job, title, wanted) => AddedKeepsTerminalInv(t, NewRecord(adapter, kind, job, title, wanted));
    case TrackIfAbsent(adapter, kind, job, title) => AddedKeepsTerminalInv(t, NewRecord(adapter, kind, job, title, ""));
    case _ =>
  }

  lemma AddedKeepsTerminalInv(t: Tracker, r: Record)
    requires WellFormed(t) && TerminalInv(t)
    ensures TerminalInv(Added(t, r))
  {
    if Spent(t.log, t.next) {
      SpentIsKnown(t, t.next);
    }
  }

  // ---- the grace window ----

  predicate Missed(e: Event) {
    e.Heard? && (e.answer.Unreachable? || Vanished(e.answer.view))
  }

  /** The client answered that it does not know the job under this key. */
  predicate NotKnown(e: Event, k: Key) {
    e.Heard? && e.key == k && e.answer.Told? && Vanished(e.answer.view)
  }

  /** No answer about the key after the event at `i` found the job. */
  ghost predicate Quiet(log: seq<Event>, k: Key, i: nat) {
    forall j :: i < j < |log| && log[j].Heard? && log[j].key == k ==> Missed(log[j])
  }

  /** The client said by `m` that it does not know the job, and has not found it since. */
  ghost predicate MissingBy(log: seq<Event>, k: Key, m: int) {
    exists i: nat :: i < |log| && NotKnown(log[i], k) && log[i].at <= m && Quiet(log, k, i)
  }

  /** The poll of this record has an answer that ends the window, or is about to untrack the key. */
  predicate EndsWindow(pc: Pc) {
    (pc.Answered? && !Vanished(pc.view)) || pc.Drop?
  }

  ghost predicate WindowEnding(t: Tracker, k: Key) {
    exists r :: r in t.tasks && r in t.recs && t.recs[r].key == k && EndsWindow(t.tasks[r])
  }

  ghost predicate WindowOf(t: Tracker, k: Key) {
    Current(t, k) && t.recs[t.jobs[k]].missingSince.Some? ==>
      var m := t.recs[t.jobs[k]].missingSince.value; m <= t.now && (MissingBy(t.log, k, m) || WindowEnding(t, k))
  }

  ghost predicate TaskWindow(t: Tracker, r: RecId) {
    r in t.tasks && r in t.recs ==>
      && (t.tasks[r].Answered? && Vanished(t.tasks[r].view) ==> MissingBy(t.log, t.recs[r].key, t.now))
      && (t.tasks[r].GiveUp? ==> MissingBy(t.log, t.recs[r].key, t.now - LOST_AFTER - 1))
  }

  /** A running window was started by a not-found answer, and no later answer found the job. */
  ghost predicate WindowInv(t: Tracker) {
    (forall k :: WindowOf(t, k)) && (forall r :: TaskWindow(t, r))
  }

  /** A loss was preceded, more than the grace window before, by a not-found answer and by no later answer that found the job. */
  ghost predicate LossExplained(log: seq<Event>, e: nat)
    requires e < |log|
  {
    log[e].Published? && log[e].kind.Loss? ==> MissingBy(log[..e], log[e].key, log[e].at - LOST_AFTER - 1)
  }

  ghost predicate LossesExplained(log: seq<Event>) {
    forall e: nat :: e < |log| ==> LossExplained(log, e)
  }

  lemma MissingLater(log: seq<Event>, k: Key, m: int, later: int)
    requires MissingBy(log, k, m) && m <= later
    ensures MissingBy(log, k, later)
  {
  }

  lemma MissingGrows(log: seq<Event>, e: Event, k: Key, m: int)
    requires MissingBy(log, k, m) && (e.Heard? && e.key == k ==> Missed(e))
    ensures MissingBy(log + [e], k, m)
  {
    var i: nat :| i < |log| && NotKnown(log[i], k) && log[i].at <= m && Quiet(log, k, i);
    assert (log + [e])[i] == log[i];
    assert Quiet(log + [e], k, i);
  }

  lemma MissingStarts(log: seq<Event>, e: Event, k: Key)
    requires NotKnown(e, k)
    ensures MissingBy(log + [e], k, e.at)
  {
    assert (log + [e])[|log|] == e;
    assert Quiet(log + [e], k, |log|);
  }

  lemma LossesGrow(log: seq<Event>, e: Event)
    requires LossesExplained(log)
    requires e.Published? && e.kind.Loss? ==> MissingBy(log, e.key, e.at - LOST_AFTER - 1)
    ensures LossesExplained(log + [e])
  {
    var more := log + [e];
    forall i: nat | i < |more| ensures LossExplained(more, i) {
      if i < |log| {
        assert LossExplained(log, i) && more[..i] == log[..i];
      } else {
        assert more[..i] == log;
      }
    }
  }

  /** The log of a poll keeps what was said about a key, unless this answer found the job. */
  lemma PollKeepsMissing(t: Tracker, r: RecId, act: Act, k: Key, m: int)
    requires PollEnabled(t, r, act) && MissingBy(t.log, k, m)
    requires act.Hear? && t.recs[r].key == k && act.answer.Told? ==> Vanished(act.answer.view)
    ensures MissingBy(PollNext(t, r, act).log, k, m)
  {
    var more := PollEvents(t, r, act);
    if more == [] {
      assert t.log + more == t.log;
    } else {
      MissingGrows(t.log, more[0], k, m);
      assert more == [more[0]];
    }
  }

  /** A poll does not touch the records and windows of other keys. */
  lemma PollKeepsOtherRecords(t: Tracker, r: RecId, act: Act, k: Key)
    requires WellFormed(t) && PollEnabled(t, r, act) && t.recs[r].key != k
    ensures var u := PollNext(t, r, act);
            && (Current(u, k) ==> Current(t, k) && u.jobs[k] == t.jobs[k] && u.recs[u.jobs[k]] == t.recs[t.jobs[k]])
            && (WindowEnding(t, k) ==> WindowEnding(u, k))
  {
    var u := PollNext(t, r, act);
    PollExtends(t, r, act);
    if Current(u, k) {
      assert t.recs[t.jobs[k]].key == k;
    }
    if WindowEnding(t, k) {
      var q :| q in t.tasks && q in t.recs && t.recs[q].key == k && EndsWindow(t.tasks[q]);
      assert u.tasks[q] == t.tasks[q] && SameJob(t.recs[q], u.recs[q]);
    }
  }

  lemma PollKeepsOtherWindows(t: Tracker, r: RecId, act: Act, k: Key)
    requires WellFormed(t) && PollEnabled(t, r, act) && t.recs[r].key != k && WindowOf(t, k)
    ensures WindowOf(PollNext(t, r, act), k)
  {
    var u := PollNext(t, r, act);
    PollKeepsOtherRecords(t, r, act, k);
    if Current(u, k) && u.recs[u.jobs[k]].missingSince.Some? && !WindowEnding(t, k) {
      PollKeepsMissing(t, r, act, k, t.recs[t.jobs[k]].missingSince.value);
    }
  }

  lemma PollKeepsOwnWindow(t: Tracker, r: RecId, act: Act)
    requires WellFormed(t) && PollEnabled(t, r, act) && WindowOf(t, t.recs[r].key) && TaskWindow(t, r)
    ensures WindowOf(PollNext(t, r, act), t.recs[r].key)
  {
    var u, k := PollNext(t, r, act), t.recs[r].key;
    PollExtends(t, r, act);
    if Current(u, k) && u.recs[u.jobs[k]].missingSince.Some? {
      assert Current(t, k);
      var m := u.recs[u.jobs[k]].missingSince.value;
      if WindowEnding(t, k) {
        var q :| q in t.tasks && q in t.recs && t.recs[q].key == k && EndsWindow(t.tasks[q]);
        assert q == r;
      }
      if EndsWindow(u.tasks[r]) {
        assert u.recs[r].key == k;
      } else if t.recs[t.jobs[k]].missingSince.None? {
        assert act.Decide? && m == t.now;
        PollKeepsMissing(t, r, act, k, t.now);
      } else {
        PollKeepsMissing(t, r, act, k, m);
      }
    }
  }

  lemma PollKeepsTaskWindow(t: Tracker, r: RecId, act: Act, q: RecId)
    requires WellFormed(t) && PollEnabled(t, r, act)
    requires WindowOf(t, t.recs[r].key) && TaskWindow(t, q) && TaskWindow(t, r)
    ensures TaskWindow(PollNext(t, r, act), q)
  {
    var u := PollNext(t, r, act);
    PollExtends(t, r, act);
    if q in u.tasks && q in u.recs {
      var k := t.recs[q].key;
      if q != r {
        assert t.recs[r].key != k;
        if t.tasks[q].Answered? && Vanished(t.tasks[q].view) { PollKeepsMissing(t, r, act, k, t.now); }
        if t.tasks[q].GiveUp? { PollKeepsMissing(t, r, act, k, t.now - LOST_AFTER - 1); }
      } else if act.Hear? {
        if act.answer.Told? && Vanished(act.answer.view) {
          MissingStarts(t.log, Heard(r, k, t.now, act.answer), k);
        }
      } else if act.Decide? && u.tasks[r].GiveUp? {
        OverdueIsMissing(t, r);
        PollKeepsMissing(t, r, act, k, t.now - LOST_AFTER - 1);
      }
    }
  }

  lemma OverdueIsMissing(t: Tracker, r: RecId)
    requires WellFormed(t) && r in t.tasks && t.tasks[r].Answered? && Vanished(t.tasks[r].view)
    requires var k := t.recs[r].key; WindowOf(t, k) && Current(t, k) && Overdue(t.recs[t.jobs[k]], t.now)
    ensures MissingBy(t.log, t.recs[r].key, t.now - LOST_AFTER - 1)
  {
    var k := t.recs[r].key;
    forall q | q in t.tasks && q in t.recs && t.recs[q].key == k ensures !EndsWindow(t.tasks[q]) {
      assert q == r;
    }
    MissingLater(t.log, k, t.recs[t.jobs[k]].missingSince.value, t.now - LOST_AFTER - 1);
  }

  lemma PollKeepsWindowInv(t: Tracker, r: RecId, act: Act)
    requires WellFormed(t) && WindowInv(t) && LossesExplained(t.log) && PollEnabled(t, r, act)
    ensures WindowInv(PollNext(t, r, act)) && LossesExplained(PollNext(t, r, act).log)
  {
    var u, more := PollNext(t, r, act), PollEvents(t, r, act);
    assert TaskWindow(t, r);
    forall k ensures WindowOf(u, k) {
      assert WindowOf(t, k);
      if k == t.recs[r].key { PollKeepsOwnWindow(t, r, act); } else { PollKeepsOtherWindows(t, r, act, k); }
    }
    assert WindowOf(t, t.recs[r].key);
    forall q ensures TaskWindow(u, q) {
      assert TaskWindow(t, q);
      PollKeepsTaskWindow(t, r, act, q);
    }
    if more == [] {
      assert u.log == t.log;
    } else {
      LossesGrow(t.log, more[0]);
      assert u.log == t.log + [more[0]];
    }
  }

  lemma AddedKeepsWindowInv(t: Tracker, r: Record)
    requires WellFormed(t) && WindowInv(t) && r.missingSince.None?
    ensures WindowInv(Added(t, r))
  {
    var u := Added(t, r);
    forall k ensures WindowOf(u, k) {
      assert WindowOf(t, k);
      if Current(u, k) && u.recs[u.jobs[k]].missingSince.Some? {
        assert k in t.jobs && t.jobs[k] in t.recs && t.jobs[k] < t.next && u.recs[u.jobs[k]] == t.recs[t.jobs[k]];
        if WindowEnding(t, k) {
          var q :| q in t.tasks && q in t.recs && t.recs[q].key == k && EndsWindow(t.tasks[q]);
          assert q in u.tasks && u.recs[q] == t.recs[q];
        }
      }
    }
    forall q ensures TaskWindow(u, q) {
      assert TaskWindow(t, q);
      if q in u.tasks { assert q in t.recs && u.recs[q] == t.recs[q]; }
    }
  }

  lemma OtherStepsKeepWindowInv(t: Tracker, s: Step)
    requires WellFormed(t) && WindowInv(t) && Enabled(t, s)
    requires s.Untrack? || s.BeginPass? || s.EndPass? || s.Restart?
    ensures WindowInv(Next(t, s))
  {
    var u := Next(t, s);
    forall k ensures WindowOf(u, k) {
      assert WindowOf(t, k);
      if Current(u, k) && WindowEnding(t, k) {
        var q :| q in t.tasks && q in t.recs && t.recs[q].key == k && EndsWindow(t.tasks[q]);
        assert s.Untrack?;
        assert q in u.tasks;
      }
    }
    forall q ensures TaskWindow(u, q) {
      assert TaskWindow(t, q);
    }
  }

  lemma TimeKeepsWindowInv(t: Tracker, d: nat)
    requires WindowInv(t)
    ensures WindowInv(Next(t, Advance(d)))
  {
    var u := Next(t, Advance(d));
    forall k ensures WindowOf(u, k) {
      assert WindowOf(t, k);
      if WindowEnding(t, k) {
        var q :| q in t.tasks && q in t.recs && t.recs[q].key == k && EndsWindow(t.tasks[q]);
        assert q in u.tasks;
      }
    }
    forall q ensures TaskWindow(u, q) {
      assert TaskWindow(t, q);
      if q in t.tasks && q in t.recs {
        var k := t.recs[q].key;
        if MissingBy(t.log, k, t.now) { MissingLater(t.log, k, t.now, u.now); }
        if MissingBy(t.log, k, t.now - LOST_AFTER - 1) { MissingLater(t.log, k, t.now - LOST_AFTER - 1, u.now - LOST_AFTER - 1); }
      }
    }
  }

  lemma StepKeepsWindowInv(t: Tracker, s: Step)
    requires WellFormed(t) && WindowInv(t) && LossesExplained(t.log) && Enabled(t, s)
    ensures WindowInv(Next(t, s)) && LossesExplained(Next(t, s).log)
  {
    match s
    case Poll(r, act) => PollKeepsWindowInv(t, r, act);
    case Track(adapter, kind, job, title, wanted) => AddedKeepsWindowInv(t, NewRecord(adapter, kind, job, title, wanted));
    case TrackIfAbsent(adapter, kind, job, title) => AddedKeepsWindowInv(t, NewRecord(adapter, kind, job, title, ""));
    case Advance(d) => TimeKeepsWindowInv(t, d);
    case _ => OtherStepsKeepWindowInv(t, s);
  }

  // ---- every run ----

  ghost predicate Sound(t: Tracker) {
    WellFormed(t) && TerminalInv(t) && WindowInv(t) && LossesExplained(t.log)
  }

  lemma StepKeepsSound(t: Tracker, s: Step)
    requires Sound(t) && Enabled(t, s)
    ensures Sound(Next(t, s))
  {
    StepKeepsWellFormed(t, s);
    StepKeepsTerminalInv(t, s);
    StepKeepsWindowInv(t, s);
  }

  lemma {:induction false} RunKeepsSound(t: Tracker, steps: seq<Step>)
    requires Sound(t) && Runnable(t, steps)
    ensures Sound(Run(t, steps))
    decreases |steps|
  {
    if steps != [] {
      StepKeepsSound(t, steps[0]);
      RunKeepsSound(Next(t, steps[0]), steps[1..]);
    }
  }

  lemma EmptyIsSound()
    ensures Sound(EMPTY)
  {
    forall k ensures WindowOf(EMPTY, k) {}
    forall r ensures TaskWindow(EMPTY, r) {}
  }

  /** However adds, adoptions, removals, polls and restarts interleave, a record ends at most once, and silently after that. */
  lemma TerminalEventIsLast(steps: seq<Step>, i: nat, j: nat)
    requires Runnable(EMPTY, steps)
    requires var log := Run(EMPTY, steps).log; i < j < |log| && Ends(log[i]) && log[j].Published?
    ensures var log := Run(EMPTY, steps).log; log[i].rec != log[j].rec
  {
    EmptyIsSound();
    RunKeepsSound(EMPTY, steps);
  }

  /**
   A job is declared lost only more than the grace window after an answer that did not know it,
   and every answer in between failed or did not know it either.
   */
  lemma LostOnlyAfterGrace(steps: seq<Step>, e: nat) returns (i: nat)
    requires Runnable(EMPTY, steps)
    requires var log := Run(EMPTY, steps).log; e < |log| && log[e].Published? && log[e].kind.Loss?
    ensures var log := Run(EMPTY, steps).log;
            && i < e && NotKnown(log[i], log[e].key) && log[e].at - log[i].at > 600_000_000_000
            && (forall j :: i < j < e && log[j].Heard? && log[j].key == log[e].key ==>
                  log[j].answer.Unreachable? || NotKnown(log[j], log[e].key))
  {
    EmptyIsSound();
    RunKeepsSound(EMPTY, steps);
    var log := Run(EMPTY, steps).log;
    assert LossExplained(log, e);
    var k, m, before := log[e].key, log[e].at - LOST_AFTER - 1, log[..e];
    i :| i < |before| && NotKnown(before[i], k) && before[i].at <= m && Quiet(before, k, i);
    forall j | i < j < e && log[j].Heard? && log[j].key == k ensures log[j].answer.Unreachable? || NotKnown(log[j], k) {
      assert before[j] == log[j];
    }
  }

  /** A job that is never answered not-found is never declared lost, whatever else fails. */
  lemma FoundJobIsNeverLost(steps: seq<Step>, k: Key)
    requires Runnable(EMPTY, steps)
    requires forall e :: e in Run(EMPTY, steps).log ==> !NotKnown(e, k)
    ensures forall e :: e in Run(EMPTY, steps).log && e.Published? && e.key == k ==> !e.kind.Loss?
  {
    var log := Run(EMPTY, steps).log;
    forall e | e in log && e.Published? && e.key == k ensures !e.kind.Loss? {
      var n: nat :| n < |log| && log[n] == e;
      if e.kind.Loss? {
        var _ := LostOnlyAfterGrace(steps, n);
      }
    }
  }

  // ---- the NZBGet client behind the answers ----

  /** One answer the NZBGet adapter can give for a job that only moves from the queue to the history while it asks. */
  ghost predicate NzbGetAnswer(id: int, answer: Answer) {
    exists first, second, queue, history ::
      && NzbGet.Replies(id, first, second, queue, history) && (first.InHistory? ==> second.InHistory?)
      && answer == AnswerOf(NzbGet.Described(id, queue, history))
  }

  /** A job that stays in NZBGet's queue or history is never declared lost, under any pattern of failed calls. */
  lemma StayingNzbGetJobIsNeverLost(steps: seq<Step>, k: Key, id: int)
    requires Runnable(EMPTY, steps)
    requires forall e :: e in Run(EMPTY, steps).log && e.Heard? && e.key == k ==> NzbGetAnswer(id, e.answer)
    ensures forall e :: e in Run(EMPTY, steps).log && e.Published? && e.key == k ==> !e.kind.Loss?
  {
    forall e | e in Run(EMPTY, steps).log ensures !NotKnown(e, k) {
      if NotKnown(e, k) {
        var first, second, queue, history :|
          NzbGet.Replies(id, first, second, queue, history) && (first.InHistory? ==> second.InHistory?)
          && e.answer == AnswerOf(NzbGet.Described(id, queue, history));
        NzbGet.StayingJobIsNeverNotFound(id, first, second, queue, history);
      }
    }
    FoundJobIsNeverLost(steps, k);
  }

  /**
   A not-found answer that is acted on starts a window that is not running, any other answer ends it; failed calls,
   other jobs and the passing of time leave it alone.
   */
  lemma OnlyAnswersMoveTheWindow(t: Tracker, s: Step, k: Key)
    requires WellFormed(t) && Enabled(t, s) && k in t.jobs && k in Next(t, s).jobs && t.jobs[k] == Next(t, s).jobs[k]
    ensures var before, after := t.recs[t.jobs[k]].missingSince, Next(t, s).recs[t.jobs[k]].missingSince;
            after ==
              if s.Poll? && s.act.Decide? && t.recs[s.rec].key == k then
                if t.tasks[s.rec].view.nativeState != "not-found" then None
                else if before.None? then Some(t.now) else before
              else before
  {
    if s.Poll? {
      assert t.recs[t.jobs[k]].key == k;
    }
  }

  /** An act that does not write to the tracked record moves the poll and the log only. */
  lemma PollMoves(t: Tracker, r: RecId, act: Act)
    requires PollEnabled(t, r, act)
    requires !act.Observe?
    requires act.Decide? ==> var k := t.recs[r].key; Current(t, k) && PollRecord(t, r, act, t.recs[t.jobs[k]]) == t.recs[t.jobs[k]]
    ensures PollNext(t, r, act) == t.(jobs := if act.Remove? then t.jobs - {t.recs[r].key} else t.jobs,
                                      tasks := t.tasks[r := PollPc(t, r, act)], log := t.log + PollEvents(t, r, act))
  {
    var k := t.recs[r].key;
    if Current(t, k) {
      assert t.recs[t.jobs[k] := t.recs[t.jobs[k]]] == t.recs;
    }
  }

  /** The poll of a registered client up to its answer. */
  lemma AskSteps(t: Tracker, r: RecId, answer: Answer) returns (t2: Tracker)
    requires WellFormed(t) && r in t.tasks && t.tasks[r].Start?
    ensures PollEnabled(t, r, FindClient(true)) && PollEnabled(PollNext(t, r, FindClient(true)), r, Hear(answer))
    ensures t2 == PollNext(PollNext(t, r, FindClient(true)), r, Hear(answer))
    ensures t2 == t.(tasks := t.tasks[r := if answer.Told? then Answered(answer.view) else Done],
                     log := t.log + [Heard(r, t.recs[r].key, t.now, answer)])
  {
    PollMoves(t, r, FindClient(true));
    var t1 := t.(tasks := t.tasks[r := Ask]);
    assert t.log + [] == t.log;
    PollMoves(t1, r, Hear(answer));
    t2 := PollNext(t1, r, Hear(answer));
    var pc := if answer.Told? then Answered(answer.view) else Done;
    assert t.tasks[r := Ask][r := pc] == t.tasks[r := pc];
  }

  lemma LossSteps(t: Tracker, r: RecId, v: JobView) returns (t5: Tracker)
    requires r in t.recs && r in t.tasks && t.tasks[r] == Answered(v) && Vanished(v)
    requires var k := t.recs[r].key; Current(t, k) && Overdue(t.recs[t.jobs[k]], t.now)
    ensures PollEnabled(t, r, Decide) && PollEnabled(PollNext(t, r, Decide), r, Publish)
    ensures PollEnabled(PollNext(PollNext(t, r, Decide), r, Publish), r, Remove)
    ensures t5 == PollNext(PollNext(PollNext(t, r, Decide), r, Publish), r, Remove)
    ensures t5 == t.(jobs := t.jobs - {t.recs[r].key}, tasks := t.tasks[r := Done],
                     log := t.log + [Published(Loss, r, t.recs[r].key, t.now, t.recs[r].wanted)])
  {
    PollMoves(t, r, Decide);
    assert t.log + [] == t.log;
    var t3 := t.(tasks := t.tasks[r := GiveUp]);
    PollMoves(t3, r, Publish);
    var e := Published(Loss, r, t.recs[r].key, t.now, t.recs[r].wanted);
    var t4 := t.(tasks := t.tasks[r := GiveUp][r := Drop], log := t.log + [e]);
    PollMoves(t4, r, Remove);
    assert t4.log + [] == t4.log;
    t5 := PollNext(t4, r, Remove);
    assert t.tasks[r := GiveUp][r := Drop][r := Done] == t.tasks[r := Done];
  }

  lemma RunCons(t: Tracker, s: Step, rest: seq<Step>)
    requires Enabled(t, s) && Runnable(Next(t, s), rest)
    ensures Runnable(t, [s] + rest) && Run(t, [s] + rest) == Run(Next(t, s), rest)
  {
    assert ([s] + rest)[1..] == rest;
  }

  lemma RunOne(t: Tracker, s: Step)
    requires Enabled(t, s)
    ensures Runnable(t, [s]) && Run(t, [s]) == Next(t, s)
  {
    assert [s][1..] == [];
  }

  // ---- an add wins over adoption ----

  /** The key is tracked for the wanted item. */
  ghost predicate TrackedFor(t: Tracker, k: Key, wanted: string) {
    Current(t, k) && t.recs[t.jobs[k]].wanted == wanted
  }

  /** The key stays tracked along the run, and no further add returns the same job. */
  ghost predicate StaysTracked(t: Tracker, steps: seq<Step>, k: Key)
    requires Runnable(t, steps)
    decreases |steps|
  {
    k in t.jobs &&
    (steps != [] ==>
       && !(steps[0].Track? && KeyOf(steps[0].adapter, steps[0].job) == k)
       && StaysTracked(Next(t, steps[0]), steps[1..], k))
  }

  lemma StepKeepsTheItem(t: Tracker, s: Step, k: Key)
    requires WellFormed(t) && Enabled(t, s) && k in t.jobs && k in Next(t, s).jobs
    requires !(s.Track? && KeyOf(s.adapter, s.job) == k)
    ensures var u := Next(t, s); WellFormed(u) && u.jobs[k] == t.jobs[k] && u.recs[u.jobs[k]].wanted == t.recs[t.jobs[k]].wanted
  {
    StepKeepsWellFormed(t, s);
  }

  lemma {:induction false} KeepsTheItem(t: Tracker, steps: seq<Step>, k: Key)
    requires WellFormed(t) && Runnable(t, steps) && StaysTracked(t, steps, k)
    ensures var u := Run(t, steps);
            && k in u.jobs && u.jobs[k] == t.jobs[k] && TrackedFor(u, k, t.recs[t.jobs[k]].wanted)
    decreases |steps|
  {
    if steps != [] {
      StepKeepsTheItem(t, steps[0], k);
      KeepsTheItem(Next(t, steps[0]), steps[1..], k);
    }
  }

  /**
   Whatever ran before the add, and whatever adoptions, polls and observations run after it, the job
   stays tracked for the add's wanted item until it is untracked.
   */
  lemma AddWins(t: Tracker, adapter: string, kind: string, job: string, title: string, wanted: string, steps: seq<Step>)
    requires WellFormed(t) && Runnable(Next(t, Track(adapter, kind, job, title, wanted)), steps)
    requires StaysTracked(Next(t, Track(adapter, kind, job, title, wanted)), steps, KeyOf(adapter, job))
    ensures TrackedFor(Run(Next(t, Track(adapter, kind, job, title, wanted)), steps), KeyOf(adapter, job), wanted)
  {
    var s := Track(adapter, kind, job, title, wanted);
    StepKeepsWellFormed(t, s);
    KeepsTheItem(Next(t, s), steps, KeyOf(adapter, job));
  }
}
