/** The method that polls one job and the state machine of polls agree when nothing interferes. */
module PollRuns {
  import opened Outcomes
  import opened JobViews
  import opened Tracking
  import opened Lifecycle
  import opened Gateways

  function Under(t: Tracker, k: Key): Option<Record> {
    if Current(t, k) then Some(t.recs[t.jobs[k]]) else None
  }

  function Logged(r: RecId, at: nat, events: seq<Emission>): seq<Event> {
    seq(|events|, i requires 0 <= i < |events| => Published(events[i].kind, r, events[i].key, at, events[i].wanted))
  }

  function HeardOf(r: RecId, k: Key, at: nat, found: bool, answer: Answer): seq<Event> {
    if found then [Heard(r, k, at, answer)] else []
  }

  /** The poll of r has run from t to u as PollResult says, and touched no other job. */
  ghost predicate Polled(t: Tracker, u: Tracker, r: RecId, found: bool, answer: Answer)
    requires r in t.recs
  {
    var k := t.recs[r].key;
    var result := PollResult(t.recs[r], Under(t, k), found, answer, t.now);
    && r in u.tasks && u.tasks[r].Done?
    && Under(u, k) == result.cur
    && u.log == t.log + HeardOf(r, k, t.now, found, answer) + Logged(r, t.now, result.events)
    && (forall other :: other != k ==> Under(u, other) == Under(t, other))
  }

  /** The act is what a poll does that finds its client or not, and gets this answer. */
  predicate Follows(act: Act, found: bool, answer: Answer) {
    (act.FindClient? ==> act.found == found) && (act.Hear? ==> act.answer == answer)
  }

  /** Steps of one poll, with nothing in between. */
  predicate OwnSteps(steps: seq<Step>, r: RecId, found: bool, answer: Answer) {
    forall s :: s in steps ==> s.Poll? && s.rec == r && Follows(s.act, found, answer)
  }

  /** The poll of r has run to its end. */
  predicate Ended(t: Tracker, r: RecId) {
    r in t.tasks && t.tasks[r].Done?
  }

  /** What a poll does next is determined by where it stands and what it hears. */
  lemma OneAct(t: Tracker, r: RecId, a: Act, b: Act, found: bool, answer: Answer)
    requires PollEnabled(t, r, a) && PollEnabled(t, r, b) && Follows(a, found, answer) && Follows(b, found, answer)
    ensures a == b
  {
  }

  /** So there is one undisturbed run of a poll to its end. */
  lemma {:induction false} OneRun(t: Tracker, r: RecId, found: bool, answer: Answer, xs: seq<Step>, ys: seq<Step>)
    requires Runnable(t, xs) && OwnSteps(xs, r, found, answer) && Ended(Run(t, xs), r)
    requires Runnable(t, ys) && OwnSteps(ys, r, found, answer) && Ended(Run(t, ys), r)
    ensures xs == ys
    decreases |xs|
  {
    assert xs != [] ==> xs[0] in xs;
    assert ys != [] ==> ys[0] in ys;
    if xs != [] && ys != [] {
      OneAct(t, r, xs[0].act, ys[0].act, found, answer);
      OneRun(Next(t, xs[0]), r, found, answer, xs[1..], ys[1..]);
      assert xs == [xs[0]] + xs[1..] && ys == [ys[0]] + ys[1..];
    }
  }

  lemma RunTwo(t: Tracker, s1: Step, s2: Step)
    requires Enabled(t, s1) && Enabled(Next(t, s1), s2)
    ensures Runnable(t, [s1, s2]) && Run(t, [s1, s2]) == Next(Next(t, s1), s2)
  {
    RunOne(Next(t, s1), s2);
    RunCons(t, s1, [s2]);
    assert [s1] + [s2] == [s1, s2];
  }

  lemma RunAppend(t: Tracker, a: seq<Step>, b: seq<Step>)
    requires Runnable(t, a) && Runnable(Run(t, a), b)
    ensures Runnable(t, a + b) && Run(t, a + b) == Run(Run(t, a), b)
    decreases |a|
  {
    if a == [] {
      assert a + b == b;
    } else {
      RunAppend(Next(t, a[0]), a[1..], b);
      RunCons(t, a[0], a[1..] + b);
      assert [a[0]] + (a[1..] + b) == a + b;
    }
  }

  lemma UnregisteredPoll(t: Tracker, r: RecId, answer: Answer) returns (steps: seq<Step>)
    requires WellFormed(t) && r in t.tasks && t.tasks[r].Start?
    ensures Runnable(t, steps) && OwnSteps(steps, r, false, answer) && Polled(t, Run(t, steps), r, false, answer)
  {
    steps := [Poll(r, FindClient(false)), Poll(r, Remove)];
    PollMoves(t, r, FindClient(false));
    var t1 := t.(tasks := t.tasks[r := Drop]);
    assert t.log + [] == t.log;
    PollMoves(t1, r, Remove);
    RunTwo(t, steps[0], steps[1]);
  }

  lemma UnreachablePoll(t: Tracker, r: RecId) returns (steps: seq<Step>)
    requires WellFormed(t) && r in t.tasks && t.tasks[r].Start?
    ensures Runnable(t, steps) && OwnSteps(steps, r, true, Unreachable) && Polled(t, Run(t, steps), r, true, Unreachable)
  {
    steps := [Poll(r, FindClient(true)), Poll(r, Hear(Unreachable))];
    var u := AskSteps(t, r, Unreachable);
    RunTwo(t, steps[0], steps[1]);
    assert u.log + [] == u.log;
  }

  /** After a terminal answer the event is published and the job untracked. */
  lemma TerminalSteps(t: Tracker, r: RecId, v: JobView) returns (u: Tracker)
    requires r in t.recs && r in t.tasks && t.tasks[r] == Answered(v) && Terminal(v)
    ensures var steps := [Poll(r, Publish), Poll(r, Remove)];
            Runnable(t, steps) && u == Run(t, steps)
    ensures u == t.(jobs := t.jobs - {t.recs[r].key}, tasks := t.tasks[r := Done],
                    log := t.log + [Published(KindOf(Answered(v)), r, t.recs[r].key, t.now, t.recs[r].wanted)])
  {
    PollMoves(t, r, Publish);
    var t1 := PollNext(t, r, Publish);
    PollMoves(t1, r, Remove);
    assert t1.log + [] == t1.log;
    u := PollNext(t1, r, Remove);
    RunTwo(t, Poll(r, Publish), Poll(r, Remove));
    assert t.tasks[r := Drop][r := Done] == t.tasks[r := Done];
  }

  lemma LossRun(t: Tracker, r: RecId, v: JobView) returns (u: Tracker)
    requires r in t.recs && r in t.tasks && t.tasks[r] == Answered(v) && Vanished(v)
    requires var k := t.recs[r].key; Current(t, k) && Overdue(t.recs[t.jobs[k]], t.now)
    ensures var steps := [Poll(r, Decide), Poll(r, Publish), Poll(r, Remove)];
            Runnable(t, steps) && u == Run(t, steps)
    ensures u == t.(jobs := t.jobs - {t.recs[r].key}, tasks := t.tasks[r := Done],
                    log := t.log + [Published(Loss, r, t.recs[r].key, t.now, t.recs[r].wanted)])
  {
    u := LossSteps(t, r, v);
    RunTwo(PollNext(t, r, Decide), Poll(r, Publish), Poll(r, Remove));
    RunCons(t, Poll(r, Decide), [Poll(r, Publish), Poll(r, Remove)]);
    assert [Poll(r, Decide)] + [Poll(r, Publish), Poll(r, Remove)] == [Poll(r, Decide), Poll(r, Publish), Poll(r, Remove)];
  }

  /** What a poll that neither ends nor loses the job writes to the tracked record. */
  function Seen(cur: Record, v: JobView, now: nat): Record {
    Observed(if Vanished(v) then Marked(cur, now) else Cleared(cur), v, now)
  }

  lemma ProgressSteps(t: Tracker, r: RecId, v: JobView) returns (t4: Tracker)
    requires WellFormed(t) && r in t.tasks && t.tasks[r] == Answered(v) && !Terminal(v)
    requires var k := t.recs[r].key; !(Vanished(v) && Current(t, k) && Overdue(t.recs[t.jobs[k]], t.now))
    ensures PollEnabled(t, r, Decide) && PollEnabled(PollNext(t, r, Decide), r, Publish)
    ensures t4 == PollNext(PollNext(t, r, Decide), r, Publish)
    ensures var k := t.recs[r].key;
            && t4.jobs == t.jobs && t4.now == t.now && r in t4.tasks && t4.tasks[r] == Note(v)
            && t4.log == t.log + [Published(Progress, r, k, t.now, t.recs[r].wanted)]
            && r in t4.recs && t4.recs[r].key == k
            && (Current(t, k) ==>
                  t4.recs == t.recs[t.jobs[k] := if Vanished(v) then Marked(t.recs[t.jobs[k]], t.now) else Cleared(t.recs[t.jobs[k]])])
            && (!Current(t, k) ==> t4.recs == t.recs)
  {
    var t3 := PollNext(t, r, Decide);
    PollExtends(t, r, Decide);
    assert t.log + [] == t.log;
    PollMoves(t3, r, Publish);
    t4 := PollNext(t3, r, Publish);
  }

  lemma ProgressRun(t: Tracker, r: RecId, v: JobView) returns (u: Tracker)
    requires WellFormed(t) && r in t.tasks && t.tasks[r] == Answered(v) && !Terminal(v)
    requires var k := t.recs[r].key; !(Vanished(v) && Current(t, k) && Overdue(t.recs[t.jobs[k]], t.now))
    ensures var steps := [Poll(r, Decide), Poll(r, Publish), Poll(r, Observe)];
            Runnable(t, steps) && u == Run(t, steps)
    ensures var k := t.recs[r].key;
            && u.jobs == t.jobs && r in u.tasks && u.tasks[r].Done?
            && u.log == t.log + [Published(Progress, r, k, t.now, t.recs[r].wanted)]
            && u.recs == if Current(t, k) then t.recs[t.jobs[k] := Seen(t.recs[t.jobs[k]], v, t.now)] else t.recs
  {
    var t4 := ProgressSteps(t, r, v);
    u := PollNext(t4, r, Observe);
    ObserveLast(t, t4, r, v);
    ThreeSteps(t, Poll(r, Decide), Poll(r, Publish), Poll(r, Observe));
  }

  lemma ObserveLast(t: Tracker, t4: Tracker, r: RecId, v: JobView)
    requires r in t.recs && r in t4.recs && r in t4.tasks && t4.tasks[r] == Note(v) && t4.jobs == t.jobs && t4.now == t.now
    requires var k := t.recs[r].key;
             && t4.recs[r].key == k
             && (Current(t, k) ==>
                   t4.recs == t.recs[t.jobs[k] := if Vanished(v) then Marked(t.recs[t.jobs[k]], t.now) else Cleared(t.recs[t.jobs[k]])])
             && (!Current(t, k) ==> t4.recs == t.recs)
    ensures var u, k := PollNext(t4, r, Observe), t.recs[r].key;
            && u.jobs == t.jobs && r in u.tasks && u.tasks[r].Done? && u.log == t4.log
            && u.recs == if Current(t, k) then t.recs[t.jobs[k] := Seen(t.recs[t.jobs[k]], v, t.now)] else t.recs
  {
    assert t4.log + [] == t4.log;
  }

  lemma ThreeSteps(t: Tracker, s1: Step, s2: Step, s3: Step)
    requires Enabled(t, s1) && Enabled(Next(t, s1), s2) && Enabled(Next(Next(t, s1), s2), s3)
    ensures Runnable(t, [s1, s2, s3]) && Run(t, [s1, s2, s3]) == Next(Next(Next(t, s1), s2), s3)
  {
    RunTwo(Next(t, s1), s2, s3);
    RunCons(t, s1, [s2, s3]);
    assert [s1] + [s2, s3] == [s1, s2, s3];
  }

  /** The two first steps followed by a tail that starts from the answer. */
  lemma AskThen(t: Tracker, r: RecId, v: JobView, tail: seq<Step>) returns (steps: seq<Step>)
    requires WellFormed(t) && r in t.tasks && t.tasks[r].Start?
    requires Runnable(Asked(t, r, v), tail) && OwnSteps(tail, r, true, Told(v))
    ensures Runnable(t, steps) && OwnSteps(steps, r, true, Told(v)) && Run(t, steps) == Run(Asked(t, r, v), tail)
  {
    var t2 := AskSteps(t, r, Told(v));
    RunTwo(t, Poll(r, FindClient(true)), Poll(r, Hear(Told(v))));
    RunAppend(t, [Poll(r, FindClient(true)), Poll(r, Hear(Told(v)))], tail);
    steps := [Poll(r, FindClient(true)), Poll(r, Hear(Told(v)))] + tail;
  }

  function Asked(t: Tracker, r: RecId, v: JobView): Tracker
    requires r in t.recs
  {
    t.(tasks := t.tasks[r := Answered(v)], log := t.log + [Heard(r, t.recs[r].key, t.now, Told(v))])
  }

  lemma AskedKeeps(t: Tracker, r: RecId, v: JobView)
    requires WellFormed(t) && r in t.tasks
    ensures WellFormed(Asked(t, r, v))
  {
    LogGrows(t.log, [Heard(r, t.recs[r].key, t.now, Told(v))], t.recs, t.now);
  }

  /** The poll has ended the job with one event of this kind. */
  lemma EndingIsPolled(t: Tracker, u: Tracker, r: RecId, v: JobView, kind: Kind)
    requires r in t.recs && Ended(u, r) && u.jobs == t.jobs - {t.recs[r].key} && u.recs == t.recs
    requires u.log == t.log + [Heard(r, t.recs[r].key, t.now, Told(v))] + [Published(kind, r, t.recs[r].key, t.now, t.recs[r].wanted)]
    requires var result := PollResult(t.recs[r], Under(t, t.recs[r].key), true, Told(v), t.now);
             && result.cur == None && |result.events| == 1
             && result.events[0].kind == kind && result.events[0].key == t.recs[r].key && result.events[0].wanted == t.recs[r].wanted
    ensures Polled(t, u, r, true, Told(v))
  {
    OneUntracked(t, u, t.recs[r].key);
    var events := PollResult(t.recs[r], Under(t, t.recs[r].key), true, Told(v), t.now).events;
    assert Logged(r, t.now, events) == [Published(kind, r, t.recs[r].key, t.now, t.recs[r].wanted)];
  }

  /** A terminal answer ends the job. */
  lemma TerminalPoll(t: Tracker, r: RecId, v: JobView) returns (steps: seq<Step>)
    requires WellFormed(t) && r in t.tasks && t.tasks[r].Start? && Terminal(v)
    ensures Runnable(t, steps) && OwnSteps(steps, r, true, Told(v)) && Polled(t, Run(t, steps), r, true, Told(v))
  {
    var u := TerminalSteps(Asked(t, r, v), r, v);
    steps := AskThen(t, r, v, [Poll(r, Publish), Poll(r, Remove)]);
    EndingIsPolled(t, u, r, v, KindOf(Answered(v)));
  }

  /** So does a not-found answer once the window is over. */
  lemma LosingPoll(t: Tracker, r: RecId, v: JobView) returns (steps: seq<Step>)
    requires WellFormed(t) && r in t.tasks && t.tasks[r].Start?
    requires var k := t.recs[r].key; Vanished(v) && Current(t, k) && Overdue(t.recs[t.jobs[k]], t.now)
    ensures Runnable(t, steps) && OwnSteps(steps, r, true, Told(v)) && Polled(t, Run(t, steps), r, true, Told(v))
  {
    var u := LossRun(Asked(t, r, v), r, v);
    steps := AskThen(t, r, v, [Poll(r, Decide), Poll(r, Publish), Poll(r, Remove)]);
    EndingIsPolled(t, u, r, v, Loss);
  }

  lemma OneUntracked(t: Tracker, u: Tracker, k: Key)
    requires u.jobs == t.jobs - {k} && u.recs == t.recs
    ensures Under(u, k) == None && forall other :: other != k ==> Under(u, other) == Under(t, other)
  {
  }

  lemma OngoingIsPolled(t: Tracker, u: Tracker, r: RecId, v: JobView)
    requires WellFormed(t) && r in t.recs && Ended(u, r) && u.jobs == t.jobs
    requires var k := t.recs[r].key;
             && !Terminal(v) && !(Vanished(v) && Current(t, k) && Overdue(t.recs[t.jobs[k]], t.now))
             && u.log == t.log + [Heard(r, k, t.now, Told(v))] + [Published(Progress, r, k, t.now, t.recs[r].wanted)]
             && u.recs == if Current(t, k) then t.recs[t.jobs[k] := Seen(t.recs[t.jobs[k]], v, t.now)] else t.recs
    ensures Polled(t, u, r, true, Told(v))
  {
    var k := t.recs[r].key;
    OthersKept(t, u, k, if Current(t, k) then Seen(t.recs[t.jobs[k]], v, t.now) else t.recs[r]);
    var events := PollResult(t.recs[r], Under(t, k), true, Told(v), t.now).events;
    assert Logged(r, t.now, events) == [Published(Progress, r, k, t.now, t.recs[r].wanted)];
  }

  lemma OngoingPoll(t: Tracker, r: RecId, v: JobView) returns (steps: seq<Step>)
    requires WellFormed(t) && r in t.tasks && t.tasks[r].Start?
    requires var k := t.recs[r].key; !Terminal(v) && !(Vanished(v) && Current(t, k) && Overdue(t.recs[t.jobs[k]], t.now))
    ensures Runnable(t, steps) && OwnSteps(steps, r, true, Told(v)) && Polled(t, Run(t, steps), r, true, Told(v))
  {
    AskedKeeps(t, r, v);
    var u := ProgressRun(Asked(t, r, v), r, v);
    steps := AskThen(t, r, v, [Poll(r, Decide), Poll(r, Publish), Poll(r, Observe)]);
    OngoingIsPolled(t, u, r, v);
  }

  lemma OthersKept(t: Tracker, u: Tracker, k: Key, r: Record)
    requires WellFormed(t) && u.jobs == t.jobs
    requires u.recs == if Current(t, k) then t.recs[t.jobs[k] := r] else t.recs
    ensures Under(u, k) == if Current(t, k) then Some(r) else None
    ensures forall other :: other != k ==> Under(u, other) == Under(t, other)
  {
    forall other | other != k ensures Under(u, other) == Under(t, other) {
      if Current(t, other) {
        assert t.recs[t.jobs[other]].key == other;
      }
    }
  }

  /** A poll can run to its end undisturbed. */
  lemma PollRunsThrough(t: Tracker, r: RecId, found: bool, answer: Answer) returns (steps: seq<Step>)
    requires WellFormed(t) && r in t.tasks && t.tasks[r].Start?
    ensures Runnable(t, steps) && OwnSteps(steps, r, found, answer) && Polled(t, Run(t, steps), r, found, answer)
  {
    var k := t.recs[r].key;
    if !found {
      steps := UnregisteredPoll(t, r, answer);
    } else if answer.Unreachable? {
      steps := UnreachablePoll(t, r);
    } else if Terminal(answer.view) {
      steps := TerminalPoll(t, r, answer.view);
    } else if Vanished(answer.view) && Current(t, k) && Overdue(t.recs[t.jobs[k]], t.now) {
      steps := LosingPoll(t, r, answer.view);
    } else {
      steps := OngoingPoll(t, r, answer.view);
    }
  }

  /** Whenever a poll runs to its end undisturbed, it does what the method that polls one job does. */
  lemma UndisturbedPoll(t: Tracker, r: RecId, found: bool, answer: Answer, steps: seq<Step>)
    requires WellFormed(t) && r in t.tasks && t.tasks[r].Start?
    requires Runnable(t, steps) && OwnSteps(steps, r, found, answer) && Ended(Run(t, steps), r)
    ensures Polled(t, Run(t, steps), r, found, answer)
  {
    var same := PollRunsThrough(t, r, found, answer);
    OneRun(t, r, found, answer, steps, same);
  }

  /** A window that nothing ended does end in a loss: any undisturbed poll that is told not-found after it untracks the job. */
  lemma OverdueJobIsLost(t: Tracker, r: RecId, v: JobView, steps: seq<Step>)
    requires WellFormed(t) && r in t.tasks && t.tasks[r].Start? && Vanished(v)
    requires var k := t.recs[r].key; k in t.jobs && Overdue(t.recs[t.jobs[k]], t.now)
    requires Runnable(t, steps) && OwnSteps(steps, r, true, Told(v)) && Ended(Run(t, steps), r)
    ensures var k, u := t.recs[r].key, Run(t, steps);
            && Under(u, k) == None
            && u.log == t.log + [Heard(r, k, t.now, Told(v))] + [Published(Loss, r, k, t.now, t.recs[r].wanted)]
  {
    UndisturbedPoll(t, r, true, Told(v), steps);
    var events := PollResult(t.recs[r], Under(t, t.recs[r].key), true, Told(v), t.now).events;
    assert Logged(r, t.now, events) == [Published(Loss, r, t.recs[r].key, t.now, t.recs[r].wanted)];
  }

  /**
   Two polls of a tracked job that are both answered not-found, more than ten minutes apart: the first starts the
   window unless it runs already, and the second publishes the loss and forgets the job.
   */
  method PollTwice(g: Gateway, job: TrackedJob, first: JobView, second: JobView, t1: nat, t2: nat)
    requires g.Valid() && job.Key() in g.jobs && g.jobs[job.Key()] == job
    requires first.nativeState == "not-found" && !Terminal(first) && second.nativeState == "not-found" && !Terminal(second)
    requires job.missingSince.Some? ==> job.missingSince.value <= t1 <= job.missingSince.value + 600_000_000_000
    requires t2 > t1 + 600_000_000_000
    modifies g, job
    ensures job.Key() !in g.jobs
    ensures var title := if first.title == "" then job.title else first.title;
            g.events == old(g.events) + [Emission(Progress, job.Key(), job.wanted, title),
                                         Emission(Loss, job.Key(), job.wanted, job.title)]
  {
    ghost var k, r := job.Key(), job.Value();
    PollPublishes(r, Some(r), first, t1);
    PollRemembers(r, Some(r).value, first, t1);
    g.PollOne(job, true, Told(first), t1);
    ghost var s := job.Value();
    PollPublishes(s, Some(s), second, t2);
    g.PollOne(job, true, Told(second), t2);
  }
}
