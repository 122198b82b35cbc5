/** A job its client has lost is given up: the window that a not-found answer starts ends in a loss. */
module GraceWindow {
  import opened Outcomes
  import opened JobViews
  import opened Tracking
  import opened Lifecycle

  /** The poll of r is about to act on an answer that did not know its job. */
  ghost predicate ActsOnNotFound(t: Tracker, r: RecId) {
    && r in t.recs && r in t.tasks
    && t.tasks[r].Answered? && t.tasks[r].view.nativeState == "not-found"
    && t.tasks[r].view.state != Completed && t.tasks[r].view.state != Failed
  }

  /** No answer about the key in this part of the log found its job. */
  ghost predicate NeverFound(log: seq<Event>, from: nat, k: Key) {
    forall i :: from <= i < |log| && log[i].Heard? && log[i].key == k ==>
      log[i].answer.Unreachable? ||
      (log[i].answer.view.nativeState == "not-found" && log[i].answer.view.state != Completed && log[i].answer.view.state != Failed)
  }

  // ---- the key keeps its record, and the log only grows ----

  lemma StepGrowsLog(t: Tracker, s: Step)
    requires Enabled(t, s)
    ensures t.log <= Next(t, s).log && t.now <= Next(t, s).now && t.next <= Next(t, s).next
  {
  }

  lemma {:induction false} RunGrowsLog(t: Tracker, steps: seq<Step>)
    requires Runnable(t, steps)
    ensures t.log <= Run(t, steps).log && t.now <= Run(t, steps).now && t.next <= Run(t, steps).next
    decreases |steps|
  {
    if steps != [] {
      StepGrowsLog(t, steps[0]);
      RunGrowsLog(Next(t, steps[0]), steps[1..]);
    }
  }

  /** A record that is not tracked is not tracked again. */
  lemma StepForgets(t: Tracker, s: Step, k: Key, c: RecId)
    requires Enabled(t, s) && c < t.next && !(k in t.jobs && t.jobs[k] == c)
    ensures !(k in Next(t, s).jobs && Next(t, s).jobs[k] == c)
  {
  }

  lemma {:induction false} RunForgets(t: Tracker, steps: seq<Step>, k: Key, c: RecId)
    requires Runnable(t, steps) && c < t.next && !(k in t.jobs && t.jobs[k] == c)
    ensures !(k in Run(t, steps).jobs && Run(t, steps).jobs[k] == c)
    decreases |steps|
  {
    if steps != [] {
      StepForgets(t, steps[0], k, c);
      StepGrowsLog(t, steps[0]);
      RunForgets(Next(t, steps[0]), steps[1..], k, c);
    }
  }

  // ---- a window that has started keeps running ----

  /** The record under the key has been missing since m at the latest, and no poll of the key is about to say otherwise. */
  ghost predicate MissingSince(t: Tracker, k: Key, c: RecId, m: nat) {
    && k in t.jobs && t.jobs[k] == c && c in t.recs
    && t.recs[c].missingSince.Some? && t.recs[c].missingSince.value <= m
    && (forall q :: q in t.tasks && q in t.recs && t.recs[q].key == k && t.tasks[q].Answered? ==> Vanished(t.tasks[q].view))
  }

  lemma DecideStartsWindow(t: Tracker, r: RecId)
    requires WellFormed(t) && ActsOnNotFound(t, r) && t.recs[r].key in t.jobs
    requires t.recs[t.jobs[t.recs[r].key]].missingSince.Some? ==> t.recs[t.jobs[t.recs[r].key]].missingSince.value <= t.now
    ensures PollEnabled(t, r, Decide)
    ensures MissingSince(Next(t, Poll(r, Decide)), t.recs[r].key, t.jobs[t.recs[r].key], t.now)
  {
    PollExtends(t, r, Decide);
  }

  lemma PollKeepsMissingSince(t: Tracker, r: RecId, act: Act, k: Key, c: RecId, m: nat)
    requires WellFormed(t) && PollEnabled(t, r, act) && MissingSince(t, k, c, m)
    requires act.Hear? && t.recs[r].key == k && act.answer.Told? ==> Vanished(act.answer.view)
    requires var u := PollNext(t, r, act); k in u.jobs && u.jobs[k] == c
    ensures MissingSince(PollNext(t, r, act), k, c, m)
  {
    PollExtends(t, r, act);
    assert t.recs[t.jobs[k]].key == k;
  }

  lemma StepKeepsMissingSince(t: Tracker, s: Step, k: Key, c: RecId, m: nat)
    requires WellFormed(t) && Enabled(t, s) && MissingSince(t, k, c, m)
    requires s.Poll? && s.act.Hear? && t.recs[s.rec].key == k && s.act.answer.Told? ==> Vanished(s.act.answer.view)
    requires var u := Next(t, s); k in u.jobs && u.jobs[k] == c
    ensures MissingSince(Next(t, s), k, c, m)
  {
    StepKeepsWellFormed(t, s);
    if s.Poll? {
      PollKeepsMissingSince(t, s.rec, s.act, k, c, m);
    }
  }

  /** Nothing heard in the first step or after it found the job. */
  lemma SplitNeverFound(t: Tracker, s: Step, rest: seq<Step>, k: Key)
    requires Enabled(t, s) && Runnable(Next(t, s), rest) && NeverFound(Run(Next(t, s), rest).log, |t.log|, k)
    ensures s.Poll? && s.act.Hear? && t.recs[s.rec].key == k && s.act.answer.Told? ==> Vanished(s.act.answer.view)
    ensures NeverFound(Run(Next(t, s), rest).log, |Next(t, s).log|, k)
  {
    var next, log := Next(t, s), Run(Next(t, s), rest).log;
    StepGrowsLog(t, s);
    RunGrowsLog(next, rest);
    if s.Poll? && s.act.Hear? && t.recs[s.rec].key == k {
      assert log[|t.log|] == next.log[|t.log|] == Heard(s.rec, k, t.now, s.act.answer);
    }
  }

  lemma {:induction false} RunKeepsMissingSince(t: Tracker, steps: seq<Step>, k: Key, c: RecId, m: nat)
    requires WellFormed(t) && Runnable(t, steps) && MissingSince(t, k, c, m)
    requires var u := Run(t, steps); NeverFound(u.log, |t.log|, k) && k in u.jobs && u.jobs[k] == c
    ensures MissingSince(Run(t, steps), k, c, m)
    decreases |steps|
  {
    if steps != [] {
      var s, next := steps[0], Next(t, steps[0]);
      StepKeepsWellFormed(t, s);
      StepGrowsLog(t, s);
      SplitNeverFound(t, s, steps[1..], k);
      if !(k in next.jobs && next.jobs[k] == c) {
        RunForgets(next, steps[1..], k, c);
      }
      StepKeepsMissingSince(t, s, k, c, m);
      RunKeepsMissingSince(next, steps[1..], k, c, m);
    }
  }

  // ---- a poll that gives up publishes a loss and untracks ----

  /** All that q has published from position n of the log on is losses. */
  ghost predicate OnlyLosses(log: seq<Event>, n: nat, q: RecId) {
    forall i :: n <= i < |log| && log[i].Published? && log[i].rec == q ==> log[i].kind == Loss
  }

  /** q has given up, or is done with. */
  ghost predicate GivenUp(t: Tracker, q: RecId) {
    || (q in t.tasks && t.tasks[q].GiveUp?)
    || Spent(t.log, q)
    || (q !in t.tasks && q !in t.jobs.Values && q < t.next)
  }

  lemma PollKeepsGivenUp(t: Tracker, r: RecId, act: Act, q: RecId, n: nat)
    requires WellFormed(t) && TerminalInv(t) && PollEnabled(t, r, act) && GivenUp(t, q) && OnlyLosses(t.log, n, q)
    ensures GivenUp(PollNext(t, r, act), q) && OnlyLosses(PollNext(t, r, act).log, n, q)
  {
    var more := PollEvents(t, r, act);
    if more == [] {
      assert t.log + more == t.log;
    } else {
      assert more == [more[0]];
      SpentGrows(t.log, more[0], q);
    }
  }

  lemma StepKeepsGivenUp(t: Tracker, s: Step, q: RecId, n: nat)
    requires WellFormed(t) && TerminalInv(t) && Enabled(t, s) && GivenUp(t, q) && OnlyLosses(t.log, n, q)
    ensures GivenUp(Next(t, s), q) && OnlyLosses(Next(t, s).log, n, q)
  {
    if s.Poll? {
      PollKeepsGivenUp(t, s.rec, s.act, q, n);
    }
  }

  lemma {:induction false} GivenUpOnlyLoses(t: Tracker, steps: seq<Step>, q: RecId, n: nat)
    requires WellFormed(t) && TerminalInv(t) && Runnable(t, steps) && GivenUp(t, q) && OnlyLosses(t.log, n, q)
    ensures OnlyLosses(Run(t, steps).log, n, q)
    decreases |steps|
  {
    if steps != [] {
      StepKeepsWellFormed(t, steps[0]);
      StepKeepsTerminalInv(t, steps[0]);
      StepKeepsGivenUp(t, steps[0], q, n);
      GivenUpOnlyLoses(Next(t, steps[0]), steps[1..], q, n);
    }
  }

  ghost predicate LossLogged(log: seq<Event>, n: nat, q: RecId, k: Key) {
    exists i :: n <= i < |log| && log[i].Published? && log[i].kind == Loss && log[i].rec == q && log[i].key == k
  }

  /** Until its pass is over: q has yet to publish the loss, or to untrack the key, or has done both. */
  ghost predicate GivingUp(t: Tracker, n: nat, q: RecId, k: Key, c: RecId) {
    q in t.tasks ==>
      && q in t.recs && t.recs[q].key == k
      && match t.tasks[q]
         case GiveUp => true
         case Drop => LossLogged(t.log, n, q, k)
         case Done => LossLogged(t.log, n, q, k) && !(k in t.jobs && t.jobs[k] == c)
         case _ => false
  }

  lemma LossStaysLogged(log: seq<Event>, more: seq<Event>, n: nat, q: RecId, k: Key)
    requires LossLogged(log, n, q, k)
    ensures LossLogged(log + more, n, q, k)
  {
    var i :| n <= i < |log| && log[i].Published? && log[i].kind == Loss && log[i].rec == q && log[i].key == k;
    assert (log + more)[i] == log[i];
  }

  lemma PollKeepsGivingUp(t: Tracker, r: RecId, act: Act, n: nat, q: RecId, k: Key, c: RecId)
    requires WellFormed(t) && PollEnabled(t, r, act) && n <= |t.log| && GivingUp(t, n, q, k, c)
    ensures GivingUp(PollNext(t, r, act), n, q, k, c)
  {
    var u := PollNext(t, r, act);
    PollExtends(t, r, act);
    if LossLogged(t.log, n, q, k) {
      LossStaysLogged(t.log, PollEvents(t, r, act), n, q, k);
    }
    if r == q && t.tasks[q].GiveUp? {
      assert u.log[|t.log|] == Published(Loss, q, k, t.now, t.recs[q].wanted);
    }
  }

  lemma StepKeepsGivingUp(t: Tracker, s: Step, n: nat, q: RecId, k: Key, c: RecId)
    requires WellFormed(t) && Enabled(t, s) && !s.BeginPass? && !s.Restart?
    requires n <= |t.log| && c < t.next && GivingUp(t, n, q, k, c)
    ensures GivingUp(Next(t, s), n, q, k, c)
  {
    if s.Poll? {
      PollKeepsGivingUp(t, s.rec, s.act, n, q, k, c);
    }
  }

  lemma {:induction false} GivingUpEnds(t: Tracker, steps: seq<Step>, n: nat, q: RecId, k: Key, c: RecId)
    requires WellFormed(t) && Runnable(t, steps) && n <= |t.log| && c < t.next && GivingUp(t, n, q, k, c)
    requires forall s :: s in steps ==> !s.BeginPass? && !s.Restart?
    ensures GivingUp(Run(t, steps), n, q, k, c)
    decreases |steps|
  {
    if steps != [] {
      StepKeepsWellFormed(t, steps[0]);
      StepGrowsLog(t, steps[0]);
      StepKeepsGivingUp(t, steps[0], n, q, k, c);
      GivingUpEnds(Next(t, steps[0]), steps[1..], n, q, k, c);
    }
  }

  // ---- from one not-found answer to the loss ----

  /** From the not-found answer on the record stays missing, whatever adds, adoptions, polls and failed calls interleave. */
  lemma StaysMissing(t: Tracker, r: RecId, steps: seq<Step>)
    requires Sound(t) && ActsOnNotFound(t, r) && t.recs[r].key in t.jobs
    requires Runnable(Next(t, Poll(r, Decide)), steps)
    requires var k, u := t.recs[r].key, Run(Next(t, Poll(r, Decide)), steps);
             k in u.jobs && u.jobs[k] == t.jobs[k] && NeverFound(u.log, |t.log|, k)
    ensures WellFormed(Run(Next(t, Poll(r, Decide)), steps))
    ensures MissingSince(Run(Next(t, Poll(r, Decide)), steps), t.recs[r].key, t.jobs[t.recs[r].key], t.now)
  {
    var k := t.recs[r].key;
    assert WindowOf(t, k);
    DecideStartsWindow(t, r);
    StepKeepsSound(t, Poll(r, Decide));
    RunKeepsSound(Next(t, Poll(r, Decide)), steps);
    assert t.log + [] == t.log;
    RunKeepsMissingSince(Next(t, Poll(r, Decide)), steps, k, t.jobs[k], t.now);
  }

  /** A poll that acts on a not-found answer of a record missing for longer than ten minutes gives up. */
  lemma OldWindowGivesUp(u: Tracker, q: RecId, m: nat)
    requires Sound(u) && ActsOnNotFound(u, q)
    requires u.recs[q].key in u.jobs && MissingSince(u, u.recs[q].key, u.jobs[u.recs[q].key], m)
    requires u.now > m + 600_000_000_000
    ensures var u1 := Next(u, Poll(q, Decide));
            && Sound(u1) && u1.log == u.log && GivenUp(u1, q)
            && GivingUp(u1, |u.log|, q, u.recs[q].key, u.jobs[u.recs[q].key])
  {
    StepKeepsSound(u, Poll(q, Decide));
    PollExtends(u, q, Decide);
    assert u.log + [] == u.log;
  }

  /**
   In every run: when a poll acts on a not-found answer, the key stays tracked under the same record and
   no later answer finds the job, then a poll that acts on a not-found answer more than ten minutes later
   publishes nothing but the loss, and when it ends it has published it and the record is tracked no more.
   */
  lemma UnfoundJobIsLost(before: seq<Step>, r: RecId, between: seq<Step>, q: RecId, after: seq<Step>)
    requires Runnable(EMPTY, before) && ActsOnNotFound(Run(EMPTY, before), r)
    requires var t := Run(EMPTY, before);
             t.recs[r].key in t.jobs && Runnable(Next(t, Poll(r, Decide)), between)
    requires var t := Run(EMPTY, before);
             var k, u := t.recs[r].key, Run(Next(t, Poll(r, Decide)), between);
             && k in u.jobs && u.jobs[k] == t.jobs[k] && NeverFound(u.log, |t.log|, k)
             && ActsOnNotFound(u, q) && u.recs[q].key == k && u.now > t.now + 600_000_000_000
             && Runnable(Next(u, Poll(q, Decide)), after)
    ensures var t := Run(EMPTY, before);
            var k, u := t.recs[r].key, Run(Next(t, Poll(r, Decide)), between);
            var w := Run(Next(u, Poll(q, Decide)), after);
            && OnlyLosses(w.log, |u.log|, q)
            && ((forall s :: s in after ==> !s.BeginPass? && !s.Restart?) && q in w.tasks && w.tasks[q].Done? ==>
                  LossLogged(w.log, |u.log|, q, k) && !(k in w.jobs && w.jobs[k] == t.jobs[k]))
  {
    EmptyIsSound();
    RunKeepsSound(EMPTY, before);
    var t := Run(EMPTY, before);
    var u := Run(Next(t, Poll(r, Decide)), between);
    StaysMissing(t, r, between);
    StepKeepsSound(t, Poll(r, Decide));
    RunKeepsSound(Next(t, Poll(r, Decide)), between);
    LostFrom(u, q, t.now, after);
  }

  lemma LostFrom(u: Tracker, q: RecId, m: nat, after: seq<Step>)
    requires Sound(u) && ActsOnNotFound(u, q)
    requires u.recs[q].key in u.jobs && MissingSince(u, u.recs[q].key, u.jobs[u.recs[q].key], m)
    requires u.now > m + 600_000_000_000 && Runnable(Next(u, Poll(q, Decide)), after)
    ensures var k, w := u.recs[q].key, Run(Next(u, Poll(q, Decide)), after);
            && OnlyLosses(w.log, |u.log|, q)
            && ((forall s :: s in after ==> !s.BeginPass? && !s.Restart?) && q in w.tasks && w.tasks[q].Done? ==>
                  LossLogged(w.log, |u.log|, q, k) && !(k in w.jobs && w.jobs[k] == u.jobs[k]))
  {
    var k, u1 := u.recs[q].key, Next(u, Poll(q, Decide));
    OldWindowGivesUp(u, q, m);
    GivenUpOnlyLoses(u1, after, q, |u.log|);
    if forall s :: s in after ==> !s.BeginPass? && !s.Restart? {
      GivingUpEnds(u1, after, |u.log|, q, k, u.jobs[k]);
    }
  }
}
