/** Nothing gets stuck: every push and reap can be carried out to its end, and a pass polls every tracked job. */
module Liveness {
  import opened Outcomes
  import opened ClientSpecs
  import opened RegistryRules
  import opened Protocol
  import T = Tracking
  import P = PollRuns

  lemma RunCons(rules: Rules, s: Sys, m: Move, rest: seq<Move>)
    requires Enabled(rules, s, m) && Runnable(rules, Next(rules, s, m), rest)
    ensures Runnable(rules, s, [m] + rest) && Run(rules, s, [m] + rest) == Run(rules, Next(rules, s, m), rest)
  {
    assert ([m] + rest)[1..] == rest;
  }

  /** A move of the push or reap that holds the registry lock. */
  ghost predicate OwnMove(m: Move) {
    m.Ask? || m.Act? || m.EndPush? || m.EndReap?
  }

  lemma {:induction false} TurnsToTheEnd(rules: Rules, s: Sys) returns (moves: seq<Move>)
    requires !s.lock.Free? && s.lock.question.Unasked?
    ensures Runnable(rules, s, moves) && forall m :: m in moves ==> OwnMove(m)
    ensures Run(rules, s, moves).lock.Free?
    ensures |Run(rules, s, moves).pushes| == |s.pushes| + if s.lock.Applying? then 1 else 0
    decreases |s.lock.todo|
  {
    if s.lock.todo == {} {
      var m := if s.lock.Applying? then EndPush else EndReap;
      RunCons(rules, s, m, []);
      moves := [m] + [];
    } else {
      var id :| id in s.lock.todo;
      var asked := Next(rules, s, Ask(id));
      var next := Next(rules, asked, Act);
      assert next.lock.todo == s.lock.todo - {id};
      var rest := TurnsToTheEnd(rules, next);
      RunCons(rules, asked, Act, rest);
      RunCons(rules, s, Ask(id), [Act] + rest);
      moves := [Ask(id)] + ([Act] + rest);
    }
  }

  /** Whoever holds the registry lock can act on its answer, ask about the clients left, and give the lock back. */
  lemma LockIsGivenBack(rules: Rules, s: Sys) returns (moves: seq<Move>)
    requires !s.lock.Free?
    ensures Runnable(rules, s, moves) && forall m :: m in moves ==> OwnMove(m)
    ensures Run(rules, s, moves).lock.Free?
    ensures |Run(rules, s, moves).pushes| == |s.pushes| + if s.lock.Applying? then 1 else 0
  {
    if s.lock.question.Unasked? {
      moves := TurnsToTheEnd(rules, s);
    } else {
      var rest := TurnsToTheEnd(rules, Next(rules, s, Act));
      RunCons(rules, s, Act, rest);
      moves := [Act] + rest;
    }
  }

  // ---- a push can always be carried out once the lock is free ----

  /** New numbers for the adapters to build. */
  lemma {:induction false} NumberThem(ids: set<Id>, accepted: map<Id, ClientSpec>, from: nat)
    returns (built: map<Id, nat>, more: seq<ClientSpec>)
    requires ids <= accepted.Keys
    ensures built.Keys == ids && NewAdapters(built, accepted, from, more)
    decreases |ids|
  {
    if ids == {} {
      built, more := map[], [];
    } else {
      var id :| id in ids;
      var before, fewer := NumberThem(ids - {id}, accepted, from);
      OneMoreNumber(before, accepted, from, fewer, id);
      built, more := before[id := from + |fewer|], fewer + [accepted[id]];
      assert built.Keys == ids;
    }
  }

  lemma OneMoreNumber(built: map<Id, nat>, accepted: map<Id, ClientSpec>, from: nat, more: seq<ClientSpec>, id: Id)
    requires NewAdapters(built, accepted, from, more) && id in accepted && id !in built
    ensures NewAdapters(built[id := from + |more|], accepted, from, more + [accepted[id]])
  {
    var now := built[id := from + |more|];
    forall k | k in now ensures from <= now[k] <= from + |more| && (k != id ==> now[k] < from + |more| && now[k] == built[k]) {
    }
  }

  /** Whatever is registered, tracked and leased, any push can begin when the lock is free, and run to its end. */
  lemma AnyPushCanRun(rules: Rules, s: Sys, push: Push) returns (moves: seq<Move>)
    requires s.lock.Free?
    ensures moves != [] && moves[0].BeginPush? && moves[0].push == push && Runnable(rules, s, moves)
    ensures Run(rules, s, moves).lock.Free? && |Run(rules, s, moves).pushes| == |s.pushes| + 1
  {
    var accepted := AcceptedNow(rules, s.clients, push.specs);
    var built, more := NumberThem(Rebuilt(rules, s.clients, accepted), accepted, |s.configs|);
    var begin := BeginPush(push, built, more);
    var rest := LockIsGivenBack(rules, Next(rules, s, begin));
    RunCons(rules, s, begin, rest);
    moves := [begin] + rest;
  }

  /** So can a reap, when no pass is under way. */
  lemma AnyReapCanRun(rules: Rules, s: Sys) returns (moves: seq<Move>)
    requires s.lock.Free? && s.tracker.tasks == map[]
    ensures moves != [] && moves[0].BeginReap? && Runnable(rules, s, moves) && Run(rules, s, moves).lock.Free?
  {
    var rest := LockIsGivenBack(rules, Next(rules, s, BeginReap));
    RunCons(rules, s, BeginReap, rest);
    moves := [BeginReap] + rest;
  }

  // ---- a pass polls every tracked job ----

  /** When no pass is under way one can begin, and in it every tracked job can be polled to the end with any answer. */
  lemma AnyJobIsPolled(t: T.Tracker, k: T.Key, answer: T.Answer) returns (steps: seq<T.Step>)
    requires T.WellFormed(t) && t.tasks == map[] && k in t.jobs
    ensures T.Enabled(t, T.BeginPass) && var u := T.Next(t, T.BeginPass);
            && t.jobs[k] in u.recs && P.OwnSteps(steps, t.jobs[k], true, answer) && T.Runnable(u, steps)
            && P.Polled(u, T.Run(u, steps), t.jobs[k], true, answer)
  {
    T.StepKeepsWellFormed(t, T.BeginPass);
    steps := P.PollRunsThrough(T.Next(t, T.BeginPass), t.jobs[k], true, answer);
  }
}
