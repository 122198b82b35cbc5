/** What the protocol of the registry and the tracked jobs promises, over every run from boot. */
module Safety {
  import opened Outcomes
  import opened RegistryRules
  import opened Protocol
  import T = Tracking
  import L = Lifecycle
  import G = Gateways

  /**
   However adds, adoptions, polls, removals, pushes and reaps interleave: the client of every tracked
   job and of every lease is registered, a lease count is the number of unreleased leases and absent
   at zero, and the revision is that of the last push without errors.
   */
  lemma NothingIsOrphaned(rules: Rules, boot: Sys, moves: seq<Move>)
    requires Boot(boot) && Runnable(rules, boot, moves)
    ensures var s := Run(rules, boot, moves);
            && (forall k :: k in s.tracker.jobs ==>
                  s.tracker.jobs[k] in s.tracker.recs && s.tracker.recs[s.tracker.jobs[k]].adapter in s.clients)
            && (forall n :: 0 <= n < |s.sessions| && s.sessions[n].live ==> s.sessions[n].client in s.clients)
            && (forall id :: id in s.leases <==> LiveOn(s.sessions, id) != {})
            && (forall id :: id in s.leases ==> s.leases[id] == |LiveOn(s.sessions, id)|)
            && s.revision == LastClean(s.pushes)
  {
    BootIsSound(rules, boot);
    RunKeepsInv(rules, boot, moves);
    var s := Run(rules, boot, moves);
    forall n | 0 <= n < |s.sessions| && s.sessions[n].live ensures s.sessions[n].client in s.clients {
      LiveIsLeased(s.leases, s.sessions, n);
    }
    forall id ensures id in s.leases <==> LiveOn(s.sessions, id) != {} {
    }
  }

  /** The scan of the records and a look-up by key agree on whether a client has tracked jobs. */
  lemma ScanAgreesWithKeys(rules: Rules, s: Sys, id: Id)
    requires Inv(rules, s) && ':' !in id
    ensures TrackedOn(s.tracker, id) <==> exists job :: T.KeyOf(id, job) in s.tracker.jobs
  {
    if TrackedOn(s.tracker, id) {
      var k :| k in s.tracker.jobs && s.tracker.jobs[k] in s.tracker.recs && s.tracker.recs[s.tracker.jobs[k]].adapter == id;
      assert T.KeyOf(id, s.tracker.recs[s.tracker.jobs[k]].job) == k;
    }
    if job :| T.KeyOf(id, job) in s.tracker.jobs {
      var r := s.tracker.recs[s.tracker.jobs[T.KeyOf(id, job)]];
      G.KeysAreFaithful(id, job, r.adapter, r.job);
    }
  }

  /** A poll finds its client gone only when its job is tracked no more. */
  lemma GoneClientHasNoTrackedJob(rules: Rules, s: Sys, r: T.RecId)
    requires Inv(rules, s) && Enabled(rules, s, Work(T.Poll(r, T.FindClient(false))))
    ensures s.tracker.recs[r].key !in s.tracker.jobs
  {
    var rec := s.tracker.recs[r];
    if rec.key in s.tracker.jobs {
      var cur := s.tracker.recs[s.tracker.jobs[rec.key]];
      G.KeysAreFaithful(rec.adapter, rec.job, cur.adapter, cur.job);
    }
  }

  /** A client leaves the registry only when it is an API client without leases and tracked jobs; a reap drops only draining ones. */
  lemma OnlyIdleClientsLeave(rules: Rules, s: Sys, m: Move, id: Id)
    requires Inv(rules, s) && Enabled(rules, s, m)
    requires id in s.clients && id !in Next(rules, s, m).clients
    ensures s.clients[id].source.Api? && id !in s.leases && !TrackedOn(s.tracker, id)
    ensures s.lock.Reaping? ==> s.clients[id].draining
  {
    if m.Act? {
      ActRemoves(s);
    }
    if m.BeginPush? {
      FullIsSound(rules, s.clients, m.push.specs, m.built);
    }
  }

  // ---- a push, a reap ----

  /** Answers about leased clients are "busy", so the leases need not be consulted again. */
  lemma LeasesAreAnswered(rules: Rules, clients: Clients, accepted: map<Id, ClientSpecs.ClientSpec>, failed: set<Id>,
                          leased: set<Id>, busy: set<Id>, built: map<Id, nat>)
    requires Rebuilt(rules, clients, accepted) <= built.Keys && leased <= busy
    ensures AfterPush(rules, clients, accepted, failed, {}, id => id in busy, built)
         == AfterPush(rules, clients, accepted, failed, leased, id => id in busy, built)
  {
  }

  /**
   A push carried out one client at a time, while jobs come and go between the answers, ends where
   the rules say it ends, for the answers it got.
   */
  lemma PushFollowsTheRules(rules: Rules, s: Sys)
    requires Inv(rules, s) && Enabled(rules, s, EndPush)
    ensures var before, specs, built := s.lock.before, s.lock.push.specs, s.lock.built;
            && built.Keys == Rebuilt(rules, before, AcceptedNow(rules, before, specs))
            && Next(rules, s, EndPush).clients
               == AfterPush(rules, before, AcceptedNow(rules, before, specs), FailedNow(rules, before, specs),
                            s.leases.Keys, id => id in s.lock.busy, built)
  {
    var before, specs, built := s.lock.before, s.lock.push.specs, s.lock.built;
    var accepted, failed := AcceptedNow(rules, before, specs), FailedNow(rules, before, specs);
    var full := WithAccepted(rules, before, accepted, built);
    assert full.Keys - s.lock.todo == full.Keys;
    SweepComplete(rules, before, accepted, failed, s.lock.keep, {}, id => id in s.lock.busy, built);
    LeasesAreAnswered(rules, before, accepted, failed, s.leases.Keys, s.lock.busy, built);
  }

  /** Likewise a reap. */
  lemma ReapFollowsTheRules(rules: Rules, s: Sys)
    requires Inv(rules, s) && Enabled(rules, s, EndReap)
    ensures Next(rules, s, EndReap).clients == s.lock.before - Reaped(s.lock.before, s.leases.Keys, id => id in s.lock.busy)
  {
    assert s.lock.todo == {} && s.leases.Keys <= s.lock.busy;
    assert Reaped(s.lock.before, {}, id => id in s.lock.busy) == Reaped(s.lock.before, s.leases.Keys, id => id in s.lock.busy);
  }

  // ---- draining ends ----

  ghost function JobsOn(t: T.Tracker, id: Id): set<T.Key> {
    set k | k in t.jobs && t.jobs[k] in t.recs && t.recs[t.jobs[k]].adapter == id
  }

  /** No push has put the client into effect again. */
  ghost predicate NotBack(s: Sys, id: Id) {
    id in s.clients ==> s.clients[id].draining
  }

  lemma DrainingMove(rules: Rules, s: Sys, m: Move, id: Id)
    requires Inv(rules, s) && Enabled(rules, s, m) && NotBack(s, id)
    ensures |LiveOn(Next(rules, s, m).sessions, id)| <= |LiveOn(s.sessions, id)|
    ensures LiveOn(s.sessions, id) == {} ==> JobsOn(Next(rules, s, m).tracker, id) <= JobsOn(s.tracker, id)
  {
    var u := Next(rules, s, m);
    match m
    case Acquire(other) =>
      assert forall n :: 0 <= n < |s.sessions| ==> u.sessions[n] == s.sessions[n];
      assert LiveOn(u.sessions, id) == LiveOn(s.sessions, id);
    case Release(n) => FewerLive(s.sessions, u.sessions, id);
    case Add(n, kind, job, title, wanted) => OthersTracked(rules, s, T.Track(s.sessions[n].client, kind, job, title, wanted), n, id);
    case Adopt(n, kind, job, title) => OthersTracked(rules, s, T.TrackIfAbsent(s.sessions[n].client, kind, job, title), n, id);
    case Work(step) => OtherStepsTrackNothing(s.tracker, step);
    case _ =>
  }

  lemma FewerLive(sessions: seq<Session>, fewer: seq<Session>, id: Id)
    requires |fewer| == |sessions|
    requires forall n :: 0 <= n < |fewer| && fewer[n].live ==> fewer[n] == sessions[n]
    ensures |LiveOn(fewer, id)| <= |LiveOn(sessions, id)|
  {
    var a, b := LiveOn(fewer, id), LiveOn(sessions, id);
    assert a <= b;
    assert |b - a| == |b| - |a|;
  }

  lemma OthersTracked(rules: Rules, s: Sys, step: T.Step, n: nat, id: Id)
    requires Inv(rules, s) && n < |s.sessions| && s.sessions[n].live && T.Enabled(s.tracker, step)
    requires (step.Track? || step.TrackIfAbsent?) && step.adapter == s.sessions[n].client
    ensures LiveOn(s.sessions, id) == {} ==> id != s.sessions[n].client && JobsOn(T.Next(s.tracker, step), id) <= JobsOn(s.tracker, id)
  {
    if LiveOn(s.sessions, id) == {} {
      assert n !in LiveOn(s.sessions, id);
      TrackingElsewhere(s.tracker, step, id);
    }
  }

  lemma TrackingElsewhere(t: T.Tracker, step: T.Step, id: Id)
    requires T.WellFormed(t) && T.Enabled(t, step) && (step.Track? || step.TrackIfAbsent?) && step.adapter != id
    ensures JobsOn(T.Next(t, step), id) <= JobsOn(t, id)
  {
    var u := T.Next(t, step);
    forall k | k in JobsOn(u, id) ensures k in JobsOn(t, id) {
      assert u.jobs[k] == t.next || (k in t.jobs && u.recs[u.jobs[k]] == t.recs[t.jobs[k]]);
    }
  }

  ghost predicate NeverBack(rules: Rules, s: Sys, moves: seq<Move>, id: Id)
    requires Runnable(rules, s, moves)
    decreases |moves|
  {
    NotBack(s, id) && (moves != [] ==> NeverBack(rules, Next(rules, s, moves[0]), moves[1..], id))
  }

  /**
   Until a push applies a removed client again, its leases never become more; and once there are
   none, nor do its tracked jobs.
   */
  lemma {:induction false} DrainingNeverGrows(rules: Rules, s: Sys, moves: seq<Move>, id: Id)
    requires Inv(rules, s) && Runnable(rules, s, moves) && NeverBack(rules, s, moves, id)
    ensures |LiveOn(Run(rules, s, moves).sessions, id)| <= |LiveOn(s.sessions, id)|
    ensures LiveOn(s.sessions, id) == {} ==> JobsOn(Run(rules, s, moves).tracker, id) <= JobsOn(s.tracker, id)
    decreases |moves|
  {
    if moves != [] {
      DrainingMove(rules, s, moves[0], id);
      MoveKeepsInv(rules, s, moves[0]);
      DrainingNeverGrows(rules, Next(rules, s, moves[0]), moves[1..], id);
    }
  }

  /** The reap under way will have dropped the client when it ends. */
  ghost predicate Doomed(s: Sys, id: Id) {
    && s.lock.Reaping?
    && (id in s.clients ==>
          && s.clients[id].draining && id in s.lock.todo && LiveOn(s.sessions, id) == {} && JobsOn(s.tracker, id) == {}
          && (s.lock.question.Asked? && s.lock.question.id == id ==> !s.lock.question.busy))
  }

  lemma UntrackedIsUnused(t: T.Tracker, id: Id)
    ensures JobsOn(t, id) == {} <==> !TrackedOn(t, id)
  {
    if TrackedOn(t, id) {
      var k :| k in t.jobs && t.jobs[k] in t.recs && t.recs[t.jobs[k]].adapter == id;
      assert k in JobsOn(t, id);
    }
  }

  lemma DoomedMove(rules: Rules, s: Sys, m: Move, id: Id)
    requires Inv(rules, s) && Enabled(rules, s, m) && Doomed(s, id) && !m.EndReap?
    ensures Doomed(Next(rules, s, m), id)
  {
    if id in s.clients {
      DrainingMove(rules, s, m, id);
      assert id !in s.leases;
      UntrackedIsUnused(s.tracker, id);
    }
  }

  lemma {:induction false} DoomedRun(rules: Rules, s: Sys, moves: seq<Move>, id: Id)
    requires Inv(rules, s) && Runnable(rules, s, moves) && Doomed(s, id) && forall m :: m in moves ==> !m.EndReap?
    ensures Inv(rules, Run(rules, s, moves)) && Doomed(Run(rules, s, moves), id)
    decreases |moves|
  {
    if moves != [] {
      assert moves[0] in moves;
      DoomedMove(rules, s, moves[0], id);
      MoveKeepsInv(rules, s, moves[0]);
      DoomedRun(rules, Next(rules, s, moves[0]), moves[1..], id);
    }
  }

  /** A draining client with neither leases nor tracked jobs is dropped by the next reap, whatever happens meanwhile. */
  lemma NextReapDropsIdle(rules: Rules, s: Sys, moves: seq<Move>, id: Id)
    requires Inv(rules, s) && Enabled(rules, s, BeginReap)
    requires id in s.clients && s.clients[id].draining && LiveOn(s.sessions, id) == {} && JobsOn(s.tracker, id) == {}
    requires Runnable(rules, Next(rules, s, BeginReap), moves) && forall m :: m in moves ==> !m.EndReap?
    requires Enabled(rules, Run(rules, Next(rules, s, BeginReap), moves), EndReap)
    ensures id !in Next(rules, Run(rules, Next(rules, s, BeginReap), moves), EndReap).clients
  {
    MoveKeepsInv(rules, s, BeginReap);
    DoomedRun(rules, Next(rules, s, BeginReap), moves, id);
  }

  // ---- the tracked jobs of the protocol are a run of the tracker ----

  lemma {:induction false} TrackerOfRun(rules: Rules, s: Sys, moves: seq<Move>) returns (steps: seq<T.Step>)
    requires Runnable(rules, s, moves)
    ensures T.Runnable(s.tracker, steps) && T.Run(s.tracker, steps) == Run(rules, s, moves).tracker
    decreases |moves|
  {
    if moves == [] {
      steps := [];
    } else {
      var m, u := moves[0], Next(rules, s, moves[0]);
      var rest := TrackerOfRun(rules, u, moves[1..]);
      match m
      case Add(n, kind, job, title, wanted) =>
        steps := [T.Track(s.sessions[n].client, kind, job, title, wanted)] + rest;
        L.RunCons(s.tracker, steps[0], rest);
      case Adopt(n, kind, job, title) =>
        steps := [T.TrackIfAbsent(s.sessions[n].client, kind, job, title)] + rest;
        L.RunCons(s.tracker, steps[0], rest);
      case Work(step) =>
        steps := [step] + rest;
        L.RunCons(s.tracker, step, rest);
      case _ => steps := rest;
    }
  }

  /** So a record of a running gateway ends at most once too, and silently. */
  lemma TerminalEventIsLast(rules: Rules, boot: Sys, moves: seq<Move>, i: nat, j: nat)
    requires Boot(boot) && Runnable(rules, boot, moves)
    requires var log := Run(rules, boot, moves).tracker.log; i < j < |log| && L.Ends(log[i]) && log[j].Published?
    ensures var log := Run(rules, boot, moves).tracker.log; log[i].rec != log[j].rec
  {
    var steps := TrackerOfRun(rules, boot, moves);
    L.TerminalEventIsLast(steps, i, j);
  }
}
