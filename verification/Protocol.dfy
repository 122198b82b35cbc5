/**
 The registry and the tracked jobs as one concurrent protocol. A move is what the code does under
 one hold of a lock: adds, adoptions and removals, poll passes, config pushes and reaps interleave
 freely, except that a push and a reap hold the registry lock from their first to their last move.
 While they do, the job lock is taken anew for every client they ask about, so jobs may be tracked
 and untracked between two answers; leases may not be taken or released.
 */
module Protocol {
  import opened Outcomes
  import opened ClientSpecs
  import opened RegistryRules
  import T = Tracking
  import L = Lifecycle
  import G = Gateways

  /** An adapter is only its identity here: the number it was built under, from 0 on. */
  type Clients = map<Id, Entry<nat>>

  /** A lease handed out, to an add or to an adoption. */
  datatype Session = Session(client: Id, live: bool)

  datatype Push = Push(revision: int, specs: seq<ClientSpec>)

  /** The answer the loop of a push or a reap has, and not acted on yet, about one client. */
  datatype Question = Unasked | Asked(id: Id, busy: bool)

  /** Who holds the registry lock between moves. `busy` are the clients answered to be leased or in use. */
  datatype Lock =
    | Free
    | Applying(push: Push, before: Clients, built: map<Id, nat>, keep: set<Id>, todo: set<Id>, busy: set<Id>, question: Question)
    | Reaping(before: Clients, todo: set<Id>, busy: set<Id>, question: Question)

  /** A finished push: its revision, and whether it had no errors. */
  datatype Finished = Finished(revision: int, clean: bool)

  datatype Sys = Sys(
    clients: Clients,
    leases: map<Id, nat>,
    revision: int,
    configs: seq<ClientSpec>,     // what each adapter ever built was built from
    lock: Lock,
    sessions: seq<Session>,       // every lease ever handed out
    pushes: seq<Finished>,
    tracker: T.Tracker)

  datatype Move =
    | Acquire(id: Id)
    | Release(session: nat)
    | Add(session: nat, kind: string, job: string, title: string, wanted: string)
    | Adopt(session: nat, kind: string, job: string, title: string)
    | Work(step: T.Step)          // polls, removals, time
    | BeginPush(push: Push, built: map<Id, nat>, more: seq<ClientSpec>)
    | EndPush
    | BeginReap
    | EndReap
    | Ask(id: Id)
    | Act

  // ---- what one move does ----

  ghost predicate TrackedOn(t: T.Tracker, id: Id) {
    exists k :: k in t.jobs && t.jobs[k] in t.recs && t.recs[t.jobs[k]].adapter == id
  }

  ghost predicate InUse(s: Sys, id: Id) {
    id in s.leases || TrackedOn(s.tracker, id)
  }

  ghost function KeptIds(rules: Rules, clients: Clients, specs: seq<ClientSpec>): set<Id> {
    var env := EnvIds(clients);
    var failed := ErrorIds(Errors(rules, env, specs, specs));
    Accepted(rules, env, specs, specs).Keys + set id | id in failed && id in clients && clients[id].source.Api?
  }

  ghost function AcceptedNow(rules: Rules, clients: Clients, specs: seq<ClientSpec>): map<Id, ClientSpec> {
    Accepted(rules, EnvIds(clients), specs, specs)
  }

  ghost function FailedNow(rules: Rules, clients: Clients, specs: seq<ClientSpec>): set<Id> {
    ErrorIds(Errors(rules, EnvIds(clients), specs, specs))
  }

  ghost predicate Clean(rules: Rules, clients: Clients, specs: seq<ClientSpec>) {
    Errors(rules, EnvIds(clients), specs, specs) == []
  }

  /** The adapters a push builds are new ones, all different, each built from the spec accepted under its id. */
  predicate NewAdapters(built: map<Id, nat>, accepted: map<Id, ClientSpec>, from: nat, more: seq<ClientSpec>) {
    && (forall id :: id in built ==> from <= built[id] < from + |more| && id in accepted && more[built[id] - from] == accepted[id])
    && (forall id, other :: id in built && other in built && built[id] == built[other] ==> id == other)
  }

  ghost predicate WorkEnabled(s: Sys, step: T.Step) {
    && !step.Track? && !step.TrackIfAbsent? && !step.Restart?
    && T.Enabled(s.tracker, step)
    // a pass ends with a reap, and the next one starts after it
    && (step.BeginPass? || step.EndPass? ==> !s.lock.Reaping?)
    && (step.Poll? && step.act.FindClient? ==>
          s.lock.Free? && (step.act.found <==> s.tracker.recs[step.rec].adapter in s.clients))
  }

  ghost predicate Enabled(rules: Rules, s: Sys, m: Move) {
    match m
    case Acquire(_) => s.lock.Free?
    case Release(n) => s.lock.Free? && n < |s.sessions|
    case Add(n, _, _, _, _) => n < |s.sessions| && s.sessions[n].live
    case Adopt(n, _, _, _) => n < |s.sessions| && s.sessions[n].live
    case Work(step) => WorkEnabled(s, step)
    case BeginPush(push, built, more) =>
      && s.lock.Free?
      && built.Keys == Rebuilt(rules, s.clients, AcceptedNow(rules, s.clients, push.specs))
      && NewAdapters(built, AcceptedNow(rules, s.clients, push.specs), |s.configs|, more)
    case EndPush => s.lock.Applying? && s.lock.todo == {}
    case BeginReap => s.lock.Free? && forall r :: r in s.tracker.tasks ==> s.tracker.tasks[r].Done?
    case EndReap => s.lock.Reaping? && s.lock.todo == {}
    case Ask(id) => !s.lock.Free? && s.lock.question.Unasked? && id in s.lock.todo
    case Act => !s.lock.Free? && s.lock.question.Asked?
  }

  function Acquired(s: Sys, id: Id): Sys {
    if id in s.clients && !s.clients[id].draining then
      s.(leases := s.leases[id := (if id in s.leases then s.leases[id] else 0) + 1],
         sessions := s.sessions + [Session(id, true)])
    else s
  }

  function Released(s: Sys, n: nat): Sys
    requires n < |s.sessions|
  {
    var id := s.sessions[n].client;
    if s.sessions[n].live then
      s.(sessions := s.sessions[n := Session(id, false)],
         leases := if id !in s.leases || s.leases[id] <= 1 then s.leases - {id} else s.leases[id := s.leases[id] - 1])
    else s
  }

  /** One turn of the loop that holds the lock, with the answer it has. */
  function Acted(s: Sys): Sys
    requires !s.lock.Free? && s.lock.question.Asked?
  {
    var id, busy := s.lock.question.id, s.lock.question.busy;
    var answered := if busy then s.lock.busy + {id} else s.lock.busy;
    s.(clients := if s.lock.Applying? then SweepOne(s.clients, s.lock.keep, id, busy) else ReapOne(s.clients, id, busy),
       lock := s.lock.(todo := s.lock.todo - {id}, busy := answered, question := Unasked))
  }

  ghost function PushBegun(rules: Rules, s: Sys, push: Push, built: map<Id, nat>, more: seq<ClientSpec>): Sys
    requires built.Keys == Rebuilt(rules, s.clients, AcceptedNow(rules, s.clients, push.specs))
  {
    var full := WithAccepted(rules, s.clients, AcceptedNow(rules, s.clients, push.specs), built);
    s.(clients := full, configs := s.configs + more,
       lock := Applying(push, s.clients, built, KeptIds(rules, s.clients, push.specs), full.Keys, {}, Unasked))
  }

  ghost function PushEnded(rules: Rules, s: Sys): Sys
    requires s.lock.Applying?
  {
    var clean := Clean(rules, s.lock.before, s.lock.push.specs);
    s.(revision := if clean then s.lock.push.revision else s.revision,
       pushes := s.pushes + [Finished(s.lock.push.revision, clean)], lock := Free)
  }

  ghost function Next(rules: Rules, s: Sys, m: Move): Sys
    requires Enabled(rules, s, m)
  {
    match m
    case Acquire(id) => Acquired(s, id)
    case Release(n) => Released(s, n)
    case Add(n, kind, job, title, wanted) =>
      s.(tracker := T.Next(s.tracker, T.Track(s.sessions[n].client, kind, job, title, wanted)))
    case Adopt(n, kind, job, title) =>
      s.(tracker := T.Next(s.tracker, T.TrackIfAbsent(s.sessions[n].client, kind, job, title)))
    case Work(step) => s.(tracker := T.Next(s.tracker, step))
    case BeginPush(push, built, more) => PushBegun(rules, s, push, built, more)
    case EndPush => PushEnded(rules, s)
    case BeginReap => s.(lock := Reaping(s.clients, s.clients.Keys, {}, Unasked))
    case EndReap => s.(lock := Free)
    case Ask(id) => s.(lock := s.lock.(question := Asked(id, InUse(s, id))))
    case Act => Acted(s)
  }

  ghost predicate Runnable(rules: Rules, s: Sys, moves: seq<Move>)
    decreases |moves|
  {
    moves == [] || (Enabled(rules, s, moves[0]) && Runnable(rules, Next(rules, s, moves[0]), moves[1..]))
  }

  ghost function Run(rules: Rules, s: Sys, moves: seq<Move>): Sys
    requires Runnable(rules, s, moves)
    decreases |moves|
  {
    if moves == [] then s else Run(rules, Next(rules, s, moves[0]), moves[1..])
  }

  /** Every registered client has an adapter of its own, one of the first n built. */
  ghost predicate OwnAdapters(clients: Clients, n: nat) {
    && (forall id :: id in clients ==> clients[id].adapter < n)
    && (forall id, other :: id in clients && other in clients && clients[id].adapter == clients[other].adapter ==> id == other)
  }

  /** A gateway with only its environment clients, which have colon-free ids and an adapter each. */
  ghost predicate Boot(s: Sys) {
    && OwnAdapters(s.clients, |s.configs|)
    && (forall id :: id in s.clients ==> s.clients[id].source.Env? && !s.clients[id].draining && ':' !in id)
    && s.leases == map[] && s.revision == 0 && s.lock.Free? && s.sessions == [] && s.pushes == [] && s.tracker == T.EMPTY
  }

  // ---- the invariant ----

  ghost function LiveOn(sessions: seq<Session>, id: Id): set<nat> {
    set n | 0 <= n < |sessions| && sessions[n].live && sessions[n].client == id
  }

  /** leases[id] is the number of unreleased leases on id, and the id is absent at zero. */
  ghost predicate LeasesCounted(leases: map<Id, nat>, sessions: seq<Session>) {
    forall id :: |LiveOn(sessions, id)| == (if id in leases then leases[id] else 0) && (id in leases ==> leases[id] > 0)
  }

  /** Ids are colon-free, and only API clients drain. */
  ghost predicate ClientsSound(clients: Clients) {
    forall id :: id in clients ==> ':' !in id && (clients[id].draining ==> clients[id].source.Api?)
  }

  ghost predicate TrackedRegistered(t: T.Tracker, clients: Clients) {
    forall k :: k in t.jobs && t.jobs[k] in t.recs ==> t.recs[t.jobs[k]].adapter in clients
  }

  ghost predicate AdaptersColonFree(t: T.Tracker) {
    forall r :: r in t.recs ==> ':' !in t.recs[r].adapter
  }

  /** A client answered to be idle stays idle until the answer is acted on. */
  ghost predicate AnswerHolds(s: Sys) {
    !s.lock.Free? && s.lock.question.Asked? ==>
      s.lock.question.id in s.lock.todo && (!s.lock.question.busy ==> !InUse(s, s.lock.question.id))
  }

  /** Halfway through, the loop has done what the rules say for the ids visited so far. */
  ghost predicate LoopProgress(rules: Rules, s: Sys) {
    match s.lock
    case Free => true
    case Applying(push, before, built, keep, todo, busy, _) =>
      && built.Keys == Rebuilt(rules, before, AcceptedNow(rules, before, push.specs))
      && keep == KeptIds(rules, before, push.specs)
      && var full := WithAccepted(rules, before, AcceptedNow(rules, before, push.specs), built);
         && todo <= full.Keys
         && s.clients == Swept(full, keep, full.Keys - todo, {}, id => id in busy)
         && busy * todo == {} && s.leases.Keys <= busy + todo
    case Reaping(before, todo, busy, _) =>
      && todo <= before.Keys
      && s.clients == ReapedBut(before, todo, {}, id => id in busy)
      && busy * todo == {} && s.leases.Keys <= busy + todo
  }

  /** The revision of the last push that had no errors; 0 when none had. */
  ghost function LastClean(pushes: seq<Finished>): int {
    if pushes == [] then 0
    else if pushes[|pushes| - 1].clean then pushes[|pushes| - 1].revision
    else LastClean(pushes[..|pushes| - 1])
  }

  ghost predicate Inv(rules: Rules, s: Sys) {
    && LeasesCounted(s.leases, s.sessions)
    && s.leases.Keys <= s.clients.Keys
    && ClientsSound(s.clients)
    && TrackedRegistered(s.tracker, s.clients)
    && AdaptersColonFree(s.tracker)
    && AnswerHolds(s)
    && LoopProgress(rules, s)
    && s.revision == LastClean(s.pushes)
    && L.Sound(s.tracker)
  }

  // ---- leases ----

  lemma LeaseTaken(leases: map<Id, nat>, sessions: seq<Session>, id: Id)
    requires LeasesCounted(leases, sessions)
    ensures LeasesCounted(leases[id := (if id in leases then leases[id] else 0) + 1], sessions + [Session(id, true)])
  {
    var more := sessions + [Session(id, true)];
    forall other ensures LiveOn(more, other) == if other == id then LiveOn(sessions, other) + {|sessions|} else LiveOn(sessions, other) {
      assert forall n :: 0 <= n < |sessions| ==> more[n] == sessions[n];
    }
  }

  lemma LeaseGiven(leases: map<Id, nat>, sessions: seq<Session>, n: nat)
    requires LeasesCounted(leases, sessions) && n < |sessions| && sessions[n].live
    ensures var id := sessions[n].client;
            && id in leases
            && LeasesCounted(if leases[id] <= 1 then leases - {id} else leases[id := leases[id] - 1], sessions[n := Session(id, false)])
  {
    var id, less := sessions[n].client, sessions[n := Session(sessions[n].client, false)];
    assert n in LiveOn(sessions, id);
    forall other ensures LiveOn(less, other) == if other == id then LiveOn(sessions, other) - {n} else LiveOn(sessions, other) {
    }
  }

  /** Whoever holds a lease holds one on a registered client. */
  lemma LiveIsLeased(leases: map<Id, nat>, sessions: seq<Session>, n: nat)
    requires LeasesCounted(leases, sessions) && n < |sessions| && sessions[n].live
    ensures sessions[n].client in leases
  {
    assert n in LiveOn(sessions, sessions[n].client);
  }

  // ---- the tracked jobs ----

  lemma TrackingMoves(t: T.Tracker, step: T.Step, client: Id, id: Id)
    requires T.WellFormed(t) && T.Enabled(t, step)
    requires (step.Track? || step.TrackIfAbsent?) && step.adapter == client
    ensures TrackedOn(T.Next(t, step), id) ==> TrackedOn(t, id) || id == client
    ensures forall r :: r in T.Next(t, step).recs ==> (r in t.recs && T.Next(t, step).recs[r] == t.recs[r]) || T.Next(t, step).recs[r].adapter == client
  {
    var u := T.Next(t, step);
    if TrackedOn(u, id) {
      var k :| k in u.jobs && u.jobs[k] in u.recs && u.recs[u.jobs[k]].adapter == id;
      assert u.jobs[k] == t.next || (k in t.jobs && u.recs[u.jobs[k]] == t.recs[t.jobs[k]]);
    }
  }

  /** No other step tracks a job. */
  lemma OtherStepsTrackNothing(t: T.Tracker, step: T.Step)
    requires T.WellFormed(t) && T.Enabled(t, step) && !step.Track? && !step.TrackIfAbsent?
    ensures var u := T.Next(t, step);
            && u.recs.Keys == t.recs.Keys && (forall r :: r in t.recs ==> u.recs[r].adapter == t.recs[r].adapter)
            && (forall k :: k in u.jobs ==> k in t.jobs && u.jobs[k] == t.jobs[k])
  {
    if step.Poll? {
      T.PollExtends(t, step.rec, step.act);
    }
  }

  lemma TrackedLess(t: T.Tracker, step: T.Step, id: Id)
    requires T.WellFormed(t) && T.Enabled(t, step) && !step.Track? && !step.TrackIfAbsent?
    requires TrackedOn(T.Next(t, step), id)
    ensures TrackedOn(t, id)
  {
    OtherStepsTrackNothing(t, step);
    var u := T.Next(t, step);
    var k :| k in u.jobs && u.jobs[k] in u.recs && u.recs[u.jobs[k]].adapter == id;
    assert k in t.jobs && t.jobs[k] == u.jobs[k];
  }

  lemma TrackingKeepsInv(rules: Rules, s: Sys, step: T.Step, n: nat)
    requires Inv(rules, s) && n < |s.sessions| && s.sessions[n].live && T.Enabled(s.tracker, step)
    requires (step.Track? || step.TrackIfAbsent?) && step.adapter == s.sessions[n].client
    ensures Inv(rules, s.(tracker := T.Next(s.tracker, step)))
  {
    var u, client := s.(tracker := T.Next(s.tracker, step)), s.sessions[n].client;
    LiveIsLeased(s.leases, s.sessions, n);
    L.StepKeepsSound(s.tracker, step);
    forall id { TrackingMoves(s.tracker, step, client, id); }
    forall k | k in u.tracker.jobs && u.tracker.jobs[k] in u.tracker.recs
      ensures u.tracker.recs[u.tracker.jobs[k]].adapter in s.clients
    {
      var id := u.tracker.recs[u.tracker.jobs[k]].adapter;
      assert TrackedOn(u.tracker, id);
    }
  }

  lemma WorkKeepsInv(rules: Rules, s: Sys, step: T.Step)
    requires Inv(rules, s) && WorkEnabled(s, step)
    ensures Inv(rules, s.(tracker := T.Next(s.tracker, step)))
  {
    L.StepKeepsSound(s.tracker, step);
    OtherStepsTrackNothing(s.tracker, step);
    forall id | TrackedOn(T.Next(s.tracker, step), id) ensures TrackedOn(s.tracker, id) {
      TrackedLess(s.tracker, step, id);
    }
  }

  // ---- the registry's own moves ----

  lemma LeasesKeepInv(rules: Rules, s: Sys, m: Move)
    requires Inv(rules, s) && Enabled(rules, s, m) && (m.Acquire? || m.Release?)
    ensures Inv(rules, Next(rules, s, m))
  {
    if m.Acquire? {
      LeaseTaken(s.leases, s.sessions, m.id);
    } else if s.sessions[m.session].live {
      LeaseGiven(s.leases, s.sessions, m.session);
    }
  }

  lemma ValidIdHasNoColon(id: Id)
    requires ValidClientId(id)
    ensures ':' !in id
  {
  }

  lemma SweptNothing(full: Clients, keep: set<Id>, inUse: Id -> bool)
    ensures Swept(full, keep, {}, {}, inUse) == full
  {
  }

  /** Putting the accepted specs into effect registers no id with a colon, and forgets no client. */
  lemma FullIsSound(rules: Rules, clients: Clients, specs: seq<ClientSpec>, built: map<Id, nat>)
    requires ClientsSound(clients) && built.Keys == Rebuilt(rules, clients, AcceptedNow(rules, clients, specs))
    ensures var full := WithAccepted(rules, clients, AcceptedNow(rules, clients, specs), built);
            ClientsSound(full) && clients.Keys <= full.Keys
  {
    var accepted := AcceptedNow(rules, clients, specs);
    var full := WithAccepted(rules, clients, accepted, built);
    AcceptedIdsAreFree(rules, EnvIds(clients), specs);
    forall id | id in full ensures ':' !in id && (full[id].draining ==> full[id].source.Api?) {
      if id in accepted {
        ValidIdHasNoColon(id);
        assert full[id] == AppliedEntry(rules, clients, accepted, built, id);
      }
    }
  }

  lemma BeginPushKeepsInv(rules: Rules, s: Sys, push: Push, built: map<Id, nat>, more: seq<ClientSpec>)
    requires Inv(rules, s) && Enabled(rules, s, BeginPush(push, built, more))
    ensures Inv(rules, PushBegun(rules, s, push, built, more))
  {
    var u := PushBegun(rules, s, push, built, more);
    FullIsSound(rules, s.clients, push.specs, built);
    SweptNothing(u.clients, u.lock.keep, id => id in {});
    assert u.clients.Keys - u.lock.todo == {};
    SweptNothing(u.clients, u.lock.keep, id => id in u.lock.busy);
  }

  lemma EndPushKeepsInv(rules: Rules, s: Sys)
    requires Inv(rules, s) && Enabled(rules, s, EndPush)
    ensures Inv(rules, PushEnded(rules, s))
  {
    var u := PushEnded(rules, s);
    assert u.pushes[..|u.pushes| - 1] == s.pushes;
  }

  lemma ReapKeepsInv(rules: Rules, s: Sys, m: Move)
    requires Inv(rules, s) && Enabled(rules, s, m) && (m.BeginReap? || m.EndReap? || m.Ask?)
    ensures Inv(rules, Next(rules, s, m))
  {
    if m.BeginReap? {
      var gone := Reaped(s.clients, {}, id => id in {});
      assert ReapedBut(s.clients, s.clients.Keys, {}, id => id in {}) == s.clients;
      assert LoopProgress(rules, Next(rules, s, m));
    }
  }

  /** Only the answers about the ids visited so far matter. */
  lemma SweptByAnswers(full: Clients, keep: set<Id>, done: set<Id>, busy: set<Id>, more: set<Id>)
    requires busy * done == more * done
    ensures Swept(full, keep, done, {}, id => id in busy) == Swept(full, keep, done, {}, id => id in more)
  {
    forall id | id in done ensures id in busy <==> id in more {
      assert id in busy * done <==> id in more * done;
    }
  }

  lemma SweepMove(full: Clients, keep: set<Id>, todo: set<Id>, busy: set<Id>, id: Id, answer: bool)
    requires todo <= full.Keys && id in todo && busy * todo == {}
    ensures var more := if answer then busy + {id} else busy;
            Swept(full, keep, full.Keys - (todo - {id}), {}, x => x in more) ==
            SweepOne(Swept(full, keep, full.Keys - todo, {}, x => x in busy), keep, id, answer)
  {
    var more := if answer then busy + {id} else busy;
    var done := full.Keys - todo;
    assert id !in busy by { assert id !in busy * todo; }
    assert busy * done == more * done;
    SweptByAnswers(full, keep, done, busy, more);
    SweepNext(full, keep, done, {}, x => x in more, id);
    assert full.Keys - (todo - {id}) == done + {id};
  }

  lemma ReapMove(before: Clients, todo: set<Id>, busy: set<Id>, id: Id, answer: bool)
    requires todo <= before.Keys && id in todo && busy * todo == {}
    ensures var more := if answer then busy + {id} else busy;
            ReapedBut(before, todo - {id}, {}, x => x in more) == ReapOne(ReapedBut(before, todo, {}, x => x in busy), id, answer)
  {
    var more := if answer then busy + {id} else busy;
    assert id !in busy by { assert id !in busy * todo; }
    assert Reaped(before, {}, x => x in busy) - todo == Reaped(before, {}, x => x in more) - todo;
    ReapNext(before, todo, {}, x => x in more, id);
  }

  /** One turn takes a client away only when it was answered to be idle. */
  lemma ActRemoves(s: Sys)
    requires !s.lock.Free? && s.lock.question.Asked?
    ensures var u := Acted(s);
            && (forall id :: id in u.clients ==> id in s.clients && u.clients[id].source == s.clients[id].source)
            && (forall id :: id in s.clients && id !in u.clients ==>
                  && id == s.lock.question.id && !s.lock.question.busy
                  && if s.lock.Applying? then s.clients[id].source.Api? else s.clients[id].draining)
            && (forall id :: id in u.clients && u.clients[id].draining ==> s.clients[id].draining || s.clients[id].source.Api?)
  {
  }

  lemma ActKeepsInv(rules: Rules, s: Sys)
    requires Inv(rules, s) && Enabled(rules, s, Act)
    ensures Inv(rules, Acted(s))
  {
    var u, id, answer := Acted(s), s.lock.question.id, s.lock.question.busy;
    ActRemoves(s);
    match s.lock {
      case Applying(push, before, built, keep, todo, busy, _) =>
        SweepMove(WithAccepted(rules, before, AcceptedNow(rules, before, push.specs), built), keep, todo, busy, id, answer);
      case Reaping(before, todo, busy, _) =>
        ReapMove(before, todo, busy, id, answer);
    }
    assert LoopProgress(rules, u);
    forall k | k in s.tracker.jobs && s.tracker.jobs[k] in s.tracker.recs
      ensures s.tracker.recs[s.tracker.jobs[k]].adapter in u.clients
    {
      assert TrackedOn(s.tracker, s.tracker.recs[s.tracker.jobs[k]].adapter);
    }
  }

  lemma MoveKeepsInv(rules: Rules, s: Sys, m: Move)
    requires Inv(rules, s) && Enabled(rules, s, m)
    ensures Inv(rules, Next(rules, s, m))
  {
    match m
    case Acquire(_) => LeasesKeepInv(rules, s, m);
    case Release(_) => LeasesKeepInv(rules, s, m);
    case Add(n, kind, job, title, wanted) =>
      TrackingKeepsInv(rules, s, T.Track(s.sessions[n].client, kind, job, title, wanted), n);
    case Adopt(n, kind, job, title) =>
      TrackingKeepsInv(rules, s, T.TrackIfAbsent(s.sessions[n].client, kind, job, title), n);
    case Work(step) => WorkKeepsInv(rules, s, step);
    case BeginPush(push, built, more) => BeginPushKeepsInv(rules, s, push, built, more);
    case EndPush => EndPushKeepsInv(rules, s);
    case Act => ActKeepsInv(rules, s);
    case _ => ReapKeepsInv(rules, s, m);
  }

  lemma {:induction false} RunKeepsInv(rules: Rules, s: Sys, moves: seq<Move>)
    requires Inv(rules, s) && Runnable(rules, s, moves)
    ensures Inv(rules, Run(rules, s, moves))
    decreases |moves|
  {
    if moves != [] {
      MoveKeepsInv(rules, s, moves[0]);
      RunKeepsInv(rules, Next(rules, s, moves[0]), moves[1..]);
    }
  }

  lemma BootIsSound(rules: Rules, s: Sys)
    requires Boot(s)
    ensures Inv(rules, s)
  {
    L.EmptyIsSound();
    forall id ensures LiveOn(s.sessions, id) == {} {}
  }
}
