/** Which adapter a client runs on, over every run of the protocol: clients never share one, and none comes back. */
module AdapterIdentity {
  import opened ClientSpecs
  import opened RegistryRules
  import opened Protocol
  import S = Safety

  const NO_SPEC := ClientSpec("", "", "", "", "", "", "", "", [])

  /** What the adapter with a number was built from. */
  function ConfigOf(configs: seq<ClientSpec>): nat -> ClientSpec {
    (n: nat) => if n < |configs| then configs[n] else NO_SPEC
  }

  /** While a push runs, what it found and what it built. */
  ghost predicate PushUnderway(rules: Rules, s: Sys) {
    s.lock.Applying? ==>
      var config := ConfigOf(s.configs);
      && Faithful(rules, config, s.lock.before)
      && BuiltFrom(config, AcceptedNow(rules, s.lock.before, s.lock.push.specs), s.lock.built)
      && BuiltAnew(s.lock.before, s.lock.built)
  }

  ghost predicate AdaptersInv(rules: Rules, s: Sys) {
    && OwnAdapters(s.clients, |s.configs|)
    && Faithful(rules, ConfigOf(s.configs), s.clients)
    && PushUnderway(rules, s)
  }

  lemma ConfigGrows(rules: Rules, clients: Clients, configs: seq<ClientSpec>, more: seq<ClientSpec>)
    requires OwnAdapters(clients, |configs|) && Faithful(rules, ConfigOf(configs), clients)
    ensures Faithful(rules, ConfigOf(configs + more), clients)
  {
    forall id | id in clients ensures FaithfulEntry(rules, ConfigOf(configs + more), id, clients[id]) {
      assert FaithfulEntry(rules, ConfigOf(configs), id, clients[id]);
    }
  }

  lemma EntryWithAccepted(rules: Rules, clients: Clients, accepted: map<Id, ClientSpec>, built: map<Id, nat>, id: Id)
    requires built.Keys == Rebuilt(rules, clients, accepted) && id in WithAccepted(rules, clients, accepted, built)
    ensures var e := WithAccepted(rules, clients, accepted, built)[id];
            if id in built then id in accepted && e == NewEntry(rules, accepted[id], built[id])
            else id in clients && e == clients[id].(draining := e.draining)
  {
    if id in accepted {
      assert WithAccepted(rules, clients, accepted, built)[id] == AppliedEntry(rules, clients, accepted, built, id);
    }
  }

  /** Putting the accepted specs into effect gives every rebuilt client an adapter no other has. */
  lemma FullOwnAdapters(rules: Rules, clients: Clients, accepted: map<Id, ClientSpec>, built: map<Id, nat>, from: nat, more: seq<ClientSpec>)
    requires OwnAdapters(clients, from) && NewAdapters(built, accepted, from, more) && built.Keys == Rebuilt(rules, clients, accepted)
    ensures OwnAdapters(WithAccepted(rules, clients, accepted, built), from + |more|)
  {
    var full := WithAccepted(rules, clients, accepted, built);
    forall id | id in full ensures full[id].adapter == (if id in built then built[id] else clients[id].adapter) && (id in built || id in clients) {
      EntryWithAccepted(rules, clients, accepted, built, id);
    }
  }

  lemma NewAdaptersConfig(clients: Clients, accepted: map<Id, ClientSpec>, built: map<Id, nat>, configs: seq<ClientSpec>, more: seq<ClientSpec>)
    requires OwnAdapters(clients, |configs|) && NewAdapters(built, accepted, |configs|, more)
    ensures BuiltFrom(ConfigOf(configs + more), accepted, built) && BuiltAnew(clients, built)
  {
  }

  /** And it keeps the entries true to their adapters. */
  lemma FullFaithful(rules: Rules, config: nat -> ClientSpec, clients: Clients, specs: seq<ClientSpec>, built: map<Id, nat>)
    requires PreparesOwnId(rules) && Faithful(rules, config, clients)
    requires built.Keys == Rebuilt(rules, clients, AcceptedNow(rules, clients, specs))
    requires BuiltFrom(config, AcceptedNow(rules, clients, specs), built)
    ensures Faithful(rules, config, WithAccepted(rules, clients, AcceptedNow(rules, clients, specs), built))
  {
    var accepted := AcceptedNow(rules, clients, specs);
    var full := WithAccepted(rules, clients, accepted, built);
    AcceptedIdsAreFree(rules, EnvIds(clients), specs);
    forall id | id in full ensures FaithfulEntry(rules, config, id, full[id]) {
      EntryWithAccepted(rules, clients, accepted, built, id);
      if id in built {
        AcceptedUnderOwnId(rules, EnvIds(clients), specs, id);
      } else {
        assert FaithfulEntry(rules, config, id, clients[id]);
      }
    }
  }

  lemma BeginPushKeepsAdapters(rules: Rules, s: Sys, push: Push, built: map<Id, nat>, more: seq<ClientSpec>)
    requires PreparesOwnId(rules) && AdaptersInv(rules, s) && Enabled(rules, s, BeginPush(push, built, more))
    ensures AdaptersInv(rules, PushBegun(rules, s, push, built, more))
  {
    var accepted := AcceptedNow(rules, s.clients, push.specs);
    ConfigGrows(rules, s.clients, s.configs, more);
    NewAdaptersConfig(s.clients, accepted, built, s.configs, more);
    FullOwnAdapters(rules, s.clients, accepted, built, |s.configs|, more);
    FullFaithful(rules, ConfigOf(s.configs + more), s.clients, push.specs, built);
  }

  lemma ActKeepsAdapters(rules: Rules, s: Sys)
    requires AdaptersInv(rules, s) && Enabled(rules, s, Act)
    ensures AdaptersInv(rules, Acted(s))
  {
    var u, config := Acted(s), ConfigOf(s.configs);
    forall id | id in u.clients
      ensures id in s.clients && u.clients[id] == s.clients[id].(draining := u.clients[id].draining)
      ensures FaithfulEntry(rules, config, id, u.clients[id])
    {
      assert FaithfulEntry(rules, config, id, s.clients[id]);
    }
  }

  lemma MoveKeepsAdapters(rules: Rules, s: Sys, m: Move)
    requires PreparesOwnId(rules) && AdaptersInv(rules, s) && Enabled(rules, s, m)
    ensures AdaptersInv(rules, Next(rules, s, m))
  {
    match m
    case BeginPush(push, built, more) => BeginPushKeepsAdapters(rules, s, push, built, more);
    case Act => ActKeepsAdapters(rules, s);
    case _ =>
  }

  lemma {:induction false} RunKeepsAdapters(rules: Rules, s: Sys, moves: seq<Move>)
    requires PreparesOwnId(rules) && AdaptersInv(rules, s) && Runnable(rules, s, moves)
    ensures AdaptersInv(rules, Run(rules, s, moves))
    decreases |moves|
  {
    if moves != [] {
      MoveKeepsAdapters(rules, s, moves[0]);
      RunKeepsAdapters(rules, Next(rules, s, moves[0]), moves[1..]);
    }
  }

  /** In every reachable state each client has an adapter of its own, and an API client lists the spec it was built from. */
  lemma ClientsNeverShareAdapters(rules: Rules, boot: Sys, moves: seq<Move>)
    requires PreparesOwnId(rules) && Boot(boot) && Runnable(rules, boot, moves)
    ensures var s := Run(rules, boot, moves);
            && (forall id, other :: id in s.clients && other in s.clients && id != other ==> s.clients[id].adapter != s.clients[other].adapter)
            && (forall id :: id in s.clients && s.clients[id].source.Api? ==>
                  && s.clients[id].adapter < |s.configs|
                  && Describes(rules, s.clients[id], s.configs[s.clients[id].adapter]))
  {
    RunKeepsAdapters(rules, boot, moves);
    var s := Run(rules, boot, moves);
    forall id | id in s.clients && s.clients[id].source.Api?
      ensures s.clients[id].adapter < |s.configs| && Describes(rules, s.clients[id], s.configs[s.clients[id].adapter])
    {
      assert FaithfulEntry(rules, ConfigOf(s.configs), id, s.clients[id]);
    }
  }

  // ---- no adapter comes back ----

  /** The adapter was built, and no client runs on it. */
  ghost predicate Retired(s: Sys, adapter: nat) {
    adapter < |s.configs| && forall id :: id in s.clients ==> s.clients[id].adapter != adapter
  }

  lemma RetiredMove(rules: Rules, s: Sys, m: Move, adapter: nat)
    requires Enabled(rules, s, m) && Retired(s, adapter)
    ensures Retired(Next(rules, s, m), adapter)
  {
    var u := Next(rules, s, m);
    if m.BeginPush? {
      forall id | id in u.clients ensures u.clients[id].adapter != adapter {
        EntryWithAccepted(rules, s.clients, AcceptedNow(rules, s.clients, m.push.specs), m.built, id);
      }
    }
  }

  /** Once no client runs on an adapter, none ever will again, in any run. */
  lemma {:induction false} RetiredForGood(rules: Rules, s: Sys, moves: seq<Move>, adapter: nat)
    requires Runnable(rules, s, moves) && Retired(s, adapter)
    ensures Retired(Run(rules, s, moves), adapter)
    decreases |moves|
  {
    if moves != [] {
      RetiredMove(rules, s, moves[0], adapter);
      RetiredForGood(rules, Next(rules, s, moves[0]), moves[1..], adapter);
    }
  }

  // ---- a push, carried out move by move ----

  /**
   When a push ends, however it interleaved, every accepted client runs with the pushed spec, on the
   adapter it had before exactly when that was built from this very spec.
   */
  lemma InterleavedPushRunsTheSpecs(rules: Rules, s: Sys)
    requires PreparesOwnId(rules) && Separating(rules)
    requires Inv(rules, s) && AdaptersInv(rules, s) && Enabled(rules, s, EndPush)
    ensures var before := s.lock.before;
            SpecsRun(rules, ConfigOf(s.configs), before, AcceptedNow(rules, before, s.lock.push.specs), Next(rules, s, EndPush).clients)
  {
    S.PushFollowsTheRules(rules, s);
    PushedSpecsRun(rules, ConfigOf(s.configs), s.lock.before, s.lock.push.specs, s.leases.Keys, id => id in s.lock.busy, s.lock.built);
  }
}
