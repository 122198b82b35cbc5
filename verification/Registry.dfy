/** The registry of download clients: an object updated in place under one lock. */
module Registries {
  import opened Outcomes
  import opened Text
  import opened ClientSpecs
  import opened RegistryRules

  /** A running adapter. Only its identity and what it was built from matter here. */
  class Adapter {
    const name: string
    const config: ClientSpec

    constructor (name: string, config: ClientSpec)
      ensures this.name == name && this.config == config
    {
      this.name := name;
      this.config := config;
    }
  }

  /** One add or adoption in flight on a client; released at most once. */
  class Lease {
    const id: Id
    var released: bool

    constructor (id: Id)
      ensures this.id == id && !released
    {
      this.id := id;
      released := false;
    }
  }

  datatype LeaseError = UnknownClient | ClientDraining

  /** A read-only view of one registered client. */
  datatype Client = Client(id: Id, kind: string, source: Source, category: string, savePath: string, adapter: Adapter)

  function ClientOf(e: Entry<Adapter>): Client {
    Client(e.spec.id, e.spec.kind, e.source, e.spec.category, e.spec.savePath, e.adapter)
  }

  /** The view of a client just built from an accepted spec. */
  function StartedClient(s: ClientSpec, adapter: Adapter): Client {
    Client(s.id, s.kind, Api, s.category, s.savePath, adapter)
  }

  datatype ApplyResult = ApplyResult(
    revision: int,
    applied: seq<Id>,
    errors: seq<ApplyError>,
    started: seq<Client>,
    draining: seq<Id>,
    removed: seq<Id>)

  ghost function OpenOn(open: set<Lease>, id: Id): set<Lease> {
    set h | h in open && h.id == id
  }

  /** leases holds, for each id, the number of open leases on it, and no zero entries. */
  ghost predicate Counts(leases: map<Id, int>, open: set<Lease>) {
    && (forall h :: h in open ==> h.id in leases)
    && (forall id :: id in leases ==> leases[id] == |OpenOn(open, id)| > 0)
  }

  lemma CountsAcquire(leases: map<Id, int>, open: set<Lease>, h: Lease)
    requires Counts(leases, open) && h !in open
    ensures Counts(leases[h.id := (if h.id in leases then leases[h.id] else 0) + 1], open + {h})
  {
    var next := open + {h};
    assert OpenOn(next, h.id) == OpenOn(open, h.id) + {h};
    if h.id !in leases {
      assert OpenOn(open, h.id) == {};
    }
    forall id | id in leases && id != h.id ensures OpenOn(next, id) == OpenOn(open, id) {
    }
  }

  lemma CountsRelease(leases: map<Id, int>, open: set<Lease>, h: Lease)
    requires Counts(leases, open) && h in open
    ensures var n := leases[h.id] - 1;
            Counts(if n <= 0 then leases - {h.id} else leases[h.id := n], open - {h})
  {
    var next, n := open - {h}, leases[h.id] - 1;
    assert h in OpenOn(open, h.id);
    assert OpenOn(next, h.id) == OpenOn(open, h.id) - {h};
    forall id | id in leases && id != h.id ensures OpenOn(next, id) == OpenOn(open, id) {
    }
    if n <= 0 {
      assert OpenOn(next, h.id) == {};
      forall k | k in next ensures k.id != h.id {
        assert k !in OpenOn(next, h.id);
      }
    }
  }

  /** Entries sit under their own id, and only API clients, whose ids are valid, ever drain. */
  ghost predicate ValidEntry(id: Id, e: Entry<Adapter>) {
    e.spec.id == id && (e.source.Api? ==> ValidClientId(id)) && (e.draining ==> e.source.Api?)
  }

  ghost predicate ValidClients(clients: map<Id, Entry<Adapter>>) {
    forall id :: id in clients ==> ValidEntry(id, clients[id])
  }

  /** What an adapter was built from. */
  function ConfigOf(): Adapter -> ClientSpec {
    (a: Adapter) => a.config
  }

  /** started lists the clients built under these ids, with their adapters. */
  ghost predicate StartedAre(started: seq<Client>, ids: seq<Id>, accepted: map<Id, ClientSpec>, built: map<Id, Adapter>) {
    && |started| == |ids|
    && forall i :: 0 <= i < |ids| ==>
         ids[i] in accepted && ids[i] in built && started[i] == StartedClient(accepted[ids[i]], built[ids[i]])
  }

  /** The state of a push's first loop when `part` has been processed. */
  ghost predicate Progress(rules: Rules, env: set<Id>, before: map<Id, Entry<Adapter>>, specs: seq<ClientSpec>, part: seq<ClientSpec>,
                           clients: map<Id, Entry<Adapter>>, applied: seq<Id>, errors: seq<ApplyError>,
                           started: seq<Client>, keep: set<Id>, built: map<Id, Adapter>)
  {
    var accepted := Accepted(rules, env, specs, part);
    && env == EnvIds(before)
    && applied == Applied(rules, env, specs, part)
    && errors == Errors(rules, env, specs, part)
    && built.Keys == Rebuilt(rules, before, accepted)
    && clients == WithAccepted(rules, before, accepted, built)
    && Keeps(before, accepted, ErrorIds(errors), keep)
    && BuiltFrom(ConfigOf(), accepted, built)
    && StartedAre(started, StartedIds(rules, before, specs, part), accepted, built)
  }

  lemma SameEntryBefore(rules: Rules, env: set<Id>, before: map<Id, Entry<Adapter>>, specs: seq<ClientSpec>, i: nat,
                        clients: map<Id, Entry<Adapter>>, built: map<Id, Adapter>)
    requires i < |specs| && built.Keys == Rebuilt(rules, before, Accepted(rules, env, specs, specs[..i]))
    requires clients == WithAccepted(rules, before, Accepted(rules, env, specs, specs[..i]), built)
    ensures var id := IdOf(specs[i]);
            (id in clients <==> id in before) && (id in before ==> clients[id] == before[id])
  {
    NotAcceptedBefore(rules, env, specs, i);
  }

  /** What one more spec adds to the results so far. */
  lemma ResultsNext(rules: Rules, env: set<Id>, before: map<Id, Entry<Adapter>>, specs: seq<ClientSpec>, i: nat)
    requires i < |specs| && env == EnvIds(before)
    ensures var id, v, done, more := IdOf(specs[i]), Judge(rules, env, specs, specs[i]), specs[..i], specs[..i + 1];
            && Applied(rules, env, specs, more)
               == (if v.Accept? then Applied(rules, env, specs, done) + [id] else Applied(rules, env, specs, done))
            && Accepted(rules, env, specs, more)
               == (if v.Accept? then Accepted(rules, env, specs, done)[id := v.spec] else Accepted(rules, env, specs, done))
            && Errors(rules, env, specs, more)
               == (if v.Accept? || id in ErrorIds(Errors(rules, env, specs, done)) then Errors(rules, env, specs, done)
                   else Errors(rules, env, specs, done) + [ApplyError(id, v.reason)])
            && StartedIds(rules, before, specs, more)
               == (if v.Accept? && !Unchanged(rules, before, id, v.spec) then StartedIds(rules, before, specs, done) + [id]
                   else StartedIds(rules, before, specs, done))
  {
    assert specs[..i + 1][..i] == specs[..i];
  }

  lemma ProgressReject(rules: Rules, env: set<Id>, before: map<Id, Entry<Adapter>>, specs: seq<ClientSpec>, i: nat,
                       clients: map<Id, Entry<Adapter>>, applied: seq<Id>, errors: seq<ApplyError>,
                       started: seq<Client>, keep: set<Id>, built: map<Id, Adapter>, reason: Reason)
    requires i < |specs| && Progress(rules, env, before, specs, specs[..i], clients, applied, errors, started, keep, built)
    requires Judge(rules, env, specs, specs[i]) == Reject(reason)
    ensures var id := IdOf(specs[i]);
            if id in ErrorIds(errors) then
              Progress(rules, env, before, specs, specs[..i + 1], clients, applied, errors, started, keep, built)
            else
              Progress(rules, env, before, specs, specs[..i + 1], clients, applied, errors + [ApplyError(id, reason)], started,
                       if id in before && before[id].source.Api? then keep + {id} else keep, built)
  {
    var id, accepted := IdOf(specs[i]), Accepted(rules, env, specs, specs[..i]);
    ResultsNext(rules, env, before, specs, i);
    OneMoreError(errors, ApplyError(id, reason));
    KeepsMore(before, accepted, ErrorIds(errors), keep, id);
  }

  lemma KeepsMore(before: map<Id, Entry<Adapter>>, accepted: map<Id, ClientSpec>, failed: set<Id>, keep: set<Id>, id: Id)
    requires Keeps(before, accepted, failed, keep)
    ensures Keeps(before, accepted, failed + {id}, if id in before && before[id].source.Api? then keep + {id} else keep)
  {
  }

  lemma OneMoreError(errors: seq<ApplyError>, e: ApplyError)
    ensures ErrorIds(errors + [e]) == ErrorIds(errors) + {e.id}
  {
  }

  lemma StartedGrows(started: seq<Client>, ids: seq<Id>, accepted: map<Id, ClientSpec>, built: map<Id, Adapter>,
                     id: Id, s: ClientSpec, adapter: Adapter)
    requires StartedAre(started, ids, accepted, built) && BuiltFrom(ConfigOf(), accepted, built)
    requires id !in accepted && adapter.config == s
    ensures StartedAre(started + [StartedClient(s, adapter)], ids + [id], accepted[id := s], built[id := adapter])
    ensures BuiltFrom(ConfigOf(), accepted[id := s], built[id := adapter])
  {
  }

  lemma StartedStays(started: seq<Client>, ids: seq<Id>, accepted: map<Id, ClientSpec>, built: map<Id, Adapter>, id: Id, s: ClientSpec)
    requires StartedAre(started, ids, accepted, built) && BuiltFrom(ConfigOf(), accepted, built) && id !in accepted
    ensures StartedAre(started, ids, accepted[id := s], built) && BuiltFrom(ConfigOf(), accepted[id := s], built)
  {
  }

  lemma ProgressKeep(rules: Rules, env: set<Id>, before: map<Id, Entry<Adapter>>, specs: seq<ClientSpec>, i: nat,
                     clients: map<Id, Entry<Adapter>>, applied: seq<Id>, errors: seq<ApplyError>,
                     started: seq<Client>, keep: set<Id>, built: map<Id, Adapter>, s: ClientSpec)
    requires i < |specs| && Progress(rules, env, before, specs, specs[..i], clients, applied, errors, started, keep, built)
    requires Judge(rules, env, specs, specs[i]) == Accept(s) && Unchanged(rules, before, IdOf(specs[i]), s)
    ensures var id := IdOf(specs[i]);
            Progress(rules, env, before, specs, specs[..i + 1], clients[id := before[id].(draining := false)],
                     applied + [id], errors, started, keep + {id}, built)
  {
    var id, accepted := IdOf(specs[i]), Accepted(rules, env, specs, specs[..i]);
    ResultsNext(rules, env, before, specs, i);
    NotAcceptedBefore(rules, env, specs, i);
    AcceptOne(rules, before, accepted, built, id, s, before[id].adapter);
    StartedStays(started, StartedIds(rules, before, specs, specs[..i]), accepted, built, id, s);
  }

  lemma ProgressBuild(rules: Rules, env: set<Id>, before: map<Id, Entry<Adapter>>, specs: seq<ClientSpec>, i: nat,
                      clients: map<Id, Entry<Adapter>>, applied: seq<Id>, errors: seq<ApplyError>,
                      started: seq<Client>, keep: set<Id>, built: map<Id, Adapter>, s: ClientSpec, adapter: Adapter)
    requires i < |specs| && Progress(rules, env, before, specs, specs[..i], clients, applied, errors, started, keep, built)
    requires Judge(rules, env, specs, specs[i]) == Accept(s) && !Unchanged(rules, before, IdOf(specs[i]), s)
    requires adapter.config == s
    ensures var id := IdOf(specs[i]);
            Progress(rules, env, before, specs, specs[..i + 1], clients[id := NewEntry(rules, s, adapter)],
                     applied + [id], errors, started + [StartedClient(s, adapter)], keep + {id}, built[id := adapter])
  {
    var id, accepted := IdOf(specs[i]), Accepted(rules, env, specs, specs[..i]);
    ResultsNext(rules, env, before, specs, i);
    NotAcceptedBefore(rules, env, specs, i);
    AcceptOne(rules, before, accepted, built, id, s, adapter);
    StartedGrows(started, StartedIds(rules, before, specs, specs[..i]), accepted, built, id, s, adapter);
  }

  lemma PushSwept(rules: Rules, before: map<Id, Entry<Adapter>>,
                  accepted: map<Id, ClientSpec>, errors: seq<ApplyError>, keep: set<Id>,
                  leased: set<Id>, inUse: Id -> bool, built: map<Id, Adapter>)
    requires built.Keys == Rebuilt(rules, before, accepted) && Keeps(before, accepted, ErrorIds(errors), keep)
    ensures var full, failed := WithAccepted(rules, before, accepted, built), ErrorIds(errors);
            && Swept(full, keep, full.Keys, leased, inUse) == AfterPush(rules, before, accepted, failed, leased, inUse, built)
            && SweepDrains(full, keep, leased, inUse) == NewlyDraining(before, accepted, failed, leased, inUse)
            && SweepRemoves(full, keep, leased, inUse) == Removed(before, accepted, failed, leased, inUse)
  {
    SweepComplete(rules, before, accepted, ErrorIds(errors), keep, leased, inUse, built);
    SweptSets(rules, before, accepted, ErrorIds(errors), keep, leased, inUse, built);
  }

  lemma SweptSets(rules: Rules, before: map<Id, Entry<Adapter>>, accepted: map<Id, ClientSpec>, failed: set<Id>, keep: set<Id>,
                  leased: set<Id>, inUse: Id -> bool, built: map<Id, Adapter>)
    requires built.Keys == Rebuilt(rules, before, accepted) && Keeps(before, accepted, failed, keep)
    ensures var full := WithAccepted(rules, before, accepted, built);
            && SweepDrains(full, keep, leased, inUse) == NewlyDraining(before, accepted, failed, leased, inUse)
            && SweepRemoves(full, keep, leased, inUse) == Removed(before, accepted, failed, leased, inUse)
  {
    var full := WithAccepted(rules, before, accepted, built);
    forall id
      ensures Sweepable(full, keep, id) <==> LeftOut(before, accepted, failed, id)
      ensures LeftOut(before, accepted, failed, id) ==> id in full && full[id] == before[id]
    {
      SweepableIsLeftOut(rules, before, accepted, failed, keep, built, id);
    }
  }

  lemma PushOutcomeHolds(rules: Rules, before: map<Id, Entry<Adapter>>, revisionBefore: int, pushed: int, specs: seq<ClientSpec>,
                         keep: set<Id>, leased: set<Id>, inUse: Id -> bool, built: map<Id, Adapter>,
                         after: map<Id, Entry<Adapter>>, res: ApplyResult)
    requires built.Keys == Rebuilt(rules, before, Accepted(rules, EnvIds(before), specs, specs))
    requires var full := WithAccepted(rules, before, Accepted(rules, EnvIds(before), specs, specs), built);
             && Progress(rules, EnvIds(before), before, specs, specs, full, res.applied, res.errors, res.started, keep, built)
             && after == Swept(full, keep, full.Keys, leased, inUse)
             && ListsSorted(res.draining, SweepDrains(full, keep, leased, inUse))
             && ListsSorted(res.removed, SweepRemoves(full, keep, leased, inUse))
    requires res.revision == if res.errors == [] then pushed else revisionBefore
    ensures PushOutcome(rules, before, revisionBefore, pushed, specs, leased, inUse, built, after, res.revision, res)
  {
    PushSwept(rules, before, Accepted(rules, EnvIds(before), specs, specs), res.errors, keep, leased, inUse, built);
  }

  /** The state of a push's second loop when the ids in `todo` have not been visited. */
  ghost predicate SweepState(full: map<Id, Entry<Adapter>>, keep: set<Id>, todo: set<Id>, leased: set<Id>, inUse: Id -> bool,
                             clients: map<Id, Entry<Adapter>>, draining: seq<Id>, removed: seq<Id>)
  {
    && todo <= full.Keys
    && clients == Swept(full, keep, full.Keys - todo, leased, inUse)
    && NoDuplicates(draining) && NoDuplicates(removed)
    && (forall id :: id in draining <==> id in SweepDrains(full, keep, leased, inUse) - todo)
    && (forall id :: id in removed <==> id in SweepRemoves(full, keep, leased, inUse) - todo)
  }

  lemma SweepStarts(full: map<Id, Entry<Adapter>>, keep: set<Id>, leased: set<Id>, inUse: Id -> bool)
    ensures SweepState(full, keep, full.Keys, leased, inUse, full, [], [])
  {
    assert full.Keys - full.Keys == {};
  }

  lemma SweepTurn(full: map<Id, Entry<Adapter>>, keep: set<Id>, todo: set<Id>, leased: set<Id>, inUse: Id -> bool,
                  clients: map<Id, Entry<Adapter>>, draining: seq<Id>, removed: seq<Id>, id: Id)
    requires SweepState(full, keep, todo, leased, inUse, clients, draining, removed) && id in todo
    ensures id in clients && clients[id] == full[id]
    ensures var left := todo - {id};
            if clients[id].source.Env? || id in keep || (Busy(leased, inUse, id) && clients[id].draining) then
              SweepState(full, keep, left, leased, inUse, clients, draining, removed)
            else if Busy(leased, inUse, id) then
              SweepState(full, keep, left, leased, inUse, clients[id := clients[id].(draining := true)], draining + [id], removed)
            else
              SweepState(full, keep, left, leased, inUse, clients - {id}, draining, removed + [id])
  {
    SweepNext(full, keep, full.Keys - todo, leased, inUse, id);
    assert full.Keys - (todo - {id}) == full.Keys - todo + {id};
    NoDuplicatesAppend(draining, id);
    NoDuplicatesAppend(removed, id);
  }

  lemma SweepEnds(full: map<Id, Entry<Adapter>>, keep: set<Id>, leased: set<Id>, inUse: Id -> bool,
                  clients: map<Id, Entry<Adapter>>, draining: seq<Id>, removed: seq<Id>)
    requires SweepState(full, keep, {}, leased, inUse, clients, draining, removed)
    ensures clients == Swept(full, keep, full.Keys, leased, inUse)
    ensures ListsSorted(Sort(draining), SweepDrains(full, keep, leased, inUse))
    ensures ListsSorted(Sort(removed), SweepRemoves(full, keep, leased, inUse))
  {
    assert full.Keys - {} == full.Keys;
    DistinctElements(draining, SweepDrains(full, keep, leased, inUse));
    DistinctElements(removed, SweepRemoves(full, keep, leased, inUse));
  }

  /** The state of the reap loop when the ids in `todo` have not been visited. */
  ghost predicate ReapState(before: map<Id, Entry<Adapter>>, todo: set<Id>, leased: set<Id>, inUse: Id -> bool,
                            clients: map<Id, Entry<Adapter>>, dropped: seq<Id>)
  {
    && todo <= before.Keys
    && clients == ReapedBut(before, todo, leased, inUse)
    && NoDuplicates(dropped)
    && forall id :: id in dropped <==> id in Reaped(before, leased, inUse) - todo
  }

  lemma ReapStarts(before: map<Id, Entry<Adapter>>, leased: set<Id>, inUse: Id -> bool)
    ensures ReapState(before, before.Keys, leased, inUse, before, [])
  {
    assert Reaped(before, leased, inUse) - before.Keys == {};
  }

  lemma ReapEnds(before: map<Id, Entry<Adapter>>, leased: set<Id>, inUse: Id -> bool, clients: map<Id, Entry<Adapter>>, dropped: seq<Id>)
    requires ReapState(before, {}, leased, inUse, clients, dropped)
    ensures clients == before - Reaped(before, leased, inUse) && ListsSorted(Sort(dropped), Reaped(before, leased, inUse))
  {
    assert Reaped(before, leased, inUse) - {} == Reaped(before, leased, inUse);
    DistinctElements(dropped, Reaped(before, leased, inUse));
  }

  lemma ReapTurn(before: map<Id, Entry<Adapter>>, todo: set<Id>, leased: set<Id>, inUse: Id -> bool,
                 clients: map<Id, Entry<Adapter>>, dropped: seq<Id>, id: Id)
    requires ReapState(before, todo, leased, inUse, clients, dropped) && id in todo
    ensures id in clients && clients[id] == before[id]
    ensures if clients[id].draining && !Busy(leased, inUse, id) then
              ReapState(before, todo - {id}, leased, inUse, clients - {id}, dropped + [id])
            else
              ReapState(before, todo - {id}, leased, inUse, clients, dropped)
  {
    ReapNext(before, todo, leased, inUse, id);
    NoDuplicatesAppend(dropped, id);
  }

  /** Every entry is valid after a push that puts valid specs into effect. */
  lemma PushedEntryIsValid(rules: Rules, before: map<Id, Entry<Adapter>>, specs: seq<ClientSpec>,
                           leased: set<Id>, inUse: Id -> bool, built: map<Id, Adapter>, id: Id)
    requires ValidClients(before)
    requires Rebuilt(rules, before, Accepted(rules, EnvIds(before), specs, specs)) <= built.Keys
    requires var accepted := Accepted(rules, EnvIds(before), specs, specs); id in accepted ==> accepted[id].id == id
    ensures var env := EnvIds(before);
            var after := AfterPush(rules, before, Accepted(rules, env, specs, specs), ErrorIds(Errors(rules, env, specs, specs)),
                                   leased, inUse, built);
            (id in after ==> ValidEntry(id, after[id])) && (id in before && id in leased ==> id in after)
  {
    var env := EnvIds(before);
    var accepted, failed := Accepted(rules, env, specs, specs), ErrorIds(Errors(rules, env, specs, specs));
    AcceptedIdsAreFree(rules, env, specs);
    PushedEntryCases(rules, before, accepted, failed, leased, inUse, built, id);
  }

  lemma PushedEntryCases(rules: Rules, before: map<Id, Entry<Adapter>>, accepted: map<Id, ClientSpec>, failed: set<Id>,
                         leased: set<Id>, inUse: Id -> bool, built: map<Id, Adapter>, id: Id)
    requires ValidClients(before) && Rebuilt(rules, before, accepted) <= built.Keys
    requires forall k :: k in accepted ==> k !in EnvIds(before) && k !in failed
    requires id in accepted ==> accepted[id].id == id && ValidClientId(id)
    ensures var after := AfterPush(rules, before, accepted, failed, leased, inUse, built);
            (id in after ==> ValidEntry(id, after[id])) && (id in before && id in leased ==> id in after)
  {
    EntriesAfterPush(rules, before, accepted, failed, leased, inUse, built);
    var after := AfterPush(rules, before, accepted, failed, leased, inUse, built);
    if id in accepted {
      assert InEffect(rules, before, after, built, id, accepted[id]);
      assert id !in EnvIds(before);
    } else if id in before {
      assert ValidEntry(id, before[id]);
      if LeftOut(before, accepted, failed, id) {
        assert id in after ==> after[id] == before[id].(draining := true);
      } else {
        assert id in EnvIds(before) || id in failed;
      }
    }
  }

  /** A push keeps the registry well formed, and keeps every leased client. */
  lemma PushKeepsValid(parse: UrlParser, digest: string -> string, before: map<Id, Entry<Adapter>>, specs: seq<ClientSpec>,
                       leased: set<Id>, inUse: Id -> bool, built: map<Id, Adapter>)
    requires ValidClients(before) && Faithful(GatewayRules(parse, digest), ConfigOf(), before) && leased <= before.Keys
    requires Rebuilt(GatewayRules(parse, digest), before, Accepted(GatewayRules(parse, digest), EnvIds(before), specs, specs)) <= built.Keys
    requires BuiltFrom(ConfigOf(), Accepted(GatewayRules(parse, digest), EnvIds(before), specs, specs), built)
    ensures var rules, env := GatewayRules(parse, digest), EnvIds(before);
            var after := AfterPush(rules, before, Accepted(rules, env, specs, specs), ErrorIds(Errors(rules, env, specs, specs)),
                                   leased, inUse, built);
            ValidClients(after) && Faithful(rules, ConfigOf(), after) && leased <= after.Keys
  {
    var rules, env := GatewayRules(parse, digest), EnvIds(before);
    var after := AfterPush(rules, before, Accepted(rules, env, specs, specs), ErrorIds(Errors(rules, env, specs, specs)),
                           leased, inUse, built);
    GatewayPreparesOwnId(parse, digest);
    AcceptedIsPrepared(rules, env, specs);
    forall id ensures (id in after ==> ValidEntry(id, after[id])) && (id in before && id in leased ==> id in after) {
      PushedEntryIsValid(rules, before, specs, leased, inUse, built, id);
    }
    PushKeepsFaithful(rules, ConfigOf(), before, specs, leased, inUse, built);
  }

  /** Dropping idle draining clients keeps the rest as it was, and every leased client. */
  lemma ReapKeepsValid(rules: Rules, before: map<Id, Entry<Adapter>>, leased: set<Id>, inUse: Id -> bool)
    requires ValidClients(before) && Faithful(rules, ConfigOf(), before) && leased <= before.Keys
    ensures var after := before - Reaped(before, leased, inUse);
            ValidClients(after) && Faithful(rules, ConfigOf(), after) && leased <= after.Keys
  {
  }

  /** The whole effect of a push, and what it reports. */
  ghost predicate PushOutcome(rules: Rules, before: map<Id, Entry<Adapter>>, revisionBefore: int, pushed: int, specs: seq<ClientSpec>,
                              leased: set<Id>, inUse: Id -> bool, built: map<Id, Adapter>,
                              after: map<Id, Entry<Adapter>>, revision: int, res: ApplyResult)
  {
    var env := EnvIds(before);
    var accepted, errors := Accepted(rules, env, specs, specs), Errors(rules, env, specs, specs);
    && built.Keys == Rebuilt(rules, before, accepted)
    && after == AfterPush(rules, before, accepted, ErrorIds(errors), leased, inUse, built)
    && revision == (if errors == [] then pushed else revisionBefore) == res.revision
    && res.applied == Applied(rules, env, specs, specs)
    && res.errors == errors
    && BuiltFrom(ConfigOf(), accepted, built)
    && StartedAre(res.started, StartedIds(rules, before, specs, specs), accepted, built)
    && ListsSorted(res.draining, NewlyDraining(before, accepted, ErrorIds(errors), leased, inUse))
    && ListsSorted(res.removed, Removed(before, accepted, ErrorIds(errors), leased, inUse))
  }

  /**
   On any registry the gateway can be in, a push leaves every accepted client running with the pushed
   spec, on the adapter it had exactly when that was built from this very spec.
   */
  lemma AdapterKeptExactlyWhenUnchanged(parse: UrlParser, digest: string -> string, before: map<Id, Entry<Adapter>>, revisionBefore: int,
                                        pushed: int, specs: seq<ClientSpec>, leased: set<Id>, inUse: Id -> bool, built: map<Id, Adapter>,
                                        after: map<Id, Entry<Adapter>>, revision: int, res: ApplyResult)
    requires Injective(digest) && Faithful(GatewayRules(parse, digest), ConfigOf(), before) && BuiltAnew(before, built)
    requires PushOutcome(GatewayRules(parse, digest), before, revisionBefore, pushed, specs, leased, inUse, built, after, revision, res)
    ensures var rules := GatewayRules(parse, digest);
            SpecsRun(rules, ConfigOf(), before, Accepted(rules, EnvIds(before), specs, specs), after)
  {
    GatewayPreparesOwnId(parse, digest);
    GatewayHashSeparates(parse, digest);
    PushedSpecsRun(GatewayRules(parse, digest), ConfigOf(), before, specs, leased, inUse, built);
  }

  /** The started clients accept downloads, and adoption. */
  lemma StartedAreActive(rules: Rules, before: map<Id, Entry<Adapter>>, revisionBefore: int,
                         pushed: int, specs: seq<ClientSpec>, leased: set<Id>, inUse: Id -> bool, built: map<Id, Adapter>,
                         after: map<Id, Entry<Adapter>>, revision: int, res: ApplyResult)
    requires PreparesOwnId(rules)
    requires PushOutcome(rules, before, revisionBefore, pushed, specs, leased, inUse, built, after, revision, res)
    ensures forall c :: c in res.started ==> c.id in after && !after[c.id].draining && ClientOf(after[c.id]) == c
  {
    var env := EnvIds(before);
    var accepted, failed := Accepted(rules, env, specs, specs), ErrorIds(Errors(rules, env, specs, specs));
    AcceptedIdsAreFree(rules, env, specs);
    var ids := StartedIds(rules, before, specs, specs);
    forall c | c in res.started ensures c.id in after && !after[c.id].draining && ClientOf(after[c.id]) == c {
      var i :| 0 <= i < |res.started| && res.started[i] == c;
      AcceptedUnderOwnId(rules, env, specs, ids[i]);
      StartedIsActive(rules, before, accepted, failed, leased, inUse, built, ids[i]);
    }
  }

  lemma StartedIsActive(rules: Rules, before: map<Id, Entry<Adapter>>, accepted: map<Id, ClientSpec>, failed: set<Id>,
                        leased: set<Id>, inUse: Id -> bool, built: map<Id, Adapter>, id: Id)
    requires built.Keys == Rebuilt(rules, before, accepted) && id in built && id in accepted && accepted[id].id == id
    requires forall k :: k in accepted ==> k !in EnvIds(before) && k !in failed
    ensures var c, after := StartedClient(accepted[id], built[id]), AfterPush(rules, before, accepted, failed, leased, inUse, built);
            c.id == id && id in after && !after[id].draining && ClientOf(after[id]) == c
  {
    RebuiltEntry(rules, before, accepted, failed, leased, inUse, built, id);
    ViewOfNewEntry(rules, accepted[id], built[id]);
  }

  lemma ViewOfNewEntry(rules: Rules, s: ClientSpec, adapter: Adapter)
    ensures ClientOf(NewEntry(rules, s, adapter)) == StartedClient(s, adapter)
  {
  }

  /** The entries agree in everything but an adapter that each push built for itself. */
  ghost predicate SameButBuilt(after1: map<Id, Entry<Adapter>>, built1: map<Id, Adapter>,
                               after2: map<Id, Entry<Adapter>>, built2: map<Id, Adapter>)
  {
    && after1.Keys == after2.Keys
    && forall id :: id in after1 ==>
         if id in built1 && id in built2 then after1[id] == after2[id].(adapter := built1[id]) && after2[id].adapter == built2[id]
         else after1[id] == after2[id]
  }

  /** Pushing the same specs in another order gives the same registry up to the adapters built, and the same report. */
  lemma PushOrderDoesNotMatter(rules: Rules, before: map<Id, Entry<Adapter>>, revisionBefore: int, pushed: int,
                               specs: seq<ClientSpec>, other: seq<ClientSpec>, leased: set<Id>, inUse: Id -> bool,
                               built1: map<Id, Adapter>, after1: map<Id, Entry<Adapter>>, revision1: int, res1: ApplyResult,
                               built2: map<Id, Adapter>, after2: map<Id, Entry<Adapter>>, revision2: int, res2: ApplyResult)
    requires multiset(specs) == multiset(other)
    requires PushOutcome(rules, before, revisionBefore, pushed, specs, leased, inUse, built1, after1, revision1, res1)
    requires PushOutcome(rules, before, revisionBefore, pushed, other, leased, inUse, built2, after2, revision2, res2)
    ensures SameButBuilt(after1, built1, after2, built2) && built1.Keys == built2.Keys
    ensures revision1 == revision2 == res1.revision == res2.revision
    ensures multiset(res1.applied) == multiset(res2.applied) && (forall e :: e in res1.errors <==> e in res2.errors)
    ensures res1.draining == res2.draining && res1.removed == res2.removed
  {
    OrderDoesNotMatter(rules, before, specs, other, leased, inUse, built1);
    var env := EnvIds(before);
    var accepted, failed := Accepted(rules, env, specs, specs), ErrorIds(Errors(rules, env, specs, specs));
    OtherAdapters(rules, before, accepted, failed, leased, inUse, built1, built2);
    SortedUnique(res1.draining, res2.draining);
    SortedUnique(res1.removed, res2.removed);
  }

  lemma OtherAdapters(rules: Rules, before: map<Id, Entry<Adapter>>, accepted: map<Id, ClientSpec>, failed: set<Id>,
                      leased: set<Id>, inUse: Id -> bool, built1: map<Id, Adapter>, built2: map<Id, Adapter>)
    requires built1.Keys == Rebuilt(rules, before, accepted) && built2.Keys == Rebuilt(rules, before, accepted)
    ensures SameButBuilt(AfterPush(rules, before, accepted, failed, leased, inUse, built1), built1,
                         AfterPush(rules, before, accepted, failed, leased, inUse, built2), built2)
  {
  }

  /** Repeating a push starts, drains and removes nothing, keeps every entry with its adapter, and reports the same. */
  lemma RepeatedPushChangesNothing(rules: Rules, before: map<Id, Entry<Adapter>>, revisionBefore: int, pushed: int, specs: seq<ClientSpec>,
                                   leased: set<Id>, inUse: Id -> bool,
                                   built1: map<Id, Adapter>, after1: map<Id, Entry<Adapter>>, revision1: int, res1: ApplyResult,
                                   built2: map<Id, Adapter>, after2: map<Id, Entry<Adapter>>, revision2: int, res2: ApplyResult)
    requires PushOutcome(rules, before, revisionBefore, pushed, specs, leased, inUse, built1, after1, revision1, res1)
    requires PushOutcome(rules, after1, revision1, pushed, specs, leased, inUse, built2, after2, revision2, res2)
    ensures after2 == after1 && revision2 == revision1
    ensures res2 == res1.(started := [], draining := [], removed := [])
  {
    PushIsFixedPoint(rules, before, specs, leased, inUse, built1, built2);
    StartedMeaning(rules, after1, specs, specs);
    assert |res2.started| == 0 by { NothingIn(StartedIds(rules, after1, specs, specs)); }
    EmptyListing(res2.draining);
    EmptyListing(res2.removed);
  }

  lemma NothingIn(s: seq<Id>)
    ensures (forall x :: x !in s) ==> s == []
  {
    if s != [] {
      assert s[0] in s;
    }
  }

  lemma EmptyListing(r: seq<string>)
    ensures ListsSorted(r, {}) ==> r == []
  {
    if r != [] {
      assert r[0] in multiset(r);
    }
  }

  /** What AddEnv lists for an environment client: the adapter's name fills a missing id or type. */
  function EnvSpec(spec: ClientSpec, name: string): (s: ClientSpec)
    ensures s.id == (if spec.id == "" then name else spec.id) && s.kind == (if spec.kind == "" then name else spec.kind)
    ensures spec.protocols == [] && LookupType(s.kind).Some? ==> s.protocols == LookupType(s.kind).value.protocols
    ensures spec.protocols != [] || LookupType(s.kind).None? ==> s.protocols == spec.protocols
    ensures s.(id := spec.id, kind := spec.kind, protocols := spec.protocols) == spec
  {
    var kind := if spec.kind == "" then name else spec.kind;
    var info := LookupType(kind);
    spec.(id := if spec.id == "" then name else spec.id, kind := kind,
          protocols := if |spec.protocols| == 0 && info.Some? then info.value.protocols else spec.protocols)
  }

  class Registry {
    const parse: UrlParser             // url.Parse
    const digest: string -> string     // SHA-256
    var clients: map<Id, Entry<Adapter>>
    var leases: map<Id, int>
    var revision: int
    ghost var open: set<Lease>   // the leases not released yet

    ghost predicate ClientsValid()
      reads this`clients
    {
      ValidClients(clients) && Faithful(PushRules(), ConfigOf(), clients)
    }

    ghost predicate LeasesValid()
      reads this`leases, this`open, open
    {
      Counts(leases, open) && forall h :: h in open ==> !h.released
    }

    /** In particular, a leased client stays registered. */
    ghost predicate Valid()
      reads this, open
    {
      ClientsValid() && LeasesValid() && leases.Keys <= clients.Keys
    }

    function PushRules(): Rules {
      GatewayRules(parse, digest)
    }

    constructor (parse: UrlParser, digest: string -> string)
      ensures Valid() && clients == map[] && leases == map[] && revision == 0 && open == {}
      ensures this.parse == parse && this.digest == digest
    {
      this.parse, this.digest := parse, digest;
      clients, leases, revision, open := map[], map[], 0, {};
    }

    /** Registers a client configured in the environment, under its adapter's name when the spec has no id. */
    method AddEnv(spec: ClientSpec, ad: Adapter)
      requires Valid()
      modifies this`clients
      ensures Valid()
      ensures var s := EnvSpec(spec, ad.name);
              clients == old(clients)[s.id := Entry(s.(secret := ""), spec.secret != "", Env, ad, "", false)]
    {
      var s := EnvSpec(spec, ad.name);
      clients := clients[s.id := Entry(s.(secret := ""), s.secret != "", Env, ad, "", false)];
    }

    /** The client for an id, draining ones included. */
    method Lookup(id: Id) returns (r: Option<Client>)
      ensures r.Some? <==> id in clients
      ensures r.Some? ==>
                var c, e := r.value, clients[id];
                && c.id == e.spec.id && c.kind == e.spec.kind && c.source == e.source
                && c.category == e.spec.category && c.savePath == e.spec.savePath && c.adapter == e.adapter
    {
      if id in clients {
        r := Some(ClientOf(clients[id]));
      } else {
        r := None;
      }
    }

    /** Counts one more lease. */
    method Hold(id: Id) returns (lease: Lease)
      requires LeasesValid()
      modifies this`leases, this`open
      ensures LeasesValid() && leases.Keys == old(leases.Keys) + {id}
      ensures fresh(lease) && lease.id == id && open == old(open) + {lease}
    {
      lease := new Lease(id);
      CountsAcquire(leases, open, lease);
      leases := leases[id := (if id in leases then leases[id] else 0) + 1];
      open := open + {lease};
    }

    /** Pins a client that accepts downloads. */
    method Acquire(id: Id) returns (r: Result<Client, LeaseError>, lease: Lease?)
      requires Valid()
      modifies this`leases, this`open
      ensures Valid()
      ensures r == if id !in clients then Failure(UnknownClient) else if clients[id].draining then Failure(ClientDraining)
                   else Success(ClientOf(clients[id]))
      ensures r.Success? ==>
                var c, e := r.value, clients[id];
                && c.id == e.spec.id && c.kind == e.spec.kind && c.source == e.source
                && c.category == e.spec.category && c.savePath == e.spec.savePath && c.adapter == e.adapter
      ensures r.Failure? ==> lease == null && leases == old(leases) && open == old(open)
      ensures r.Success? ==> lease != null && fresh(lease) && lease.id == id && open == old(open) + {lease}
    {
      if id !in clients {
        return Failure(UnknownClient), null;
      }
      if clients[id].draining {
        return Failure(ClientDraining), null;
      }
      lease := Hold(id);
      r := Success(ClientOf(clients[id]));
    }

    /** Counts one lease less, and forgets an id without leases. */
    method LetGo(h: Lease)
      requires LeasesValid() && h in open
      modifies this`leases, this`open, h
      ensures LeasesValid() && leases.Keys <= old(leases.Keys)
      ensures h.released && open == old(open) - {h}
    {
      CountsRelease(leases, open, h);
      h.released := true;
      open := open - {h};
      leases := leases[h.id := leases[h.id] - 1];
      if leases[h.id] <= 0 {
        leases := leases - {h.id};
      }
    }

    /** The release func of a lease: the first call gives the lease back, later ones do nothing. */
    method Release(h: Lease)
      requires Valid() && (!h.released ==> h in open)
      modifies this`leases, this`open, h
      ensures Valid()
      ensures h.released && open == old(open) - {h}
      ensures old(h.released) ==> leases == old(leases)
    {
      if !h.released {
        LetGo(h);
      }
    }

    /** The ids of the clients that accept downloads, sorted. */
    method Names() returns (names: seq<Id>)
      ensures ListsSorted(names, set id | id in clients && !clients[id].draining)
    {
      var found: seq<Id> := [];
      var todo := clients.Keys;
      while todo != {}
        invariant todo <= clients.Keys
        invariant NoDuplicates(found)
        invariant forall id :: id in found <==> id in clients && id !in todo && !clients[id].draining
      {
        var id :| id in todo;
        if !clients[id].draining {
          NoDuplicatesAppend(found, id);
          found := found + [id];
        }
        todo := todo - {id};
      }
      DistinctElements(found, set id | id in clients && !clients[id].draining);
      return Sort(found);
    }

    method CountIds(specs: seq<ClientSpec>) returns (counts: map<Id, nat>)
      ensures forall id :: (if id in counts then counts[id] else 0) == Count(specs, id)
    {
      counts := map[];
      for i := 0 to |specs|
        invariant forall id :: (if id in counts then counts[id] else 0) == Count(specs[..i], id)
      {
        var id := IdOf(specs[i]);
        assert specs[..i + 1][..i] == specs[..i];
        counts := counts[id := (if id in counts then counts[id] else 0) + 1];
      }
      assert specs[..|specs|] == specs;
    }

    /** What the push makes of one spec; the checks run in the order the registry makes them. */
    method JudgeSpec(specs: seq<ClientSpec>, counts: map<Id, nat>, ghost env: set<Id>, raw: ClientSpec) returns (v: Verdict)
      requires forall id :: (if id in counts then counts[id] else 0) == Count(specs, id)
      requires IdOf(raw) in env <==> IdOf(raw) in clients && clients[IdOf(raw)].source.Env?
      ensures v == Judge(PushRules(), env, specs, raw)
    {
      var id := IdOf(raw);
      if !ValidClientId(id) {
        return Reject(BadId);
      }
      if id in counts && counts[id] > 1 {
        return Reject(Duplicate);
      }
      if id in clients && clients[id].source.Env? {
        return Reject(EnvOwned);
      }
      var prepared := PrepareSpec(parse, raw);
      match prepared {
        case Failure(e) => return Reject(BadSpec(e));
        case Success(s) => return Accept(s);
      }
    }

    method Hash(spec: ClientSpec) returns (hash: string)
      ensures hash == PushRules().hash(spec)
    {
      var hashed := SpecHash(spec);
      hash := digest(hashed);
    }

    /** Puts an accepted spec into effect: keeps the running adapter under an equal hash, builds one otherwise. */
    method TakeAccepted(ghost env: set<Id>, ghost before: map<Id, Entry<Adapter>>, specs: seq<ClientSpec>, i: nat, spec: ClientSpec,
                        ghost applied: seq<Id>, ghost errors: seq<ApplyError>, started: seq<Client>, ghost keep: set<Id>,
                        ghost built: map<Id, Adapter>)
      returns (startedNow: seq<Client>, ghost builtNow: map<Id, Adapter>)
      requires i < |specs| && Progress(PushRules(), env, before, specs, specs[..i], clients, applied, errors, started, keep, built)
      requires Judge(PushRules(), env, specs, specs[i]) == Accept(spec)
      modifies this`clients
      ensures var id := IdOf(specs[i]);
              Progress(PushRules(), env, before, specs, specs[..i + 1], clients, applied + [id], errors, startedNow, keep + {id}, builtNow)
      ensures forall id :: id in builtNow ==> (id in built && builtNow[id] == built[id]) || fresh(builtNow[id])
    {
      var id := IdOf(specs[i]);
      ghost var rules := PushRules();
      SameEntryBefore(rules, env, before, specs, i, clients, built);
      var hash := Hash(spec);
      startedNow, builtNow := started, built;
      if id in clients && clients[id].hash == hash {
        ProgressKeep(rules, env, before, specs, i, clients, applied, errors, started, keep, built, spec);
        clients := clients[id := clients[id].(draining := false)];
      } else {
        var adapter := new Adapter(spec.kind, spec);
        ProgressBuild(rules, env, before, specs, i, clients, applied, errors, started, keep, built, spec, adapter);
        var entry := Entry(spec.(secret := ""), spec.secret != "", Api, adapter, hash, false);
        clients := clients[id := entry];
        startedNow := started + [ClientOf(entry)];
        builtNow := built[id := adapter];
      }
    }

    /** Reports a refused spec, unless its id was reported already, and keeps what runs under its id. */
    method TakeRejected(ghost env: set<Id>, ghost before: map<Id, Entry<Adapter>>, specs: seq<ClientSpec>, i: nat, reason: Reason,
                        ghost applied: seq<Id>, errors: seq<ApplyError>, ghost started: seq<Client>, keep: set<Id>,
                        ghost built: map<Id, Adapter>)
      returns (errorsNow: seq<ApplyError>, keepNow: set<Id>)
      requires i < |specs| && Progress(PushRules(), env, before, specs, specs[..i], clients, applied, errors, started, keep, built)
      requires Judge(PushRules(), env, specs, specs[i]) == Reject(reason)
      ensures Progress(PushRules(), env, before, specs, specs[..i + 1], clients, applied, errorsNow, started, keepNow, built)
    {
      var id := IdOf(specs[i]);
      ghost var rules := PushRules();
      SameEntryBefore(rules, env, before, specs, i, clients, built);
      ProgressReject(rules, env, before, specs, i, clients, applied, errors, started, keep, built, reason);
      errorsNow, keepNow := errors, keep;
      if id !in ErrorIds(errors) {
        errorsNow := errors + [ApplyError(id, reason)];
        if id in clients && clients[id].source.Api? {
          keepNow := keep + {id};
        }
      }
    }

    /** The first loop of a push: puts every accepted spec into effect and reports the others. */
    method AcceptSpecs(specs: seq<ClientSpec>)
      returns (applied: seq<Id>, errors: seq<ApplyError>, started: seq<Client>, keep: set<Id>, ghost built: map<Id, Adapter>)
      requires ValidClients(clients)
      modifies this`clients
      ensures Progress(PushRules(), EnvIds(old(clients)), old(clients), specs, specs, clients, applied, errors, started, keep, built)
      ensures forall id :: id in built ==> fresh(built[id])
    {
      ghost var env, before, rules := EnvIds(clients), clients, PushRules();
      var counts := CountIds(specs);
      applied, errors, started, keep, built := [], [], [], {}, map[];
      assert WithAccepted(rules, before, map[], built) == before;
      for i := 0 to |specs|
        invariant Progress(rules, env, before, specs, specs[..i], clients, applied, errors, started, keep, built)
        invariant forall id :: id in built ==> fresh(built[id])
      {
        var id := IdOf(specs[i]);
        SameEntryBefore(rules, env, before, specs, i, clients, built);
        var v := JudgeSpec(specs, counts, env, specs[i]);
        match v {
          case Reject(reason) =>
            errors, keep := TakeRejected(env, before, specs, i, reason, applied, errors, started, keep, built);
          case Accept(spec) =>
            started, built := TakeAccepted(env, before, specs, i, spec, applied, errors, started, keep, built);
            keep := keep + {id};
            applied := applied + [id];
        }
      }
      assert specs[..|specs|] == specs;
    }

    /** The second loop of a push: drains or removes every API client that is not kept, in any order. */
    method SweepOut(keep: set<Id>, inUse: Id -> bool) returns (draining: seq<Id>, removed: seq<Id>)
      requires Counts(leases, open)
      modifies this`clients
      ensures clients == Swept(old(clients), keep, old(clients.Keys), leases.Keys, inUse)
      ensures ListsSorted(draining, SweepDrains(old(clients), keep, leases.Keys, inUse))
      ensures ListsSorted(removed, SweepRemoves(old(clients), keep, leases.Keys, inUse))
    {
      ghost var full, leased := clients, leases.Keys;
      draining, removed := [], [];
      var todo := clients.Keys;
      SweepStarts(full, keep, leased, inUse);
      while todo != {}
        invariant SweepState(full, keep, todo, leased, inUse, clients, draining, removed)
      {
        var id :| id in todo;
        SweepTurn(full, keep, todo, leased, inUse, clients, draining, removed, id);
        todo := todo - {id};
        if clients[id].source.Api? && id !in keep {
          if (id in leases && leases[id] > 0) || inUse(id) {
            if !clients[id].draining {
              clients := clients[id := clients[id].(draining := true)];
              draining := draining + [id];
            }
          } else {
            clients := clients - {id};
            removed := removed + [id];
          }
        }
      }
      SweepEnds(full, keep, leased, inUse, clients, draining, removed);
      draining, removed := Sort(draining), Sort(removed);
    }

    /** Atomically replaces every API client with the pushed set. */
    method Apply(pushed: int, specs: seq<ClientSpec>, inUse: Id -> bool) returns (res: ApplyResult, ghost built: map<Id, Adapter>)
      requires Valid()
      modifies this`clients, this`revision
      ensures Valid()
      ensures BuiltAnew(old(clients), built) && forall id :: id in built ==> fresh(built[id])
      ensures PushOutcome(PushRules(), old(clients), old(revision), pushed, specs, leases.Keys, inUse, built, clients, revision, res)
      // what runs is what was pushed, on the old adapter exactly when that was built from the same spec
      ensures Injective(digest) ==>
                SpecsRun(PushRules(), ConfigOf(), old(clients), Accepted(PushRules(), EnvIds(old(clients)), specs, specs), clients)
    {
      ghost var before := clients;
      var applied, errors, started, keep;
      applied, errors, started, keep, built := AcceptSpecs(specs);
      var draining, removed := SweepOut(keep, inUse);
      ghost var revisionBefore := revision;
      if errors == [] {
        revision := pushed;
      }
      res := ApplyResult(revision, applied, errors, started, draining, removed);
      PushOutcomeHolds(PushRules(), before, revisionBefore, pushed, specs, keep, leases.Keys, inUse, built, clients, res);
      PushKeepsValid(parse, digest, before, specs, leases.Keys, inUse, built);
      if Injective(digest) {
        AdapterKeptExactlyWhenUnchanged(parse, digest, before, revisionBefore, pushed, specs, leases.Keys, inUse, built, clients, revision, res);
      }
    }

    /** Drops draining clients that have neither a lease nor, per inUse, a tracked job. */
    method Reap(inUse: Id -> bool) returns (dropped: seq<Id>)
      requires Valid()
      modifies this`clients
      ensures Valid()
      ensures clients == old(clients) - Reaped(old(clients), leases.Keys, inUse)
      ensures ListsSorted(dropped, Reaped(old(clients), leases.Keys, inUse))
    {
      ghost var before := clients;
      var todo := clients.Keys;
      dropped := [];
      ReapStarts(before, leases.Keys, inUse);
      while todo != {}
        invariant ReapState(before, todo, leases.Keys, inUse, clients, dropped)
      {
        var id :| id in todo;
        ReapTurn(before, todo, leases.Keys, inUse, clients, dropped, id);
        todo := todo - {id};
        if clients[id].draining && !(id in leases && leases[id] > 0) && !inUse(id) {
          clients := clients - {id};
          dropped := dropped + [id];
        }
      }
      ReapEnds(before, leases.Keys, inUse, clients, dropped);
      ReapKeepsValid(PushRules(), before, leases.Keys, inUse);
      dropped := Sort(dropped);
    }
  }
}
