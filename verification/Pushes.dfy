/** What a push does with the spec at each position, and what its report says, in terms of the push and the registry alone. */
module Pushes {
  import opened Outcomes
  import opened Text
  import opened ClientSpecs
  import opened RegistryRules
  import opened Registries

  /** No other position of the push names the same id. */
  ghost predicate Alone(specs: seq<ClientSpec>, i: nat)
    requires i < |specs|
  {
    forall j :: 0 <= j < |specs| && j != i ==> TrimSpace(specs[j].id) != TrimSpace(specs[i].id)
  }

  ghost predicate EnvOwns<A>(clients: map<Id, Entry<A>>, id: Id) {
    id in clients && clients[id].source.Env?
  }

  lemma SharedIsCounted(specs: seq<ClientSpec>, i: nat, j: nat)
    requires i < |specs| && j < |specs| && i != j && IdOf(specs[i]) == IdOf(specs[j])
    ensures Count(specs, IdOf(specs[i])) > 1
  {
    if i < j { CountTwice(specs, i, j); } else { CountTwice(specs, j, i); }
  }

  lemma CountedIsShared(specs: seq<ClientSpec>, i: nat) returns (j: nat)
    requires i < |specs| && Count(specs, IdOf(specs[i])) > 1
    ensures j < |specs| && j != i && IdOf(specs[j]) == IdOf(specs[i])
  {
    var id, rest := IdOf(specs[i]), specs[..i] + specs[i + 1..];
    CountWithout(specs, i, id);
    CountPositive(rest, id);
    var raw :| raw in rest && IdOf(raw) == id;
    var k :| 0 <= k < |rest| && rest[k] == raw;
    j := if k < i then k else k + 1;
    assert specs[j] == rest[k];
  }

  lemma CountedTwice(specs: seq<ClientSpec>, i: nat)
    requires i < |specs|
    ensures Count(specs, IdOf(specs[i])) > 1 <==> !Alone(specs, i)
  {
    if Count(specs, IdOf(specs[i])) > 1 {
      var j := CountedIsShared(specs, i);
    }
    if j :| 0 <= j < |specs| && j != i && TrimSpace(specs[j].id) == TrimSpace(specs[i].id) {
      SharedIsCounted(specs, i, j);
    }
  }

  /** The verdict on the spec at a position. */
  lemma JudgedByPosition<A>(rules: Rules, clients: map<Id, Entry<A>>, specs: seq<ClientSpec>, i: nat)
    requires i < |specs|
    ensures var id := TrimSpace(specs[i].id);
            Judge(rules, EnvIds(clients), specs, specs[i]) ==
            if !ValidClientId(id) then Reject(BadId)
            else if !Alone(specs, i) then Reject(Duplicate)
            else if EnvOwns(clients, id) then Reject(EnvOwned)
            else match rules.prepare(specs[i]) case Failure(e) => Reject(BadSpec(e)) case Success(s) => Accept(s)
  {
    CountedTwice(specs, i);
  }

  /** Specs at different positions that name the same id get the same verdict but for what PrepareSpec says. */
  lemma SameIdSameVerdict<A>(rules: Rules, clients: map<Id, Entry<A>>, specs: seq<ClientSpec>, i: nat, j: nat)
    requires i < |specs| && j < |specs| && TrimSpace(specs[i].id) == TrimSpace(specs[j].id)
    ensures Judge(rules, EnvIds(clients), specs, specs[i]) == Judge(rules, EnvIds(clients), specs, specs[j])
  {
    JudgedByPosition(rules, clients, specs, i);
    JudgedByPosition(rules, clients, specs, j);
  }

  lemma AppliedAtPosition<A>(rules: Rules, clients: map<Id, Entry<A>>, specs: seq<ClientSpec>, i: nat)
    requires i < |specs|
    ensures var env := EnvIds(clients);
            TrimSpace(specs[i].id) in Applied(rules, env, specs, specs) <==> Judge(rules, env, specs, specs[i]).Accept?
  {
    var env, id := EnvIds(clients), TrimSpace(specs[i].id);
    AppliedMeaning(rules, env, specs, specs);
    assert specs[i] in specs;
    if Accepts(rules, env, specs, specs, id) {
      var raw :| raw in specs && IdOf(raw) == id && Judge(rules, env, specs, raw).Accept?;
      var j :| 0 <= j < |specs| && specs[j] == raw;
      SameIdSameVerdict(rules, clients, specs, i, j);
    }
  }

  lemma ErrorAtPosition<A>(rules: Rules, clients: map<Id, Entry<A>>, specs: seq<ClientSpec>, i: nat, reason: Reason)
    requires i < |specs|
    ensures var env := EnvIds(clients);
            ApplyError(TrimSpace(specs[i].id), reason) in Errors(rules, env, specs, specs)
            <==> Judge(rules, env, specs, specs[i]) == Reject(reason)
  {
    var env, e := EnvIds(clients), ApplyError(TrimSpace(specs[i].id), reason);
    ErrorsMeaning(rules, env, specs, specs);
    assert specs[i] in specs;
    if Refuses(rules, env, specs, specs, e) {
      var raw :| raw in specs && IdOf(raw) == e.id && Judge(rules, env, specs, raw) == Reject(e.reason);
      var j :| 0 <= j < |specs| && specs[j] == raw;
      SameIdSameVerdict(rules, clients, specs, i, j);
    }
  }

  /**
   The spec at any position is applied exactly when its id is valid, named at no other position and not
   the environment's, and the spec itself is valid; otherwise the reason reported is the first that fails.
   */
  lemma EverySpecIsAnswered(rules: Rules, before: map<Id, Entry<Adapter>>, revisionBefore: int, pushed: int, specs: seq<ClientSpec>,
                            leased: set<Id>, inUse: Id -> bool, built: map<Id, Adapter>,
                            after: map<Id, Entry<Adapter>>, revision: int, res: ApplyResult, i: nat)
    requires i < |specs|
    requires PushOutcome(rules, before, revisionBefore, pushed, specs, leased, inUse, built, after, revision, res)
    ensures var id := TrimSpace(specs[i].id);
            && (id in res.applied <==>
                  ValidClientId(id) && Alone(specs, i) && !EnvOwns(before, id) && rules.prepare(specs[i]).Success?)
            && (ApplyError(id, BadId) in res.errors <==> !ValidClientId(id))
            && (ApplyError(id, Duplicate) in res.errors <==> ValidClientId(id) && !Alone(specs, i))
            && (ApplyError(id, EnvOwned) in res.errors <==> ValidClientId(id) && Alone(specs, i) && EnvOwns(before, id))
    ensures var id := TrimSpace(specs[i].id);
            forall e :: ApplyError(id, BadSpec(e)) in res.errors <==>
              ValidClientId(id) && Alone(specs, i) && !EnvOwns(before, id) && rules.prepare(specs[i]) == Failure(e)
  {
    JudgedByPosition(rules, before, specs, i);
    AppliedAtPosition(rules, before, specs, i);
    ErrorAtPosition(rules, before, specs, i, BadId);
    ErrorAtPosition(rules, before, specs, i, Duplicate);
    ErrorAtPosition(rules, before, specs, i, EnvOwned);
    var id := TrimSpace(specs[i].id);
    forall e
      ensures ApplyError(id, BadSpec(e)) in res.errors <==>
                ValidClientId(id) && Alone(specs, i) && !EnvOwns(before, id) && rules.prepare(specs[i]) == Failure(e)
    {
      ErrorAtPosition(rules, before, specs, i, BadSpec(e));
    }
  }

  /** Nothing is reported but what was pushed: every id comes from some position, and once only. */
  lemma OnlySpecsAreAnswered(rules: Rules, before: map<Id, Entry<Adapter>>, revisionBefore: int, pushed: int, specs: seq<ClientSpec>,
                             leased: set<Id>, inUse: Id -> bool, built: map<Id, Adapter>,
                             after: map<Id, Entry<Adapter>>, revision: int, res: ApplyResult)
    requires PushOutcome(rules, before, revisionBefore, pushed, specs, leased, inUse, built, after, revision, res)
    ensures forall id :: id in res.applied ==> exists i :: 0 <= i < |specs| && TrimSpace(specs[i].id) == id
    ensures forall e :: e in res.errors ==> exists i :: 0 <= i < |specs| && TrimSpace(specs[i].id) == e.id
    ensures NoDuplicates(res.applied) && forall i, j :: 0 <= i < j < |res.errors| ==> res.errors[i].id != res.errors[j].id
  {
    var env := EnvIds(before);
    AppliedAndFailedPartition(rules, env, specs);
    forall id | id in res.applied || id in ErrorIds(res.errors) ensures exists i :: 0 <= i < |specs| && TrimSpace(specs[i].id) == id {
      var raw :| raw in specs && IdOf(raw) == id;
      var i :| 0 <= i < |specs| && specs[i] == raw;
    }
    forall e | e in res.errors ensures exists i :: 0 <= i < |specs| && TrimSpace(specs[i].id) == e.id {
      assert e.id in ErrorIds(res.errors);
    }
  }

  /** A good spec runs after the push: listed as prepared without its secret, active, on an adapter built from it. */
  lemma GoodSpecRuns(parse: UrlParser, digest: string -> string, before: map<Id, Entry<Adapter>>, revisionBefore: int,
                     pushed: int, specs: seq<ClientSpec>, leased: set<Id>, inUse: Id -> bool, built: map<Id, Adapter>,
                     after: map<Id, Entry<Adapter>>, revision: int, res: ApplyResult, i: nat)
    requires i < |specs| && Injective(digest) && Faithful(GatewayRules(parse, digest), ConfigOf(), before) && BuiltAnew(before, built)
    requires PushOutcome(GatewayRules(parse, digest), before, revisionBefore, pushed, specs, leased, inUse, built, after, revision, res)
    requires var id := TrimSpace(specs[i].id);
             ValidClientId(id) && Alone(specs, i) && !EnvOwns(before, id) && Prepared(parse, specs[i]).Success?
    ensures var id, s := TrimSpace(specs[i].id), Prepared(parse, specs[i]).value;
            && id in after && after[id].source.Api? && !after[id].draining
            && after[id].spec == s.(secret := "") && after[id].secretSet == (s.secret != "") && after[id].adapter.config == s
  {
    var rules, id := GatewayRules(parse, digest), TrimSpace(specs[i].id);
    JudgedByPosition(rules, before, specs, i);
    AcceptedMeaning(rules, EnvIds(before), specs, specs);
    AcceptedValue(rules, EnvIds(before), specs, specs, specs[i]);
    AdapterKeptExactlyWhenUnchanged(parse, digest, before, revisionBefore, pushed, specs, leased, inUse, built, after, revision, res);
    assert RunsWith(rules, ConfigOf(), after, id, Accepted(rules, EnvIds(before), specs, specs)[id]);
  }

  /** The report against the registry before and after: exactly the clients that left, that began to drain, and that got an adapter. */
  lemma ReportsAreExact(rules: Rules, before: map<Id, Entry<Adapter>>, revisionBefore: int, pushed: int, specs: seq<ClientSpec>,
                        leased: set<Id>, inUse: Id -> bool, built: map<Id, Adapter>,
                        after: map<Id, Entry<Adapter>>, revision: int, res: ApplyResult)
    requires PushOutcome(rules, before, revisionBefore, pushed, specs, leased, inUse, built, after, revision, res)
    ensures forall id :: id in res.removed <==> id in before && id !in after
    ensures forall id :: id in res.draining <==> id in before && !before[id].draining && id in after && after[id].draining
    ensures Sorted(res.removed) && Sorted(res.draining)
    ensures revision == res.revision == if res.errors == [] then pushed else revisionBefore
  {
    var env := EnvIds(before);
    var accepted, failed := Accepted(rules, env, specs, specs), ErrorIds(Errors(rules, env, specs, specs));
    AcceptedIdsAreFree(rules, env, specs);
    EntriesAfterPush(rules, before, accepted, failed, leased, inUse, built);
    forall id ensures id in res.removed <==> id in before && id !in after {
      ReportedId(rules, before, accepted, failed, leased, inUse, built, id);
      assert id in res.removed <==> id in multiset(res.removed);
    }
    forall id ensures id in res.draining <==> id in before && !before[id].draining && id in after && after[id].draining {
      ReportedId(rules, before, accepted, failed, leased, inUse, built, id);
      assert id in res.draining <==> id in multiset(res.draining);
    }
  }

  lemma ReportedId(rules: Rules, before: map<Id, Entry<Adapter>>, accepted: map<Id, ClientSpec>, failed: set<Id>,
                   leased: set<Id>, inUse: Id -> bool, built: map<Id, Adapter>, id: Id)
    requires Rebuilt(rules, before, accepted) <= built.Keys
    requires forall k :: k in accepted ==> k !in EnvIds(before) && k !in failed
    ensures var after := AfterPush(rules, before, accepted, failed, leased, inUse, built);
            && (id in Removed(before, accepted, failed, leased, inUse) <==> id in before && id !in after)
            && (id in NewlyDraining(before, accepted, failed, leased, inUse)
                <==> id in before && !before[id].draining && id in after && after[id].draining)
  {
    EntriesAfterPush(rules, before, accepted, failed, leased, inUse, built);
    var after := AfterPush(rules, before, accepted, failed, leased, inUse, built);
    if id in accepted {
      assert InEffect(rules, before, after, built, id, accepted[id]);
    }
  }

  /** A client is reported as started exactly when it now runs on an adapter it did not have. */
  lemma StartedExactlyWhenNew(rules: Rules, before: map<Id, Entry<Adapter>>, revisionBefore: int, pushed: int, specs: seq<ClientSpec>,
                              leased: set<Id>, inUse: Id -> bool, built: map<Id, Adapter>,
                              after: map<Id, Entry<Adapter>>, revision: int, res: ApplyResult, id: Id)
    requires PreparesOwnId(rules) && BuiltAnew(before, built)
    requires PushOutcome(rules, before, revisionBefore, pushed, specs, leased, inUse, built, after, revision, res)
    ensures (exists c :: c in res.started && c.id == id)
       <==> id in after && (id !in before || after[id].adapter != before[id].adapter)
  {
    var env := EnvIds(before);
    var accepted, failed := Accepted(rules, env, specs, specs), ErrorIds(Errors(rules, env, specs, specs));
    AcceptedIdsAreFree(rules, env, specs);
    StartedMeaning(rules, before, specs, specs);
    StartedListed(rules, before, accepted, built, res.started, StartedIds(rules, before, specs, specs), env, specs, id);
    AdapterOfId(rules, before, accepted, failed, leased, inUse, built, id);
  }

  lemma StartedListed(rules: Rules, before: map<Id, Entry<Adapter>>, accepted: map<Id, ClientSpec>, built: map<Id, Adapter>,
                      started: seq<Client>, ids: seq<Id>, env: set<Id>, specs: seq<ClientSpec>, id: Id)
    requires PreparesOwnId(rules) && accepted == Accepted(rules, env, specs, specs) && StartedAre(started, ids, accepted, built)
    ensures (exists c :: c in started && c.id == id) <==> id in ids
  {
    if c :| c in started && c.id == id {
      var i :| 0 <= i < |started| && started[i] == c;
      AcceptedUnderOwnId(rules, env, specs, ids[i]);
    }
    if id in ids {
      var i :| 0 <= i < |ids| && ids[i] == id;
      AcceptedUnderOwnId(rules, env, specs, id);
      assert started[i] in started && started[i].id == id;
    }
  }

  lemma AdapterOfId(rules: Rules, before: map<Id, Entry<Adapter>>, accepted: map<Id, ClientSpec>, failed: set<Id>,
                    leased: set<Id>, inUse: Id -> bool, built: map<Id, Adapter>, id: Id)
    requires built.Keys == Rebuilt(rules, before, accepted) && BuiltAnew(before, built)
    requires forall k :: k in accepted ==> k !in EnvIds(before) && k !in failed
    ensures var after := AfterPush(rules, before, accepted, failed, leased, inUse, built);
            id in built <==> id in after && (id !in before || after[id].adapter != before[id].adapter)
  {
    EntriesAfterPush(rules, before, accepted, failed, leased, inUse, built);
    var after := AfterPush(rules, before, accepted, failed, leased, inUse, built);
    if id in accepted {
      assert InEffect(rules, before, after, built, id, accepted[id]);
    } else if id in after {
      assert id in before;
      assert LeftOut(before, accepted, failed, id) || after[id] == before[id];
    }
  }

  /**
   A client that was there: the environment's and those the push reports an error for stay exactly as they are; an
   API client that no position names is draining afterwards when it is leased or in use, and gone otherwise.
   */
  lemma OtherClients(rules: Rules, before: map<Id, Entry<Adapter>>, revisionBefore: int, pushed: int, specs: seq<ClientSpec>,
                     leased: set<Id>, inUse: Id -> bool, built: map<Id, Adapter>,
                     after: map<Id, Entry<Adapter>>, revision: int, res: ApplyResult, id: Id)
    requires PushOutcome(rules, before, revisionBefore, pushed, specs, leased, inUse, built, after, revision, res)
    ensures id !in before && id in after ==> id in res.applied
    ensures id in before && (before[id].source.Env? || exists e :: e in res.errors && e.id == id) ==> id in after && after[id] == before[id]
    ensures id in before && before[id].source.Api? && (forall i :: 0 <= i < |specs| ==> TrimSpace(specs[i].id) != id) ==>
              && (id in after <==> id in leased || inUse(id))
              && (id in after ==> after[id] == before[id].(draining := true))
  {
    var env := EnvIds(before);
    var accepted, failed := Accepted(rules, env, specs, specs), ErrorIds(Errors(rules, env, specs, specs));
    AcceptedIdsAreFree(rules, env, specs);
    AcceptedMeaning(rules, env, specs, specs);
    AppliedMeaning(rules, env, specs, specs);
    EntriesAfterPush(rules, before, accepted, failed, leased, inUse, built);
    OnlySpecsAreAnswered(rules, before, revisionBefore, pushed, specs, leased, inUse, built, after, revision, res);
    if e :| e in res.errors && e.id == id {
      assert id in failed;
    }
    if id in failed {
      var e :| e in res.errors && e.id == id;
    }
  }

  /** The applied ids come in the order of the push. */
  lemma {:induction false} AppliedInOrder(rules: Rules, env: set<Id>, specs: seq<ClientSpec>, part: seq<ClientSpec>, p: nat, q: nat)
    returns (i: nat, j: nat)
    requires part <= specs && p < q < |Applied(rules, env, specs, part)|
    ensures i < j < |part|
    ensures TrimSpace(part[i].id) == Applied(rules, env, specs, part)[p] && TrimSpace(part[j].id) == Applied(rules, env, specs, part)[q]
  {
    var init, last := part[..|part| - 1], part[|part| - 1];
    var before := Applied(rules, env, specs, init);
    if q < |before| {
      i, j := AppliedInOrder(rules, env, specs, init, p, q);
    } else {
      i := WhereApplied(rules, env, specs, init, before[p]);
      j := |part| - 1;
    }
  }

  lemma {:induction false} WhereApplied(rules: Rules, env: set<Id>, specs: seq<ClientSpec>, part: seq<ClientSpec>, id: Id) returns (i: nat)
    requires part <= specs && id in Applied(rules, env, specs, part)
    ensures i < |part| && TrimSpace(part[i].id) == id
  {
    AppliedMeaning(rules, env, specs, part);
    var raw :| raw in part && IdOf(raw) == id && Judge(rules, env, specs, raw).Accept?;
    i :| 0 <= i < |part| && part[i] == raw;
  }

  /** The errors come in the order in which their ids first appear. */
  lemma {:induction false} ErrorsInOrder(rules: Rules, env: set<Id>, specs: seq<ClientSpec>, part: seq<ClientSpec>, p: nat, q: nat)
    returns (i: nat, j: nat)
    requires part <= specs && p < q < |Errors(rules, env, specs, part)|
    ensures i < j < |part|
    ensures TrimSpace(part[i].id) == Errors(rules, env, specs, part)[p].id
    ensures TrimSpace(part[j].id) == Errors(rules, env, specs, part)[q].id
    ensures forall k :: 0 <= k < j ==> TrimSpace(part[k].id) != Errors(rules, env, specs, part)[q].id
  {
    var init, last := part[..|part| - 1], part[|part| - 1];
    var before := Errors(rules, env, specs, init);
    if q < |before| {
      i, j := ErrorsInOrder(rules, env, specs, init, p, q);
    } else {
      i := WhereRefused(rules, env, specs, init, before[p]);
      j := |part| - 1;
      forall k | 0 <= k < j ensures TrimSpace(part[k].id) != IdOf(last) {
        NotReportedIsNew(rules, env, specs, part, k);
      }
    }
  }

  lemma {:induction false} WhereRefused(rules: Rules, env: set<Id>, specs: seq<ClientSpec>, part: seq<ClientSpec>, e: ApplyError) returns (i: nat)
    requires part <= specs && e in Errors(rules, env, specs, part)
    ensures i < |part| && TrimSpace(part[i].id) == e.id
  {
    ErrorsMeaning(rules, env, specs, part);
    var raw :| raw in part && IdOf(raw) == e.id && Judge(rules, env, specs, raw) == Reject(e.reason);
    i :| 0 <= i < |part| && part[i] == raw;
  }

  /** A spec that shares its id with another position is reported. */
  lemma {:induction false} SharedIsReported(rules: Rules, env: set<Id>, specs: seq<ClientSpec>, part: seq<ClientSpec>, k: nat, m: nat)
    requires part <= specs && k < |part| && m < |specs| && k != m && IdOf(specs[k]) == IdOf(specs[m])
    ensures IdOf(specs[m]) in ErrorIds(Errors(rules, env, specs, part))
  {
    ErrorsMeaning(rules, env, specs, part);
    SharedIsCounted(specs, k, m);
    var e := ApplyError(IdOf(specs[k]), if ValidClientId(IdOf(specs[k])) then Duplicate else BadId);
    assert part[k] in part && Judge(rules, env, specs, part[k]) == Reject(e.reason);
    assert e in Errors(rules, env, specs, part);
  }

  /** A spec whose id is not reported yet comes after no other spec with its id. */
  lemma {:induction false} NotReportedIsNew(rules: Rules, env: set<Id>, specs: seq<ClientSpec>, part: seq<ClientSpec>, k: nat)
    requires part <= specs && k < |part| - 1
    requires var last := part[|part| - 1]; IdOf(last) !in ErrorIds(Errors(rules, env, specs, part[..|part| - 1]))
    ensures IdOf(part[k]) != IdOf(part[|part| - 1])
  {
    if IdOf(part[k]) == IdOf(part[|part| - 1]) {
      SharedIsReported(rules, env, specs, part[..|part| - 1], k, |part| - 1);
    }
  }
}
