/**
 What a config push and a reap do to the registry, stated without loops or order. The
 adapter type is a parameter: only the identity of an adapter matters here.
 */
module RegistryRules {
  import opened Outcomes
  import opened Text
  import opened ClientSpecs

  type Id = string

  /** The validation and the fingerprint a push relies on; see GatewayRules for the gateway's own. */
  datatype Rules = Rules(
    prepare: ClientSpec -> Result<ClientSpec, SpecError>,
    hash: ClientSpec -> string)

  /** PrepareSpec, and a digest of the fingerprint. */
  function GatewayRules(parse: UrlParser, digest: string -> string): Rules {
    Rules(raw => Prepared(parse, raw), s => digest(Fingerprint(s)))
  }

  datatype Source = Env | Api

  /** One registered client. The spec is kept without its secret. */
  datatype Entry<+A> = Entry(
    spec: ClientSpec,
    secretSet: bool,
    source: Source,
    adapter: A,
    hash: string,
    draining: bool)

  datatype Reason = BadId | Duplicate | EnvOwned | BadSpec(error: SpecError)

  datatype ApplyError = ApplyError(id: Id, reason: Reason)

  datatype Verdict = Reject(reason: Reason) | Accept(spec: ClientSpec)

  function IdOf(raw: ClientSpec): Id {
    TrimSpace(raw.id)
  }

  /** How many pushed specs name this id. */
  function Count(specs: seq<ClientSpec>, id: Id): nat {
    if specs == [] then 0
    else Count(specs[..|specs| - 1], id) + (if IdOf(specs[|specs| - 1]) == id then 1 else 0)
  }

  /** What the push makes of one of its specs, given the ids owned by the environment. */
  function Judge(rules: Rules, env: set<Id>, specs: seq<ClientSpec>, raw: ClientSpec): Verdict {
    var id := IdOf(raw);
    if !ValidClientId(id) then Reject(BadId)
    else if Count(specs, id) > 1 then Reject(Duplicate)
    else if id in env then Reject(EnvOwned)
    else match rules.prepare(raw)
         case Failure(e) => Reject(BadSpec(e))
         case Success(s) => Accept(s)
  }

  // ---- results of the first `part` of a push ----

  function Applied(rules: Rules, env: set<Id>, specs: seq<ClientSpec>, part: seq<ClientSpec>): seq<Id> {
    if part == [] then []
    else
      var before, raw := Applied(rules, env, specs, part[..|part| - 1]), part[|part| - 1];
      if Judge(rules, env, specs, raw).Accept? then before + [IdOf(raw)] else before
  }

  function ErrorIds(errors: seq<ApplyError>): set<Id> {
    set e | e in errors :: e.id
  }

  function Errors(rules: Rules, env: set<Id>, specs: seq<ClientSpec>, part: seq<ClientSpec>): seq<ApplyError> {
    if part == [] then []
    else
      var before, raw := Errors(rules, env, specs, part[..|part| - 1]), part[|part| - 1];
      match Judge(rules, env, specs, raw)
      case Accept(_) => before
      case Reject(reason) =>
        if IdOf(raw) in ErrorIds(before) then before else before + [ApplyError(IdOf(raw), reason)]
  }

  function Accepted(rules: Rules, env: set<Id>, specs: seq<ClientSpec>, part: seq<ClientSpec>)
    : map<Id, ClientSpec>
  {
    if part == [] then map[]
    else
      var before, raw := Accepted(rules, env, specs, part[..|part| - 1]), part[|part| - 1];
      match Judge(rules, env, specs, raw)
      case Reject(_) => before
      case Accept(s) => before[IdOf(raw) := s]
  }

  /** The accepted ids whose adapter is built anew, in the order of the push. */
  function StartedIds<A>(rules: Rules, clients: map<Id, Entry<A>>, specs: seq<ClientSpec>, part: seq<ClientSpec>): seq<Id> {
    if part == [] then []
    else
      var before, raw := StartedIds(rules, clients, specs, part[..|part| - 1]), part[|part| - 1];
      match Judge(rules, EnvIds(clients), specs, raw)
      case Reject(_) => before
      case Accept(s) => if Unchanged(rules, clients, IdOf(raw), s) then before else before + [IdOf(raw)]
  }

  // ---- the registry after a push ----

  function EnvIds<A>(clients: map<Id, Entry<A>>): set<Id> {
    set id | id in clients && clients[id].source.Env?
  }

  function NewEntry<A>(rules: Rules, s: ClientSpec, adapter: A): Entry<A> {
    Entry(s.(secret := ""), s.secret != "", Api, adapter, rules.hash(s), false)
  }

  predicate Unchanged<A>(rules: Rules, clients: map<Id, Entry<A>>, id: Id, s: ClientSpec) {
    id in clients && clients[id].hash == rules.hash(s)
  }

  /** The accepted ids whose adapter is built anew. */
  function Rebuilt<A>(rules: Rules, clients: map<Id, Entry<A>>, accepted: map<Id, ClientSpec>): set<Id> {
    set id | id in accepted && !Unchanged(rules, clients, id, accepted[id])
  }

  predicate Busy(leased: set<Id>, inUse: Id -> bool, id: Id) {
    id in leased || inUse(id)
  }

  /** An API client the push neither applies nor reports an error for. */
  predicate LeftOut<A>(clients: map<Id, Entry<A>>, accepted: map<Id, ClientSpec>, failed: set<Id>, id: Id) {
    id in clients && clients[id].source.Api? && id !in accepted && id !in failed
  }

  /** The entry an accepted id has after the push. */
  function AppliedEntry<A>(rules: Rules, clients: map<Id, Entry<A>>, accepted: map<Id, ClientSpec>, built: map<Id, A>, id: Id): Entry<A>
    requires id in accepted && Rebuilt(rules, clients, accepted) <= built.Keys
  {
    if Unchanged(rules, clients, id, accepted[id]) then clients[id].(draining := false)
    else assert id in Rebuilt(rules, clients, accepted); NewEntry(rules, accepted[id], built[id])
  }

  /** The registry once every accepted spec is in effect and nothing has been removed yet. */
  function WithAccepted<A>(rules: Rules, clients: map<Id, Entry<A>>, accepted: map<Id, ClientSpec>, built: map<Id, A>): map<Id, Entry<A>>
    requires Rebuilt(rules, clients, accepted) <= built.Keys
  {
    clients + AppliedEntries(rules, clients, accepted, built)
  }

  function AppliedEntries<A>(rules: Rules, clients: map<Id, Entry<A>>, accepted: map<Id, ClientSpec>, built: map<Id, A>)
    : map<Id, Entry<A>>
    requires Rebuilt(rules, clients, accepted) <= built.Keys
  {
    map id | id in accepted :: AppliedEntry(rules, clients, accepted, built, id)
  }

  function AfterPush<A>(rules: Rules, clients: map<Id, Entry<A>>, accepted: map<Id, ClientSpec>, failed: set<Id>,
                        leased: set<Id>, inUse: Id -> bool, built: map<Id, A>): map<Id, Entry<A>>
    requires Rebuilt(rules, clients, accepted) <= built.Keys
  {
    var full := WithAccepted(rules, clients, accepted, built);
    map id | id in full && !(LeftOut(clients, accepted, failed, id) && !Busy(leased, inUse, id)) ::
      if LeftOut(clients, accepted, failed, id) then full[id].(draining := true) else full[id]
  }

  function NewlyDraining<A>(clients: map<Id, Entry<A>>, accepted: map<Id, ClientSpec>, failed: set<Id>,
                            leased: set<Id>, inUse: Id -> bool): set<Id> {
    set id | id in clients && LeftOut(clients, accepted, failed, id) && Busy(leased, inUse, id) && !clients[id].draining
  }

  function Removed<A>(clients: map<Id, Entry<A>>, accepted: map<Id, ClientSpec>, failed: set<Id>,
                      leased: set<Id>, inUse: Id -> bool): set<Id> {
    set id | id in clients && LeftOut(clients, accepted, failed, id) && !Busy(leased, inUse, id)
  }

  /** The draining clients a reap drops. */
  function Reaped<A>(clients: map<Id, Entry<A>>, leased: set<Id>, inUse: Id -> bool): set<Id> {
    set id | id in clients && clients[id].draining && !Busy(leased, inUse, id)
  }

  // ---- the two loops of a push, one entry at a time ----

  /** The removal loop looks at this id: an API client that is not kept. */
  predicate Sweepable<A>(clients: map<Id, Entry<A>>, keep: set<Id>, id: Id) {
    id in clients && clients[id].source.Api? && id !in keep
  }

  /** One turn of the removal loop, with the answer to "is it leased or in use". */
  function SweepOne<A>(clients: map<Id, Entry<A>>, keep: set<Id>, id: Id, busy: bool): map<Id, Entry<A>> {
    if !Sweepable(clients, keep, id) then clients
    else if busy then clients[id := clients[id].(draining := true)]
    else clients - {id}
  }

  /** One turn of the reap loop. */
  function ReapOne<A>(clients: map<Id, Entry<A>>, id: Id, busy: bool): map<Id, Entry<A>> {
    if id in clients && clients[id].draining && !busy then clients - {id} else clients
  }

  /** The registry once the removal loop has visited the ids in `done`. */
  function Swept<A>(full: map<Id, Entry<A>>, keep: set<Id>, done: set<Id>, leased: set<Id>, inUse: Id -> bool): map<Id, Entry<A>> {
    map id | id in full && !(id in done && Sweepable(full, keep, id) && !Busy(leased, inUse, id)) ::
      if id in done && Sweepable(full, keep, id) then full[id].(draining := true) else full[id]
  }

  function SweepDrains<A>(full: map<Id, Entry<A>>, keep: set<Id>, leased: set<Id>, inUse: Id -> bool): set<Id> {
    set id | id in full && Sweepable(full, keep, id) && Busy(leased, inUse, id) && !full[id].draining
  }

  function SweepRemoves<A>(full: map<Id, Entry<A>>, keep: set<Id>, leased: set<Id>, inUse: Id -> bool): set<Id> {
    set id | id in full && Sweepable(full, keep, id) && !Busy(leased, inUse, id)
  }

  /** The registry once the reap loop has visited all ids but those in `todo`. */
  function ReapedBut<A>(clients: map<Id, Entry<A>>, todo: set<Id>, leased: set<Id>, inUse: Id -> bool): map<Id, Entry<A>> {
    clients - (Reaped(clients, leased, inUse) - todo)
  }

  lemma ReapNext<A>(clients: map<Id, Entry<A>>, todo: set<Id>, leased: set<Id>, inUse: Id -> bool, id: Id)
    requires id in todo && todo <= clients.Keys
    ensures ReapedBut(clients, todo - {id}, leased, inUse)
         == ReapOne(ReapedBut(clients, todo, leased, inUse), id, Busy(leased, inUse, id))
    ensures id in ReapedBut(clients, todo, leased, inUse) && ReapedBut(clients, todo, leased, inUse)[id] == clients[id]
  {
    var gone := Reaped(clients, leased, inUse);
    if id in gone {
      assert gone - (todo - {id}) == (gone - todo) + {id};
    } else {
      assert gone - (todo - {id}) == gone - todo;
    }
  }

  /** The removal loop visits ids one at a time, in any order. */
  lemma SweepNext<A>(full: map<Id, Entry<A>>, keep: set<Id>, done: set<Id>, leased: set<Id>, inUse: Id -> bool, id: Id)
    requires id !in done && id in full
    ensures Swept(full, keep, done + {id}, leased, inUse)
         == SweepOne(Swept(full, keep, done, leased, inUse), keep, id, Busy(leased, inUse, id))
  {
  }

  /** The ids the removal loop spares: accepted ones, and failed ones that run already. */
  ghost predicate Keeps<A>(clients: map<Id, Entry<A>>, accepted: map<Id, ClientSpec>, failed: set<Id>, keep: set<Id>) {
    forall id :: id in keep <==> id in accepted || (id in failed && id in clients && clients[id].source.Api?)
  }

  lemma SweepableIsLeftOut<A>(rules: Rules, clients: map<Id, Entry<A>>, accepted: map<Id, ClientSpec>, failed: set<Id>,
                              keep: set<Id>, built: map<Id, A>, id: Id)
    requires Rebuilt(rules, clients, accepted) <= built.Keys && Keeps(clients, accepted, failed, keep)
    ensures Sweepable(WithAccepted(rules, clients, accepted, built), keep, id) <==> LeftOut(clients, accepted, failed, id)
  {
  }

  /** Once every id has been visited the push is complete, whatever the order was. */
  lemma SweepComplete<A>(rules: Rules, clients: map<Id, Entry<A>>, accepted: map<Id, ClientSpec>, failed: set<Id>, keep: set<Id>,
                         leased: set<Id>, inUse: Id -> bool, built: map<Id, A>)
    requires Rebuilt(rules, clients, accepted) <= built.Keys && Keeps(clients, accepted, failed, keep)
    ensures var full := WithAccepted(rules, clients, accepted, built);
            Swept(full, keep, full.Keys, leased, inUse) == AfterPush(rules, clients, accepted, failed, leased, inUse, built)
  {
    var full := WithAccepted(rules, clients, accepted, built);
    forall id ensures Sweepable(full, keep, id) <==> LeftOut(clients, accepted, failed, id) {
      SweepableIsLeftOut(rules, clients, accepted, failed, keep, built, id);
    }
  }

  /** What has been built once the spec s is accepted; `adapter` is used only when it must be rebuilt. */
  function BuiltNow<A>(rules: Rules, clients: map<Id, Entry<A>>, built: map<Id, A>, id: Id, s: ClientSpec, adapter: A): map<Id, A> {
    if Unchanged(rules, clients, id, s) then built else built[id := adapter]
  }

  lemma BuiltNowKeys<A>(rules: Rules, clients: map<Id, Entry<A>>, accepted: map<Id, ClientSpec>, built: map<Id, A>,
                        id: Id, s: ClientSpec, adapter: A)
    requires id !in accepted && built.Keys == Rebuilt(rules, clients, accepted)
    ensures BuiltNow(rules, clients, built, id, s, adapter).Keys == Rebuilt(rules, clients, accepted[id := s])
  {
    var next := accepted[id := s];
    forall k ensures k in Rebuilt(rules, clients, next) <==>
                     k in Rebuilt(rules, clients, accepted) || (k == id && !Unchanged(rules, clients, id, s)) {
      if k in accepted { assert next[k] == accepted[k]; }
    }
  }

  lemma AppliedEntryKept<A>(rules: Rules, clients: map<Id, Entry<A>>, accepted: map<Id, ClientSpec>, built: map<Id, A>,
                            next: map<Id, ClientSpec>, now: map<Id, A>, id: Id)
    requires built.Keys == Rebuilt(rules, clients, accepted) && now.Keys == Rebuilt(rules, clients, next)
    requires id in accepted && id in next && next[id] == accepted[id]
    requires id in built ==> now[id] == built[id]
    ensures AppliedEntry(rules, clients, next, now, id) == AppliedEntry(rules, clients, accepted, built, id)
  {
  }

  function EntryNow<A>(rules: Rules, clients: map<Id, Entry<A>>, id: Id, s: ClientSpec, adapter: A): Entry<A> {
    if Unchanged(rules, clients, id, s) then clients[id].(draining := false) else NewEntry(rules, s, adapter)
  }

  lemma AppliedEntriesNext<A>(rules: Rules, clients: map<Id, Entry<A>>, accepted: map<Id, ClientSpec>, built: map<Id, A>,
                              id: Id, s: ClientSpec, adapter: A)
    requires id !in accepted && built.Keys == Rebuilt(rules, clients, accepted)
    requires BuiltNow(rules, clients, built, id, s, adapter).Keys == Rebuilt(rules, clients, accepted[id := s])
    ensures AppliedEntries(rules, clients, accepted[id := s], BuiltNow(rules, clients, built, id, s, adapter))
         == AppliedEntries(rules, clients, accepted, built)[id := EntryNow(rules, clients, id, s, adapter)]
  {
    var now, next := BuiltNow(rules, clients, built, id, s, adapter), accepted[id := s];
    forall k | k in accepted
      ensures AppliedEntry(rules, clients, next, now, k) == AppliedEntry(rules, clients, accepted, built, k)
    {
      AppliedEntryKept(rules, clients, accepted, built, next, now, k);
    }
    AppliedEntryNew(rules, clients, next, now, id, s, adapter);
  }

  lemma AppliedEntryNew<A>(rules: Rules, clients: map<Id, Entry<A>>, accepted: map<Id, ClientSpec>, built: map<Id, A>,
                           id: Id, s: ClientSpec, adapter: A)
    requires id in accepted && accepted[id] == s && Rebuilt(rules, clients, accepted) <= built.Keys
    requires !Unchanged(rules, clients, id, s) ==> id in built && built[id] == adapter
    ensures AppliedEntry(rules, clients, accepted, built, id) == EntryNow(rules, clients, id, s, adapter)
  {
  }

  lemma MergeUpdate<K, V>(m: map<K, V>, n: map<K, V>, k: K, v: V)
    ensures m + n[k := v] == (m + n)[k := v]
  {
  }

  /** Accepting one more spec changes the registry at its id alone. */
  lemma AcceptOne<A>(rules: Rules, clients: map<Id, Entry<A>>, accepted: map<Id, ClientSpec>, built: map<Id, A>,
                     id: Id, s: ClientSpec, adapter: A)
    requires id !in accepted && built.Keys == Rebuilt(rules, clients, accepted)
    ensures BuiltNow(rules, clients, built, id, s, adapter).Keys == Rebuilt(rules, clients, accepted[id := s])
    ensures WithAccepted(rules, clients, accepted[id := s], BuiltNow(rules, clients, built, id, s, adapter))
         == WithAccepted(rules, clients, accepted, built)[id := EntryNow(rules, clients, id, s, adapter)]
  {
    BuiltNowKeys(rules, clients, accepted, built, id, s, adapter);
    AppliedEntriesNext(rules, clients, accepted, built, id, s, adapter);
    MergeUpdate(clients, AppliedEntries(rules, clients, accepted, built), id, EntryNow(rules, clients, id, s, adapter));
  }

  // ---- which ids are applied and which fail ----

  lemma CountPositive(specs: seq<ClientSpec>, id: Id)
    ensures Count(specs, id) >= 1 <==> exists raw :: raw in specs && IdOf(raw) == id
  {
    if specs != [] {
      var init, last := specs[..|specs| - 1], specs[|specs| - 1];
      assert specs == init + [last];
      CountPositive(init, id);
      if Count(init, id) >= 1 {
        var raw :| raw in init && IdOf(raw) == id;
        assert raw in specs;
      }
    }
  }

  lemma CountAppend(a: seq<ClientSpec>, b: seq<ClientSpec>, id: Id)
    ensures Count(a + b, id) == Count(a, id) + Count(b, id)
  {
    if b == [] {
      assert a + b == a;
    } else {
      assert (a + b)[..|a + b| - 1] == a + b[..|b| - 1];
      CountAppend(a, b[..|b| - 1], id);
    }
  }

  lemma CountWithout(specs: seq<ClientSpec>, i: nat, id: Id)
    requires i < |specs|
    ensures Count(specs, id) == Count(specs[..i] + specs[i + 1..], id) + (if IdOf(specs[i]) == id then 1 else 0)
  {
    var one := [specs[i]];
    assert specs == specs[..i] + one + specs[i + 1..];
    CountAppend(specs[..i] + one, specs[i + 1..], id);
    CountAppend(specs[..i], one, id);
    CountAppend(specs[..i], specs[i + 1..], id);
    assert one[..0] == [];
  }

  lemma {:induction false} CountPermuted(a: seq<ClientSpec>, b: seq<ClientSpec>, id: Id)
    requires multiset(a) == multiset(b)
    ensures Count(a, id) == Count(b, id)
  {
    if a == [] {
      assert |multiset(b)| == 0;
    } else {
      var i := LastElsewhere(a, b);
      CountPermuted(a[..|a| - 1], b[..i] + b[i + 1..], id);
      CountWithout(b, i, id);
    }
  }

  lemma CountTwice(specs: seq<ClientSpec>, i: nat, j: nat)
    requires i < j < |specs| && IdOf(specs[i]) == IdOf(specs[j])
    ensures Count(specs, IdOf(specs[i])) >= 2
  {
    var id := IdOf(specs[i]);
    CountWithout(specs, j, id);
    var rest := specs[..j] + specs[j + 1..];
    assert rest[i] == specs[i];
    CountPositive(rest, id);
  }

  /** An accepted spec is the only one with its id. */
  lemma AcceptedIsUnique(rules: Rules, env: set<Id>, specs: seq<ClientSpec>, i: nat, j: nat)
    requires i < |specs| && j < |specs| && IdOf(specs[i]) == IdOf(specs[j])
    requires Judge(rules, env, specs, specs[i]).Accept?
    ensures i == j
  {
    if i < j {
      CountTwice(specs, i, j);
    } else if j < i {
      CountTwice(specs, j, i);
    }
  }

  ghost predicate Accepts(rules: Rules, env: set<Id>, specs: seq<ClientSpec>, part: seq<ClientSpec>, id: Id) {
    exists raw :: raw in part && IdOf(raw) == id && Judge(rules, env, specs, raw).Accept?
  }

  lemma AcceptsAppend(rules: Rules, env: set<Id>, specs: seq<ClientSpec>, init: seq<ClientSpec>, last: ClientSpec, id: Id)
    ensures Accepts(rules, env, specs, init + [last], id) <==>
            Accepts(rules, env, specs, init, id) || (IdOf(last) == id && Judge(rules, env, specs, last).Accept?)
  {
    if Accepts(rules, env, specs, init, id) {
      var raw :| raw in init && IdOf(raw) == id && Judge(rules, env, specs, raw).Accept?;
      assert raw in init + [last];
    }
    assert last in init + [last];
  }

  lemma OthersDiffer(rules: Rules, env: set<Id>, specs: seq<ClientSpec>, part: seq<ClientSpec>)
    requires part <= specs && part != [] && Judge(rules, env, specs, part[|part| - 1]).Accept?
    ensures forall raw :: raw in part[..|part| - 1] ==> IdOf(raw) != IdOf(part[|part| - 1])
  {
    var init := part[..|part| - 1];
    forall raw | raw in init ensures IdOf(raw) != IdOf(part[|part| - 1]) {
      if IdOf(raw) == IdOf(part[|part| - 1]) {
        var k :| 0 <= k < |init| && init[k] == raw;
        AcceptedIsUnique(rules, env, specs, |part| - 1, k);
      }
    }
  }

  lemma {:induction false} AppliedMeaning(rules: Rules, env: set<Id>, specs: seq<ClientSpec>, part: seq<ClientSpec>)
    requires part <= specs
    ensures NoDuplicates(Applied(rules, env, specs, part))
    ensures forall id :: id in Applied(rules, env, specs, part) <==> Accepts(rules, env, specs, part, id)
  {
    if part != [] {
      var init, last := part[..|part| - 1], part[|part| - 1];
      assert part == init + [last];
      AppliedMeaning(rules, env, specs, init);
      var before := Applied(rules, env, specs, init);
      forall id ensures id in Applied(rules, env, specs, part) <==> Accepts(rules, env, specs, part, id) {
        AcceptsAppend(rules, env, specs, init, last, id);
      }
      assert NoDuplicates(Applied(rules, env, specs, part)) by {
        if Judge(rules, env, specs, last).Accept? {
          OthersDiffer(rules, env, specs, part);
          NoDuplicatesAppend(before, IdOf(last));
        }
      }
    }
  }

  lemma {:induction false} AcceptedKeys(rules: Rules, env: set<Id>, specs: seq<ClientSpec>, part: seq<ClientSpec>)
    requires part <= specs
    ensures forall id :: id in Accepted(rules, env, specs, part) <==> Accepts(rules, env, specs, part, id)
  {
    if part != [] {
      var init, last := part[..|part| - 1], part[|part| - 1];
      assert part == init + [last];
      AcceptedKeys(rules, env, specs, init);
      forall id ensures id in Accepted(rules, env, specs, part) <==> Accepts(rules, env, specs, part, id) {
        AcceptsAppend(rules, env, specs, init, last, id);
      }
    }
  }

  lemma {:induction false} AcceptedValue(rules: Rules, env: set<Id>, specs: seq<ClientSpec>, part: seq<ClientSpec>, raw: ClientSpec)
    requires part <= specs && raw in part && Judge(rules, env, specs, raw).Accept?
    ensures IdOf(raw) in Accepted(rules, env, specs, part)
    ensures Accepted(rules, env, specs, part)[IdOf(raw)] == Judge(rules, env, specs, raw).spec
  {
    var init, last := part[..|part| - 1], part[|part| - 1];
    assert part == init + [last];
    if raw in init {
      AcceptedValue(rules, env, specs, init, raw);
      if Judge(rules, env, specs, last).Accept? {
        OthersDiffer(rules, env, specs, part);
      }
    } else {
      assert raw == last;
    }
  }

  lemma AcceptedMeaning(rules: Rules, env: set<Id>, specs: seq<ClientSpec>, part: seq<ClientSpec>)
    requires part <= specs
    ensures forall id :: id in Accepted(rules, env, specs, part) <==> Accepts(rules, env, specs, part, id)
    ensures forall raw :: raw in part && Judge(rules, env, specs, raw).Accept? ==>
              IdOf(raw) in Accepted(rules, env, specs, part) &&
              Accepted(rules, env, specs, part)[IdOf(raw)] == Judge(rules, env, specs, raw).spec
  {
    AcceptedKeys(rules, env, specs, part);
    forall raw | raw in part && Judge(rules, env, specs, raw).Accept?
      ensures IdOf(raw) in Accepted(rules, env, specs, part)
      ensures Accepted(rules, env, specs, part)[IdOf(raw)] == Judge(rules, env, specs, raw).spec
    {
      AcceptedValue(rules, env, specs, part, raw);
    }
  }

  ghost predicate Refuses(rules: Rules, env: set<Id>, specs: seq<ClientSpec>, part: seq<ClientSpec>, e: ApplyError) {
    exists raw :: raw in part && IdOf(raw) == e.id && Judge(rules, env, specs, raw) == Reject(e.reason)
  }

  lemma RefusesAppend(rules: Rules, env: set<Id>, specs: seq<ClientSpec>, init: seq<ClientSpec>, last: ClientSpec, e: ApplyError)
    ensures Refuses(rules, env, specs, init + [last], e) <==>
            Refuses(rules, env, specs, init, e) || (IdOf(last) == e.id && Judge(rules, env, specs, last) == Reject(e.reason))
  {
    if Refuses(rules, env, specs, init, e) {
      var raw :| raw in init && IdOf(raw) == e.id && Judge(rules, env, specs, raw) == Reject(e.reason);
      assert raw in init + [last];
    }
    assert last in init + [last];
  }

  ghost predicate DistinctIds(errors: seq<ApplyError>) {
    forall i, j :: 0 <= i < j < |errors| ==> errors[i].id != errors[j].id
  }

  lemma {:induction false} ErrorsMeaning(rules: Rules, env: set<Id>, specs: seq<ClientSpec>, part: seq<ClientSpec>)
    requires part <= specs
    ensures forall e :: e in Errors(rules, env, specs, part) <==> Refuses(rules, env, specs, part, e)
    ensures DistinctIds(Errors(rules, env, specs, part))
  {
    if part != [] {
      var init, last := part[..|part| - 1], part[|part| - 1];
      assert part == init + [last];
      ErrorsMeaning(rules, env, specs, init);
      var es0, es := Errors(rules, env, specs, init), Errors(rules, env, specs, part);
      forall e ensures e in es <==> Refuses(rules, env, specs, part, e) {
        RefusesAppend(rules, env, specs, init, last, e);
        if IdOf(last) == e.id && Judge(rules, env, specs, last) == Reject(e.reason) && e.id in ErrorIds(es0) {
          var e0 :| e0 in es0 && e0.id == e.id;
          SameIdSameReason(rules, env, specs, init, last, e0);
        }
      }
    }
  }

  /** Two refused specs with the same id are refused for the same reason. */
  lemma SameIdSameReason(rules: Rules, env: set<Id>, specs: seq<ClientSpec>, init: seq<ClientSpec>, last: ClientSpec, e0: ApplyError)
    requires init + [last] <= specs && e0.id == IdOf(last)
    requires Refuses(rules, env, specs, init, e0)
    requires Judge(rules, env, specs, last).Reject?
    ensures Judge(rules, env, specs, last).reason == e0.reason
  {
    var raw :| raw in init && IdOf(raw) == e0.id && Judge(rules, env, specs, raw) == Reject(e0.reason);
    var id, n := IdOf(last), |init|;
    assert specs == init + ([last] + specs[n + 1..]);
    CountAppend(init, [last] + specs[n + 1..], id);
    CountAppend([last], specs[n + 1..], id);
    CountPositive(init, id);
    CountPositive([last], id);
    assert last in [last];
    assert Count(specs, id) > 1;
  }

  /** Applied and failed ids are disjoint, each listed once, and together they cover the push. */
  lemma AppliedAndFailedPartition(rules: Rules, env: set<Id>, specs: seq<ClientSpec>)
    ensures var applied, errors := Applied(rules, env, specs, specs), Errors(rules, env, specs, specs);
            && NoDuplicates(applied)
            && DistinctIds(errors)
            && (forall id :: !(id in applied && id in ErrorIds(errors)))
            && (forall id :: id in applied || id in ErrorIds(errors) <==> exists raw :: raw in specs && IdOf(raw) == id)
  {
    AppliedMeaning(rules, env, specs, specs);
    ErrorsMeaning(rules, env, specs, specs);
    var applied, errors := Applied(rules, env, specs, specs), Errors(rules, env, specs, specs);
    forall id ensures !(id in applied && id in ErrorIds(errors)) {
      if id in applied && id in ErrorIds(errors) {
        var e :| e in errors && e.id == id;
        assert Accepts(rules, env, specs, specs, id) && Refuses(rules, env, specs, specs, e);
        var raw1 :| raw1 in specs && IdOf(raw1) == id && Judge(rules, env, specs, raw1).Accept?;
        var raw2 :| raw2 in specs && IdOf(raw2) == e.id && Judge(rules, env, specs, raw2) == Reject(e.reason);
        var i :| 0 <= i < |specs| && specs[i] == raw1;
        var j :| 0 <= j < |specs| && specs[j] == raw2;
        AcceptedIsUnique(rules, env, specs, i, j);
      }
    }
    forall raw | raw in specs ensures IdOf(raw) in applied || IdOf(raw) in ErrorIds(errors) {
      var v := Judge(rules, env, specs, raw);
      if v.Reject? {
        assert Refuses(rules, env, specs, specs, ApplyError(IdOf(raw), v.reason));
      } else {
        assert Accepts(rules, env, specs, specs, IdOf(raw));
      }
    }
  }

  /** The spec at i names an id no earlier spec was accepted under. */
  lemma NotAcceptedBefore(rules: Rules, env: set<Id>, specs: seq<ClientSpec>, i: nat)
    requires i < |specs|
    ensures IdOf(specs[i]) !in Accepted(rules, env, specs, specs[..i])
  {
    AcceptedMeaning(rules, env, specs, specs[..i]);
    if Accepts(rules, env, specs, specs[..i], IdOf(specs[i])) {
      var raw :| raw in specs[..i] && IdOf(raw) == IdOf(specs[i]) && Judge(rules, env, specs, raw).Accept?;
      var k :| 0 <= k < i && specs[k] == raw;
      CountTwice(specs, k, i);
    }
  }

  lemma {:induction false} StartedMeaning<A>(rules: Rules, clients: map<Id, Entry<A>>, specs: seq<ClientSpec>, part: seq<ClientSpec>)
    requires part <= specs
    ensures var ids := StartedIds(rules, clients, specs, part);
            && NoDuplicates(ids)
            && forall id :: id in ids <==> id in Rebuilt(rules, clients, Accepted(rules, EnvIds(clients), specs, part))
  {
    if part != [] {
      var env, init, last := EnvIds(clients), part[..|part| - 1], part[|part| - 1];
      StartedMeaning(rules, clients, specs, init);
      NotAcceptedBefore(rules, env, specs, |init|);
      assert specs[..|init|] == init && specs[|init|] == last;
      StartedOneMore(rules, clients, specs, init, last);
    }
  }

  lemma StartedOneMore<A>(rules: Rules, clients: map<Id, Entry<A>>, specs: seq<ClientSpec>, init: seq<ClientSpec>, last: ClientSpec)
    requires var ids, accepted := StartedIds(rules, clients, specs, init), Accepted(rules, EnvIds(clients), specs, init);
             NoDuplicates(ids) && IdOf(last) !in accepted && forall id :: id in ids <==> id in Rebuilt(rules, clients, accepted)
    ensures var ids := StartedIds(rules, clients, specs, init + [last]);
            && NoDuplicates(ids)
            && forall id :: id in ids <==> id in Rebuilt(rules, clients, Accepted(rules, EnvIds(clients), specs, init + [last]))
  {
    var ids, accepted := StartedIds(rules, clients, specs, init), Accepted(rules, EnvIds(clients), specs, init);
    assert (init + [last])[..|init|] == init;
    NoDuplicatesAppend(ids, IdOf(last));
    match Judge(rules, EnvIds(clients), specs, last) {
      case Reject(_) =>
      case Accept(s) =>
        forall id ensures id in Rebuilt(rules, clients, accepted[IdOf(last) := s]) <==>
                          id in Rebuilt(rules, clients, accepted) || (id == IdOf(last) && !Unchanged(rules, clients, id, s)) {
        }
    }
  }

  // ---- main results ----

  /** The order of the pushed specs does not matter, to the registry or to any report but the order of `Applied`. */
  lemma OrderDoesNotMatter<A>(rules: Rules, clients: map<Id, Entry<A>>, specs: seq<ClientSpec>, other: seq<ClientSpec>,
                              leased: set<Id>, inUse: Id -> bool, built: map<Id, A>)
    requires multiset(specs) == multiset(other)
    requires Rebuilt(rules, clients, Accepted(rules, EnvIds(clients), specs, specs)) <= built.Keys
    ensures var env := EnvIds(clients);
            var a1, a2 := Accepted(rules, env, specs, specs), Accepted(rules, env, other, other);
            var e1, e2 := Errors(rules, env, specs, specs), Errors(rules, env, other, other);
            var f1, f2 := ErrorIds(e1), ErrorIds(e2);
            && a1 == a2 && multiset(Applied(rules, env, specs, specs)) == multiset(Applied(rules, env, other, other))
            && (forall e :: e in e1 <==> e in e2) && f1 == f2 && (e1 == [] <==> e2 == [])
            && AfterPush(rules, clients, a1, f1, leased, inUse, built) == AfterPush(rules, clients, a2, f2, leased, inUse, built)
            && NewlyDraining(clients, a1, f1, leased, inUse) == NewlyDraining(clients, a2, f2, leased, inUse)
            && Removed(clients, a1, f1, leased, inUse) == Removed(clients, a2, f2, leased, inUse)
  {
    var env := EnvIds(clients);
    forall raw ensures Judge(rules, env, specs, raw) == Judge(rules, env, other, raw) {
      CountPermuted(specs, other, IdOf(raw));
    }
    forall raw ensures raw in specs <==> raw in other {
      assert raw in multiset(specs) <==> raw in multiset(other);
    }
    AppliedMeaning(rules, env, specs, specs);
    AppliedMeaning(rules, env, other, other);
    ErrorsMeaning(rules, env, specs, specs);
    ErrorsMeaning(rules, env, other, other);
    SameAccepted(rules, env, specs, other);
    var p1, p2 := Applied(rules, env, specs, specs), Applied(rules, env, other, other);
    var ids := set id | id in p1;
    DistinctElements(p1, ids);
    DistinctElements(p2, ids);
    var e1, e2 := Errors(rules, env, specs, specs), Errors(rules, env, other, other);
    forall e ensures e in e1 <==> e in e2 {
      assert Refuses(rules, env, specs, specs, e) <==> Refuses(rules, env, other, other, e);
    }
    if e1 != [] { assert e1[0] in e2; }
    if e2 != [] { assert e2[0] in e1; }
  }

  lemma SameAccepted(rules: Rules, env: set<Id>, specs: seq<ClientSpec>, other: seq<ClientSpec>)
    requires forall raw :: Judge(rules, env, specs, raw) == Judge(rules, env, other, raw)
    requires forall raw :: raw in specs <==> raw in other
    ensures Accepted(rules, env, specs, specs) == Accepted(rules, env, other, other)
  {
    AcceptedMeaning(rules, env, specs, specs);
    AcceptedMeaning(rules, env, other, other);
    var m1, m2 := Accepted(rules, env, specs, specs), Accepted(rules, env, other, other);
    forall id | id in m1 ensures id in m2 && m1[id] == m2[id] {
      var raw :| raw in specs && IdOf(raw) == id && Judge(rules, env, specs, raw).Accept?;
      assert raw in other;
    }
    forall id | id in m2 ensures id in m1 {
      var raw :| raw in other && IdOf(raw) == id && Judge(rules, env, other, raw).Accept?;
      assert raw in specs;
    }
  }

  /** What the verdicts leave open: accepted ids are not the environment's and did not fail. */
  lemma AcceptedIdsAreFree(rules: Rules, env: set<Id>, specs: seq<ClientSpec>)
    ensures forall id :: id in Accepted(rules, env, specs, specs) ==>
              && ValidClientId(id) && id !in env && id !in ErrorIds(Errors(rules, env, specs, specs))
  {
    AcceptedMeaning(rules, env, specs, specs);
    AppliedMeaning(rules, env, specs, specs);
    AppliedAndFailedPartition(rules, env, specs);
  }

  /** Repeating a push changes nothing: no client is built, drained or removed, every adapter keeps its identity. */
  lemma PushIsFixedPoint<A>(rules: Rules, clients: map<Id, Entry<A>>, specs: seq<ClientSpec>,
                            leased: set<Id>, inUse: Id -> bool, built: map<Id, A>, builtAgain: map<Id, A>)
    requires Rebuilt(rules, clients, Accepted(rules, EnvIds(clients), specs, specs)) <= built.Keys
    ensures var env := EnvIds(clients);
            var accepted, failed := Accepted(rules, env, specs, specs), ErrorIds(Errors(rules, env, specs, specs));
            var after := AfterPush(rules, clients, accepted, failed, leased, inUse, built);
            && EnvIds(after) == env
            && Rebuilt(rules, after, accepted) == {}
            && NewlyDraining(after, accepted, failed, leased, inUse) == {}
            && Removed(after, accepted, failed, leased, inUse) == {}
            && AfterPush(rules, after, accepted, failed, leased, inUse, builtAgain) == after
  {
    var env := EnvIds(clients);
    AcceptedIdsAreFree(rules, env, specs);
    RepeatSweep(rules, clients, Accepted(rules, env, specs, specs), ErrorIds(Errors(rules, env, specs, specs)),
                leased, inUse, built, builtAgain);
  }

  lemma RepeatSweep<A>(rules: Rules, clients: map<Id, Entry<A>>, accepted: map<Id, ClientSpec>, failed: set<Id>,
                       leased: set<Id>, inUse: Id -> bool, built: map<Id, A>, builtAgain: map<Id, A>)
    requires Rebuilt(rules, clients, accepted) <= built.Keys
    requires forall id :: id in accepted ==> id !in EnvIds(clients) && id !in failed
    ensures var after := AfterPush(rules, clients, accepted, failed, leased, inUse, built);
            && EnvIds(after) == EnvIds(clients)
            && Rebuilt(rules, after, accepted) == {}
            && NewlyDraining(after, accepted, failed, leased, inUse) == {}
            && Removed(after, accepted, failed, leased, inUse) == {}
            && AfterPush(rules, after, accepted, failed, leased, inUse, builtAgain) == after
  {
    var after := AfterPush(rules, clients, accepted, failed, leased, inUse, built);
    EntriesAfterPush(rules, clients, accepted, failed, leased, inUse, built);
    forall id | id in accepted
      ensures Unchanged(rules, after, id, accepted[id]) && !after[id].draining && after[id].source.Api?
    {
      assert InEffect(rules, clients, after, built, id, accepted[id]);
      assert id !in EnvIds(clients);
    }
    EnvIdsKept(clients, after, accepted);
    forall id | id in after && LeftOut(after, accepted, failed, id)
      ensures Busy(leased, inUse, id) && after[id].draining
    {
      assert id in clients;
      if id in EnvIds(clients) {
        assert after[id] == clients[id];
      }
      assert LeftOut(clients, accepted, failed, id);
    }
    SettledPush(rules, after, accepted, failed, leased, inUse, builtAgain);
  }

  lemma EnvIdsKept<A>(clients: map<Id, Entry<A>>, after: map<Id, Entry<A>>, accepted: map<Id, ClientSpec>)
    requires forall id :: id in EnvIds(clients) ==> id in after && after[id] == clients[id]
    requires forall id :: id in after ==> id in clients || id in accepted
    requires forall id :: id in accepted && id in after ==> after[id].source.Api?
    requires forall id :: id in after && id in clients && id !in accepted ==> after[id].source == clients[id].source
    ensures EnvIds(after) == EnvIds(clients)
  {
  }

  /** A push whose specs are all in effect, and whose left-out clients all drain with work left, is a no-op. */
  lemma SettledPush<A>(rules: Rules, clients: map<Id, Entry<A>>, accepted: map<Id, ClientSpec>, failed: set<Id>,
                       leased: set<Id>, inUse: Id -> bool, built: map<Id, A>)
    requires forall id :: id in accepted ==> Unchanged(rules, clients, id, accepted[id]) && !clients[id].draining
    requires forall id :: id in clients && LeftOut(clients, accepted, failed, id) ==>
               Busy(leased, inUse, id) && clients[id].draining
    ensures Rebuilt(rules, clients, accepted) == {}
    ensures NewlyDraining(clients, accepted, failed, leased, inUse) == {}
    ensures Removed(clients, accepted, failed, leased, inUse) == {}
    ensures AfterPush(rules, clients, accepted, failed, leased, inUse, built) == clients
  {
    assert Rebuilt(rules, clients, accepted) == {};
    var full := WithAccepted(rules, clients, accepted, built);
    assert full.Keys == clients.Keys;
    assert full == clients;
  }

  /** The push, entry by entry. */
  lemma PushMeaning<A>(rules: Rules, clients: map<Id, Entry<A>>, specs: seq<ClientSpec>,
                       leased: set<Id>, inUse: Id -> bool, built: map<Id, A>)
    requires Rebuilt(rules, clients, Accepted(rules, EnvIds(clients), specs, specs)) <= built.Keys
    ensures var env := EnvIds(clients);
            var accepted, failed := Accepted(rules, env, specs, specs), ErrorIds(Errors(rules, env, specs, specs));
            var after := AfterPush(rules, clients, accepted, failed, leased, inUse, built);
            // environment clients are untouched
            && (forall id :: id in env ==> id in after && after[id] == clients[id])
            // an accepted spec is in effect and active
            && (forall raw :: raw in specs && Judge(rules, env, specs, raw).Accept? ==>
                  InEffect(rules, clients, after, built, IdOf(raw), Judge(rules, env, specs, raw).spec))
            // a failed id keeps exactly what it had
            && (forall id :: id in failed ==> (id in after <==> id in clients) && (id in clients ==> after[id] == clients[id]))
            // every other API client is draining or gone
            && (forall id :: LeftOut(clients, accepted, failed, id) ==>
                  && (id in after <==> id in leased || inUse(id))
                  && (id in after ==> after[id] == clients[id].(draining := true)))
            // and nothing else is registered
            && (forall id :: id in after ==> id in clients || id in accepted)
  {
    var env := EnvIds(clients);
    AcceptedMeaning(rules, env, specs, specs);
    AcceptedIdsAreFree(rules, env, specs);
    var accepted, failed := Accepted(rules, env, specs, specs), ErrorIds(Errors(rules, env, specs, specs));
    EntriesAfterPush(rules, clients, accepted, failed, leased, inUse, built);
  }

  /** The spec is in effect: with the old adapter when its fingerprint is the old one, else with one built for it. */
  ghost predicate InEffect<A>(rules: Rules, clients: map<Id, Entry<A>>, after: map<Id, Entry<A>>, built: map<Id, A>, id: Id, s: ClientSpec) {
    && id in after && !after[id].draining
    && if id in clients && clients[id].hash == rules.hash(s) then after[id] == clients[id].(draining := false)
       else id in built && after[id] == Entry(s.(secret := ""), s.secret != "", Api, built[id], rules.hash(s), false)
  }

  lemma EntriesAfterPush<A>(rules: Rules, clients: map<Id, Entry<A>>, accepted: map<Id, ClientSpec>, failed: set<Id>,
                            leased: set<Id>, inUse: Id -> bool, built: map<Id, A>)
    requires Rebuilt(rules, clients, accepted) <= built.Keys
    requires forall id :: id in accepted ==> id !in EnvIds(clients) && id !in failed
    ensures var after := AfterPush(rules, clients, accepted, failed, leased, inUse, built);
            && (forall id :: id in EnvIds(clients) || id in failed ==>
                  (id in after <==> id in clients) && (id in clients ==> after[id] == clients[id]))
            && (forall id :: id in accepted ==> InEffect(rules, clients, after, built, id, accepted[id]))
            && (forall id :: LeftOut(clients, accepted, failed, id) ==>
                  && (id in after <==> id in leased || inUse(id))
                  && (id in after ==> after[id] == clients[id].(draining := true)))
            && (forall id :: id in after ==> id in clients || id in accepted)
  {
    var after := AfterPush(rules, clients, accepted, failed, leased, inUse, built);
    forall id | id in accepted ensures InEffect(rules, clients, after, built, id, accepted[id]) {
      assert !LeftOut(clients, accepted, failed, id);
      assert after[id] == AppliedEntry(rules, clients, accepted, built, id);
    }
  }

  /** A client whose adapter was built anew is active with it. */
  lemma RebuiltEntry<A>(rules: Rules, clients: map<Id, Entry<A>>, accepted: map<Id, ClientSpec>, failed: set<Id>,
                        leased: set<Id>, inUse: Id -> bool, built: map<Id, A>, id: Id)
    requires Rebuilt(rules, clients, accepted) <= built.Keys && id in Rebuilt(rules, clients, accepted)
    requires forall k :: k in accepted ==> k !in EnvIds(clients) && k !in failed
    ensures var after := AfterPush(rules, clients, accepted, failed, leased, inUse, built);
            id in after && after[id] == NewEntry(rules, accepted[id], built[id])
  {
    EntriesAfterPush(rules, clients, accepted, failed, leased, inUse, built);
    assert InEffect(rules, clients, AfterPush(rules, clients, accepted, failed, leased, inUse, built), built, id, accepted[id]);
  }

  // ---- what an entry was built from ----

  /** Preparing a spec keeps the id it names. */
  ghost predicate PreparesOwnId(rules: Rules) {
    forall raw :: rules.prepare(raw).Success? ==> rules.prepare(raw).value.id == IdOf(raw)
  }

  ghost predicate IsPrepared(rules: Rules, s: ClientSpec) {
    exists raw :: rules.prepare(raw) == Success(s)
  }

  /** Prepared specs with the same hash differ in nothing but the id. */
  ghost predicate Separating(rules: Rules) {
    forall a, b :: IsPrepared(rules, a) && IsPrepared(rules, b) && rules.hash(a) == rules.hash(b) ==> a.(id := b.id) == b
  }

  /** The entry describes the spec s: all of it but the secret, whether it has one, and its hash. */
  predicate Describes<A>(rules: Rules, e: Entry<A>, s: ClientSpec) {
    e.spec == s.(secret := "") && e.secretSet == (s.secret != "") && e.hash == rules.hash(s) && e.source.Api?
  }

  /** The entry of an API client describes the prepared spec its adapter was built from. */
  ghost predicate FaithfulEntry<A>(rules: Rules, config: A -> ClientSpec, id: Id, e: Entry<A>) {
    e.source.Api? ==> var s := config(e.adapter); Describes(rules, e, s) && s.id == id && IsPrepared(rules, s)
  }

  ghost predicate Faithful<A>(rules: Rules, config: A -> ClientSpec, clients: map<Id, Entry<A>>) {
    forall id :: id in clients ==> FaithfulEntry(rules, config, id, clients[id])
  }

  /** The adapters a push built were built from the accepted specs. */
  ghost predicate BuiltFrom<A>(config: A -> ClientSpec, accepted: map<Id, ClientSpec>, built: map<Id, A>) {
    forall id :: id in built ==> id in accepted && config(built[id]) == accepted[id]
  }

  /** Nor is one of them the adapter its client had before. */
  ghost predicate BuiltAnew<A>(clients: map<Id, Entry<A>>, built: map<Id, A>) {
    forall id :: id in built && id in clients ==> built[id] != clients[id].adapter
  }

  lemma AcceptedWas(rules: Rules, env: set<Id>, specs: seq<ClientSpec>, id: Id) returns (raw: ClientSpec)
    requires id in Accepted(rules, env, specs, specs)
    ensures IdOf(raw) == id && rules.prepare(raw) == Success(Accepted(rules, env, specs, specs)[id])
  {
    AcceptedMeaning(rules, env, specs, specs);
    raw :| raw in specs && IdOf(raw) == id && Judge(rules, env, specs, raw).Accept?;
  }

  lemma AcceptedUnderOwnId(rules: Rules, env: set<Id>, specs: seq<ClientSpec>, id: Id)
    requires PreparesOwnId(rules) && id in Accepted(rules, env, specs, specs)
    ensures Accepted(rules, env, specs, specs)[id].id == id && IsPrepared(rules, Accepted(rules, env, specs, specs)[id])
  {
    var raw := AcceptedWas(rules, env, specs, id);
  }

  /** What validation leaves of an accepted spec: prepared, under its own id. */
  lemma AcceptedIsPrepared(rules: Rules, env: set<Id>, specs: seq<ClientSpec>)
    requires PreparesOwnId(rules)
    ensures var accepted := Accepted(rules, env, specs, specs);
            forall id :: id in accepted ==> accepted[id].id == id && IsPrepared(rules, accepted[id])
  {
    var accepted := Accepted(rules, env, specs, specs);
    forall id | id in accepted ensures accepted[id].id == id && IsPrepared(rules, accepted[id]) {
      var raw := AcceptedWas(rules, env, specs, id);
    }
  }

  lemma PushedEntryIsFaithful<A>(rules: Rules, config: A -> ClientSpec, clients: map<Id, Entry<A>>, accepted: map<Id, ClientSpec>,
                                 failed: set<Id>, leased: set<Id>, inUse: Id -> bool, built: map<Id, A>, id: Id)
    requires Faithful(rules, config, clients) && Rebuilt(rules, clients, accepted) <= built.Keys && BuiltFrom(config, accepted, built)
    requires forall k :: k in accepted ==> k !in EnvIds(clients) && k !in failed
    requires id in accepted ==> accepted[id].id == id && IsPrepared(rules, accepted[id])
    ensures var after := AfterPush(rules, clients, accepted, failed, leased, inUse, built);
            id in after ==> FaithfulEntry(rules, config, id, after[id])
  {
    EntriesAfterPush(rules, clients, accepted, failed, leased, inUse, built);
    var after := AfterPush(rules, clients, accepted, failed, leased, inUse, built);
    assert id in clients ==> FaithfulEntry(rules, config, id, clients[id]);
    if id in accepted {
      assert InEffect(rules, clients, after, built, id, accepted[id]);
    } else if LeftOut(clients, accepted, failed, id) {
      assert id in after ==> after[id] == clients[id].(draining := true);
    } else if id in after {
      assert after[id] == clients[id];
    }
  }

  /** A push keeps every entry true to its adapter. */
  lemma PushKeepsFaithful<A>(rules: Rules, config: A -> ClientSpec, clients: map<Id, Entry<A>>, specs: seq<ClientSpec>,
                             leased: set<Id>, inUse: Id -> bool, built: map<Id, A>)
    requires PreparesOwnId(rules) && Faithful(rules, config, clients)
    requires Rebuilt(rules, clients, Accepted(rules, EnvIds(clients), specs, specs)) <= built.Keys
    requires BuiltFrom(config, Accepted(rules, EnvIds(clients), specs, specs), built)
    ensures var env := EnvIds(clients);
            Faithful(rules, config, AfterPush(rules, clients, Accepted(rules, env, specs, specs),
                                              ErrorIds(Errors(rules, env, specs, specs)), leased, inUse, built))
  {
    var env := EnvIds(clients);
    var accepted, failed := Accepted(rules, env, specs, specs), ErrorIds(Errors(rules, env, specs, specs));
    AcceptedIsPrepared(rules, env, specs);
    AcceptedIdsAreFree(rules, env, specs);
    forall id | id in AfterPush(rules, clients, accepted, failed, leased, inUse, built)
      ensures FaithfulEntry(rules, config, id, AfterPush(rules, clients, accepted, failed, leased, inUse, built)[id])
    {
      PushedEntryIsFaithful(rules, config, clients, accepted, failed, leased, inUse, built, id);
    }
  }

  /** The client runs with the spec: it is active, lists the spec, and its adapter was built from it. */
  ghost predicate RunsWith<A>(rules: Rules, config: A -> ClientSpec, clients: map<Id, Entry<A>>, id: Id, s: ClientSpec) {
    id in clients && !clients[id].draining && Describes(rules, clients[id], s) && config(clients[id].adapter) == s
  }

  lemma AcceptedRuns<A>(rules: Rules, config: A -> ClientSpec, clients: map<Id, Entry<A>>, accepted: map<Id, ClientSpec>,
                        failed: set<Id>, leased: set<Id>, inUse: Id -> bool, built: map<Id, A>, id: Id)
    requires Separating(rules) && Faithful(rules, config, clients) && BuiltAnew(clients, built)
    requires Rebuilt(rules, clients, accepted) <= built.Keys && BuiltFrom(config, accepted, built)
    requires forall k :: k in accepted ==> k !in EnvIds(clients) && k !in failed
    requires id in accepted && accepted[id].id == id && IsPrepared(rules, accepted[id])
    ensures var after := AfterPush(rules, clients, accepted, failed, leased, inUse, built);
            && RunsWith(rules, config, after, id, accepted[id])
            && (id in clients && after[id].adapter == clients[id].adapter
                <==> id in clients && config(clients[id].adapter) == accepted[id])
  {
    EntriesAfterPush(rules, clients, accepted, failed, leased, inUse, built);
    var after, s := AfterPush(rules, clients, accepted, failed, leased, inUse, built), accepted[id];
    assert InEffect(rules, clients, after, built, id, s);
    if id in clients {
      assert id !in EnvIds(clients) && FaithfulEntry(rules, config, id, clients[id]);
      assert clients[id].hash == rules.hash(s) <==> config(clients[id].adapter) == s;
    }
  }

  /**
   Every accepted client runs with the pushed spec, and it keeps its adapter exactly when that adapter
   was built from the very same spec.
   */
  ghost predicate SpecsRun<A>(rules: Rules, config: A -> ClientSpec, clients: map<Id, Entry<A>>, accepted: map<Id, ClientSpec>,
                              after: map<Id, Entry<A>>)
  {
    forall id :: id in accepted ==>
      && RunsWith(rules, config, after, id, accepted[id])
      && (id in clients && after[id].adapter == clients[id].adapter <==> id in clients && config(clients[id].adapter) == accepted[id])
  }

  /** That is what a push comes to, whatever ran before. */
  lemma PushedSpecsRun<A>(rules: Rules, config: A -> ClientSpec, clients: map<Id, Entry<A>>, specs: seq<ClientSpec>,
                          leased: set<Id>, inUse: Id -> bool, built: map<Id, A>)
    requires PreparesOwnId(rules) && Separating(rules) && Faithful(rules, config, clients) && BuiltAnew(clients, built)
    requires Rebuilt(rules, clients, Accepted(rules, EnvIds(clients), specs, specs)) <= built.Keys
    requires BuiltFrom(config, Accepted(rules, EnvIds(clients), specs, specs), built)
    ensures var env := EnvIds(clients);
            var accepted := Accepted(rules, env, specs, specs);
            SpecsRun(rules, config, clients, accepted,
                     AfterPush(rules, clients, accepted, ErrorIds(Errors(rules, env, specs, specs)), leased, inUse, built))
  {
    var env := EnvIds(clients);
    var accepted, failed := Accepted(rules, env, specs, specs), ErrorIds(Errors(rules, env, specs, specs));
    AcceptedIsPrepared(rules, env, specs);
    AcceptedIdsAreFree(rules, env, specs);
    forall id | id in accepted
      ensures var after := AfterPush(rules, clients, accepted, failed, leased, inUse, built);
              && RunsWith(rules, config, after, id, accepted[id])
              && (id in clients && after[id].adapter == clients[id].adapter
                  <==> id in clients && config(clients[id].adapter) == accepted[id])
    {
      AcceptedRuns(rules, config, clients, accepted, failed, leased, inUse, built, id);
    }
  }

  // ---- the gateway's own rules ----

  ghost predicate Injective(digest: string -> string) {
    forall x, y :: digest(x) == digest(y) ==> x == y
  }

  lemma GatewayPreparesOwnId(parse: UrlParser, digest: string -> string)
    ensures PreparesOwnId(GatewayRules(parse, digest))
  {
    forall raw | Prepared(parse, raw).Success? ensures Prepared(parse, raw).value.id == IdOf(raw) {
      PreparedKeepsId(parse, raw);
    }
  }

  /** Under an injective digest the hash tells any two prepared specs apart that differ in more than the id. */
  lemma GatewayHashSeparates(parse: UrlParser, digest: string -> string)
    ensures Injective(digest) ==> Separating(GatewayRules(parse, digest))
  {
    var rules := GatewayRules(parse, digest);
    forall a, b | Injective(digest) && IsPrepared(rules, a) && IsPrepared(rules, b) && rules.hash(a) == rules.hash(b)
      ensures a.(id := b.id) == b
    {
      var rawA :| rules.prepare(rawA) == Success(a);
      var rawB :| rules.prepare(rawB) == Success(b);
      PreparedIsNormal(parse, rawA);
      PreparedIsNormal(parse, rawB);
      FingerprintFaithful(a, b);
    }
  }
}
