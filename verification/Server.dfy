/** What the gateway's handlers and its poll loop do with the registry, the tracked jobs and the add budget, one call at a time. */
module Servers {
  import opened Outcomes
  import opened Text
  import opened ClientSpecs
  import opened JobViews
  import opened Tracking
  import R = RegistryRules
  import Registries
  import opened Gateways
  import AddBudget
  import AcceptedSpecs

  type Bytes = seq<char>

  // ---- adding a download ----

  datatype AddRequest = AddRequest(
    client: string,
    adapter: string,
    source: string,
    title: string,
    savePath: string,
    wanted: string,
    payload: Bytes,
    payloadName: string,
    category: string)

  /** What the adapter is asked to add. */
  datatype Job = Job(
    wanted: string,
    source: string,
    savePath: string,
    title: string,
    category: string,
    payload: Bytes,
    payloadName: string)

  datatype AddError = PayloadUnsupported | Refused

  /** The adapters: which types take a payload, and what each adapter answers to an add. */
  datatype Backend = Backend(
    takesPayload: string -> bool,
    add: (Registries.Adapter, Job) -> Result<string, AddError>)

  /** A type that is not in the catalog is not refused a payload here. */
  predicate TakesPayload(kind: string) {
    LookupType(kind).Some? ==> LookupType(kind).value.acceptsPayload
  }

  /** The compiled-in catalog, with any adapters. */
  function CatalogBackend(add: (Registries.Adapter, Job) -> Result<string, AddError>): Backend {
    Backend(kind => TakesPayload(kind), add)
  }

  datatype AddReply =
    | TooManyRequests
    | BadBody
    | BadRequest
    | NotFound
    | Conflict
    | NoPayload
    | BadGateway
    | Accepted(client: string, job: string)

  datatype RemoveReply = NoSuchClient | ClientFailed | Removed

  function NamedClient(req: AddRequest): string {
    if req.client == "" then req.adapter else req.client
  }

  predicate WellFormedAdd(req: AddRequest) {
    && (req.client == "" || req.adapter == "" || req.client == req.adapter)
    && NamedClient(req) != ""
    && (req.source != "" || req.payload != [])
  }

  /** The job handed to the adapter: the client's own save path and category where the request has none. */
  function JobFor(req: AddRequest, c: Registries.Client): Job {
    Job(req.wanted, req.source, if req.savePath == "" then c.savePath else req.savePath, req.title,
        if req.category == "" then c.category else req.category, req.payload, req.payloadName)
  }

  /** The answer to an add that was admitted. */
  function AddReplyOf(clients: map<R.Id, R.Entry<Registries.Adapter>>, body: Option<AddRequest>, backend: Backend): AddReply {
    if body.None? then BadBody
    else
      var req, id := body.value, NamedClient(body.value);
      if !WellFormedAdd(req) then BadRequest else AddReplyTo(clients, req, id, backend)
  }

  function AddReplyTo(clients: map<R.Id, R.Entry<Registries.Adapter>>, req: AddRequest, id: string, backend: Backend): (reply: AddReply)
    ensures reply.Accepted? ==> id in clients && !clients[id].draining && reply.client == id
  {
    if id !in clients then NotFound
    else if clients[id].draining then Conflict
    else LeasedReply(req, Registries.ClientOf(clients[id]), id, backend)
  }

  function LeasedReply(req: AddRequest, c: Registries.Client, id: string, backend: Backend): AddReply {
    if req.payload != [] && !backend.takesPayload(c.kind) then NoPayload
    else match backend.add(c.adapter, JobFor(req, c))
         case Success(job) => Accepted(id, job)
         case Failure(PayloadUnsupported) => NoPayload
         case Failure(Refused) => BadGateway
  }

  /** One job handed to an adapter. */
  datatype Asked = Asked(adapter: Registries.Adapter, job: Job)

  /** What an admitted add hands to the adapters: nothing, or one job. */
  function HandedOver(clients: map<R.Id, R.Entry<Registries.Adapter>>, body: Option<AddRequest>, backend: Backend): seq<Asked> {
    if body.None? || !WellFormedAdd(body.value) then [] else HandedTo(clients, body.value, NamedClient(body.value), backend)
  }

  function HandedTo(clients: map<R.Id, R.Entry<Registries.Adapter>>, req: AddRequest, id: string, backend: Backend): seq<Asked> {
    if id !in clients || clients[id].draining then [] else HandedUnderLease(req, Registries.ClientOf(clients[id]), backend)
  }

  function HandedUnderLease(req: AddRequest, c: Registries.Client, backend: Backend): seq<Asked> {
    if req.payload != [] && !backend.takesPayload(c.kind) then [] else [Asked(c.adapter, JobFor(req, c))]
  }

  /** The request names one client, and something to download. */
  ghost predicate Answerable(req: AddRequest) {
    && (req.client != "" || req.adapter != "")
    && (req.client == "" || req.adapter == "" || req.client == req.adapter)
    && (req.source != "" || req.payload != [])
  }

  /**
   What an admitted add comes to: `handed` is what was handed to adapters. The first check that fails decides the
   reply and nothing is handed over. A well-formed add for a client that takes new downloads is handed to that
   client's adapter, unless it carries a payload and the client is an oDownloader, and the adapter's answer decides.
   */
  ghost predicate AddAnswered(clients: map<R.Id, R.Entry<Registries.Adapter>>, body: Option<AddRequest>,
                           add: (Registries.Adapter, Job) -> Result<string, AddError>, handed: seq<Asked>, reply: AddReply)
  {
    if body.None? then handed == [] && reply == BadBody
    else
      var req := body.value;
      var id := if req.client != "" then req.client else req.adapter;
      if !Answerable(req) then handed == [] && reply == BadRequest
      else if id !in clients then handed == [] && reply == NotFound
      else if clients[id].draining then handed == [] && reply == Conflict
      else if req.payload != [] && clients[id].spec.kind == "odownloader" then handed == [] && reply == NoPayload
      else
        && |handed| == 1 && handed[0].adapter == clients[id].adapter
        && var job := handed[0].job;
           && job.wanted == req.wanted && job.source == req.source && job.title == req.title
           && job.payload == req.payload && job.payloadName == req.payloadName
           && job.savePath == (if req.savePath != "" then req.savePath else clients[id].spec.savePath)
           && job.category == (if req.category != "" then req.category else clients[id].spec.category)
           && match add(clients[id].adapter, job)
              case Success(name) => reply == Accepted(id, name)
              case Failure(PayloadUnsupported) => reply == NoPayload
              case Failure(Refused) => reply == BadGateway
  }

  lemma AddIsAnswered(clients: map<R.Id, R.Entry<Registries.Adapter>>, body: Option<AddRequest>,
                      add: (Registries.Adapter, Job) -> Result<string, AddError>)
    ensures AddAnswered(clients, body, add, HandedOver(clients, body, CatalogBackend(add)), AddReplyOf(clients, body, CatalogBackend(add)))
    ensures AddReplyOf(clients, body, CatalogBackend(add)) != TooManyRequests
  {
    if body.Some? {
      var id := if body.value.client != "" then body.value.client else body.value.adapter;
      if id in clients {
        PayloadTypes(clients[id].spec.kind);
      }
    }
  }

  /** Of the types in the catalog only oDownloader takes no payload. */
  lemma PayloadTypes(kind: string)
    ensures TakesPayload(kind) <==> kind != "odownloader"
  {
    AcceptedSpecs.CatalogEntries(kind);
    if AcceptedSpecs.Known(kind) {
      AcceptedSpecs.TypesOffer(kind, "none");
    }
  }

  /** The events about one key, in order. */
  function About(events: seq<Emission>, k: Key): seq<Emission> {
    if events == [] then []
    else if events[|events| - 1].key == k then About(events[..|events| - 1], k) + [events[|events| - 1]]
    else About(events[..|events| - 1], k)
  }

  lemma {:induction false} AboutAppend(a: seq<Emission>, b: seq<Emission>, k: Key)
    ensures About(a + b, k) == About(a, k) + About(b, k)
  {
    if b == [] {
      assert a + b == a;
    } else {
      assert (a + b)[..|a + b| - 1] == a + b[..|b| - 1];
      AboutAppend(a, b[..|b| - 1], k);
    }
  }

  /** A push takes no client away that is in use. */
  lemma UsedClientsStay<A>(rules: R.Rules, before: map<R.Id, R.Entry<A>>, specs: seq<ClientSpec>, leased: set<R.Id>,
                           inUse: R.Id -> bool, built: map<R.Id, A>, id: R.Id)
    requires R.Rebuilt(rules, before, R.Accepted(rules, R.EnvIds(before), specs, specs)) <= built.Keys
    ensures var env := R.EnvIds(before);
            var after := R.AfterPush(rules, before, R.Accepted(rules, env, specs, specs),
                                     R.ErrorIds(R.Errors(rules, env, specs, specs)), leased, inUse, built);
            id in before && inUse(id) ==> id in after
  {
    var env := R.EnvIds(before);
    var accepted, failed := R.Accepted(rules, env, specs, specs), R.ErrorIds(R.Errors(rules, env, specs, specs));
    R.AcceptedIdsAreFree(rules, env, specs);
    R.EntriesAfterPush(rules, before, accepted, failed, leased, inUse, built);
    var after := R.AfterPush(rules, before, accepted, failed, leased, inUse, built);
    if id in accepted {
      assert R.InEffect(rules, before, after, built, id, accepted[id]);
    } else if id in before && !R.LeftOut(before, accepted, failed, id) {
      assert id in env || id in failed;
    }
  }

  /** An accepted add has put its own record under its key; any other answer leaves the tracked jobs alone. */
  ghost predicate JobsAfter(before: map<Key, TrackedJob>, after: map<Key, TrackedJob>, reply: AddReply, kind: string, req: AddRequest) {
    if reply.Accepted? then
      var k := KeyOf(reply.client, reply.job);
      k in after && after == before[k := after[k]] && IsFor(after[k], reply, kind, req)
    else after == before
  }

  predicate IsFor(t: TrackedJob, reply: AddReply, kind: string, req: AddRequest)
    requires reply.Accepted?
  {
    t.adapter == reply.client && t.kind == kind && t.job == reply.job && t.title == req.title && t.wanted == req.wanted
  }

  lemma SameElements(listed: seq<string>, elements: set<string>)
    requires ListsSorted(listed, elements)
    ensures forall x :: x in listed <==> x in elements
  {
    forall x ensures x in listed <==> x in elements {
      assert x in multiset(listed) <==> x in multiset(elements);
    }
  }

  lemma GivenBack<T>(open: set<T>, x: T)
    requires x !in open
    ensures open + {x} - {x} == open
  {
  }

  lemma StillRegistered(ids: set<R.Id>, before: map<Key, TrackedJob>, after: map<Key, TrackedJob>, reply: AddReply, kind: string, req: AddRequest)
    requires JobsAfter(before, after, reply, kind, req) && (reply.Accepted? ==> reply.client in ids)
    requires forall k :: k in before ==> before[k].adapter in ids
    ensures forall k :: k in after ==> after[k].adapter in ids
  {
  }

  /** Every record there was is there still. */
  ghost predicate Keeps(before: map<Key, TrackedJob>, after: map<Key, TrackedJob>) {
    forall k :: k in before ==> k in after && after[k] == before[k]
  }

  ghost predicate TracksAll(jobs: map<Key, TrackedJob>, id: R.Id, listed: seq<Listed>) {
    forall l :: l in listed ==> KeyOf(id, l.job) in jobs
  }

  /** Exactly the jobs a client lists were added to those tracked, as its own and without a wanted item. */
  ghost predicate Adopted(before: map<Key, TrackedJob>, after: map<Key, TrackedJob>, id: R.Id, listed: Option<seq<Listed>>) {
    if listed.None? then after == before
    else
      && Keeps(before, after) && TracksAll(after, id, listed.value)
      && forall k :: k in after && k !in before ==> IsListed(after[k], id, listed.value)
  }

  ghost predicate IsListed(t: TrackedJob, id: R.Id, listed: seq<Listed>) {
    t.adapter == id && t.wanted == "" && Listed(t.job, t.title) in listed
  }

  /** Every job that is new is tracked with the type of its client. */
  ghost predicate NewKinds(clients: map<R.Id, R.Entry<Registries.Adapter>>, before: map<Key, TrackedJob>, after: map<Key, TrackedJob>) {
    forall k :: k in after && k !in before ==>
      after[k].adapter in clients && after[k].kind == clients[after[k].adapter].spec.kind
  }

  ghost predicate FromListing(started: seq<Registries.Client>, listings: R.Id -> Option<seq<Listed>>, t: TrackedJob) {
    && (exists c :: c in started && c.id == t.adapter)
    && listings(t.adapter).Some? && IsListed(t, t.adapter, listings(t.adapter).value)
  }

  /** The client takes new downloads, and adoption. */
  predicate Accepting(clients: map<R.Id, R.Entry<Registries.Adapter>>, id: R.Id) {
    id in clients && !clients[id].draining
  }

  /** What the tracked jobs promise about adoption, in terms of the listing. */
  lemma AdoptedJobs(before: map<Key, TrackedJob>, after: map<Key, TrackedJob>, id: R.Id, listed: seq<Listed>)
    requires Keeps(before, after) && forall k :: k in after <==> k in before || ListsKey(id, listed, k)
    requires forall k :: k in after && k !in before ==> IsListed(after[k], id, listed)
    ensures Adopted(before, after, id, Some(listed))
  {
    forall l | l in listed ensures KeyOf(id, l.job) in after {
      assert ListsKey(id, listed, KeyOf(id, l.job));
    }
  }

  lemma AdoptedRegistered(ids: set<R.Id>, before: map<Key, TrackedJob>, after: map<Key, TrackedJob>, id: R.Id, listed: Option<seq<Listed>>)
    requires Adopted(before, after, id, listed) && id in ids && forall k :: k in before ==> before[k].adapter in ids
    ensures forall k :: k in after ==> after[k].adapter in ids
  {
  }

  /** The type of a client, for the record of a job added to it. */
  function ClientKind(clients: map<R.Id, R.Entry<Registries.Adapter>>, reply: AddReply): string {
    if reply.Accepted? && reply.client in clients then clients[reply.client].spec.kind else ""
  }

  /** What one poll of a job tracked under its own key comes to, given the answers of this pass. */
  function Polled(r: Record, answers: Key -> Answer, now: nat): PollOutcome {
    PollResult(r, Some(r), true, answers(r.key), now)
  }

  /** How a pass ends for each job. */
  function PassResult(answers: Key -> Answer, now: nat): Record -> PollOutcome {
    r => Polled(r, answers, now)
  }

  /** The events are about this key only. */
  ghost predicate OnlyAbout(events: seq<Emission>, k: Key) {
    forall other :: About(events, other) == if other == k then events else []
  }

  lemma PollIsAboutItsJob(r: Record, answers: Key -> Answer, now: nat)
    ensures OnlyAbout(PassResult(answers, now)(r).events, r.key)
  {
  }

  function Get(recs: map<Key, Record>, k: Key): Option<Record> {
    if k in recs then Some(recs[k]) else None
  }

  function Put(recs: map<Key, Record>, k: Key, r: Option<Record>): map<Key, Record> {
    match r case None => recs - {k} case Some(v) => recs[k := v]
  }

  lemma PutUnique(before: map<Key, Record>, after: map<Key, Record>, k: Key, r: Option<Record>)
    requires Get(after, k) == r && forall other :: other != k ==> Get(after, other) == Get(before, other)
    ensures after == Put(before, k, r)
  {
    forall other ensures other in after <==> other in Put(before, k, r) {
      assert Get(after, other) == if other == k then r else Get(before, other);
    }
    forall other | other in after ensures after[other] == Put(before, k, r)[other] {
      assert Get(after, other) == if other == k then r else Get(before, other);
    }
  }

  /** The tracked jobs and the events of a poll pass that has polled the keys in `done`. */
  ghost predicate PassDone(before: map<Key, Record>, done: set<Key>, recs: map<Key, Record>,
                           log: seq<Emission>, events: seq<Emission>, result: Record -> PollOutcome)
  {
    && (forall k :: Get(recs, k) == if k in before && k in done then result(before[k]).cur else Get(before, k))
    && (forall k :: About(events, k) == About(log, k) + if k in before && k in done then result(before[k]).events else [])
  }

  lemma PassStarts(before: map<Key, Record>, log: seq<Emission>, result: Record -> PollOutcome)
    ensures PassDone(before, {}, before, log, log, result)
  {
    assert forall k :: About(log, k) + [] == About(log, k);
  }

  lemma PassTurn(before: map<Key, Record>, done: set<Key>, recs: map<Key, Record>, log: seq<Emission>, events: seq<Emission>,
                 result: Record -> PollOutcome, k: Key)
    requires PassDone(before, done, recs, log, events, result)
    requires k in before && k !in done && OnlyAbout(result(before[k]).events, k)
    ensures k in recs && recs[k] == before[k]
    ensures var r := result(before[k]); PassDone(before, done + {k}, Put(recs, k, r.cur), log, events + r.events, result)
  {
    assert Get(recs, k) == Some(before[k]);
    var r := result(before[k]);
    forall other
      ensures About(events + r.events, other)
           == About(log, other) + if other in before && other in done + {k} then result(before[other]).events else []
    {
      AboutAppend(events, r.events, other);
      assert About(events, other) + [] == About(events, other);
    }
  }

  ghost function KeysOf(all: seq<TrackedJob>): set<Key> {
    set t | t in all :: t.Key()
  }

  ghost predicate Lists(jobs: map<Key, TrackedJob>, all: seq<TrackedJob>) {
    && NoDuplicates(all)
    && (forall t :: t in all ==> t.Key() in jobs && jobs[t.Key()] == t)
    && (forall k :: k in jobs ==> jobs[k] in all && jobs[k].Key() == k)
  }

  lemma SnapshotNext(jobs: map<Key, TrackedJob>, all: seq<TrackedJob>, i: nat)
    requires Lists(jobs, all) && i < |all|
    ensures all[i].Key() in jobs && jobs[all[i].Key()] == all[i] && all[i].Key() !in KeysOf(all[..i])
    ensures KeysOf(all[..i + 1]) == KeysOf(all[..i]) + {all[i].Key()}
  {
    assert all[i] in all;
    forall j | 0 <= j < i ensures all[j].Key() != all[i].Key() {
      assert all[j] in all;
    }
    assert all[..i + 1] == all[..i] + [all[i]];
  }

  lemma SnapshotCovers(jobs: map<Key, TrackedJob>, all: seq<TrackedJob>)
    requires Lists(jobs, all)
    ensures KeysOf(all[..|all|]) == jobs.Keys
  {
    assert all[..|all|] == all;
    forall k | k in jobs ensures k in KeysOf(all) {
      assert jobs[k] in all;
    }
  }

  class Server {
    const reg: Registries.Registry
    const gw: Gateway
    const budget: AddBudget.Budget
    ghost var asked: seq<Asked>   // the jobs handed to adapters, in order

    constructor (reg: Registries.Registry, gw: Gateway, budget: AddBudget.Budget)
      ensures this.reg == reg && this.gw == gw && this.budget == budget && asked == []
    {
      this.reg, this.gw, this.budget := reg, gw, budget;
      asked := [];
    }

    /** The client of every tracked job is registered. */
    ghost predicate Registered()
      reads reg, gw
    {
      forall k :: k in gw.jobs ==> gw.jobs[k].adapter in reg.clients
    }

    ghost predicate Valid()
      reads reg, reg.open, gw
    {
      reg.Valid() && gw.Valid() && Registered()
    }

    /** Hands the job to the client and tracks it, under a lease. */
    method AddLeased(req: AddRequest, c: Registries.Client, id: string, backend: Backend) returns (reply: AddReply)
      requires gw.Valid()
      modifies gw`jobs, this`asked
      ensures gw.Valid()
      ensures asked == old(asked) + HandedUnderLease(req, c, backend)
      ensures reply == LeasedReply(req, c, id, backend)
      ensures JobsAfter(old(gw.jobs), gw.jobs, reply, c.kind, req)
      ensures reply.Accepted? ==> fresh(gw.jobs[KeyOf(reply.client, reply.job)])
      ensures reply.Accepted? ==>
                gw.jobs[KeyOf(id, reply.job)].Value() == NewRecord(id, c.kind, reply.job, req.title, req.wanted)
    {
      if |req.payload| > 0 && !backend.takesPayload(c.kind) {
        assert asked + [] == asked;
        return NoPayload;
      }
      var savePath, category := req.savePath, req.category;
      if savePath == "" { savePath := c.savePath; }
      if category == "" { category := c.category; }
      var job := Job(req.wanted, req.source, savePath, req.title, category, req.payload, req.payloadName);
      asked := asked + [Asked(c.adapter, job)];
      var added := backend.add(c.adapter, job);
      if added.Failure? {
        return if added.error.PayloadUnsupported? then NoPayload else BadGateway;
      }
      var t := new TrackedJob(id, c.kind, added.value, req.title, req.wanted);
      gw.Track(t);
      return Accepted(id, added.value);
    }

    /** Adds and tracks the job, and only then gives the lease back. */
    method AddAndRelease(req: AddRequest, c: Registries.Client, lease: Registries.Lease, backend: Backend) returns (reply: AddReply)
      requires Valid() && lease in reg.open && lease.id in reg.clients
      modifies reg`leases, reg`open, lease, gw`jobs, this`asked
      ensures Valid() && reg.open == old(reg.open) - {lease}
      ensures reply == LeasedReply(req, c, lease.id, backend)
      ensures asked == old(asked) + HandedUnderLease(req, c, backend)
      ensures JobsAfter(old(gw.jobs), gw.jobs, reply, c.kind, req)
      ensures reply.Accepted? ==> fresh(gw.jobs[KeyOf(reply.client, reply.job)])
    {
      reply := AddLeased(req, c, lease.id, backend);
      StillRegistered(reg.clients.Keys, old(gw.jobs), gw.jobs, reply, c.kind, req);
      reg.Release(lease);
    }

    /** Leases the client for as long as the job is added and tracked. */
    method LeaseAndAdd(req: AddRequest, id: string, backend: Backend) returns (reply: AddReply)
      requires Valid()
      modifies reg`leases, reg`open, gw`jobs, this`asked
      ensures Valid() && reg.open == old(reg.open)
      ensures reply == AddReplyTo(reg.clients, req, id, backend)
      ensures asked == old(asked) + HandedTo(reg.clients, req, id, backend)
      ensures JobsAfter(old(gw.jobs), gw.jobs, reply, ClientKind(reg.clients, reply), req)
      ensures reply.Accepted? ==> fresh(gw.jobs[KeyOf(reply.client, reply.job)])
    {
      var c, lease := reg.Acquire(id);
      if c.Failure? {
        reply := if c.error.UnknownClient? then NotFound else Conflict;
      } else {
        GivenBack(old(reg.open), lease);
        reply := AddAndRelease(req, c.value, lease, backend);
      }
    }

    /** The checks of a decoded request, then the add under a lease. */
    method AnswerAdd(body: Option<AddRequest>, backend: Backend) returns (reply: AddReply)
      requires Valid()
      modifies reg`leases, reg`open, gw`jobs, this`asked
      ensures Valid() && reg.open == old(reg.open)
      ensures reply == AddReplyOf(reg.clients, body, backend)
      ensures asked == old(asked) + HandedOver(reg.clients, body, backend)
      ensures if body.None? then gw.jobs == old(gw.jobs)
              else JobsAfter(old(gw.jobs), gw.jobs, reply, ClientKind(reg.clients, reply), body.value)
      ensures reply.Accepted? ==> fresh(gw.jobs[KeyOf(reply.client, reply.job)])
    {
      if body.None? {
        return BadBody;
      }
      var req := body.value;
      var id := req.client;
      if id == "" {
        id := req.adapter;
      }
      if req.client != "" && req.adapter != "" && req.client != req.adapter {
        return BadRequest;
      }
      if id == "" || (req.source == "" && |req.payload| == 0) {
        return BadRequest;
      }
      reply := LeaseAndAdd(req, id, backend);
    }

    /** Answers an admitted add and gives its reservation back, if it has one. */
    method AnswerAdmitted(body: Option<AddRequest>, backend: Backend, room: Option<AddBudget.Reservation>) returns (reply: AddReply)
      requires Valid() && budget.Valid() && (room.Some? ==> room.value in budget.open && !room.value.released)
      modifies reg`leases, reg`open, gw`jobs, this`asked, budget, if room.Some? then {room.value} else {}
      ensures Valid() && budget.Valid() && reg.open == old(reg.open)
      ensures budget.open == old(budget.open) - if room.Some? then {room.value} else {}
      ensures budget.inFlight == old(budget.inFlight) - if room.Some? then room.value.amount else 0
      ensures reply == AddReplyOf(reg.clients, body, backend)
      ensures asked == old(asked) + HandedOver(reg.clients, body, backend)
      ensures if body.None? then gw.jobs == old(gw.jobs)
              else JobsAfter(old(gw.jobs), gw.jobs, reply, ClientKind(reg.clients, reply), body.value)
      ensures reply.Accepted? ==> fresh(gw.jobs[KeyOf(reply.client, reply.job)])
    {
      reply := AnswerAdd(body, backend);
      assert budget.Valid();
      if room.Some? {
        budget.Release(room.value);
      }
    }

    /** POST /api/v1/downloads, with n declared body bytes: room in the budget is held for as long as the request runs. */
    method HandleAdd(n: int, body: Option<AddRequest>, add: (Registries.Adapter, Job) -> Result<string, AddError>) returns (reply: AddReply)
      requires Valid() && budget.Valid()
      modifies reg`leases, reg`open, gw`jobs, this`asked, budget
      ensures Valid() && budget.Valid() && reg.open == old(reg.open)
      ensures budget.open == old(budget.open) && budget.inFlight == old(budget.inFlight)
      ensures reply == if AddBudget.Refuses(old(budget.inFlight), n) then TooManyRequests
                       else AddReplyOf(reg.clients, body, CatalogBackend(add))
      ensures asked == old(asked) + if AddBudget.Refuses(old(budget.inFlight), n) then []
                                    else HandedOver(reg.clients, body, CatalogBackend(add))
      ensures reply == TooManyRequests <==>
                (n < 0 || n > 1_048_576)
                && old(budget.inFlight) + (if n < 0 || n > 74_099_372 then 74_099_372 else n) > 148_198_744
      ensures old(asked) <= asked && (reply == TooManyRequests ==> asked == old(asked))
      ensures reply != TooManyRequests ==> AddAnswered(reg.clients, body, add, asked[|old(asked)|..], reply)
      // an accepted job is tracked, and no other
      ensures if body.None? then gw.jobs == old(gw.jobs)
              else JobsAfter(old(gw.jobs), gw.jobs, reply, ClientKind(reg.clients, reply), body.value)
      ensures reply.Accepted? ==> fresh(gw.jobs[KeyOf(reply.client, reply.job)])
    {
      var admitted := budget.Admit(n);
      if admitted.None? {
        reply := TooManyRequests;
      } else {
        reply := AnswerAdmitted(body, CatalogBackend(add), admitted.value);
        AddIsAnswered(reg.clients, body, add);
        assert asked[|old(asked)|..] == HandedOver(reg.clients, body, CatalogBackend(add));
      }
    }

    /** DELETE /api/v1/downloads/{name}/{id}; `removed` is the client's own answer. */
    method HandleRemove(name: string, id: string, removed: bool) returns (reply: RemoveReply)
      requires Valid()
      modifies gw`jobs
      ensures Valid()
      ensures reply == if name !in reg.clients then NoSuchClient else if removed then Removed else ClientFailed
      ensures gw.jobs == if reply.Removed? then old(gw.jobs) - {KeyOf(name, id)} else old(gw.jobs)
    {
      var c := reg.Lookup(name);
      if c.None? {
        return NoSuchClient;
      }
      if !removed {
        return ClientFailed;
      }
      gw.Untrack(name, id);
      return Removed;
    }

    /** The registered clients with tracked jobs: hasJobs, asked about each. */
    method ClientsInUse() returns (used: set<R.Id>)
      requires gw.Valid()
      ensures forall id :: id in used <==> id in reg.clients && exists k :: k in gw.jobs && gw.jobs[k].adapter == id
    {
      used := {};
      var todo := reg.clients.Keys;
      while todo != {}
        invariant todo <= reg.clients.Keys
        invariant forall id :: id in used <==>
                    id in reg.clients && id !in todo && exists k :: k in gw.jobs && gw.jobs[k].adapter == id
      {
        var id :| id in todo;
        var found := gw.HasJobs(id);
        if found {
          used := used + {id};
        }
        todo := todo - {id};
      }
    }

    /** Polls one tracked job. */
    method PollJob(job: TrackedJob, answers: Key -> Answer, now: nat)
      requires gw.Valid() && Registered() && job.Key() in gw.jobs && gw.jobs[job.Key()] == job
      modifies gw, job
      ensures gw.Valid() && (gw.jobs == old(gw.jobs) || gw.jobs == old(gw.jobs) - {job.Key()})
      ensures gw.Records() == Put(old(gw.Records()), job.Key(), PassResult(answers, now)(old(job.Value())).cur)
      ensures gw.events == old(gw.events) + PassResult(answers, now)(old(job.Value())).events
    {
      var c := reg.Lookup(job.adapter);
      ghost var k, before := job.Key(), gw.Records();
      gw.PollOne(job, c.Some?, answers(job.Key()), now);
      assert Get(gw.Records(), k) == gw.Under(k);
      forall other | other != k ensures Get(gw.Records(), other) == Get(before, other) {
      }
      PutUnique(before, gw.Records(), k, Polled(old(job.Value()), answers, now).cur);
    }

    /** Polls every tracked job once, in any order. */
    method PollJobs(answers: Key -> Answer, now: nat)
      requires gw.Valid() && Registered()
      modifies gw, gw.jobs.Values
      ensures gw.Valid() && Registered()
      ensures PassDone(old(gw.Records()), old(gw.jobs.Keys), gw.Records(), old(gw.events), gw.events, PassResult(answers, now))
    {
      ghost var jobs, before, log, result := gw.jobs, gw.Records(), gw.events, PassResult(answers, now);
      var all := gw.Snapshot();
      PassStarts(before, log, result);
      for i := 0 to |all|
        invariant gw.Valid() && (forall k :: k in gw.jobs ==> k in jobs && gw.jobs[k] == jobs[k])
        invariant PassDone(before, KeysOf(all[..i]), gw.Records(), log, gw.events, result)
      {
        SnapshotNext(jobs, all, i);
        PollIsAboutItsJob(before[all[i].Key()], answers, now);
        PassTurn(before, KeysOf(all[..i]), gw.Records(), log, gw.events, result, all[i].Key());
        PollJob(all[i], answers, now);
      }
      SnapshotCovers(jobs, all);
    }

    ghost predicate HasJob(id: R.Id)
      reads gw
    {
      exists k :: k in gw.jobs && gw.jobs[k].adapter == id
    }

    /** Drops the drained clients that are not in use. */
    method ReapUnused(used: set<R.Id>) returns (dropped: seq<R.Id>)
      requires reg.Valid()
      modifies reg`clients
      ensures reg.Valid()
      ensures forall id :: id in dropped <==>
                id in old(reg.clients) && old(reg.clients)[id].draining && id !in reg.leases && id !in used
      ensures reg.clients == old(reg.clients) - (set id | id in dropped)
    {
      var inUse := (id: R.Id) => id in used;
      ghost var gone := R.Reaped(reg.clients, reg.leases.Keys, inUse);
      dropped := reg.Reap(inUse);
      SameElements(dropped, gone);
      assert gone == set id | id in dropped;
    }

    /** Drops the drained clients without tracked jobs. */
    method ReapIdle() returns (dropped: seq<R.Id>)
      requires Valid()
      modifies reg`clients
      ensures Valid()
      ensures forall id :: id in dropped <==>
                id in old(reg.clients) && old(reg.clients)[id].draining && id !in reg.leases && !HasJob(id)
      ensures reg.clients == old(reg.clients) - (set id | id in dropped)
      ensures gw.Records() == old(gw.Records())
    {
      var used := ClientsInUse();
      dropped := ReapUnused(used);
      gw.RecordsKept();
    }

    /** One poll pass: every tracked job is polled once, then drained clients are dropped. */
    method PollAll(answers: Key -> Answer, now: nat) returns (dropped: seq<R.Id>)
      requires Valid()
      modifies reg`clients, gw, gw.jobs.Values
      ensures Valid()
      ensures PassDone(old(gw.Records()), old(gw.jobs.Keys), gw.Records(), old(gw.events), gw.events, PassResult(answers, now))
      ensures forall id :: id in dropped <==>
                id in old(reg.clients) && old(reg.clients)[id].draining && id !in reg.leases && !HasJob(id)
      ensures reg.clients == old(reg.clients) - (set id | id in dropped)
    {
      PollJobs(answers, now);
      dropped := ReapIdle();
    }

    method AdoptListed(id: R.Id, kind: string, listed: Option<seq<Listed>>)
      requires gw.Valid()
      modifies gw`jobs
      ensures gw.Valid() && Adopted(old(gw.jobs), gw.jobs, id, listed)
      ensures forall k :: k in gw.jobs && k !in old(gw.jobs) ==> gw.jobs[k].kind == kind
    {
      if listed.Some? {
        var _ := gw.Adopt(id, kind, listed.value);
        AdoptedJobs(old(gw.jobs), gw.jobs, id, listed.value);
      }
    }

    method AdoptAndRelease(c: Registries.Client, lease: Registries.Lease, listed: Option<seq<Listed>>)
      requires Valid() && lease in reg.open && lease.id in reg.clients
      modifies reg`leases, reg`open, lease, gw`jobs
      ensures Valid() && reg.open == old(reg.open) - {lease}
      ensures Adopted(old(gw.jobs), gw.jobs, lease.id, listed)
      ensures forall k :: k in gw.jobs && k !in old(gw.jobs) ==> gw.jobs[k].kind == c.kind
    {
      AdoptListed(lease.id, c.kind, listed);
      AdoptedRegistered(reg.clients.Keys, old(gw.jobs), gw.jobs, lease.id, listed);
      reg.Release(lease);
    }

    /** Tracks the unfinished jobs a client lists, under a lease; a client that was removed again is skipped. */
    method AdoptClient(id: R.Id, listed: Option<seq<Listed>>)
      requires Valid()
      modifies reg`leases, reg`open, gw`jobs
      ensures Valid() && reg.open == old(reg.open)
      ensures Adopted(old(gw.jobs), gw.jobs, id, if Accepting(reg.clients, id) then listed else None)
      ensures NewKinds(reg.clients, old(gw.jobs), gw.jobs)
    {
      var c, lease := reg.Acquire(id);
      if c.Success? {
        GivenBack(old(reg.open), lease);
        AdoptAndRelease(c.value, lease, listed);
      }
    }

    /** Adopts the jobs of the clients a push started. */
    method AdoptStarted(started: seq<Registries.Client>, listings: R.Id -> Option<seq<Listed>>)
      requires Valid()
      modifies reg`leases, reg`open, gw`jobs
      ensures Valid() && reg.open == old(reg.open)
      ensures Keeps(old(gw.jobs), gw.jobs)
      ensures forall c :: c in started && Accepting(reg.clients, c.id) && listings(c.id).Some? ==> TracksAll(gw.jobs, c.id, listings(c.id).value)
      ensures forall k :: k in gw.jobs && k !in old(gw.jobs) ==> FromListing(started, listings, gw.jobs[k])
      ensures NewKinds(reg.clients, old(gw.jobs), gw.jobs)
    {
      for i := 0 to |started|
        invariant Valid() && reg.open == old(reg.open)
        invariant Keeps(old(gw.jobs), gw.jobs)
        invariant forall c :: c in started[..i] && Accepting(reg.clients, c.id) && listings(c.id).Some? ==>
                    TracksAll(gw.jobs, c.id, listings(c.id).value)
        invariant forall k :: k in gw.jobs && k !in old(gw.jobs) ==> FromListing(started, listings, gw.jobs[k])
        invariant NewKinds(reg.clients, old(gw.jobs), gw.jobs)
      {
        var id := started[i].id;
        ghost var before := gw.jobs;
        AdoptClient(id, listings(id));
        assert started[..i + 1] == started[..i] + [started[i]];
        assert started[i] in started;
      }
      assert started[..|started|] == started;
    }

    /** The push itself: what it answers about a client in use comes from the tracked jobs. */
    method Push(revision: int, specs: seq<ClientSpec>) returns (res: Registries.ApplyResult, ghost built: map<R.Id, Registries.Adapter>, used: set<R.Id>)
      requires Valid()
      modifies reg`clients, reg`revision
      ensures Valid()
      ensures forall id :: id in used <==> id in old(reg.clients) && HasJob(id)
      ensures Registries.PushOutcome(reg.PushRules(), old(reg.clients), old(reg.revision), revision, specs, reg.leases.Keys,
                                     id => id in used, built, reg.clients, reg.revision, res)
      ensures forall c :: c in res.started ==> Accepting(reg.clients, c.id)
    {
      used := ClientsInUse();
      ghost var before := reg.clients;
      res, built := reg.Apply(revision, specs, id => id in used);
      forall k | k in gw.jobs ensures gw.jobs[k].adapter in reg.clients {
        UsedClientsStay(reg.PushRules(), before, specs, reg.leases.Keys, id => id in used, built, gw.jobs[k].adapter);
      }
      R.GatewayPreparesOwnId(reg.parse, reg.digest);
      Registries.StartedAreActive(reg.PushRules(), before, old(reg.revision), revision, specs, reg.leases.Keys,
                                  id => id in used, built, reg.clients, reg.revision, res);
    }

    /** PUT /api/v1/config/clients: the push, and adoption by the clients it started. */
    method ApplyConfig(revision: int, specs: seq<ClientSpec>, listings: R.Id -> Option<seq<Listed>>)
      returns (res: Registries.ApplyResult, ghost built: map<R.Id, Registries.Adapter>, ghost used: set<R.Id>)
      requires Valid()
      modifies reg`clients, reg`revision, reg`leases, reg`open, gw`jobs
      ensures Valid() && reg.open == old(reg.open)
      ensures forall id :: id in used <==> id in old(reg.clients) && old(HasJob(id))
      ensures Registries.PushOutcome(reg.PushRules(), old(reg.clients), old(reg.revision), revision, specs, old(reg.leases.Keys),
                                     id => id in used, built, reg.clients, reg.revision, res)
      // every job a started client listed is tracked now, every job there was still is, and nothing else
      ensures Keeps(old(gw.jobs), gw.jobs)
      ensures forall c :: c in res.started && listings(c.id).Some? ==> TracksAll(gw.jobs, c.id, listings(c.id).value)
      ensures forall k :: k in gw.jobs && k !in old(gw.jobs) ==> FromListing(res.started, listings, gw.jobs[k])
      ensures NewKinds(reg.clients, old(gw.jobs), gw.jobs)
    {
      res, built, used := Push(revision, specs);
      AdoptStarted(res.started, listings);
    }
  }
}
