/** The gateway's tracked jobs, updated in place under the job lock. */
module Gateways {
  import opened Outcomes
  import opened JobViews
  import opened Text
  import opened Tracking

  /** What the gateway remembers of one job. */
  class TrackedJob {
    const adapter: string
    const kind: string
    const job: string
    const title: string
    const wanted: string
    var last: Status
    var view: JobView
    var lastBytes: int
    var lastAt: Option<nat>
    var missingSince: Option<nat>

    constructor (adapter: string, kind: string, job: string, title: string, wanted: string)
      ensures Value() == NewRecord(adapter, kind, job, title, wanted)
      ensures this.adapter == adapter && this.kind == kind && this.job == job && this.title == title && this.wanted == wanted
      ensures Key() == adapter + ":" + job && last == Queued && lastBytes == 0 && lastAt == None && missingSince == None
    {
      this.adapter, this.kind, this.job, this.title, this.wanted := adapter, kind, job, title, wanted;
      last, view, lastBytes, lastAt, missingSince := Queued, NewJobView(Queued), 0, None, None;
    }

    function Key(): Key {
      KeyOf(adapter, job)
    }

    ghost function Value(): Record
      reads this
    {
      Record(Key(), adapter, kind, job, title, wanted, last, view, lastBytes, lastAt, missingSince)
    }
  }

  /** One event handed to the publisher. */
  datatype Emission = Emission(kind: Kind, key: Key, wanted: string, title: string)

  function TitleOf(job: Record, v: JobView): string {
    if v.title != "" then v.title else job.title
  }

  datatype PollOutcome = PollOutcome(cur: Option<Record>, events: seq<Emission>)

  /**
   What one undisturbed poll of `job` comes to: the record tracked under its key afterwards, given
   the one tracked before, and the events. `found` says whether its client is registered.
   */
  function PollResult(job: Record, cur: Option<Record>, found: bool, answer: Answer, now: nat): PollOutcome {
    if !found then PollOutcome(None, [])
    else match answer
         case Unreachable => PollOutcome(cur, [])
         case Told(v) =>
           if v.state.Completed? then PollOutcome(None, [Emission(Completion, job.key, job.wanted, "")])
           else if v.state.Failed? then PollOutcome(None, [Emission(Breakdown, job.key, job.wanted, TitleOf(job, v))])
           else if Vanished(v) && cur.Some? && Overdue(cur.value, now) then
             PollOutcome(None, [Emission(Loss, job.key, job.wanted, job.title)])
           else
             var seen := match cur
                         case None => None
                         case Some(r) => Some(Observed(if Vanished(v) then Marked(r, now) else Cleared(r), v, now));
             PollOutcome(seen, [Emission(Progress, job.key, job.wanted, TitleOf(job, v))])
  }

  /**
   The events of a poll, each for the polled job's wanted item: what became of the job, under the title the client
   gives it or, when it gives none, the one it was added with.
   */
  lemma PollPublishes(job: Record, cur: Option<Record>, v: JobView, now: nat)
    ensures var r := PollResult(job, cur, true, Told(v), now);
            var title := if v.title == "" then job.title else v.title;
            && (v.state == Completed ==> r.events == [Emission(Completion, job.key, job.wanted, "")] && r.cur == None)
            && (v.state == Failed ==> r.events == [Emission(Breakdown, job.key, job.wanted, title)] && r.cur == None)
            && (v.state == Queued || v.state == Downloading ==>
                  if v.nativeState == "not-found" && cur.Some? && cur.value.missingSince.Some?
                     && now > cur.value.missingSince.value + 600_000_000_000
                  then r.events == [Emission(Loss, job.key, job.wanted, job.title)] && r.cur == None
                  else r.events == [Emission(Progress, job.key, job.wanted, title)] && (r.cur.Some? <==> cur.Some?))
  {
  }

  /** And without an answer it publishes nothing, and forgets the job exactly when its client is gone. */
  lemma PollStaysSilent(job: Record, cur: Option<Record>, found: bool, answer: Answer, now: nat)
    requires !found || answer.Unreachable?
    ensures var r := PollResult(job, cur, found, answer, now);
            r.events == [] && r.cur == (if found then cur else None)
  {
  }

  /** What is remembered of a job that goes on: the answer, when it came, and since when it has been missing. */
  lemma PollRemembers(job: Record, cur: Record, v: JobView, now: nat)
    requires PollResult(job, Some(cur), true, Told(v), now).cur.Some?
    ensures var after := PollResult(job, Some(cur), true, Told(v), now).cur.value;
            && after.last == v.state && after.view == v && after.lastBytes == v.bytesDone && after.lastAt == Some(now)
            && after.missingSince ==
                 (if v.nativeState != "not-found" then None else if cur.missingSince.Some? then cur.missingSince else Some(now))
            && after.key == cur.key && after.adapter == cur.adapter && after.kind == cur.kind && after.job == cur.job
            && after.title == cur.title && after.wanted == cur.wanted
  {
  }

  /** Two jobs of colon-free clients share a key only when they are the same job of the same client. */
  lemma KeysAreFaithful(a: string, x: string, b: string, y: string)
    requires ':' !in a && ':' !in b
    ensures KeyOf(a, x) == KeyOf(b, y) <==> a == b && x == y
  {
    if KeyOf(a, x) == KeyOf(b, y) {
      SplitUnique(a, x, b, y, ':');
    }
  }

  ghost predicate ListsKey(client: string, listed: seq<Listed>, k: Key) {
    exists l :: l in listed && KeyOf(client, l.job) == k
  }

  /** The keys tracked are those tracked before and those listed. */
  ghost predicate KeysAfter(before: set<Key>, after: set<Key>, client: string, listed: seq<Listed>) {
    forall k :: k in after <==> k in before || ListsKey(client, listed, k)
  }

  lemma KeysAfterNext(before: set<Key>, after: set<Key>, client: string, listed: seq<Listed>, i: nat)
    requires i < |listed| && KeysAfter(before, after, client, listed[..i])
    ensures KeysAfter(before, after + {KeyOf(client, listed[i].job)}, client, listed[..i + 1])
  {
    assert listed[..i + 1] == listed[..i] + [listed[i]];
  }

  /** The record is one the client listed, without a wanted item. */
  ghost predicate AdoptedAs(t: TrackedJob, client: string, kind: string, listed: seq<Listed>)
    reads t
  {
    Listed(t.job, t.title) in listed && t.Value() == NewRecord(client, kind, t.job, t.title, "")
  }

  class Gateway {
    var jobs: map<Key, TrackedJob>
    var events: seq<Emission>

    ghost predicate Valid()
      reads this
    {
      forall k :: k in jobs ==> jobs[k].Key() == k
    }

    ghost function Under(k: Key): Option<Record>
      reads this, jobs.Values
    {
      if k in jobs then Some(jobs[k].Value()) else None
    }

    ghost function Records(): map<Key, Record>
      reads this, jobs.Values
    {
      map k | k in jobs :: jobs[k].Value()
    }

    twostate lemma RecordsKept()
      requires unchanged(this) && forall k :: k in jobs ==> unchanged(jobs[k])
      ensures Records() == old(Records())
    {
    }

    /** The job tracked under a key, as a frame. */
    ghost function At(k: Key): set<TrackedJob>
      reads this
    {
      if k in jobs then {jobs[k]} else {}
    }

    constructor ()
      ensures Valid() && jobs == map[] && events == []
    {
      jobs, events := map[], [];
    }

    method Track(t: TrackedJob)
      requires Valid()
      modifies this`jobs
      ensures Valid() && jobs == old(jobs)[t.Key() := t]
    {
      jobs := jobs[t.adapter + ":" + t.job := t];
    }

    /** Tracks a job unless its key is tracked already. */
    method TrackIfAbsent(t: TrackedJob) returns (tracked: bool)
      requires Valid()
      modifies this`jobs
      ensures Valid()
      ensures tracked <==> t.Key() !in old(jobs)
      ensures jobs == if tracked then old(jobs)[t.Key() := t] else old(jobs)
    {
      var key := t.adapter + ":" + t.job;
      if key in jobs {
        return false;
      }
      jobs := jobs[key := t];
      return true;
    }

    method Untrack(adapter: string, id: string)
      requires Valid()
      modifies this`jobs
      ensures Valid() && jobs == old(jobs) - {KeyOf(adapter, id)}
    {
      jobs := jobs - {adapter + ":" + id};
    }

    /** Whether a job is tracked on a client: a scan of the records that agrees with the keys. */
    method HasJobs(client: string) returns (found: bool)
      requires Valid()
      ensures found <==> exists k :: k in jobs && jobs[k].adapter == client
      ensures ':' !in client && (forall k :: k in jobs ==> ':' !in jobs[k].adapter) ==>
                (found <==> exists id :: KeyOf(client, id) in jobs)
    {
      var todo := jobs.Keys;
      found := false;
      while todo != {} && !found
        invariant todo <= jobs.Keys
        invariant !found ==> forall k :: k in jobs && k !in todo ==> jobs[k].adapter != client
        invariant found ==> exists k :: k in jobs && jobs[k].adapter == client
        decreases |todo|
      {
        var k :| k in todo;
        found := jobs[k].adapter == client;
        todo := todo - {k};
      }
      if found {
        ghost var k :| k in jobs && jobs[k].adapter == client;
        assert KeyOf(client, jobs[k].job) in jobs;
      }
      forall id | KeyOf(client, id) in jobs && ':' !in client && ':' !in jobs[KeyOf(client, id)].adapter
        ensures jobs[KeyOf(client, id)].adapter == client
      {
        KeysAreFaithful(client, id, jobs[KeyOf(client, id)].adapter, jobs[KeyOf(client, id)].job);
      }
    }

    /** Every tracked job, once. */
    method Snapshot() returns (out: seq<TrackedJob>)
      requires Valid()
      ensures NoDuplicates(out)
      ensures forall t :: t in out <==> t.Key() in jobs && jobs[t.Key()] == t
    {
      out := [];
      var todo := jobs.Keys;
      while todo != {}
        invariant todo <= jobs.Keys && NoDuplicates(out)
        invariant forall t :: t in out <==> t.Key() in jobs && t.Key() !in todo && jobs[t.Key()] == t
      {
        var k :| k in todo;
        NoDuplicatesAppend(out, jobs[k]);
        out := out + [jobs[k]];
        todo := todo - {k};
      }
    }

    /** Starts or checks the grace window of the job tracked under the key; true once it is over. */
    method MarkMissing(job: TrackedJob, now: nat) returns (lost: bool)
      requires Valid()
      modifies At(job.Key())`missingSince
      ensures lost <==> old(Under(job.Key())).Some? && Overdue(old(Under(job.Key())).value, now)
      ensures Under(job.Key()) == match old(Under(job.Key())) case None => None case Some(r) => Some(Marked(r, now))
      ensures job.Key() in jobs ==>
                var before, after := old(jobs[job.Key()].missingSince), jobs[job.Key()].missingSince;
                && after == (if before.None? then Some(now) else before)
                && (lost <==> before.Some? && now > before.value + 600_000_000_000)
      ensures job.Key() !in jobs ==> !lost
    {
      var key := job.adapter + ":" + job.job;
      if key !in jobs {
        return false;
      }
      var cur := jobs[key];
      if cur.missingSince.None? {
        cur.missingSince := Some(now);
        return false;
      }
      return now - cur.missingSince.value > LOST_AFTER;
    }

    method ClearMissing(job: TrackedJob)
      requires Valid()
      modifies At(job.Key())`missingSince
      ensures Under(job.Key()) == match old(Under(job.Key())) case None => None case Some(r) => Some(Cleared(r))
      ensures job.Key() in jobs ==> jobs[job.Key()].missingSince == None
    {
      var key := job.adapter + ":" + job.job;
      if key in jobs {
        jobs[key].missingSince := None;
      }
    }

    method Observe(job: TrackedJob, v: JobView, now: nat)
      requires Valid()
      modifies At(job.Key())
      ensures Under(job.Key()) == match old(Under(job.Key())) case None => None case Some(r) => Some(Observed(r, v, now))
      ensures job.Key() in jobs ==>
                var cur := jobs[job.Key()];
                && cur.last == v.state && cur.view == v && cur.lastBytes == v.bytesDone && cur.lastAt == Some(now)
                && cur.missingSince == old(jobs[job.Key()].missingSince)
    {
      var key := job.adapter + ":" + job.job;
      if key in jobs {
        var cur := jobs[key];
        cur.last := v.state;
        cur.view := v;
        cur.lastBytes := v.bytesDone;
        cur.lastAt := Some(now);
      }
    }

    method Emit(e: Emission)
      modifies this`events
      ensures events == old(events) + [e]
    {
      events := events + [e];
    }

    /** Polls one job: publishes what became of it, and forgets it once it ended. */
    method PollOne(job: TrackedJob, found: bool, answer: Answer, now: nat)
      requires Valid()
      modifies this, At(job.Key())
      ensures Valid()
      ensures var r := PollResult(old(job.Value()), old(Under(job.Key())), found, answer, now);
              Under(job.Key()) == r.cur && events == old(events) + r.events
      ensures jobs == old(jobs) || jobs == old(jobs) - {job.Key()}
    {
      if !found {
        Untrack(job.adapter, job.job);
        return;
      }
      if answer.Unreachable? {
        return;
      }
      var v := answer.view;
      var title := if v.title != "" then v.title else job.title;
      if v.state.Completed? {
        Emit(Emission(Completion, job.Key(), job.wanted, ""));
        Untrack(job.adapter, job.job);
      } else if v.state.Failed? {
        Emit(Emission(Breakdown, job.Key(), job.wanted, title));
        Untrack(job.adapter, job.job);
      } else {
        if v.nativeState == NOT_FOUND {
          var lost := MarkMissing(job, now);
          if lost {
            Emit(Emission(Loss, job.Key(), job.wanted, job.title));
            Untrack(job.adapter, job.job);
            return;
          }
        } else {
          ClearMissing(job);
        }
        Emit(Emission(Progress, job.Key(), job.wanted, title));
        Observe(job, v, now);
      }
    }

    method AdoptOne(client: string, kind: string, l: Listed) returns (tracked: bool)
      requires Valid()
      modifies this`jobs
      ensures Valid()
      ensures tracked <==> KeyOf(client, l.job) !in old(jobs)
      ensures jobs.Keys == old(jobs.Keys) + {KeyOf(client, l.job)}
      ensures forall k :: k in old(jobs) ==> jobs[k] == old(jobs)[k]
      ensures tracked ==> fresh(jobs[KeyOf(client, l.job)]) && AdoptedAs(jobs[KeyOf(client, l.job)], client, kind, [l])
      ensures |jobs| == |old(jobs)| + if tracked then 1 else 0
    {
      var t := new TrackedJob(client, kind, l.job, l.title, "");
      tracked := TrackIfAbsent(t);
    }

    /** Tracks the jobs a client lists, leaving those already tracked as they are. */
    method Adopt(client: string, kind: string, listed: seq<Listed>) returns (adopted: nat)
      requires Valid()
      modifies this`jobs
      ensures Valid()
      ensures forall k :: k in old(jobs) ==> k in jobs && jobs[k] == old(jobs)[k]
      ensures forall k :: k in jobs <==> k in old(jobs) || ListsKey(client, listed, k)
      ensures forall k :: k in jobs && k !in old(jobs) ==> fresh(jobs[k]) && AdoptedAs(jobs[k], client, kind, listed)
      ensures adopted == |jobs| - |old(jobs)|
    {
      adopted := 0;
      for i := 0 to |listed|
        invariant Valid()
        invariant forall k :: k in old(jobs) ==> k in jobs && jobs[k] == old(jobs)[k]
        invariant KeysAfter(old(jobs.Keys), jobs.Keys, client, listed[..i])
        invariant forall k :: k in jobs && k !in old(jobs) ==> fresh(jobs[k]) && AdoptedAs(jobs[k], client, kind, listed)
        invariant adopted == |jobs| - |old(jobs)|
      {
        KeysAfterNext(old(jobs.Keys), jobs.Keys, client, listed, i);
        var tracked := AdoptOne(client, kind, listed[i]);
        if tracked {
          adopted := adopted + 1;
        }
      }
      assert listed[..|listed|] == listed;
    }
  }
}
