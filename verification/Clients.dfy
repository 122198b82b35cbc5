/** The snapshot every adapter reports for a job. */
module JobViews {
  datatype Status = Queued | Downloading | Completed | Failed

  datatype JobView = JobView(
    state: Status,
    nativeState: string,
    title: string,
    bytesDone: int,
    bytesTotal: int,
    speedBps: int,
    etaSec: int,
    files: seq<string>,
    message: string,
    seeders: int,
    leechers: int,
    health: int)

  /** One job as a client lists it for adoption. */
  datatype Listed = Listed(job: string, title: string)

  /** The answer to one call: a list, or the error of a call that failed or did not parse. */
  datatype Reply<T> = Answer(items: seq<T>) | CallFailed

  datatype DescribeError = NoAnswer

  /** The native state of a job the client answered about but does not know. */
  const NOT_FOUND := "not-found"

  function NewJobView(state: Status): JobView {
    JobView(state, "", "", 0, 0, 0, -1, [], "", -1, -1, -1)
  }

  function NotFoundView(): JobView {
    NewJobView(Queued).(nativeState := NOT_FOUND)
  }

  predicate Terminal(v: JobView) {
    v.state.Completed? || v.state.Failed?
  }

  /** What a poll takes as "the client no longer knows this job". */
  predicate Vanished(v: JobView) {
    !Terminal(v) && v.nativeState == NOT_FOUND
  }
}

/** oDownloader: one package of links folded into one job. */
module ODownloader {
  import opened JobViews
  import Text

  datatype Link = Link(
    name: string,
    bytesDone: int,
    bytesTotal: int,
    speed: int,
    state: string,
    message: string,
    outputPath: string)

  predicate Finished(l: Link) {
    l.state == "FINISHED"
  }

  predicate Running(l: Link) {
    l.state == "RUNNING" || l.state == "PAUSED" || l.state == "WAITING_FOR_CHALLENGE"
  }

  predicate Broken(l: Link) {
    l.state == "FAILED" || l.state == "CANCELLED"
  }

  /** Two's-complement 64-bit arithmetic. */
  function Wrap64(x: int): int {
    (x + 0x8000_0000_0000_0000) % 0x1_0000_0000_0000_0000 - 0x8000_0000_0000_0000
  }

  datatype Measure = Done | Total | Speed

  function Amount(m: Measure, l: Link): int {
    match m case Done => l.bytesDone case Total => l.bytesTotal case Speed => l.speed
  }

  function Sum(m: Measure, links: seq<Link>): int {
    if links == [] then 0 else Sum(m, links[..|links| - 1]) + Amount(m, links[|links| - 1])
  }

  datatype Label = Name | Message | State | Path

  function TextOf(k: Label, l: Link): string {
    match k case Name => l.name case Message => l.message case State => l.state case Path => l.outputPath
  }

  function First(k: Label, links: seq<Link>): string {
    if links == [] then ""
    else if First(k, links[..|links| - 1]) != "" then First(k, links[..|links| - 1])
    else TextOf(k, links[|links| - 1])
  }

  function Last(k: Label, links: seq<Link>): string {
    if links == [] then ""
    else if TextOf(k, links[|links| - 1]) != "" then TextOf(k, links[|links| - 1])
    else Last(k, links[..|links| - 1])
  }

  function Paths(links: seq<Link>): seq<string> {
    if links == [] then []
    else Paths(links[..|links| - 1]) + if links[|links| - 1].outputPath != "" then [links[|links| - 1].outputPath] else []
  }

  ghost predicate AllFinished(links: seq<Link>) { forall l :: l in links ==> Finished(l) }

  ghost predicate SomeRunning(links: seq<Link>) { exists l :: l in links && Running(l) }

  ghost predicate SomeBroken(links: seq<Link>) { exists l :: l in links && Broken(l) }

  ghost predicate SomeFinished(links: seq<Link>) { exists l :: l in links && Finished(l) }

  /** The terminal rule: completed when every link is finished; failed when some broke and none is running. */
  ghost predicate PackageState(links: seq<Link>, state: Status) {
    && (state.Completed? <==> links != [] && AllFinished(links))
    && (state.Failed? <==> SomeBroken(links) && !SomeRunning(links))
    && (state.Downloading? <==> !AllFinished(links) && (SomeRunning(links) || (SomeFinished(links) && !SomeBroken(links))))
  }

  /** Everything the fold reports about a package. */
  ghost predicate Folded(links: seq<Link>, v: JobView) {
    && PackageState(links, v.state)
    && v.bytesDone == Wrap64(Sum(Done, links))
    && v.bytesTotal == Wrap64(Sum(Total, links))
    && v.speedBps == Wrap64(Sum(Speed, links))
    && v.title == First(Name, links)
    && v.message == Last(Message, links)
    && v.nativeState == (if links == [] then NOT_FOUND else First(State, links))
    && v.files == (if v.state.Completed? then Paths(links) else [])
  }

  ghost predicate Flags(links: seq<Link>, allFinished: bool, anyRunning: bool, anyFailed: bool, anyStarted: bool) {
    && allFinished == AllFinished(links)
    && anyRunning == SomeRunning(links)
    && anyFailed == SomeBroken(links)
    && anyStarted == (SomeFinished(links) || SomeRunning(links))
  }

  /** What the loop has collected from the links seen so far. */
  ghost predicate Collected(links: seq<Link>, v: JobView, files: seq<string>) {
    && v.bytesDone == Wrap64(Sum(Done, links))
    && v.bytesTotal == Wrap64(Sum(Total, links))
    && v.speedBps == Wrap64(Sum(Speed, links))
    && v.title == First(Name, links)
    && v.message == Last(Message, links)
    && v.nativeState == First(State, links)
    && files == Paths(links) && v.files == []
  }

  lemma StatesDisjoint(l: Link)
    ensures !(Finished(l) && Running(l)) && !(Finished(l) && Broken(l)) && !(Running(l) && Broken(l))
  {
    assert |"FINISHED"| == 8 && |"RUNNING"| == 7 && |"PAUSED"| == 6 && |"WAITING_FOR_CHALLENGE"| == 21;
    assert |"FAILED"| == 6 && |"CANCELLED"| == 9 && "PAUSED"[0] != "FAILED"[0];
  }

  lemma WrapAdds(x: int, y: int)
    ensures Wrap64(Wrap64(x) + y) == Wrap64(x + y)
  {
    var k := (x + 0x8000_0000_0000_0000) / 0x1_0000_0000_0000_0000;
    assert Wrap64(x) == x - k * 0x1_0000_0000_0000_0000;
  }

  lemma FlagsAppend(links: seq<Link>, l: Link)
    ensures AllFinished(links + [l]) <==> AllFinished(links) && Finished(l)
    ensures SomeRunning(links + [l]) <==> SomeRunning(links) || Running(l)
    ensures SomeBroken(links + [l]) <==> SomeBroken(links) || Broken(l)
    ensures SomeFinished(links + [l]) <==> SomeFinished(links) || Finished(l)
  {
    var all := links + [l];
    assert l in all && forall k :: k in all <==> k in links || k == l;
  }

  /** foldODL: one loop over the links, updating sums, four flags and the list of files. */
  method FoldODL(links: seq<Link>) returns (v: JobView)
    ensures Folded(links, v)
  {
    if |links| == 0 {
      return NotFoundView();
    }
    v := NewJobView(Queued);
    var allFinished, anyRunning, anyFailed, anyStarted := true, false, false, false;
    var files: seq<string> := [];
    for i := 0 to |links|
      invariant Collected(links[..i], v, files)
      invariant Flags(links[..i], allFinished, anyRunning, anyFailed, anyStarted)
    {
      var l := links[i];
      assert links[..i + 1] == links[..i] + [l] && links[..i + 1][..i] == links[..i];
      FlagsAppend(links[..i], l);
      StatesDisjoint(l);
      v, files := CollectLink(links[..i], l, v, files);
      if l.state == "FINISHED" {
        anyStarted := true;
      } else if l.state == "RUNNING" || l.state == "PAUSED" || l.state == "WAITING_FOR_CHALLENGE" {
        allFinished, anyRunning, anyStarted := false, true, true;
      } else if l.state == "FAILED" || l.state == "CANCELLED" {
        allFinished, anyFailed := false, true;
      } else {
        allFinished := false;
      }
    }
    assert links[..|links|] == links;
    NoBrokenWhenFinished(links);
    if allFinished {
      v := v.(state := Completed, files := files);
    } else if anyFailed && !anyRunning {
      v := v.(state := Failed);
    } else if anyStarted {
      v := v.(state := Downloading);
    } else {
      v := v.(state := Queued);
    }
  }

  lemma NoBrokenWhenFinished(links: seq<Link>)
    ensures AllFinished(links) ==> !SomeBroken(links) && !SomeRunning(links)
  {
    forall l | l in links ensures Finished(l) ==> !Broken(l) && !Running(l) {
      StatesDisjoint(l);
    }
  }

  /** The sums and texts of one turn of the loop. */
  method CollectLink(ghost seen: seq<Link>, l: Link, v0: JobView, files0: seq<string>) returns (v: JobView, files: seq<string>)
    requires Collected(seen, v0, files0)
    ensures Collected(seen + [l], v, files)
  {
    assert (seen + [l])[..|seen|] == seen;
    WrapAdds(Sum(Done, seen), l.bytesDone);
    WrapAdds(Sum(Total, seen), l.bytesTotal);
    WrapAdds(Sum(Speed, seen), l.speed);
    v, files := v0, files0;
    v := v.(bytesDone := Wrap64(v.bytesDone + l.bytesDone));
    v := v.(bytesTotal := Wrap64(v.bytesTotal + l.bytesTotal));
    v := v.(speedBps := Wrap64(v.speedBps + l.speed));
    if v.title == "" { v := v.(title := l.name); }
    if l.message != "" { v := v.(message := l.message); }
    if v.nativeState == "" { v := v.(nativeState := l.state); }
    if l.outputPath != "" { files := files + [l.outputPath]; }
  }

  // ---- what the fold says, link by link ----

  /** The state of a package, in the client's own words. */
  lemma StateInWords(links: seq<Link>, v: JobView)
    requires Folded(links, v)
    ensures v.state == Completed <==> links != [] && forall l :: l in links ==> l.state == "FINISHED"
    ensures v.state == Failed <==>
      && (exists l :: l in links && (l.state == "FAILED" || l.state == "CANCELLED"))
      && (forall l :: l in links ==> l.state != "RUNNING" && l.state != "PAUSED" && l.state != "WAITING_FOR_CHALLENGE")
    ensures v.state == Downloading <==>
      && (exists l :: l in links && l.state != "FINISHED")
      && (|| (exists l :: l in links && (l.state == "RUNNING" || l.state == "PAUSED" || l.state == "WAITING_FOR_CHALLENGE"))
          || ((exists l :: l in links && l.state == "FINISHED")
              && forall l :: l in links ==> l.state != "FAILED" && l.state != "CANCELLED"))
  {
  }

  /** The 64-bit value of a number: the one in range that differs from it by a multiple of 2 to the 64. */
  lemma WrapsAround(x: int)
    ensures -0x8000_0000_0000_0000 <= Wrap64(x) < 0x8000_0000_0000_0000
    ensures (Wrap64(x) - x) % 0x1_0000_0000_0000_0000 == 0
  {
  }

  /** A package of one link is reported as that link. */
  lemma OneLink(l: Link, v: JobView)
    requires Folded([l], v)
    ensures v.title == l.name && v.message == l.message && v.nativeState == l.state
    ensures v.bytesDone == Wrap64(l.bytesDone) && v.bytesTotal == Wrap64(l.bytesTotal) && v.speedBps == Wrap64(l.speed)
    ensures v.files == if l.state == "FINISHED" && l.outputPath != "" then [l.outputPath] else []
  {
    assert [l] == [] + [l] && [l][..0] == [];
    assert l in [l];
    OneOf(l);
  }

  lemma OneOf(l: Link)
    ensures Sum(Done, [l]) == l.bytesDone && Sum(Total, [l]) == l.bytesTotal && Sum(Speed, [l]) == l.speed
    ensures First(Name, [l]) == l.name && First(State, [l]) == l.state && Last(Message, [l]) == l.message
    ensures Paths([l]) == if l.outputPath != "" then [l.outputPath] else []
  {
    assert [l][..|[l]| - 1] == [];
  }

  /** One more link adds its bytes and its speed, gives title and state where none did, and replaces the message by its own. */
  lemma OneMoreLink(links: seq<Link>, l: Link, v: JobView, w: JobView)
    requires links != [] && Folded(links, v) && Folded(links + [l], w)
    ensures w.bytesDone == Wrap64(v.bytesDone + l.bytesDone)
    ensures w.bytesTotal == Wrap64(v.bytesTotal + l.bytesTotal)
    ensures w.speedBps == Wrap64(v.speedBps + l.speed)
    ensures w.title == if v.title != "" then v.title else l.name
    ensures w.nativeState == if v.nativeState != "" then v.nativeState else l.state
    ensures w.message == if l.message != "" then l.message else v.message
    ensures v.state == Completed && w.state == Completed ==>
      w.files == if l.outputPath != "" then v.files + [l.outputPath] else v.files
    ensures w.state != Completed ==> w.files == []
  {
    assert (links + [l])[..|links|] == links;
    WrapAdds(Sum(Done, links), l.bytesDone);
    WrapAdds(Sum(Total, links), l.bytesTotal);
    WrapAdds(Sum(Speed, links), l.speed);
  }

  // ---- the order of the links ----

  lemma SumAppend(m: Measure, a: seq<Link>, b: seq<Link>)
    ensures Sum(m, a + b) == Sum(m, a) + Sum(m, b)
  {
    if b == [] {
      assert a + b == a;
    } else {
      assert (a + b)[..|a + b| - 1] == a + b[..|b| - 1];
      SumAppend(m, a, b[..|b| - 1]);
    }
  }

  lemma SumWithout(m: Measure, links: seq<Link>, i: nat)
    requires i < |links|
    ensures Sum(m, links) == Sum(m, links[..i] + links[i + 1..]) + Amount(m, links[i])
  {
    var one := [links[i]];
    assert links == links[..i] + one + links[i + 1..];
    SumAppend(m, links[..i] + one, links[i + 1..]);
    SumAppend(m, links[..i], one);
    SumAppend(m, links[..i], links[i + 1..]);
    assert one[..0] == [];
  }

  lemma {:induction false} SumPermuted(m: Measure, a: seq<Link>, b: seq<Link>)
    requires multiset(a) == multiset(b)
    ensures Sum(m, a) == Sum(m, b)
  {
    if a == [] {
      assert |multiset(b)| == 0;
    } else {
      var i := Text.LastElsewhere(a, b);
      SumPermuted(m, a[..|a| - 1], b[..i] + b[i + 1..]);
      SumWithout(m, b, i);
    }
  }

  /** The state and the sums of a package do not depend on the order the client lists its links in. */
  lemma FoldIsOrderFree(a: seq<Link>, b: seq<Link>, va: JobView, vb: JobView)
    requires multiset(a) == multiset(b) && Folded(a, va) && Folded(b, vb)
    ensures va.state == vb.state && va.bytesDone == vb.bytesDone && va.bytesTotal == vb.bytesTotal && va.speedBps == vb.speedBps
  {
    forall l ensures l in a <==> l in b {
      assert l in multiset(a) <==> l in multiset(b);
    }
    assert AllFinished(a) == AllFinished(b) && SomeRunning(a) == SomeRunning(b);
    assert SomeBroken(a) == SomeBroken(b) && SomeFinished(a) == SomeFinished(b);
    assert a == [] <==> b == [] by { assert |multiset(a)| == |a| && |multiset(b)| == |b|; }
    SumPermuted(Done, a, b);
    SumPermuted(Total, a, b);
    SumPermuted(Speed, a, b);
  }

  function LinkRank(l: Link): nat {
    if Finished(l) then 2 else if Running(l) then 1 else 0
  }

  function StateRank(s: Status): nat {
    match s case Queued => 0 case Downloading => 1 case Completed => 2 case Failed => 3
  }

  /** While no link breaks, a package only moves forward as its links do. */
  lemma FoldMovesForward(before: seq<Link>, after: seq<Link>, v: JobView, w: JobView)
    requires |before| == |after| && Folded(before, v) && Folded(after, w)
    requires forall i :: 0 <= i < |before| ==> LinkRank(before[i]) <= LinkRank(after[i])
    requires !SomeBroken(before) && !SomeBroken(after)
    ensures !v.state.Failed? && !w.state.Failed? && StateRank(v.state) <= StateRank(w.state)
  {
    if AllFinished(before) {
      forall l | l in after ensures Finished(l) {
        var i :| 0 <= i < |after| && after[i] == l;
        assert before[i] in before && LinkRank(before[i]) == 2;
      }
    }
    if SomeRunning(before) || SomeFinished(before) {
      var l :| l in before && (Running(l) || Finished(l));
      var i :| 0 <= i < |before| && before[i] == l;
      assert after[i] in after && (Running(after[i]) || Finished(after[i]));
    }
  }
}

/** NZBGet: the queue first, then the history. */
module NzbGet {
  import opened Outcomes
  import opened Text
  import opened JobViews

  datatype Group = Group(id: Int64, name: string, status: string, done: int, total: int, remaining: int,
                         rate: int, health: int, category: string)

  datatype HistoryItem = HistoryItem(id: Int64, name: string, status: string, destDir: string, sizeMB: int)

  function FoldGroup(g: Group): JobView {
    NewJobView(if g.status == "QUEUED" || g.status == "PAUSED" then Queued else Downloading).(
      title := g.name, nativeState := g.status, bytesDone := g.done, bytesTotal := g.total, speedBps := g.rate,
      health := g.health, etaSec := if g.rate > 0 then Quotient(g.remaining, g.rate) else -1)
  }

  /** Go's integer division, which truncates toward zero. */
  function Quotient(a: int, b: int): int
    requires b > 0
  {
    if a >= 0 then a / b else -((-a) / b)
  }

  function FoldHistory(h: HistoryItem): JobView {
    var v := NewJobView(Failed).(title := h.name, nativeState := h.status, bytesTotal := h.sizeMB * 1024 * 1024);
    if HasPrefix(h.status, "SUCCESS") then
      v.(state := Completed, bytesDone := v.bytesTotal, files := if h.destDir != "" then [h.destDir] else [])
    else if HasPrefix(h.status, "DELETED") then v.(message := "removed: " + h.status)
    else v.(message := "nzbget: " + h.status)
  }

  /** A queued job is never over: it waits when NZBGet calls it queued or paused, and runs otherwise. */
  lemma GroupIsReported(g: Group)
    ensures var v := FoldGroup(g);
            && v.state == (if g.status == "QUEUED" || g.status == "PAUSED" then Queued else Downloading)
            && v.title == g.name && v.nativeState == g.status && v.bytesDone == g.done && v.bytesTotal == g.total
            && v.speedBps == g.rate && v.health == g.health
            && v.files == [] && v.message == "" && v.seeders == -1 && v.leechers == -1
  {
  }

  /** The time left is what remains at the current rate in whole seconds, rounded toward zero; without a rate it is not known. */
  lemma GroupTimeLeft(g: Group)
    ensures var eta := FoldGroup(g).etaSec;
            && (g.rate <= 0 ==> eta == -1)
            && (g.rate > 0 && g.remaining >= 0 ==> eta * g.rate <= g.remaining < (eta + 1) * g.rate)
            && (g.rate > 0 && g.remaining < 0 ==> (eta - 1) * g.rate < g.remaining <= eta * g.rate)
  {
  }

  /** A job in the history is over: completed exactly when its status starts with "SUCCESS", and failed otherwise. */
  lemma HistoryIsReported(h: HistoryItem)
    ensures var v, success := FoldHistory(h), "SUCCESS" <= h.status;
            && v.state == (if success then Completed else Failed)
            && v.title == h.name && v.nativeState == h.status && v.bytesTotal == h.sizeMB * 1_048_576
            && v.bytesDone == (if success then h.sizeMB * 1_048_576 else 0)
            && v.files == (if success && h.destDir != "" then [h.destDir] else [])
            && v.message == (if success then "" else if "DELETED" <= h.status then "removed: " + h.status else "nzbget: " + h.status)
            && v.speedBps == 0 && v.etaSec == -1 && v.seeders == -1 && v.leechers == -1 && v.health == -1
  {
  }

  function FindGroup(groups: seq<Group>, id: int): (r: Option<Group>)
    ensures r.None? <==> forall g :: g in groups ==> g.id != id
    ensures r.Some? ==> r.value in groups && r.value.id == id
  {
    if groups == [] then None else if groups[0].id == id then Some(groups[0]) else FindGroup(groups[1..], id)
  }

  function FindHistory(items: seq<HistoryItem>, id: int): (r: Option<HistoryItem>)
    ensures r.None? <==> forall h :: h in items ==> h.id != id
    ensures r.Some? ==> r.value in items && r.value.id == id
  {
    if items == [] then None else if items[0].id == id then Some(items[0]) else FindHistory(items[1..], id)
  }

  /** What Describe answers, given the replies of listgroups and, when it is asked, of history. */
  function Described(id: int, queue: Reply<Group>, history: Reply<HistoryItem>): Result<JobView, DescribeError> {
    if queue.Answer? && FindGroup(queue.items, id).Some? then Success(FoldGroup(FindGroup(queue.items, id).value))
    else if history.Answer? && FindHistory(history.items, id).Some? then
      Success(FoldHistory(FindHistory(history.items, id).value))
    else if queue.CallFailed? || history.CallFailed? then Failure(NoAnswer)
    else Success(NotFoundView())
  }

  method Describe(job: string, queue: Reply<Group>, history: Reply<HistoryItem>) returns (r: Result<JobView, DescribeError>)
    ensures r == Described(Atoi(job), queue, history)
  {
    var id := Atoi(job);
    if queue.Answer? {
      for i := 0 to |queue.items|
        invariant FindGroup(queue.items, id) == FindGroup(queue.items[i..], id)
      {
        if queue.items[i].id == id {
          return Success(FoldGroup(queue.items[i]));
        }
      }
    }
    if history.Answer? {
      for i := 0 to |history.items|
        invariant FindHistory(history.items, id) == FindHistory(history.items[i..], id)
      {
        if history.items[i].id == id {
          return Success(FoldHistory(history.items[i]));
        }
      }
    }
    // "not there" is only claimed when both lists came back
    if queue.CallFailed? || history.CallFailed? {
      return Failure(NoAnswer);
    }
    return Success(NotFoundView());
  }

  lemma {:induction false} FirstGroup(groups: seq<Group>, id: int, i: nat)
    requires i < |groups| && groups[i].id == id && forall j :: 0 <= j < i ==> groups[j].id != id
    ensures FindGroup(groups, id) == Some(groups[i])
  {
    if i > 0 {
      FirstGroup(groups[1..], id, i - 1);
    }
  }

  lemma {:induction false} FirstInHistory(items: seq<HistoryItem>, id: int, i: nat)
    requires i < |items| && items[i].id == id && forall j :: 0 <= j < i ==> items[j].id != id
    ensures FindHistory(items, id) == Some(items[i])
  {
    if i > 0 {
      FirstInHistory(items[1..], id, i - 1);
    }
  }

  /** The first group with the id is reported, whatever the history says of it. */
  lemma QueueComesFirst(id: int, groups: seq<Group>, history: Reply<HistoryItem>, i: nat)
    requires i < |groups| && groups[i].id == id && forall j :: 0 <= j < i ==> groups[j].id != id
    ensures Described(id, Answer(groups), history) == Success(FoldGroup(groups[i]))
  {
    FirstGroup(groups, id, i);
  }

  /** When no group is listed with it, the first history item with the id is, even if the queue could not be listed. */
  lemma HistoryComesNext(id: int, queue: Reply<Group>, items: seq<HistoryItem>, i: nat)
    requires queue.Answer? ==> forall g :: g in queue.items ==> g.id != id
    requires i < |items| && items[i].id == id && forall j :: 0 <= j < i ==> items[j].id != id
    ensures Described(id, queue, Answer(items)) == Success(FoldHistory(items[i]))
  {
    FirstInHistory(items, id, i);
  }

  /** An error is answered exactly when a call failed and the job is in no list that came back. */
  lemma ErrorExactly(id: int, queue: Reply<Group>, history: Reply<HistoryItem>)
    ensures Described(id, queue, history).Failure? <==>
      && (queue.CallFailed? || history.CallFailed?)
      && (queue.Answer? ==> forall g :: g in queue.items ==> g.id != id)
      && (history.Answer? ==> forall h :: h in history.items ==> h.id != id)
  {
  }

  /** No group calls itself "not-found": NZBGet's own status words are upper case. */
  predicate OwnWords(queue: Reply<Group>) {
    queue.Answer? ==> forall g :: g in queue.items ==> g.status != NOT_FOUND
  }

  /** "Not there" is answered exactly when both calls succeeded and neither list holds the job. */
  lemma NotFoundExactly(id: int, queue: Reply<Group>, history: Reply<HistoryItem>)
    requires OwnWords(queue)
    ensures (Described(id, queue, history).Success? && Vanished(Described(id, queue, history).value))
         <==> && queue.Answer? && history.Answer?
              && (forall g :: g in queue.items ==> g.id != id)
              && (forall h :: h in history.items ==> h.id != id)
  {
  }

  datatype Place = InQueue | InHistory

  /** The replies a job leads to that is at `first` when the queue is listed and at `second` when the history is. */
  ghost predicate Replies(id: int, first: Place, second: Place, queue: Reply<Group>, history: Reply<HistoryItem>) {
    && OwnWords(queue)
    && (queue.Answer? ==> (first.InQueue? <==> FindGroup(queue.items, id).Some?))
    && (history.Answer? ==> (second.InHistory? <==> FindHistory(history.items, id).Some?))
  }

  /** A job that only ever moves from the queue to the history is never answered "not there", whatever calls fail. */
  lemma StayingJobIsNeverNotFound(id: int, first: Place, second: Place, queue: Reply<Group>, history: Reply<HistoryItem>)
    requires Replies(id, first, second, queue, history)
    requires first.InHistory? ==> second.InHistory?
    ensures !(Described(id, queue, history).Success? && Vanished(Described(id, queue, history).value))
  {
    NotFoundExactly(id, queue, history);
  }

  /** The direction matters: a job put back from the history into the queue between the two calls is missed by both. */
  lemma RequeuedJobCanBeMissed(id: int)
    ensures Replies(id, InHistory, InQueue, Answer([]), Answer([]))
    ensures Described(id, Answer([]), Answer([])) == Success(NotFoundView()) && Vanished(NotFoundView())
  {
  }

  /** What Adopt reports: the groups filed under the client's own category, in queue order. */
  function OwnGroups(category: string, groups: seq<Group>): seq<Listed> {
    if category == "" || groups == [] then []
    else
      var before, g := OwnGroups(category, groups[..|groups| - 1]), groups[|groups| - 1];
      if g.category == category then before + [Listed(Itoa(g.id), g.name)] else before
  }

  method Adopt(category: string, groups: Reply<Group>) returns (r: Result<seq<Listed>, DescribeError>)
    ensures r == if category == "" then Success([]) else if groups.CallFailed? then Failure(NoAnswer)
                 else Success(OwnGroups(category, groups.items))
  {
    if category == "" {
      return Success([]);
    }
    if groups.CallFailed? {
      return Failure(NoAnswer);
    }
    var listed: seq<Listed> := [];
    for i := 0 to |groups.items|
      invariant listed == OwnGroups(category, groups.items[..i])
    {
      var g := groups.items[i];
      assert groups.items[..i + 1][..i] == groups.items[..i];
      if g.category != category {
        continue;
      }
      listed := listed + [Listed(Itoa(g.id), g.name)];
    }
    assert groups.items[..|groups.items|] == groups.items;
    return Success(listed);
  }

  /** A job is adopted exactly when it is a queued group of the client's own category. */
  lemma {:induction false} AdoptedExactly(category: string, groups: seq<Group>, l: Listed)
    ensures l in OwnGroups(category, groups) <==>
            category != "" && exists g :: g in groups && g.category == category && Listed(Itoa(g.id), g.name) == l
  {
    if category != "" && groups != [] {
      var init, last := groups[..|groups| - 1], groups[|groups| - 1];
      assert groups == init + [last];
      AdoptedExactly(category, init, l);
      if l in OwnGroups(category, init) {
        var g :| g in init && g.category == category && Listed(Itoa(g.id), g.name) == l;
        assert g in groups;
      } else if l in OwnGroups(category, groups) {
        assert last in groups;
      }
    }
  }

  /** Every adopted job is one that Describe, asked at that moment, reports as still in progress. */
  lemma AdoptedJobIsInProgress(category: string, groups: seq<Group>, l: Listed, history: Reply<HistoryItem>)
    requires l in OwnGroups(category, groups)
    ensures Described(Atoi(l.job), Answer(groups), history).Success? && !Terminal(Described(Atoi(l.job), Answer(groups), history).value)
  {
    AdoptedExactly(category, groups, l);
    var g :| g in groups && Listed(Itoa(g.id), g.name) == l;
    AtoiReadsBack(g.id);
  }
}

/** qBittorrent: torrents are found by the tag the gateway gave them. */
module QBittorrent {
  import opened Outcomes
  import opened Text
  import opened JobViews

  datatype Torrent = Torrent(name: string, state: string, progress: real, speed: int, eta: int, size: int, completed: int,
                             contentPath: string, savePath: string, seeds: int, leechs: int, tags: string, category: string)

  const TAG_PREFIX := "dlg-"

  function ContentFiles(t: Torrent): seq<string> {
    if t.contentPath != "" then [t.contentPath] else if t.savePath != "" then [t.savePath] else []
  }

  predicate Seeding(state: string) {
    state in ["uploading", "pausedUP", "queuedUP", "stalledUP", "checkingUP", "forcedUP"]
  }

  function FoldQB(t: Torrent): JobView {
    var v := NewJobView(Downloading).(title := t.name, nativeState := t.state, bytesDone := t.completed, bytesTotal := t.size,
                                      speedBps := t.speed, seeders := t.seeds, leechers := t.leechs,
                                      etaSec := if t.eta >= 8640000 || t.eta < 0 then -1 else t.eta);
    if t.state == "error" || t.state == "missingFiles" then
      v.(state := Failed, message := "qbittorrent state: " + t.state)
    else if Seeding(t.state) || t.progress >= 1.0 then v.(state := Completed, files := ContentFiles(t))
    else v
  }

  /** The client reports the torrent as broken. */
  ghost predicate TorrentBroken(t: Torrent) {
    t.state == "error" || t.state == "missingFiles"
  }

  /** The client has all of the torrent: one of its seeding states, or the last byte. */
  ghost predicate TorrentComplete(t: Torrent) {
    && !TorrentBroken(t)
    && (|| t.state == "uploading" || t.state == "pausedUP" || t.state == "queuedUP" || t.state == "stalledUP"
        || t.state == "checkingUP" || t.state == "forcedUP" || t.progress >= 1.0)
  }

  /** What is reported of a torrent. */
  lemma TorrentIsReported(t: Torrent)
    ensures var v := FoldQB(t);
            && v.state == (if TorrentBroken(t) then Failed else if TorrentComplete(t) then Completed else Downloading)
            && v.title == t.name && v.nativeState == t.state && v.bytesDone == t.completed && v.bytesTotal == t.size
            && v.speedBps == t.speed && v.seeders == t.seeds && v.leechers == t.leechs && v.health == -1
            && v.etaSec == (if 0 <= t.eta < 8_640_000 then t.eta else -1)
            && v.files == (if !TorrentComplete(t) then [] else if t.contentPath != "" then [t.contentPath]
                           else if t.savePath != "" then [t.savePath] else [])
            && v.message == (if TorrentBroken(t) then "qbittorrent state: " + t.state else "")
  {
  }

  /** strings.Split(s, ","). */
  function Split(s: string): (r: seq<string>)
    ensures r != []
  {
    if s == "" then [""]
    else
      var rest := Split(s[1..]);
      if s[0] == ',' then [""] + rest else [[s[0]] + rest[0]] + rest[1..]
  }

  /** The parts hold no comma, and joined by commas they are the string. */
  lemma {:induction false} SplitAtCommas(s: string)
    ensures Join(Split(s), ',') == s && forall p :: p in Split(s) ==> ',' !in p
  {
    if s != "" {
      var rest := Split(s[1..]);
      SplitAtCommas(s[1..]);
      assert rest[0] in rest;
      if s[0] == ',' {
        assert ([""] + rest)[1..] == rest;
        assert Join([""] + rest, ',') == "" + [','] + Join(rest, ',');
        assert s == [','] + s[1..];
      } else {
        var parts := [[s[0]] + rest[0]] + rest[1..];
        assert parts[1..] == rest[1..];
        assert Join(parts, ',') == [s[0]] + Join(rest, ',');
        assert s == [s[0]] + s[1..];
      }
    }
  }

  /** The first tag, in order, that marks the torrent as the gateway's. */
  function OwnTag(tags: seq<string>): Option<string> {
    if tags == [] then None
    else if HasPrefix(TrimSpace(tags[0]), TAG_PREFIX) then Some(TrimSpace(tags[0]))
    else OwnTag(tags[1..])
  }

  predicate Adoptable(category: string, t: Torrent) {
    && !Terminal(FoldQB(t))
    && !(category != "" && t.category != "" && t.category != category)
  }

  /** What Adopt reports: tag and name of every adoptable torrent the gateway marked, in order. */
  function AdoptedJobs(category: string, torrents: seq<Torrent>): seq<Listed> {
    if torrents == [] then []
    else
      var before, t := AdoptedJobs(category, torrents[..|torrents| - 1]), torrents[|torrents| - 1];
      if Adoptable(category, t) && OwnTag(Split(t.tags)).Some? then before + [Listed(OwnTag(Split(t.tags)).value, t.name)] else before
  }

  method FindTag(t: Torrent) returns (r: Option<string>)
    ensures r == OwnTag(Split(t.tags))
  {
    var tags := Split(t.tags);
    for i := 0 to |tags|
      invariant OwnTag(tags) == OwnTag(tags[i..])
    {
      var tag := TrimSpace(tags[i]);
      if HasPrefix(tag, TAG_PREFIX) {
        return Some(tag);
      }
    }
    return None;
  }

  method Adopt(category: string, torrents: Reply<Torrent>) returns (r: Result<seq<Listed>, DescribeError>)
    ensures r == if torrents.CallFailed? then Failure(NoAnswer) else Success(AdoptedJobs(category, torrents.items))
  {
    if torrents.CallFailed? {
      return Failure(NoAnswer);
    }
    var adopted: seq<Listed> := [];
    for i := 0 to |torrents.items|
      invariant adopted == AdoptedJobs(category, torrents.items[..i])
    {
      var t := torrents.items[i];
      assert torrents.items[..i + 1][..i] == torrents.items[..i];
      var v := FoldQB(t);
      if v.state.Completed? || v.state.Failed? {
        continue;
      }
      if category != "" && t.category != "" && t.category != category {
        continue;
      }
      var tag := FindTag(t);
      if tag.Some? {
        adopted := adopted + [Listed(tag.value, t.name)];
      }
    }
    assert torrents.items[..|torrents.items|] == torrents.items;
    return Success(adopted);
  }

  /** Trimmed, the first of these tags that starts with "dlg-" is `job`. */
  ghost predicate MarkedAs(tags: seq<string>, job: string) {
    exists i :: 0 <= i < |tags| && TrimSpace(tags[i]) == job && "dlg-" <= job && forall j :: 0 <= j < i ==> !("dlg-" <= TrimSpace(tags[j]))
  }

  lemma {:induction false} OwnTagMarks(tags: seq<string>, job: string)
    ensures OwnTag(tags) == Some(job) <==> MarkedAs(tags, job)
  {
    if tags != [] && !HasPrefix(TrimSpace(tags[0]), TAG_PREFIX) {
      var rest := tags[1..];
      OwnTagMarks(rest, job);
      if MarkedAs(rest, job) {
        var i :| 0 <= i < |rest| && TrimSpace(rest[i]) == job && "dlg-" <= job && forall j :: 0 <= j < i ==> !("dlg-" <= TrimSpace(rest[j]));
        forall j | 0 <= j < i + 1 ensures !("dlg-" <= TrimSpace(tags[j])) {
          assert j > 0 ==> tags[j] == rest[j - 1];
        }
        assert TrimSpace(tags[i + 1]) == job;
      }
      if MarkedAs(tags, job) {
        var i :| 0 <= i < |tags| && TrimSpace(tags[i]) == job && "dlg-" <= job && forall j :: 0 <= j < i ==> !("dlg-" <= TrimSpace(tags[j]));
        assert i > 0 && rest[i - 1] == tags[i];
        forall j | 0 <= j < i - 1 ensures !("dlg-" <= TrimSpace(rest[j])) {
          assert rest[j] == tags[j + 1];
        }
      }
    } else if tags != [] {
      if MarkedAs(tags, job) {
        var i :| 0 <= i < |tags| && TrimSpace(tags[i]) == job && "dlg-" <= job && forall j :: 0 <= j < i ==> !("dlg-" <= TrimSpace(tags[j]));
        assert i == 0;
      }
    }
  }

  /** The torrent is one of the gateway's that goes on, and no other client's. */
  ghost predicate Adopts(category: string, t: Torrent, l: Listed) {
    && !TorrentBroken(t) && !TorrentComplete(t)
    && (category == "" || t.category == "" || t.category == category)
    && MarkedAs(Split(t.tags), l.job) && t.name == l.title
  }

  lemma AdoptsExactly(category: string, t: Torrent, l: Listed)
    ensures Adopts(category, t, l) <==> Adoptable(category, t) && OwnTag(Split(t.tags)) == Some(l.job) && t.name == l.title
  {
    TorrentIsReported(t);
    OwnTagMarks(Split(t.tags), l.job);
  }

  /** A job is adopted exactly when its tag marks a torrent that is neither finished, broken nor another client's. */
  lemma {:induction false} AdoptedExactly(category: string, torrents: seq<Torrent>, l: Listed)
    ensures l in AdoptedJobs(category, torrents) <==> exists t :: t in torrents && Adopts(category, t, l)
  {
    if torrents != [] {
      var init, last := torrents[..|torrents| - 1], torrents[|torrents| - 1];
      assert torrents == init + [last];
      AdoptedExactly(category, init, l);
      AdoptsExactly(category, last, l);
      if l in AdoptedJobs(category, init) {
        var t :| t in init && Adopts(category, t, l);
        assert t in torrents;
      } else if l in AdoptedJobs(category, torrents) {
        assert last in torrents && Adopts(category, last, l);
      }
    }
  }

  // ---- describing a job: the client is asked for the torrents with its tag ----

  predicate Carries(t: Torrent, tag: string) {
    exists i :: 0 <= i < |Split(t.tags)| && TrimSpace(Split(t.tags)[i]) == tag
  }

  /** The torrents the client lists for a tag. */
  function ByTag(torrents: seq<Torrent>, tag: string): (r: seq<Torrent>)
    ensures forall t :: t in r <==> t in torrents && Carries(t, tag)
  {
    if torrents == [] then []
    else if Carries(torrents[0], tag) then [torrents[0]] + ByTag(torrents[1..], tag)
    else ByTag(torrents[1..], tag)
  }

  /** What Describe answers, given the torrents listed for the tag. */
  function Described(tagged: Reply<Torrent>): Result<JobView, DescribeError> {
    if tagged.CallFailed? then Failure(NoAnswer)
    else if tagged.items == [] then Success(NotFoundView())
    else Success(FoldQB(tagged.items[0]))
  }

  /** No two torrents carry the same tag of the gateway's. */
  ghost predicate TagsMarkOne(torrents: seq<Torrent>) {
    forall t, u, tag :: t in torrents && u in torrents && HasPrefix(tag, TAG_PREFIX) && Carries(t, tag) && Carries(u, tag) ==> t == u
  }

  lemma {:induction false} OwnTagIsCarried(tags: seq<string>)
    requires OwnTag(tags).Some?
    ensures HasPrefix(OwnTag(tags).value, TAG_PREFIX) && exists i :: 0 <= i < |tags| && TrimSpace(tags[i]) == OwnTag(tags).value
  {
    if !HasPrefix(TrimSpace(tags[0]), TAG_PREFIX) {
      OwnTagIsCarried(tags[1..]);
      var i :| 0 <= i < |tags[1..]| && TrimSpace(tags[1..][i]) == OwnTag(tags).value;
      assert tags[i + 1] == tags[1..][i];
    }
  }

  /** An adopted job is one that Describe, asked at that moment, reports as in progress. */
  lemma AdoptedJobIsInProgress(category: string, torrents: seq<Torrent>, l: Listed)
    requires TagsMarkOne(torrents) && l in AdoptedJobs(category, torrents)
    ensures var r := Described(Answer(ByTag(torrents, l.job))); r.Success? && !Terminal(r.value)
  {
    AdoptedExactly(category, torrents, l);
    var t :| t in torrents && Adopts(category, t, l);
    AdoptsExactly(category, t, l);
    OwnTagIsCarried(Split(t.tags));
    assert Carries(t, l.job) && t in ByTag(torrents, l.job);
    var first := ByTag(torrents, l.job)[0];
    assert first in ByTag(torrents, l.job);
    assert first == t;
  }
}
