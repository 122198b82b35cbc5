/** What the clients themselves hold, and what they say about it over time. */
module Holdings {
  import opened Outcomes
  import opened Text
  import opened JobViews
  import opened Tracking
  import Q = QBittorrent
  import N = NzbGet
  import O = ODownloader

  /** The jobs of one client. An oDownloader client cannot list its jobs for adoption. */
  datatype Content =
    | Torrents(category: string, torrents: seq<Q.Torrent>)
    | Usenet(category: string, queue: seq<N.Group>, history: seq<N.HistoryItem>)
    | Packages(links: map<string, seq<O.Link>>)

  /** What adoption lists. */
  function Listing(c: Content): seq<Listed> {
    match c
    case Torrents(category, torrents) => Q.AdoptedJobs(category, torrents)
    case Usenet(category, queue, _) => N.OwnGroups(category, queue)
    case Packages(_) => []
  }

  function LinksOf(links: map<string, seq<O.Link>>, job: string): seq<O.Link> {
    if job in links then links[job] else []
  }

  /** The reply of one call: what the client holds, or the error of a call that failed. */
  predicate Replied<T(==)>(reply: Reply<T>, items: seq<T>) {
    reply == Answer(items) || reply == CallFailed
  }

  /** An answer a poll may get about a job, when its first call met the client as it was in c and its second as it was in d. */
  ghost predicate Says(c: Content, d: Content, job: string, answer: Answer) {
    match c
    case Torrents(_, torrents) =>
      exists reply :: Replied(reply, Q.ByTag(torrents, job)) && answer == AnswerOf(Q.Described(reply))
    case Usenet(_, queue, _) =>
      d.Usenet? && exists first, second :: Replied(first, queue) && Replied(second, d.history)
                                           && answer == AnswerOf(N.Described(Atoi(job), first, second))
    case Packages(links) => answer.Unreachable? || (answer.Told? && O.Folded(LinksOf(links, job), answer.view))
  }

  /** The client has completed the job, by what it holds. */
  ghost predicate CompleteIn(c: Content, job: string) {
    match c
    case Torrents(_, torrents) => exists t :: t in torrents && Q.Carries(t, job) && Q.TorrentComplete(t)
    case Usenet(_, queue, history) =>
      && (exists h :: h in history && h.id == Atoi(job) && "SUCCESS" <= h.status)
      && (forall g :: g in queue ==> g.id != Atoi(job))
    case Packages(links) => job in links && links[job] != [] && forall l :: l in links[job] ==> l.state == "FINISHED"
  }

  predicate ToldComplete(answer: Answer) {
    answer.Told? && answer.view.state.Completed?
  }

  /** A job has one torrent, and is not in NZBGet's queue and history at once. */
  ghost predicate Sane(c: Content) {
    match c
    case Torrents(_, torrents) => Q.TagsMarkOne(torrents)
    case Usenet(_, queue, history) => forall g, h :: g in queue && h in history ==> g.id != h.id
    case Packages(_) => true
  }

  /** Adoption lists no job the client has completed. */
  lemma ListedIsIncomplete(c: Content, l: Listed)
    requires Sane(c) && l in Listing(c)
    ensures !CompleteIn(c, l.job)
  {
    match c
    case Torrents(category, torrents) => ListedTorrentGoesOn(category, torrents, l);
    case Usenet(category, queue, history) =>
      N.AdoptedExactly(category, queue, l);
      var g :| g in queue && Listed(Itoa(g.id), g.name) == l;
      AtoiReadsBack(g.id);
    case Packages(_) =>
  }

  lemma ListedTorrentGoesOn(category: string, torrents: seq<Q.Torrent>, l: Listed)
    requires Q.TagsMarkOne(torrents) && l in Q.AdoptedJobs(category, torrents)
    ensures forall t :: t in torrents && Q.Carries(t, l.job) ==> !Q.TorrentComplete(t)
  {
    Q.AdoptedExactly(category, torrents, l);
    var u :| u in torrents && Q.Adopts(category, u, l);
    assert Q.Carries(u, l.job) && HasPrefix(l.job, Q.TAG_PREFIX);
  }

  /** A poll is told "completed" only when the client has completed the job, whatever changed between its calls. */
  lemma ToldOnlyWhenComplete(c: Content, d: Content, job: string, answer: Answer)
    requires Sane(d) && Says(c, d, job, answer) && ToldComplete(answer)
    ensures CompleteIn(c, job) || CompleteIn(d, job)
  {
    match c
    case Torrents(_, torrents) =>
      var t := Q.ByTag(torrents, job)[0];
      assert t in Q.ByTag(torrents, job);
      Q.TorrentIsReported(t);
    case Usenet(_, queue, _) =>
      var first, second :| Replied(first, queue) && Replied(second, d.history) && answer == AnswerOf(N.Described(Atoi(job), first, second));
      ToldCompleteFromHistory(Atoi(job), first, second);
    case Packages(links) =>
      O.StateInWords(LinksOf(links, job), answer.view);
  }

  /** NZBGet says "completed" of a job in its history only, and only of a success. */
  lemma ToldCompleteFromHistory(id: int, first: Reply<N.Group>, second: Reply<N.HistoryItem>)
    requires ToldComplete(AnswerOf(N.Described(id, first, second)))
    ensures second.Answer? && exists h :: h in second.items && h.id == id && "SUCCESS" <= h.status
  {
    if first.Answer? && N.FindGroup(first.items, id).Some? {
      N.GroupIsReported(N.FindGroup(first.items, id).value);
    } else if second.Answer? && N.FindHistory(second.items, id).Some? {
      var h := N.FindHistory(second.items, id).value;
      N.HistoryIsReported(h);
      assert h in second.items && h.id == id;
    }
  }

  /** What was complete once is complete for good. */
  ghost predicate Steady(past: seq<Content>) {
    forall i, job :: 0 <= i < |past| && CompleteIn(past[i], job) ==> CompleteIn(past[|past| - 1], job)
  }

  ghost predicate KeepsComplete(c: Content, d: Content) {
    forall job :: CompleteIn(c, job) ==> CompleteIn(d, job)
  }

  lemma SteadyGrows(past: seq<Content>, d: Content)
    requires past != [] && Steady(past) && KeepsComplete(past[|past| - 1], d)
    ensures Steady(past + [d])
  {
    var more := past + [d];
    forall i, job | 0 <= i < |more| && CompleteIn(more[i], job) ensures CompleteIn(d, job) {
      if i < |past| {
        assert CompleteIn(past[i], job);
      }
    }
  }
}
