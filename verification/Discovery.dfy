/** What a search finds in a network of nodes. */
module Discovery {
  import opened Sequences
  import opened Text
  import opened TokenIndex
  import opened Node
  import opened Runs
  import opened Merge
  import opened Dht
  import opened Search

  /** A node reached by a run. Nodes share the Unicode and hash functions, not the files. */
  datatype Peer = Peer(w: World, run: seq<Event>)

  ghost predicate SameNetwork(w: World, peer: Peer) {
    ValidWorld(w) && ValidWorld(peer.w) && peer.w.low == w.low && peer.w.hash == w.hash
  }

  ghost function StateOf(peer: Peer): State {
    After(peer.w, peer.run).state
  }

  /** The node after the first i events of its run. */
  ghost function SystemAt(peer: Peer, i: nat): System
    requires i <= |peer.run|
  {
    After(peer.w, peer.run[..i])
  }

  ghost function StateAt(peer: Peer, i: nat): State
    requires i <= |peer.run|
  {
    SystemAt(peer, i).state
  }

  /** Moments of a peer's run: when the searcher looked up the token, when the peer read its index
      to reply, and when it read its store. */
  datatype Moments = Moments(found: nat, asked: nat, scanned: nat)

  ghost predicate ValidMoments(peer: Peer, at: Moments) {
    at.found <= at.asked <= at.scanned <= |peer.run|
  }

  /** The DHT yields the peer for its record, if it has one by then, among at most ten providers. */
  ghost predicate LookupFinds(w: World, remote: Remote, id: string, peer: Peer, at: Moments, token: string)
    requires ValidMoments(peer, at)
  {
    var key := CidOf(w.hash(token));
    |remote.providers(key)| <= 10 && (key in StateAt(peer, at.found).records ==> id in remote.providers(key))
  }

  /** The peer's index query handler replied. */
  ghost predicate RepliedAt(remote: Remote, id: string, peer: Peer, at: Moments, token: string)
    requires ValidMoments(peer, at)
  {
    && remote.query(id, token).Some?
    && IsReply(StateAt(peer, at.scanned).store, Entry(StateAt(peer, at.asked).index, token), token,
               remote.query(id, token).value)
  }

  ghost predicate Replied(remote: Remote, id: string, peer: Peer, token: string) {
    exists at :: ValidMoments(peer, at) && RepliedAt(remote, id, peer, at, token)
  }

  /** What a search of the node reads, with the three reads in this order. */
  ghost predicate IsView(self: Peer, view: View) {
    exists a: nat, b: nat, c: nat :: (
      && a <= b <= c <= |self.run|
      && view == View(StateAt(self, a).store, StateAt(self, b).index, StateAt(self, c).store))
  }

  /** `fits` holds every CTID that could show up in the results, and they fit. */
  ghost predicate AllFit(w: World, view: View, remote: Remote, tokens: seq<string>, maxResults: int, fits: set<string>) {
    && |fits| <= maxResults
    && (forall c :: Candidate(w, view.index, remote, tokens, c) && IsDigest(c) ==> c in fits)
    && (forall id :: LocalMatch(view.local, tokens, id) ==> view.local[id].ctid in fits)
  }

  lemma NetworkResultsComplete(w: World, view: View, remote: Remote, tokens: seq<string>, maxResults: int,
                               results: seq<SearchResult>, fits: set<string>, ctid: string)
    requires IsNetworkResults(w, view.store, view.index, remote, tokens, maxResults, results)
    requires AllFit(w, view, remote, tokens, maxResults, fits)
    requires Candidate(w, view.index, remote, tokens, ctid) && IsDigest(ctid)
    ensures ctid in Ctids(results)
  {
    if |results| >= maxResults {
      NoDupsSize(Ctids(results));
      forall c | c in Ctids(results)
        ensures c in fits
      {
        var k :| 0 <= k < |results| && Ctids(results)[k] == c;
        assert results[k] in results;
      }
      assert |fits| > 0;
      SubsetSize(ToSet(Ctids(results)), fits);
      SameSizeSubset(ToSet(Ctids(results)), fits);
    }
  }

  lemma NetworkCtids(w: World, view: View, remote: Remote, tokens: seq<string>, maxResults: int,
                     results: seq<SearchResult>, fits: set<string>, ctid: string)
    requires IsNetworkResults(w, view.store, view.index, remote, tokens, maxResults, results)
    requires AllFit(w, view, remote, tokens, maxResults, fits)
    ensures ctid in Ctids(results) <==> Candidate(w, view.index, remote, tokens, ctid) && IsDigest(ctid)
  {
    if ctid in Ctids(results) {
      var k :| 0 <= k < |results| && Ctids(results)[k] == ctid;
      assert results[k] in results;
    } else if Candidate(w, view.index, remote, tokens, ctid) && IsDigest(ctid) {
      NetworkResultsComplete(w, view, remote, tokens, maxResults, results, fits, ctid);
    }
  }

  /** When everything fits, a search returns exactly the candidates and the CTIDs of the own
      matching tracks. */
  lemma SearchReturnsIff(w: World, view: View, remote: Remote, query: string, maxResults: int,
                         results: seq<SearchResult>, fits: set<string>, ctid: string)
    requires IsSearchResult(w, view, remote, query, maxResults, results) && Tokens(w.low, query) != []
    requires AllFit(w, view, remote, Tokens(w.low, query), maxResults, fits)
    ensures ctid in Ctids(results) <==>
      || (Candidate(w, view.index, remote, Tokens(w.low, query), ctid) && IsDigest(ctid))
      || LocalCtid(view.local, Tokens(w.low, query), ctid)
  {
    var tokens := Tokens(w.low, query);
    var local, network :| IsLocalResults(view.local, tokens, local)
      && IsNetworkResults(w, view.store, view.index, remote, tokens, maxResults, network)
      && results == Merged(local, network, maxResults);
    forall c | c in AllCtids(local, network)
      ensures c in fits
    {
      LocalCtids(view.local, tokens, local, c);
      NetworkCtids(w, view, remote, tokens, maxResults, network, fits, c);
    }
    SubsetSize(AllCtids(local, network), fits);
    MergedIsUnionWhenAllFit(local, network, maxResults);
    assert ctid in Ctids(results) <==> ctid in AllCtids(local, network);
    LocalCtids(view.local, tokens, local, ctid);
    NetworkCtids(w, view, remote, tokens, maxResults, network, fits, ctid);
  }

  /** A peer that announced a token for a CTID before the lookup and whose reply lists that CTID
      makes it a candidate of every search for the token. */
  lemma AnnouncedIsCandidate(w: World, index: Index, remote: Remote, tokens: seq<string>, id: string, peer: Peer,
                             at: Moments, m: Mark)
    requires SameNetwork(w, peer) && m.token in tokens && ValidMoments(peer, at)
    requires m in StateAt(peer, at.found).marks
    requires LookupFinds(w, remote, id, peer, at, m.token) && RepliedAt(remote, id, peer, at, m.token)
    requires m.ctid in HintCtids(remote.query(id, m.token).value)
    ensures Candidate(w, index, remote, tokens, m.ctid) && IsDigest(m.ctid)
  {
    RunsKeepOk(peer.w, peer.run[..at.found]);
    var hints := remote.query(id, m.token).value;
    var k :| 0 <= k < |hints| && hints[k].ctid == m.ctid;
    MarkIsDigest(peer.w, StateAt(peer, at.found), m);
    assert id in TokenPeers(w, remote, m.token);
    assert HintedBy(remote, id, m.token, hints[k]);
    assert TokenHinted(w, remote, m.token, hints[k]);
    assert Hinted(w, remote, tokens, hints[k]);
  }

  lemma MarkIsDigest(w: World, s: State, m: Mark)
    requires ValidWorld(w) && StateOk(w, s) && m in s.marks
    ensures IsDigest(m.ctid) && m.ctid != "" && CidOf(w.hash(m.token)) in s.records
  {
    assert HasTokenTrack(w, s.store, m.token, m.ctid);
  }

  /** Discovery is complete: a token announced before the lookup, still announced when the peer
      reads its index and with no index update still owed by then, leads any search with that
      token to the CTID, provided that the lookup yields all (at most ten) providers, the peer
      replies, and all CTIDs that can come up fit into the limit. */
  lemma DiscoveryIsComplete(w: World, view: View, remote: Remote, query: string, maxResults: int,
                            results: seq<SearchResult>, fits: set<string>, id: string, peer: Peer, at: Moments, m: Mark)
    requires IsSearchResult(w, view, remote, query, maxResults, results)
    requires AllFit(w, view, remote, Tokens(w.low, query), maxResults, fits)
    requires m.token in Tokens(w.low, query)
    requires SameNetwork(w, peer) && ValidMoments(peer, at) && m in StateAt(peer, at.found).marks
    requires m in StateAt(peer, at.asked).announced && !Owed(peer.w, SystemAt(peer, at.asked), m)
    requires LookupFinds(w, remote, id, peer, at, m.token) && RepliedAt(remote, id, peer, at, m.token)
    ensures m.ctid in Ctids(results)
  {
    AnnouncedTokensAreAnswerable(peer.w, peer.run[..at.asked], m);
    AnnouncedIsCandidate(w, view.index, remote, Tokens(w.low, query), id, peer, at, m);
    SearchReturnsIff(w, view, remote, query, maxResults, results, fits, m.ctid);
  }

  /** The peer's reply lists the CTID: from the index, or from the scan when the index has no
      entry. */
  ghost predicate Answers(peer: Peer, at: Moments, m: Mark)
    requires ValidMoments(peer, at)
  {
    || Answerable(StateAt(peer, at.asked).index, m)
    || (Entry(StateAt(peer, at.asked).index, m.token) == [] && SpelledByTrack(peer.w, StateAt(peer, at.scanned).store, m))
  }

  lemma ReplyListsIff(remote: Remote, id: string, peer: Peer, at: Moments, m: Mark)
    requires ValidWorld(peer.w) && ValidMoments(peer, at) && m in StateAt(peer, at.found).marks
    requires RepliedAt(remote, id, peer, at, m.token)
    ensures m.ctid in HintCtids(remote.query(id, m.token).value) <==> Answers(peer, at, m)
  {
    var until := peer.run[..at.scanned];
    RunGrows(peer.w, until, at.found);
    TakeAgain(peer.run, at.found, at.scanned);
    AnsweredAcrossRestarts(peer.w, until, m, Entry(StateAt(peer, at.asked).index, m.token),
                           HintCtids(remote.query(id, m.token).value));
  }

  /** The same at any moments of the peer's run, even in the middle of operations or after a
      restart: the search returns the CTID if the peer answers with it, which it does exactly when
      its index lists it, or has no entry and the scan spells it. */
  lemma DiscoverySurvivesRestart(w: World, view: View, remote: Remote, query: string, maxResults: int,
                                 results: seq<SearchResult>, fits: set<string>, id: string, peer: Peer, at: Moments, m: Mark)
    requires IsSearchResult(w, view, remote, query, maxResults, results)
    requires AllFit(w, view, remote, Tokens(w.low, query), maxResults, fits)
    requires m.token in Tokens(w.low, query)
    requires SameNetwork(w, peer) && ValidMoments(peer, at) && m in StateAt(peer, at.found).marks
    requires LookupFinds(w, remote, id, peer, at, m.token) && RepliedAt(remote, id, peer, at, m.token)
    ensures m.ctid in HintCtids(remote.query(id, m.token).value) <==> Answers(peer, at, m)
    ensures Answers(peer, at, m) ==> m.ctid in Ctids(results)
  {
    ReplyListsIff(remote, id, peer, at, m);
    if Answers(peer, at, m) {
      AnnouncedIsCandidate(w, view.index, remote, Tokens(w.low, query), id, peer, at, m);
      SearchReturnsIff(w, view, remote, query, maxResults, results, fits, m.ctid);
    }
  }

  /** Search is sound: when every reply comes from a node of this kind, each result is a track of
      the searcher's own store, or its CTID belongs to a recognised track that some asked peer
      stores. No CTID is returned twice. */
  lemma SearchIsSound(self: Peer, view: View, remote: Remote, peers: map<string, Peer>, query: string, maxResults: int,
                      results: seq<SearchResult>)
    requires ValidWorld(self.w) && IsView(self, view)
    requires IsSearchResult(self.w, view, remote, query, maxResults, results)
    requires forall id, t :: remote.query(id, t).Some? ==>
      id in peers && SameNetwork(self.w, peers[id]) && Replied(remote, id, peers[id], t)
    ensures NoDups(Ctids(results))
    ensures forall r :: r in results ==>
      || (exists id :: LocalMatch(view.local, Tokens(self.w.low, query), id) && Shows(r, view.local[id]))
      || HasTrack(StateOf(self).store, r.ctid)
      || (exists id :: id in peers && HasTrack(StateOf(peers[id]).store, r.ctid))
  {
    if Tokens(self.w.low, query) != [] {
      var local, network :| IsLocalResults(view.local, Tokens(self.w.low, query), local)
        && IsNetworkResults(self.w, view.store, view.index, remote, Tokens(self.w.low, query), maxResults, network)
        && results == Merged(local, network, maxResults);
      MergedIsBounded(local, network, maxResults);
      forall r | r in results {
        OneResultIsSound(self, view, remote, peers, query, maxResults, local, network, r);
      }
    }
  }

  lemma OneResultIsSound(self: Peer, view: View, remote: Remote, peers: map<string, Peer>, query: string,
                         maxResults: int, local: seq<SearchResult>, network: seq<SearchResult>, r: SearchResult)
    requires ValidWorld(self.w) && IsView(self, view) && r in Merged(local, network, maxResults)
    requires IsLocalResults(view.local, Tokens(self.w.low, query), local)
    requires IsNetworkResults(self.w, view.store, view.index, remote, Tokens(self.w.low, query), maxResults, network)
    requires forall id, t :: remote.query(id, t).Some? ==>
      id in peers && SameNetwork(self.w, peers[id]) && Replied(remote, id, peers[id], t)
    ensures || (exists id :: LocalMatch(view.local, Tokens(self.w.low, query), id) && Shows(r, view.local[id]))
            || HasTrack(StateOf(self).store, r.ctid)
            || (exists id :: id in peers && HasTrack(StateOf(peers[id]).store, r.ctid))
  {
    var tokens := Tokens(self.w.low, query);
    MergedMembers(local, network, maxResults, r);
    if r in local {
      LocalResultHasMatch(view.local, tokens, local, r);
    } else {
      NetworkIsSound(self, view, remote, peers, tokens, maxResults, network, r);
    }
  }

  lemma NetworkIsSound(self: Peer, view: View, remote: Remote, peers: map<string, Peer>, tokens: seq<string>,
                       maxResults: int, network: seq<SearchResult>, r: SearchResult)
    requires ValidWorld(self.w) && IsView(self, view) && r in network
    requires IsNetworkResults(self.w, view.store, view.index, remote, tokens, maxResults, network)
    requires forall id, t :: remote.query(id, t).Some? ==>
      id in peers && SameNetwork(self.w, peers[id]) && Replied(remote, id, peers[id], t)
    ensures HasTrack(StateOf(self).store, r.ctid) || exists id :: id in peers && HasTrack(StateOf(peers[id]).store, r.ctid)
  {
    CandidateIsSound(self, view, remote, peers, tokens, r.ctid);
  }

  lemma CandidateIsSound(self: Peer, view: View, remote: Remote, peers: map<string, Peer>, tokens: seq<string>, ctid: string)
    requires ValidWorld(self.w) && IsView(self, view) && Candidate(self.w, view.index, remote, tokens, ctid)
    requires forall id, t :: remote.query(id, t).Some? ==>
      id in peers && SameNetwork(self.w, peers[id]) && Replied(remote, id, peers[id], t)
    ensures HasTrack(StateOf(self).store, ctid) || exists id :: id in peers && HasTrack(StateOf(peers[id]).store, ctid)
  {
    if Indexed(view.index, tokens, ctid) {
      var t :| t in tokens && ctid in Entry(view.index, t);
      var a: nat, b: nat, c: nat :| a <= b <= c <= |self.run|
        && view == View(StateAt(self, a).store, StateAt(self, b).index, StateAt(self, c).store);
      EntryIsSound(self.w, self.run, b, t);
    } else {
      var hint :| Hinted(self.w, remote, tokens, hint) && hint.ctid == ctid;
      var t :| t in tokens && TokenHinted(self.w, remote, t, hint);
      var id :| id in TokenPeers(self.w, remote, t) && HintedBy(remote, id, t, hint);
      HintIsSound(remote, id, peers[id], t, hint);
    }
  }

  lemma HintIsSound(remote: Remote, id: string, peer: Peer, token: string, hint: Hint)
    requires ValidWorld(peer.w) && Replied(remote, id, peer, token) && HintedBy(remote, id, token, hint)
    ensures HasTrack(StateOf(peer).store, hint.ctid)
  {
    var hints := remote.query(id, token).value;
    var at :| ValidMoments(peer, at) && RepliedAt(remote, id, peer, at, token);
    TakeAgain(peer.run, at.asked, at.scanned);
    AnswersAreSound(peer.w, peer.run[..at.scanned], at.asked, token, HintCtids(hints));
    RunGrows(peer.w, peer.run, at.scanned);
    HasTrackGrows(peer.w, StateAt(peer, at.scanned).store, StateOf(peer).store);
    var k :| 0 <= k < |hints| && hints[k] == hint;
    assert HintCtids(hints)[k] == hint.ctid;
  }

  lemma MergedMembers(local: seq<SearchResult>, network: seq<SearchResult>, maxResults: int, r: SearchResult)
    requires r in Merged(local, network, maxResults)
    ensures r in local || r in network
  {
    var first := Fresh(local, {});
    FreshMembers(local, {}, r);
    FreshMembers(network, ToSet(Ctids(first)), r);
  }

  lemma {:induction false} FreshMembers(results: seq<SearchResult>, seen: set<string>, r: SearchResult)
    ensures r in Fresh(results, seen) ==> r in results
  {
    if results != [] {
      FreshMembers(results[1..], seen, r);
      FreshMembers(results[1..], seen + {results[0].ctid}, r);
    }
  }
}
