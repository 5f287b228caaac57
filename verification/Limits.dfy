/** The result limit of a whole search: exactly when every possible result keeps it. */
module Limits {
  import opened Sequences
  import opened Text
  import opened Library
  import opened TokenIndex
  import opened Node
  import opened Merge
  import opened Dht
  import opened Search

  /** The CTIDs of the own tracks that match. */
  ghost function OwnCtids(store: Tracks, tokens: seq<string>): (r: set<string>)
    ensures forall c :: c in r <==> LocalCtid(store, tokens, c)
  {
    set id | id in store && LocalMatch(store, tokens, id) :: store[id].ctid
  }

  function Hints(remote: Remote, peer: string, token: string): seq<Hint> {
    match remote.query(peer, token) case None => [] case Some(hints) => hints
  }

  ghost function IndexedDigests(index: Index, tokens: seq<string>): (r: set<string>)
    ensures forall c :: c in r <==> Indexed(index, tokens, c) && IsDigest(c)
  {
    set t, c | t in tokens && c in Entry(index, t) && IsDigest(c) :: c
  }

  ghost function HintedDigests(w: World, remote: Remote, tokens: seq<string>): set<string> {
    set t, p, h | t in tokens && p in TokenPeers(w, remote, t) && h in Hints(remote, p, t) && IsDigest(h.ctid) :: h.ctid
  }

  /** The candidates with a working lookup. */
  ghost function DigestCandidates(w: World, index: Index, remote: Remote, tokens: seq<string>): (r: set<string>)
    ensures forall c :: c in r <==> Candidate(w, index, remote, tokens, c) && IsDigest(c)
  {
    HintedIn(w, remote, tokens);
    IndexedDigests(index, tokens) + HintedDigests(w, remote, tokens)
  }

  lemma NoEmptyDigest()
    ensures !IsDigest("")
  {
  }

  lemma HintedIn(w: World, remote: Remote, tokens: seq<string>)
    ensures forall c :: c in HintedDigests(w, remote, tokens) <==>
      IsDigest(c) && exists hint :: Hinted(w, remote, tokens, hint) && hint.ctid == c
  {
    var hinted := HintedDigests(w, remote, tokens);
    forall c | c in hinted
      ensures exists hint :: Hinted(w, remote, tokens, hint) && hint.ctid == c
    {
      var t, p, h :| t in tokens && p in TokenPeers(w, remote, t) && h in Hints(remote, p, t) && h.ctid == c && IsDigest(c);
      NoEmptyDigest();
      assert HintedBy(remote, p, t, h);
      assert TokenHinted(w, remote, t, h);
      assert Hinted(w, remote, tokens, h);
    }
    forall hint | Hinted(w, remote, tokens, hint) && IsDigest(hint.ctid)
      ensures hint.ctid in hinted
    {
      var t :| t in tokens && TokenHinted(w, remote, t, hint);
      var p :| p in TokenPeers(w, remote, t) && HintedBy(remote, p, t, hint);
      assert hint in Hints(remote, p, t);
    }
  }

  // ---- A search has a result, and any candidate may be in it ----

  /** The members of a set in some order. */
  lemma Listed(s: set<string>) returns (list: seq<string>)
    ensures NoDups(list) && forall x :: x in list <==> x in s
  {
    if s == {} {
      list := [];
    } else {
      var x :| x in s;
      var rest := Listed(s - {x});
      list := [x] + rest;
    }
  }

  lemma ResultFor(w: World, store: Tracks, remote: Remote, tokens: seq<string>, ctid: string) returns (r: SearchResult)
    requires IsDigest(ctid)
    ensures r.ctid == ctid && NetworkResult(w, store, remote, tokens, r)
  {
    var providers := Lookup(remote, ctid, 5).value;
    if exists id :: id in store && store[id].ctid == ctid {
      var id :| id in store && store[id].ctid == ctid;
      r := SearchResult(ctid, store[id].title, store[id].artist, true, providers);
    } else {
      r := SearchResult(ctid, "Unknown", "Unknown", true, providers);
    }
  }

  lemma ResultsFor(w: World, store: Tracks, remote: Remote, tokens: seq<string>, ctids: seq<string>)
    returns (results: seq<SearchResult>)
    requires forall c :: c in ctids ==> IsDigest(c)
    ensures Ctids(results) == ctids
    ensures forall r :: r in results ==> NetworkResult(w, store, remote, tokens, r)
  {
    if ctids == [] {
      results := [];
    } else {
      var first := ResultFor(w, store, remote, tokens, ctids[0]);
      var rest := ResultsFor(w, store, remote, tokens, ctids[1..]);
      results := [first] + rest;
      assert Ctids(results) == [first.ctid] + Ctids(rest);
    }
  }

  /** Network results with this candidate among them, unless the limit admits none at all. */
  lemma NetworkResultsWith(w: World, view: View, remote: Remote, tokens: seq<string>, maxResults: int, wanted: set<string>)
    returns (results: seq<SearchResult>)
    requires |wanted| <= 1 && wanted <= DigestCandidates(w, view.index, remote, tokens)
    ensures IsNetworkResults(w, view.store, view.index, remote, tokens, maxResults, results)
    ensures maxResults > 0 ==> forall c :: c in wanted ==> c in Ctids(results)
  {
    var all := DigestCandidates(w, view.index, remote, tokens);
    var first := Listed(wanted);
    var others := Listed(all - wanted);
    NoDupsSize(first);
    assert ToSet(first) == wanted;
    NoDupsConcat(first, others);
    var ctids := AtMost(first + others, if maxResults < 0 then 0 else maxResults);
    PrefixNoDups(first + others, if maxResults < 0 then 0 else maxResults);
    assert forall c :: c in first + others <==> c in all;
    results := ResultsFor(w, view.store, remote, tokens, ctids);
    assert forall r :: r in results ==> r.ctid in Ctids(results);
    assert maxResults > 0 && first != [] ==> ctids[0] == first[0];
  }

  lemma LocalResultsExist(store: Tracks, tokens: seq<string>) returns (results: seq<SearchResult>)
    ensures IsLocalResults(store, tokens, results)
  {
    var ids := Listed(set id | id in store && LocalMatch(store, tokens, id));
    assert AreMatches(store, tokens, ids);
    assert forall i :: 0 <= i < |ids| ==> ids[i] in ids && LocalMatch(store, tokens, ids[i]);
    results := seq(|ids|, i requires 0 <= i < |ids| && ids[i] in store =>
      var track := store[ids[i]];
      SearchResult(track.ctid, track.title, track.artist, track.recognized, []));
    assert ShowAll(store, ids, results);
  }

  // ---- The limit ----

  lemma OwnAreLocal(store: Tracks, tokens: seq<string>, local: seq<SearchResult>)
    requires IsLocalResults(store, tokens, local)
    ensures ToSet(Ctids(local)) == OwnCtids(store, tokens)
  {
    forall c
      ensures c in Ctids(local) <==> LocalCtid(store, tokens, c)
    {
      LocalCtids(store, tokens, local, c);
    }
  }

  lemma NetworkAreCandidates(w: World, view: View, remote: Remote, tokens: seq<string>, maxResults: int,
                             network: seq<SearchResult>)
    requires IsNetworkResults(w, view.store, view.index, remote, tokens, maxResults, network)
    ensures ToSet(Ctids(network)) <= DigestCandidates(w, view.index, remote, tokens)
  {
    forall c | c in Ctids(network)
      ensures c in DigestCandidates(w, view.index, remote, tokens)
    {
      var k :| 0 <= k < |network| && Ctids(network)[k] == c;
      assert network[k] in network;
    }
  }

  /** Every search returns all own CTIDs. It keeps the limit when there are fewer of them; when there
      are just as many, if no other candidate has a working lookup. */
  lemma SearchSize(w: World, view: View, remote: Remote, query: string, maxResults: int, results: seq<SearchResult>)
    requires IsSearchResult(w, view, remote, query, maxResults, results) && Tokens(w.low, query) != []
    ensures var tokens := Tokens(w.low, query);
      var own := OwnCtids(view.local, tokens);
      && |own| <= |results|
      && (KeepsLimit(own, DigestCandidates(w, view.index, remote, tokens), maxResults) ==> |results| <= maxResults)
  {
    var tokens := Tokens(w.low, query);
    var local, network :| IsLocalResults(view.local, tokens, local)
      && IsNetworkResults(w, view.store, view.index, remote, tokens, maxResults, network)
      && results == Merged(local, network, maxResults);
    OwnAreLocal(view.local, tokens, local);
    NetworkAreCandidates(w, view, remote, tokens, maxResults, network);
    MergedIsBounded(local, network, maxResults);
    SetSizes(local, network);
    MergeKeepsLimitIff(local, network, maxResults);
    assert maxResults == 0 ==> ToSet(Ctids(network)) == {};
  }

  /** The own CTIDs are below the limit; or at it, and no result from the network can be new. */
  ghost predicate KeepsLimit(own: set<string>, candidates: set<string>, maxResults: int) {
    |own| < maxResults || (|own| == maxResults && (maxResults == 0 || candidates <= own))
  }

  /** A candidate that breaks the limit when the own CTIDs fill it. */
  lemma NewCandidate(own: set<string>, candidates: set<string>, maxResults: int) returns (wanted: set<string>)
    requires !KeepsLimit(own, candidates, maxResults)
    ensures |wanted| <= 1 && wanted <= candidates
    ensures |own| > maxResults || (|own| == maxResults > 0 && !(wanted <= own))
  {
    wanted := {};
    if |own| == maxResults {
      var c :| c in candidates && c !in own;
      wanted := {c};
    }
  }

  lemma MergedOverLimit(local: seq<SearchResult>, network: seq<SearchResult>, maxResults: int, wanted: set<string>)
    requires maxResults > 0 ==> forall c :: c in wanted ==> c in Ctids(network)
    requires var l := ToSet(Ctids(local)); |l| > maxResults || (|l| == maxResults > 0 && !(wanted <= l))
    ensures |Merged(local, network, maxResults)| > maxResults
  {
    MergeKeepsLimitIff(local, network, maxResults);
  }

  /** A result over the limit. */
  lemma SearchOverLimit(w: World, view: View, remote: Remote, query: string, maxResults: int)
    returns (results: seq<SearchResult>)
    requires Tokens(w.low, query) != []
    requires var tokens := Tokens(w.low, query);
      !KeepsLimit(OwnCtids(view.local, tokens), DigestCandidates(w, view.index, remote, tokens), maxResults)
    ensures IsSearchResult(w, view, remote, query, maxResults, results) && |results| > maxResults
  {
    var tokens := Tokens(w.low, query);
    var own := OwnCtids(view.local, tokens);
    var wanted := NewCandidate(own, DigestCandidates(w, view.index, remote, tokens), maxResults);
    var local := LocalResultsExist(view.local, tokens);
    var network := NetworkResultsWith(w, view, remote, tokens, maxResults, wanted);
    OwnAreLocal(view.local, tokens, local);
    MergedOverLimit(local, network, maxResults, wanted);
    results := Merged(local, network, maxResults);
  }

  /** Exactly when a search keeps its limit, whatever order maps are visited in: the own CTIDs are
      below it, or at it with no new candidate. */
  lemma SearchKeepsLimitIff(w: World, view: View, remote: Remote, query: string, maxResults: int)
    requires Tokens(w.low, query) != []
    ensures (forall results :: IsSearchResult(w, view, remote, query, maxResults, results) ==> |results| <= maxResults)
      <==> KeepsLimit(OwnCtids(view.local, Tokens(w.low, query)),
                      DigestCandidates(w, view.index, remote, Tokens(w.low, query)), maxResults)
  {
    if KeepsLimit(OwnCtids(view.local, Tokens(w.low, query)),
                  DigestCandidates(w, view.index, remote, Tokens(w.low, query)), maxResults) {
      forall results | IsSearchResult(w, view, remote, query, maxResults, results)
        ensures |results| <= maxResults
      {
        SearchSize(w, view, remote, query, maxResults, results);
      }
    } else {
      var results := SearchOverLimit(w, view, remote, query, maxResults);
    }
  }

  // ---- A store that breaks the limit ----

  /** One track for each CTID, all with the title "ab". */
  function SameTitles(ctids: seq<string>): Tracks {
    map c | c in ctids :: Track(c, c, "ab", "", "", false, true)
  }

  lemma TokensOfAb(low: Lowering)
    ensures Tokens(low, "ab") == ["ab"] && TextHit("ab", "ab")
  {
    assert MapText(low, "ab") == "ab";
    TwoLetters('a', 'b');
    OneWordFoundIffPlain(low, "ab");
  }

  /** However many distinct CTIDs there are, a store of as many tracks with one title makes every
      search for it return them all, whatever the limit. */
  lemma SearchExceedsLimit(w: World, ctids: seq<string>, index: Index, remote: Remote, maxResults: int,
                           results: seq<SearchResult>)
    requires NoDups(ctids) && forall c :: c in ctids ==> IsDigest(c)
    requires IsSearchResult(w, View(SameTitles(ctids), index, SameTitles(ctids)), remote, "ab", maxResults, results)
    ensures Filed(SameTitles(ctids)) && |results| >= |ctids|
  {
    var store := SameTitles(ctids);
    TokensOfAb(w.low);
    forall c | c in ctids
      ensures LocalMatch(store, ["ab"], c) && store[c].ctid == c
    {
      assert Hit(store[c], "ab");
      assert "ab" in ["ab"];
    }
    assert OwnCtids(store, ["ab"]) == ToSet(ctids);
    NoDupsSize(ctids);
    SearchSize(w, View(store, index, store), remote, "ab", maxResults, results);
  }
}
