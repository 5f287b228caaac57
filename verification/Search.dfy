/** The search service of a node: its index, the index query handler and the search itself. */
module Search {
  import opened Options
  import opened Sequences
  import opened Text
  import opened Library
  import opened TokenIndex
  import opened Node
  import opened Runs
  import opened Merge
  import opened Dht

  function HintCtids(hints: seq<Hint>): (r: seq<string>)
    ensures |r| == |hints| && forall i :: 0 <= i < |hints| ==> r[i] == hints[i].ctid
  {
    seq(|hints|, i requires 0 <= i < |hints| => hints[i].ctid)
  }

  function OrUnknown(s: string): string {
    if s == "" then "Unknown" else s
  }

  /** The metadata sent with a CTID: those of a stored track that has it, if any. */
  ghost predicate Describes(store: Tracks, hint: Hint) {
    if exists id :: id in store && store[id].ctid == hint.ctid then
      exists id :: id in store && store[id].ctid == hint.ctid
                   && hint.title == OrUnknown(store[id].title) && hint.artist == OrUnknown(store[id].artist)
    else hint.title == "Unknown" && hint.artist == "Unknown"
  }

  /** So the title and artist of the one track with the CTID are sent, or "Unknown" where one of
      them is missing or there is no such track. */
  lemma ReplyFields(store: Tracks, entry: seq<string>, token: string, hints: seq<Hint>, i: nat)
    requires IsReply(store, entry, token, hints) && i < |hints|
    ensures (forall id :: id in store ==> store[id].ctid != hints[i].ctid) ==>
      hints[i].title == "Unknown" && hints[i].artist == "Unknown"
    ensures forall id :: (
      id in store && (forall other :: other in store && store[other].ctid == hints[i].ctid <==> other == id) ==>
        && (store[id].title != "" ==> hints[i].title == store[id].title)
        && (store[id].artist != "" ==> hints[i].artist == store[id].artist)
        && (store[id].title == "" ==> hints[i].title == "Unknown")
        && (store[id].artist == "" ==> hints[i].artist == "Unknown"))
  {
  }

  /** The handler's reply, from the index entry that it read and the store. */
  ghost predicate IsReply(store: Tracks, entry: seq<string>, token: string, hints: seq<Hint>) {
    && IsAnswer(store, entry, token, HintCtids(hints))
    && forall i :: 0 <= i < |hints| ==> Describes(store, hints[i])
  }

  /** The CTIDs of a reply: those of the entry that was read, in its order; without any, those of the
      recognised tracks whose title or artist holds the token up to the case of ASCII letters. */
  lemma ReplyCtids(store: Tracks, entry: seq<string>, token: string, hints: seq<Hint>, ctid: string)
    requires IsReply(store, entry, token, hints)
    ensures entry != [] ==> |hints| == |entry| && forall i :: 0 <= i < |entry| ==> hints[i].ctid == entry[i]
    ensures entry == [] ==>
      ((exists i :: 0 <= i < |hints| && hints[i].ctid == ctid) <==>
       ctid != "" && exists id ::
         && id in store && store[id].recognized && store[id].ctid == ctid
         && ((exists k :: ReadsAt(store[id].title, token, k)) || exists k :: ReadsAt(store[id].artist, token, k)))
  {
    var ctids := HintCtids(hints);
    forall id | id in store
      ensures Hit(store[id], token) <==>
        (exists k :: ReadsAt(store[id].title, token, k)) || exists k :: ReadsAt(store[id].artist, token, k)
    {
      HitIff(store[id], token);
    }
    assert ctid in ctids <==> exists i :: 0 <= i < |hints| && ctids[i] == ctid;
    if entry != [] {
      assert forall i :: 0 <= i < |entry| ==> ctids[i] == hints[i].ctid;
    } else {
      assert ctid in ctids <==> ScanAnswer(store, token, ctid);
    }
  }

  // ---- What a search may return ----

  /** A stored track that local search returns for the tokens. */
  ghost predicate LocalMatch(store: Tracks, tokens: seq<string>, id: string) {
    id in store && store[id].ctid != "" && exists t :: t in tokens && Hit(store[id], t)
  }

  /** The result shows this track, with no providers. */
  ghost predicate Shows(r: SearchResult, track: Track) {
    && r.ctid == track.ctid && r.title == track.title && r.artist == track.artist
    && r.recognized == track.recognized && r.providers == []
  }

  /** ids are the matching tracks, each once. */
  ghost predicate AreMatches(store: Tracks, tokens: seq<string>, ids: seq<string>) {
    NoDups(ids) && forall id :: id in ids <==> LocalMatch(store, tokens, id)
  }

  ghost predicate ShowAll(store: Tracks, ids: seq<string>, results: seq<SearchResult>) {
    |results| == |ids| && forall i :: 0 <= i < |ids| ==> ids[i] in store && Shows(results[i], store[ids[i]])
  }

  /** One result for each matching track, in some order. */
  ghost predicate IsLocalResults(store: Tracks, tokens: seq<string>, results: seq<SearchResult>) {
    exists ids :: AreMatches(store, tokens, ids) && ShowAll(store, ids, results)
  }

  lemma SeenAreMatches(store: Tracks, tokens: seq<string>, seen: map<string, Track>, ids: seq<string>)
    requires forall id :: id in seen <==> exists k :: 0 <= k < |tokens| && id in store && Hit(store[id], tokens[k])
    requires NoDups(ids) && forall id :: id in ids <==> id in seen && store[id].ctid != ""
    ensures AreMatches(store, tokens, ids)
  {
    forall id
      ensures id in ids <==> LocalMatch(store, tokens, id)
    {
      if id in seen {
        var k :| 0 <= k < |tokens| && id in store && Hit(store[id], tokens[k]);
        assert tokens[k] in tokens;
      }
    }
  }

  lemma LocalResultHasMatch(store: Tracks, tokens: seq<string>, results: seq<SearchResult>, r: SearchResult)
    requires IsLocalResults(store, tokens, results) && r in results
    ensures exists id :: LocalMatch(store, tokens, id) && Shows(r, store[id])
  {
    var ids :| AreMatches(store, tokens, ids) && ShowAll(store, ids, results);
    var i :| 0 <= i < |results| && results[i] == r;
    assert ids[i] in ids;
  }

  /** The peers asked about a token. */
  function TokenPeers(w: World, remote: Remote, token: string): seq<string> {
    match Lookup(remote, w.hash(token), 10)
    case None => []
    case Some(peers) => peers
  }

  /** A usable hint in the peer's reply about the token. */
  ghost predicate HintedBy(remote: Remote, peer: string, token: string, hint: Hint) {
    hint.ctid != "" && remote.query(peer, token).Some? && hint in remote.query(peer, token).value
  }

  /** A hint that some peer asked about the token replies with. */
  ghost predicate TokenHinted(w: World, remote: Remote, token: string, hint: Hint) {
    exists p :: p in TokenPeers(w, remote, token) && HintedBy(remote, p, token, hint)
  }

  /** A hint that some peer asked about one of the tokens replies with. */
  ghost predicate Hinted(w: World, remote: Remote, tokens: seq<string>, hint: Hint) {
    exists t :: t in tokens && TokenHinted(w, remote, t, hint)
  }

  lemma HintedSnoc(w: World, remote: Remote, tokens: seq<string>, i: nat, hint: Hint)
    requires i < |tokens|
    ensures Hinted(w, remote, tokens[..i + 1], hint) <==>
      Hinted(w, remote, tokens[..i], hint) || TokenHinted(w, remote, tokens[i], hint)
  {
    assert tokens[..i + 1] == tokens[..i] + [tokens[i]];
    assert tokens[i] in tokens[..i + 1];
  }

  /** The index lists the CTID under one of the tokens. */
  ghost predicate Indexed(index: Index, tokens: seq<string>, ctid: string) {
    exists t :: t in tokens && ctid in Entry(index, t)
  }

  lemma IndexedSnoc(index: Index, tokens: seq<string>, i: nat, ctid: string)
    requires i < |tokens|
    ensures Indexed(index, tokens[..i + 1], ctid) <==> Indexed(index, tokens[..i], ctid) || ctid in Entry(index, tokens[i])
  {
    assert tokens[..i + 1] == tokens[..i] + [tokens[i]];
    assert tokens[i] in tokens[..i + 1];
  }

  /** A CTID that network search collects, from the own index or from a peer. */
  ghost predicate Candidate(w: World, index: Index, remote: Remote, tokens: seq<string>, ctid: string) {
    || Indexed(index, tokens, ctid)
    || (exists hint :: Hinted(w, remote, tokens, hint) && hint.ctid == ctid)
  }

  ghost predicate NetworkResult(w: World, store: Tracks, remote: Remote, tokens: seq<string>, r: SearchResult) {
    && r.recognized
    && Lookup(remote, r.ctid, 5) == Some(r.providers)
    && (if exists id :: id in store && store[id].ctid == r.ctid then
          exists id :: id in store && store[id].ctid == r.ctid && r.title == store[id].title && r.artist == store[id].artist
        else
          || (r.title == "Unknown" && r.artist == "Unknown")
          || exists hint :: Hinted(w, remote, tokens, hint) && hint.ctid == r.ctid
                            && r.title == OrUnknown(hint.title) && r.artist == OrUnknown(hint.artist))
  }

  /** Candidates whose CTID lookup does not fail are returned, each once, up to the limit. */
  ghost predicate IsNetworkResults(w: World, store: Tracks, index: Index, remote: Remote, tokens: seq<string>,
                                   maxResults: int, results: seq<SearchResult>) {
    && NoDups(Ctids(results))
    && (forall r :: r in results ==> Candidate(w, index, remote, tokens, r.ctid) && IsDigest(r.ctid)
                                     && NetworkResult(w, store, remote, tokens, r))
    && (|results| < maxResults ==>
          forall c :: Candidate(w, index, remote, tokens, c) && IsDigest(c) ==> c in Ctids(results))
    && (|results| <= maxResults || results == [])
  }

  lemma OneMoreResult(results: seq<SearchResult>, r: SearchResult)
    requires NoDups(Ctids(results)) && r.ctid !in Ctids(results)
    ensures NoDups(Ctids(results + [r]))
    ensures forall c :: c in Ctids(results + [r]) <==> c in Ctids(results) || c == r.ctid
  {
    assert Ctids(results + [r]) == Ctids(results) + [r.ctid];
  }

  lemma NotAmong(results: seq<SearchResult>, left: set<string>, ctid: string)
    requires ctid in left && forall r :: r in results ==> r.ctid !in left
    ensures ctid !in Ctids(results)
  {
    assert forall k :: 0 <= k < |results| ==> results[k] in results && Ctids(results)[k] == results[k].ctid;
  }

  /** What a search reads of its own node, each at its own moment: the store for the local
      search, the index, and the store again for titles and artists. */
  datatype View = View(local: Tracks, index: Index, store: Tracks)

  /** What Search may return, whatever order Go visits its maps in. */
  ghost predicate IsSearchResult(w: World, view: View, remote: Remote, query: string, maxResults: int,
                                 results: seq<SearchResult>) {
    var tokens := Tokens(w.low, query);
    if tokens == [] then results == []
    else
      exists local, network ::
        && IsLocalResults(view.local, tokens, local)
        && IsNetworkResults(w, view.store, view.index, remote, tokens, maxResults, network)
        && results == Merged(local, network, maxResults)
  }

  // ---- What a search returns, field by field ----

  /** A result for a CTID of an own matching track has the fields of such a track and no providers,
      even when the network found the CTID too. Every other result has the first peers that arrive
      for the CTID, at most five, and title and artist of a stored track with the CTID, else of a
      hint that some peer gave, else unknown. */
  lemma ResultFields(w: World, view: View, remote: Remote, query: string, maxResults: int,
                     results: seq<SearchResult>, r: SearchResult)
    requires IsSearchResult(w, view, remote, query, maxResults, results) && r in results
    ensures var tokens := Tokens(w.low, query);
      if exists id :: LocalMatch(view.local, tokens, id) && view.local[id].ctid == r.ctid then
        exists id :: (
          && LocalMatch(view.local, tokens, id) && r.ctid == view.local[id].ctid
          && r.title == view.local[id].title && r.artist == view.local[id].artist
          && r.recognized == view.local[id].recognized && r.providers == [])
      else
        && r.recognized && IsDigest(r.ctid)
        && (var peers := remote.providers(CidOf(r.ctid));
            r.providers <= peers && |r.providers| == if |peers| <= 5 then |peers| else 5)
        && (if exists id :: id in view.store && view.store[id].ctid == r.ctid then
              exists id :: (
                && id in view.store && view.store[id].ctid == r.ctid
                && r.title == view.store[id].title && r.artist == view.store[id].artist)
            else
              || (r.title == "Unknown" && r.artist == "Unknown")
              || exists hint :: (
                   && Hinted(w, remote, tokens, hint) && hint.ctid == r.ctid
                   && r.title == (if hint.title == "" then "Unknown" else hint.title)
                   && r.artist == (if hint.artist == "" then "Unknown" else hint.artist)))
  {
    var tokens := Tokens(w.low, query);
    var local, network :| IsLocalResults(view.local, tokens, local)
      && IsNetworkResults(w, view.store, view.index, remote, tokens, maxResults, network)
      && results == Merged(local, network, maxResults);
    MergedResultIs(local, network, maxResults, r);
    LocalCtids(view.local, tokens, local, r.ctid);
    if r.ctid in Ctids(local) {
      LocalResultHasMatch(view.local, tokens, local, r);
    } else {
      assert NetworkResult(w, view.store, remote, tokens, r);
    }
  }

  /** The CTID of an own matching track. */
  ghost predicate LocalCtid(store: Tracks, tokens: seq<string>, ctid: string) {
    exists id :: LocalMatch(store, tokens, id) && store[id].ctid == ctid
  }

  lemma LocalCtids(store: Tracks, tokens: seq<string>, local: seq<SearchResult>, ctid: string)
    requires IsLocalResults(store, tokens, local)
    ensures ctid in Ctids(local) <==> LocalCtid(store, tokens, ctid)
  {
    var ids :| AreMatches(store, tokens, ids) && ShowAll(store, ids, local);
    if ctid in Ctids(local) {
      var k :| 0 <= k < |local| && Ctids(local)[k] == ctid;
      assert ids[k] in ids;
    }
    if LocalCtid(store, tokens, ctid) {
      var id :| LocalMatch(store, tokens, id) && store[id].ctid == ctid;
      var k :| 0 <= k < |ids| && ids[k] == id;
      assert Ctids(local)[k] == ctid;
    }
  }

  /** Network search collects a CTID when the own index lists it under one of the tokens, or one of
      the first ten peers for a token names it in its reply. */
  lemma CandidateIff(w: World, index: Index, remote: Remote, tokens: seq<string>, ctid: string)
    requires ValidWorld(w)
    ensures Candidate(w, index, remote, tokens, ctid) <==>
      || (exists t :: t in tokens && t in index && ctid in index[t])
      || (ctid != "" && exists t, i, hint ::
            t in tokens && 0 <= i < 10 && NamedBy(remote, remote.providers(CidOf(w.hash(t))), i, t, hint) && hint.ctid == ctid)
  {
    if exists t, i, hint ::
        t in tokens && 0 <= i < 10 && NamedBy(remote, remote.providers(CidOf(w.hash(t))), i, t, hint) && hint.ctid == ctid {
      var t, i, hint :| t in tokens && 0 <= i < 10
        && NamedBy(remote, remote.providers(CidOf(w.hash(t))), i, t, hint) && hint.ctid == ctid;
      if ctid != "" {
        NamedIsHinted(w, remote, tokens, t, i, hint);
      }
    }
    if exists hint :: Hinted(w, remote, tokens, hint) && hint.ctid == ctid {
      var hint :| Hinted(w, remote, tokens, hint) && hint.ctid == ctid;
      var t, i := HintedIsNamed(w, remote, tokens, hint);
    }
  }

  lemma NamedIsHinted(w: World, remote: Remote, tokens: seq<string>, t: string, i: int, hint: Hint)
    requires ValidWorld(w) && t in tokens && 0 <= i < 10 && hint.ctid != ""
    requires NamedBy(remote, remote.providers(CidOf(w.hash(t))), i, t, hint)
    ensures Hinted(w, remote, tokens, hint)
  {
    var peers := TokenPeers(w, remote, t);
    assert IsDigest(w.hash(t));
    assert peers[i] in peers;
    assert HintedBy(remote, peers[i], t, hint);
    assert TokenHinted(w, remote, t, hint);
  }

  lemma HintedIsNamed(w: World, remote: Remote, tokens: seq<string>, hint: Hint) returns (t: string, i: int)
    requires ValidWorld(w) && Hinted(w, remote, tokens, hint)
    ensures t in tokens && 0 <= i < 10 && hint.ctid != ""
    ensures NamedBy(remote, remote.providers(CidOf(w.hash(t))), i, t, hint)
  {
    t :| t in tokens && TokenHinted(w, remote, t, hint);
    var peers := TokenPeers(w, remote, t);
    var p :| p in peers && HintedBy(remote, p, t, hint);
    assert IsDigest(w.hash(t));
    i :| 0 <= i < |peers| && peers[i] == p;
  }

  /** The i-th peer replies to a query for the token, and the hint is in its reply. */
  ghost predicate NamedBy(remote: Remote, peers: seq<string>, i: int, token: string, hint: Hint) {
    0 <= i < |peers| && remote.query(peers[i], token).Some? && hint in remote.query(peers[i], token).value
  }

  class SearchService {
    const w: World
    const store: Storage
    var localIndex: Index

    constructor (w: World, store: Storage)
      ensures this.w == w && this.store == store && localIndex == map[]
    {
      this.w, this.store := w, store;
      localIndex := map[];
    }

    method UpdateLocalIndex(track: Track)
      modifies this
      ensures localIndex == Updated(w.low, old(localIndex), track)
    {
      if track.ctid == "" || !track.recognized {
        return;
      }
      var allTokens := CollectTokens(track);
      assert WithTokens(localIndex, {}, track.ctid) == localIndex;
      var left := allTokens;
      while left != {}
        invariant left <= allTokens
        invariant localIndex == WithTokens(old(localIndex), allTokens - left, track.ctid)
      {
        var token :| token in left;
        WithOneMoreToken(old(localIndex), allTokens - left, token, track.ctid);
        assert allTokens - (left - {token}) == allTokens - left + {token};
        left := left - {token};
        AddToEntry(token, track.ctid);
      }
      assert allTokens - left == allTokens;
    }

    /** The set of title and artist tokens, as UpdateLocalIndex collects it. */
    method CollectTokens(track: Track) returns (allTokens: set<string>)
      ensures allTokens == TrackTokens(w.low, track)
    {
      var titleTokens := Tokenize(w.low, track.title);
      var artistTokens := Tokenize(w.low, track.artist);
      allTokens := {};
      for i := 0 to |titleTokens|
        invariant forall t :: t in allTokens <==> t in titleTokens[..i]
      {
        assert titleTokens[..i + 1] == titleTokens[..i] + [titleTokens[i]];
        allTokens := allTokens + {titleTokens[i]};
      }
      assert titleTokens[..|titleTokens|] == titleTokens;
      for i := 0 to |artistTokens|
        invariant forall t :: t in allTokens <==> t in titleTokens || t in artistTokens[..i]
      {
        assert artistTokens[..i + 1] == artistTokens[..i] + [artistTokens[i]];
        allTokens := allTokens + {artistTokens[i]};
      }
      assert artistTokens[..|artistTokens|] == artistTokens;
    }

    /** The loop body of UpdateLocalIndex. */
    method AddToEntry(token: string, ctid: string)
      modifies this
      ensures localIndex == old(localIndex)[token := WithCtid(Entry(old(localIndex), token), ctid)]
    {
      ghost var entry := Entry(localIndex, token);
      if token !in localIndex {
        localIndex := localIndex[token := []];
      }
      var found := false;
      for i := 0 to |localIndex[token]|
        invariant localIndex == old(localIndex)[token := entry]
        invariant !found && ctid !in entry[..i]
      {
        if localIndex[token][i] == ctid {
          found := true;
          break;
        }
      }
      if !found {
        localIndex := localIndex[token := localIndex[token] + [ctid]];
      }
    }

    /** The reply to an index query for a token. The source unlocks the index between the two
        calls. */
    method HandleIndexQuery(token: string) returns (tracks: seq<Hint>)
      requires store.Valid()
      ensures IsReply(store.tracks, Entry(localIndex, token), token, tracks)
    {
      var ctids := ReadEntry(token);
      tracks := ReplyTo(token, ctids);
    }

    method ReadEntry(token: string) returns (ctids: seq<string>)
      ensures ctids == Entry(localIndex, token)
    {
      ctids := [];
      if token in localIndex {
        ctids := ctids + localIndex[token];
      }
    }

    /** The reply from an entry read at any moment before. */
    method ReplyTo(token: string, entry: seq<string>) returns (tracks: seq<Hint>)
      requires store.Valid()
      ensures IsReply(store.tracks, entry, token, tracks)
    {
      var ctids := entry;
      if |ctids| == 0 {
        ctids := ScanFor(token);
      }
      tracks := [];
      for i := 0 to |ctids|
        invariant HintCtids(tracks) == ctids[..i]
        invariant forall k :: 0 <= k < i ==> Describes(store.tracks, tracks[k])
      {
        var hint := Hint(ctids[i], "Unknown", "Unknown");
        var track := store.FindTrackByCTID(ctids[i]);
        if track.Some? {
          if track.value.title != "" {
            hint := hint.(title := track.value.title);
          }
          if track.value.artist != "" {
            hint := hint.(artist := track.value.artist);
          }
        }
        tracks := tracks + [hint];
      }
      assert ctids[..|ctids|] == ctids;
    }

    /** The storage fallback: distinct CTIDs of the recognised tracks that the scan hits. */
    method ScanFor(token: string) returns (ctids: seq<string>)
      requires store.Valid()
      ensures NoDups(ctids) && forall c :: c in ctids <==> ScanAnswer(store.tracks, token, c)
    {
      ctids := [];
      var found := store.FindTracksByToken(token);
      var seen: set<string> := {};
      for i := 0 to |found|
        invariant seen == ToSet(ctids) && NoDups(ctids)
        invariant forall c :: c in ctids ==> ScanAnswer(store.tracks, token, c)
        invariant forall k :: 0 <= k < i && found[k].ctid != "" && found[k].recognized ==> found[k].ctid in ctids
      {
        var tr := found[i];
        if tr.ctid == "" || !tr.recognized || tr.ctid in seen {
          continue;
        }
        seen := seen + {tr.ctid};
        ctids := ctids + [tr.ctid];
      }
    }

    method SearchLocal(tokens: seq<string>) returns (results: seq<SearchResult>)
      requires store.Valid()
      ensures IsLocalResults(store.tracks, tokens, results)
      ensures forall r :: r in results ==> exists id :: (
        && LocalMatch(store.tracks, tokens, id) && r.ctid == store.tracks[id].ctid
        && r.title == store.tracks[id].title && r.artist == store.tracks[id].artist
        && r.recognized == store.tracks[id].recognized && r.providers == [])
    {
      var seen: map<string, Track> := map[];
      for i := 0 to |tokens|
        invariant forall id :: id in seen <==> exists k :: 0 <= k < i && id in store.tracks && Hit(store.tracks[id], tokens[k])
        invariant forall id :: id in seen ==> seen[id] == store.tracks[id]
      {
        var tracks := store.FindTracksByToken(tokens[i]);
        seen := AddTracks(seen, tracks);
      }
      results := ListResults(tokens, seen);
      forall r | r in results {
        LocalResultHasMatch(store.tracks, tokens, results, r);
      }
    }

    /** The inner loop: tracks by id. */
    method AddTracks(known: map<string, Track>, tracks: seq<Track>) returns (seen: map<string, Track>)
      requires forall t :: t in tracks ==> t.id in store.tracks && store.tracks[t.id] == t
      requires forall id :: id in known ==> id in store.tracks && known[id] == store.tracks[id]
      ensures forall id :: id in seen <==> id in known || exists t :: t in tracks && t.id == id
      ensures forall id :: id in seen ==> id in store.tracks && seen[id] == store.tracks[id]
    {
      seen := known;
      for j := 0 to |tracks|
        invariant forall id :: id in seen <==> id in known || exists t :: t in tracks[..j] && t.id == id
        invariant forall id :: id in seen ==> id in store.tracks && seen[id] == store.tracks[id]
      {
        assert tracks[..j + 1] == tracks[..j] + [tracks[j]];
        seen := seen[tracks[j].id := tracks[j]];
      }
      assert tracks[..|tracks|] == tracks;
    }

    /** The loop over the found tracks, in any order. */
    method ListResults(ghost tokens: seq<string>, seen: map<string, Track>) returns (results: seq<SearchResult>)
      requires forall id :: id in seen <==> exists k :: 0 <= k < |tokens| && id in store.tracks && Hit(store.tracks[id], tokens[k])
      requires forall id :: id in seen ==> seen[id] == store.tracks[id]
      ensures IsLocalResults(store.tracks, tokens, results)
    {
      results := [];
      ghost var ids: seq<string> := [];
      var left := seen.Keys;
      while left != {}
        invariant left <= seen.Keys
        invariant NoDups(ids) && forall id :: id in ids <==> id in seen && id !in left && seen[id].ctid != ""
        invariant ShowAll(store.tracks, ids, results)
      {
        var id :| id in left;
        left := left - {id};
        if seen[id].ctid == "" {
          continue;
        }
        var track := seen[id];
        results := results + [SearchResult(track.ctid, track.title, track.artist, track.recognized, [])];
        ids := ids + [id];
      }
      assert forall id :: id in ids <==> id in seen && store.tracks[id].ctid != "";
      SeenAreMatches(store.tracks, tokens, seen, ids);
    }

    /** Step 1 of network search: the CTIDs that the own index lists under the tokens. */
    method CollectLocal(tokens: seq<string>) returns (ctidSet: set<string>)
      ensures forall c :: c in ctidSet <==> Indexed(localIndex, tokens, c)
    {
      ctidSet := {};
      for i := 0 to |tokens|
        invariant forall c :: c in ctidSet <==> Indexed(localIndex, tokens[..i], c)
      {
        ghost var before := ctidSet;
        ctidSet := AddAll(ctidSet, if tokens[i] in localIndex then localIndex[tokens[i]] else []);
        forall c: string
          ensures c in ctidSet <==> Indexed(localIndex, tokens[..i + 1], c)
        {
          IndexedSnoc(localIndex, tokens, i, c);
          assert c in ctidSet <==> c in before || c in Entry(localIndex, tokens[i]);
        }
      }
      assert tokens[..|tokens|] == tokens;
    }

    method AddAll(known: set<string>, entry: seq<string>) returns (ctidSet: set<string>)
      ensures forall c :: c in ctidSet <==> c in known || c in entry
    {
      ctidSet := known;
      for j := 0 to |entry|
        invariant forall c :: c in ctidSet <==> c in known || c in entry[..j]
      {
        assert entry[..j + 1] == entry[..j] + [entry[j]];
        ctidSet := ctidSet + {entry[j]};
      }
      assert entry[..|entry|] == entry;
    }

    /** Adds one peer's reply. */
    method AddHints(hints: seq<Hint>, ctids: set<string>, known: map<string, Hint>)
      returns (ctidSet: set<string>, remoteHints: map<string, Hint>)
      ensures forall c :: c in ctidSet <==> c in ctids || exists h :: h in hints && h.ctid != "" && h.ctid == c
      ensures forall c :: c in remoteHints <==> c in known || exists h :: h in hints && h.ctid != "" && h.ctid == c
      ensures forall c :: c in remoteHints ==>
        (c in known && remoteHints[c] == known[c]) || (remoteHints[c] in hints && remoteHints[c].ctid == c != "")
    {
      ctidSet, remoteHints := ctids, known;
      for k := 0 to |hints|
        invariant forall c :: c in ctidSet <==> c in ctids || exists h :: h in hints[..k] && h.ctid != "" && h.ctid == c
        invariant forall c :: c in remoteHints <==> c in known || exists h :: h in hints[..k] && h.ctid != "" && h.ctid == c
        invariant forall c :: c in remoteHints ==>
          (c in known && remoteHints[c] == known[c]) || (remoteHints[c] in hints && remoteHints[c].ctid == c != "")
      {
        assert hints[..k + 1] == hints[..k] + [hints[k]];
        if hints[k].ctid == "" {
          continue;
        }
        ctidSet := ctidSet + {hints[k].ctid};
        remoteHints := remoteHints[hints[k].ctid := hints[k]];
      }
      assert hints[..|hints|] == hints;
    }

    /** Asks each peer about the token. A failed query is skipped. */
    method AskPeers(remote: Remote, peers: seq<string>, token: string, ctids: set<string>, known: map<string, Hint>)
      returns (ctidSet: set<string>, remoteHints: map<string, Hint>)
      ensures forall c :: c in ctidSet <==>
        c in ctids || exists p, h :: p in peers && HintedBy(remote, p, token, h) && h.ctid == c
      ensures known.Keys <= remoteHints.Keys && ctidSet <= ctids + remoteHints.Keys
      ensures forall c :: c in remoteHints ==>
        || (c in known && remoteHints[c] == known[c])
        || (remoteHints[c].ctid == c && exists p :: p in peers && HintedBy(remote, p, token, remoteHints[c]))
    {
      ctidSet, remoteHints := ctids, known;
      for j := 0 to |peers|
        invariant forall c :: c in ctidSet <==>
          c in ctids || exists p, h :: p in peers[..j] && HintedBy(remote, p, token, h) && h.ctid == c
        invariant known.Keys <= remoteHints.Keys && ctidSet <= ctids + remoteHints.Keys
        invariant forall c :: c in remoteHints ==>
          || (c in known && remoteHints[c] == known[c])
          || (remoteHints[c].ctid == c && exists p :: p in peers && HintedBy(remote, p, token, remoteHints[c]))
      {
        assert peers[..j + 1] == peers[..j] + [peers[j]];
        var reply := remote.query(peers[j], token);
        if reply.None? {
          continue;
        }
        ghost var ctids0, hints0 := ctidSet, remoteHints;
        ctidSet, remoteHints := AddHints(reply.value, ctidSet, remoteHints);
        assert forall h :: HintedBy(remote, peers[j], token, h) <==> h in reply.value && h.ctid != "";
        forall c | c in remoteHints
          ensures || (c in known && remoteHints[c] == known[c])
                  || (remoteHints[c].ctid == c && exists p :: p in peers && HintedBy(remote, p, token, remoteHints[c]))
        {
          if c in hints0 && remoteHints[c] == hints0[c] {
          } else {
            assert HintedBy(remote, peers[j], token, remoteHints[c]);
          }
        }
      }
      assert peers[..|peers|] == peers;
    }

    /** Looks up the providers of a token and asks them. A failed lookup is skipped. */
    method AskAbout(remote: Remote, token: string, ctids: set<string>, known: map<string, Hint>)
      returns (ctidSet: set<string>, remoteHints: map<string, Hint>)
      ensures ctids <= ctidSet && known.Keys <= remoteHints.Keys && ctidSet <= ctids + remoteHints.Keys
      ensures forall h :: TokenHinted(w, remote, token, h) ==> h.ctid in ctidSet
      ensures forall c :: c in remoteHints ==>
        || (c in known && remoteHints[c] == known[c])
        || (remoteHints[c].ctid == c && TokenHinted(w, remote, token, remoteHints[c]))
    {
      var providers := DhtService.FindProviders(remote, w.hash(token), 10);
      if providers.None? {
        return ctids, known;
      }
      assert providers.value == TokenPeers(w, remote, token);
      ctidSet, remoteHints := AskPeers(remote, providers.value, token, ctids, known);
    }

    /** Step 2: ask the providers of each token. */
    method CollectRemote(remote: Remote, tokens: seq<string>, known: set<string>)
      returns (ctidSet: set<string>, remoteHints: map<string, Hint>)
      ensures known <= ctidSet
      ensures forall hint :: Hinted(w, remote, tokens, hint) ==> hint.ctid in ctidSet
      ensures ctidSet <= known + remoteHints.Keys
      ensures forall c :: c in remoteHints ==> remoteHints[c].ctid == c && Hinted(w, remote, tokens, remoteHints[c])
    {
      ctidSet, remoteHints := known, map[];
      for i := 0 to |tokens|
        invariant known <= ctidSet && ctidSet <= known + remoteHints.Keys
        invariant forall c :: c in remoteHints ==> remoteHints[c].ctid == c && Hinted(w, remote, tokens[..i], remoteHints[c])
        invariant forall hint :: Hinted(w, remote, tokens[..i], hint) ==> hint.ctid in ctidSet
      {
        ctidSet, remoteHints := AskAbout(remote, tokens[i], ctidSet, remoteHints);
        forall hint: Hint {
          HintedSnoc(w, remote, tokens, i, hint);
        }
      }
      assert tokens[..|tokens|] == tokens;
    }

    /** Step 3: the title and artist shown for a CTID. */
    method Describe(ctid: string, remoteHints: map<string, Hint>) returns (title: string, artist: string)
      requires store.Valid()
      requires forall c :: c in remoteHints ==> remoteHints[c].ctid == c
      ensures if exists id :: id in store.tracks && store.tracks[id].ctid == ctid then
          exists id :: id in store.tracks && store.tracks[id].ctid == ctid && title == store.tracks[id].title && artist == store.tracks[id].artist
        else
          || (title == "Unknown" && artist == "Unknown")
          || (ctid in remoteHints && title == OrUnknown(remoteHints[ctid].title) && artist == OrUnknown(remoteHints[ctid].artist))
    {
      var track := store.FindTrackByCTID(ctid);
      if track.Some? {
        return track.value.title, track.value.artist;
      }
      if ctid in remoteHints && (remoteHints[ctid].title != "" || remoteHints[ctid].artist != "") {
        title := remoteHints[ctid].title;
        if title == "" {
          title := "Unknown";
        }
        artist := remoteHints[ctid].artist;
        if artist == "" {
          artist := "Unknown";
        }
      } else {
        title := "Unknown";
        artist := "Unknown";
      }
    }

    /** The result for one CTID; none when its provider lookup fails. */
    method Resolve(remote: Remote, ghost tokens: seq<string>, ctid: string, remoteHints: map<string, Hint>)
      returns (result: Option<SearchResult>)
      requires store.Valid()
      requires forall c :: c in remoteHints ==> remoteHints[c].ctid == c && Hinted(w, remote, tokens, remoteHints[c])
      ensures result.Some? <==> IsDigest(ctid)
      ensures result.Some? ==> result.value.ctid == ctid && NetworkResult(w, store.tracks, remote, tokens, result.value)
    {
      var providers := DhtService.FindProviders(remote, ctid, 5);
      if providers.None? {
        return None;
      }
      var title, artist := Describe(ctid, remoteHints);
      return Some(SearchResult(ctid, title, artist, true, providers.value));
    }

    /** The loop over the collected CTIDs, in any order, up to the limit. */
    method ResolveAll(remote: Remote, ghost tokens: seq<string>, ctidSet: set<string>, remoteHints: map<string, Hint>, maxResults: int)
      returns (results: seq<SearchResult>)
      requires store.Valid()
      requires forall c :: c in remoteHints ==> remoteHints[c].ctid == c && Hinted(w, remote, tokens, remoteHints[c])
      ensures NoDups(Ctids(results)) && (|results| <= maxResults || results == [])
      ensures forall r :: r in results ==>
        r.ctid in ctidSet && IsDigest(r.ctid) && NetworkResult(w, store.tracks, remote, tokens, r)
      ensures |results| < maxResults ==> forall c :: c in ctidSet && IsDigest(c) ==> c in Ctids(results)
    {
      results := [];
      var left := ctidSet;
      while left != {}
        invariant left <= ctidSet
        invariant NoDups(Ctids(results)) && (|results| <= maxResults || results == [])
        invariant forall r :: r in results ==>
          r.ctid in ctidSet - left && IsDigest(r.ctid) && NetworkResult(w, store.tracks, remote, tokens, r)
        invariant forall c :: c in ctidSet - left && IsDigest(c) ==> c in Ctids(results)
      {
        if |results| >= maxResults {
          break;
        }
        var ctid :| ctid in left;
        NotAmong(results, left, ctid);
        left := left - {ctid};
        var result := Resolve(remote, tokens, ctid, remoteHints);
        if result.Some? {
          OneMoreResult(results, result.value);
          results := results + [result.value];
        }
      }
    }

    /** searchNetwork, with its reads of index and store at one moment. */
    method SearchNetwork(remote: Remote, tokens: seq<string>, maxResults: int) returns (results: seq<SearchResult>)
      requires store.Valid()
      ensures IsNetworkResults(w, store.tracks, localIndex, remote, tokens, maxResults, results)
    {
      var known := CollectLocal(tokens);
      results := AskNetwork(remote, tokens, maxResults, known, localIndex);
    }

    /** Its part after the index is unlocked: known is what the index listed at any moment before. */
    method AskNetwork(remote: Remote, tokens: seq<string>, maxResults: int, known: set<string>, ghost index: Index)
      returns (results: seq<SearchResult>)
      requires store.Valid() && forall c :: c in known <==> Indexed(index, tokens, c)
      ensures IsNetworkResults(w, store.tracks, index, remote, tokens, maxResults, results)
    {
      var ctidSet, remoteHints := CollectRemote(remote, tokens, known);
      assert forall c :: c in ctidSet <==> Candidate(w, index, remote, tokens, c);
      results := ResolveAll(remote, tokens, ctidSet, remoteHints, maxResults);
    }

    /** Search. Other operations may run between its three reads of the node. */
    method Search(remote: Remote, query: string, maxResults: int) returns (results: seq<SearchResult>)
      requires store.Valid()
      ensures IsSearchResult(w, View(store.tracks, localIndex, store.tracks), remote, query, maxResults, results)
      ensures Tokens(w.low, query) == [] ==> results == []
      // A result for the CTID of an own matching track shows such a track.
      ensures forall r :: r in results && LocalCtid(store.tracks, Tokens(w.low, query), r.ctid) ==> exists id :: (
        && LocalMatch(store.tracks, Tokens(w.low, query), id) && r.ctid == store.tracks[id].ctid
        && r.title == store.tracks[id].title && r.artist == store.tracks[id].artist
        && r.recognized == store.tracks[id].recognized && r.providers == [])
    {
      var tokens := Tokenize(w.low, query);
      if |tokens| == 0 {
        return [];
      }
      var localResults := SearchLocal(tokens);
      var known := CollectLocal(tokens);
      results := FinishSearch(remote, query, tokens, maxResults, localResults, known, store.tracks, localIndex);
      forall r | r in results {
        ResultFields(w, View(store.tracks, localIndex, store.tracks), remote, query, maxResults, results, r);
      }
    }

    /** The rest of the search, with the local results and the listed CTIDs from any moments before. */
    method FinishSearch(remote: Remote, ghost query: string, tokens: seq<string>, maxResults: int,
                        localResults: seq<SearchResult>, known: set<string>, ghost local: Tracks, ghost index: Index)
      returns (results: seq<SearchResult>)
      requires store.Valid() && tokens == Tokens(w.low, query) && tokens != []
      requires IsLocalResults(local, tokens, localResults) && forall c :: c in known <==> Indexed(index, tokens, c)
      ensures IsSearchResult(w, View(local, index, store.tracks), remote, query, maxResults, results)
    {
      var networkResults := AskNetwork(remote, tokens, maxResults, known, index);
      results := MergeResults(localResults, networkResults, maxResults);
    }
  }
}
