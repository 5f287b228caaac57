/** The in-memory index of a node: token -> CTIDs, in order of arrival. */
module TokenIndex {
  import opened Text
  import opened Library
  import opened Sequences

  type Index = map<string, seq<string>>

  /** The CTIDs listed under a token. */
  function Entry(index: Index, token: string): seq<string> {
    if token in index then index[token] else []
  }

  ghost predicate IsTrackToken(low: Lowering, track: Track, token: string) {
    token in Tokens(low, track.title) || token in Tokens(low, track.artist)
  }

  lemma TrackTokenIsClean(low: Lowering, track: Track, token: string)
    requires IsTrackToken(low, track, token)
    ensures IsToken(low, token)
  {
    if token in Tokens(low, track.title) {
      TokensAreRuns(low, track.title, token);
    } else {
      TokensAreRuns(low, track.artist, token);
    }
  }

  function TrackTokens(low: Lowering, track: Track): (r: set<string>)
    ensures forall t :: t in r <==> IsTrackToken(low, track, t)
  {
    ToSet(Tokens(low, track.title)) + ToSet(Tokens(low, track.artist))
  }

  predicate Indexable(track: Track) {
    track.ctid != "" && track.recognized
  }

  /** An entry after ctid is appended unless it is there. */
  function WithCtid(entry: seq<string>, ctid: string): seq<string> {
    if ctid in entry then entry else entry + [ctid]
  }

  /** The index with ctid listed under each of the tokens. */
  function WithTokens(index: Index, tokens: set<string>, ctid: string): Index {
    map t | t in index.Keys + tokens :: if t in tokens then WithCtid(Entry(index, t), ctid) else index[t]
  }

  /** The index after one UpdateLocalIndex call. */
  function Updated(low: Lowering, index: Index, track: Track): Index {
    if !Indexable(track) then index else WithTokens(index, TrackTokens(low, track), track.ctid)
  }

  lemma WithOneMoreToken(index: Index, tokens: set<string>, token: string, ctid: string)
    requires token !in tokens
    ensures var partly := WithTokens(index, tokens, ctid);
      WithTokens(index, tokens + {token}, ctid) == partly[token := WithCtid(Entry(partly, token), ctid)]
  {
  }

  lemma UpdatedEntry(low: Lowering, index: Index, track: Track, t: string)
    ensures Entry(Updated(low, index, track), t) ==
            if Indexable(track) && t in TrackTokens(low, track) then WithCtid(Entry(index, t), track.ctid)
            else Entry(index, t)
  {
  }

  // ---- Any sequence of calls ----

  /** The index after a sequence of UpdateLocalIndex calls on a new service. */
  function AfterCalls(low: Lowering, calls: seq<Track>): Index {
    if calls == [] then map[]
    else Updated(low, AfterCalls(low, calls[..|calls| - 1]), calls[|calls| - 1])
  }

  /** Whether a call lists ctid under the token. */
  ghost predicate Contributes(low: Lowering, track: Track, token: string) {
    track.recognized && track.ctid != "" && IsTrackToken(low, track, token)
  }

  /** The CTIDs that the calls bring to a token, with repeats. */
  ghost function Contributions(low: Lowering, calls: seq<Track>, token: string): seq<string> {
    if calls == [] then []
    else
      Contributions(low, calls[..|calls| - 1], token)
      + (if Contributes(low, calls[|calls| - 1], token) then [calls[|calls| - 1].ctid] else [])
  }

  /** Each entry holds what the calls brought to its token, in order, without repeats. */
  lemma {:induction false} EntryIsContributions(low: Lowering, calls: seq<Track>, token: string)
    ensures Entry(AfterCalls(low, calls), token) == Distinct(Contributions(low, calls, token))
  {
    if calls != [] {
      var front, last := calls[..|calls| - 1], calls[|calls| - 1];
      EntryIsContributions(low, front, token);
      UpdatedEntry(low, AfterCalls(low, front), last, token);
      if Contributes(low, last, token) {
        DistinctSnoc(Contributions(low, front, token), last.ctid);
      } else {
        assert Contributions(low, calls, token) == Contributions(low, front, token);
      }
    }
  }

  lemma {:induction false} ContributionsMember(low: Lowering, calls: seq<Track>, token: string, ctid: string)
    ensures ctid in Contributions(low, calls, token)
      <==> exists i :: 0 <= i < |calls| && Contributes(low, calls[i], token) && calls[i].ctid == ctid
  {
    if calls != [] {
      var front := calls[..|calls| - 1];
      ContributionsMember(low, front, token, ctid);
      assert forall i :: 0 <= i < |front| ==> front[i] == calls[i];
    }
  }

  /** A CTID is listed under a token exactly when some call brought it; no list repeats one, and
      no token has an empty list. */
  lemma IndexMeetsSpec(low: Lowering, calls: seq<Track>, token: string, ctid: string)
    ensures ctid in Entry(AfterCalls(low, calls), token)
      <==> exists i :: 0 <= i < |calls| && Contributes(low, calls[i], token) && calls[i].ctid == ctid
    ensures NoDups(Entry(AfterCalls(low, calls), token))
    ensures token in AfterCalls(low, calls) ==> Entry(AfterCalls(low, calls), token) != []
  {
    EntryIsContributions(low, calls, token);
    DistinctKeeps(Contributions(low, calls, token));
    ContributionsMember(low, calls, token, ctid);
    KeysHaveEntries(low, calls);
  }

  lemma {:induction false} KeysHaveEntries(low: Lowering, calls: seq<Track>)
    ensures forall t :: t in AfterCalls(low, calls) ==> AfterCalls(low, calls)[t] != []
  {
    if calls != [] {
      KeysHaveEntries(low, calls[..|calls| - 1]);
    }
  }

  lemma ListedAlready(index: Index, tokens: set<string>, ctid: string)
    requires forall t :: t in tokens ==> t in index && ctid in index[t]
    ensures WithTokens(index, tokens, ctid) == index
  {
    assert index.Keys + tokens == index.Keys;
  }

  /** Repeating any earlier call changes nothing. */
  lemma RepeatedCallIsNoOp(low: Lowering, calls: seq<Track>, i: nat)
    requires i < |calls|
    ensures Updated(low, AfterCalls(low, calls), calls[i]) == AfterCalls(low, calls)
  {
    var index := AfterCalls(low, calls);
    if Indexable(calls[i]) {
      forall t | t in TrackTokens(low, calls[i])
        ensures t in index && calls[i].ctid in index[t]
      {
        assert Contributes(low, calls[i], t);
        IndexMeetsSpec(low, calls, t, calls[i].ctid);
      }
      ListedAlready(index, TrackTokens(low, calls[i]), calls[i].ctid);
    }
  }

  // ---- Growth ----

  /** Every CTID of `small` is also listed, under the same token, in `big`. */
  ghost predicate Within(small: Index, big: Index) {
    forall t, c :: c in Entry(small, t) ==> c in Entry(big, t)
  }

  lemma UpdateGrows(low: Lowering, index: Index, track: Track)
    ensures Within(index, Updated(low, index, track))
  {
  }

  lemma UpdateMonotone(low: Lowering, small: Index, big: Index, track: Track)
    requires Within(small, big)
    ensures Within(Updated(low, small, track), Updated(low, big, track))
  {
    forall t, c | c in Entry(Updated(low, small, track), t)
      ensures c in Entry(Updated(low, big, track), t)
    {
      UpdatedEntry(low, small, track, t);
      UpdatedEntry(low, big, track, t);
    }
  }

  /** The tokens announced for a track, of title + " " + artist, are the tokens indexed for it. */
  lemma AnnouncedTokensAreIndexed(low: Lowering, track: Track, t: string)
    ensures t in Tokens(low, track.title + " " + track.artist) <==> t in TrackTokens(low, track)
  {
    TokensOfJoined(low, track.title, track.artist);
  }
}
