/** Merging local and network search results. */
module Merge {
  import opened Sequences

  datatype SearchResult = SearchResult(
    ctid: string,
    title: string,
    artist: string,
    recognized: bool,
    providers: seq<string>)

  function Ctids(results: seq<SearchResult>): (r: seq<string>)
    ensures |r| == |results| && forall i :: 0 <= i < |results| ==> r[i] == results[i].ctid
  {
    seq(|results|, i requires 0 <= i < |results| => results[i].ctid)
  }

  /** The first result of each CTID that is not among `seen`, in order. */
  function Fresh(results: seq<SearchResult>, seen: set<string>): seq<SearchResult> {
    if results == [] then []
    else if results[0].ctid in seen then Fresh(results[1..], seen)
    else [results[0]] + Fresh(results[1..], seen + {results[0].ctid})
  }

  /** How many network results may follow n local ones: at least one, even when the local
      results fill the limit. */
  function Room(n: nat, maxResults: int): nat {
    if n + 1 >= maxResults then 1 else maxResults - n
  }

  /** The merged results: each local CTID once, then new network CTIDs as far as there is room. */
  function Merged(local: seq<SearchResult>, network: seq<SearchResult>, maxResults: int): seq<SearchResult> {
    var first := Fresh(local, {});
    first + AtMost(Fresh(network, ToSet(Ctids(first))), Room(|first|, maxResults))
  }

  /** The two loops at the end of Search. */
  method MergeResults(local: seq<SearchResult>, network: seq<SearchResult>, maxResults: int)
    returns (results: seq<SearchResult>)
    ensures results == Merged(local, network, maxResults)
  {
    var first, seen := AddLocal(local);
    results := AddNetwork(first, seen, network, maxResults);
  }

  lemma CtidsSnoc(results: seq<SearchResult>, r: SearchResult)
    ensures Ctids(results + [r]) == Ctids(results) + [r.ctid]
  {
  }

  lemma Regroup(a: seq<SearchResult>, r: SearchResult, b: seq<SearchResult>)
    ensures a + ([r] + b) == (a + [r]) + b
  {
  }

  method AddLocal(local: seq<SearchResult>) returns (results: seq<SearchResult>, seen: set<string>)
    ensures results == Fresh(local, {}) && seen == ToSet(Ctids(results))
  {
    seen := {};
    results := [];
    for i := 0 to |local|
      invariant results + Fresh(local[i..], seen) == Fresh(local, {})
      invariant forall c :: c in seen <==> c in Ctids(results)
    {
      assert local[i..][1..] == local[i + 1..];
      if local[i].ctid !in seen {
        seen := seen + {local[i].ctid};
        CtidsSnoc(results, local[i]);
        Regroup(results, local[i], Fresh(local[i + 1..], seen));
        results := results + [local[i]];
      }
    }
    assert results + [] == results;
  }

  method AddNetwork(first: seq<SearchResult>, seen0: set<string>, network: seq<SearchResult>, maxResults: int)
    returns (results: seq<SearchResult>)
    ensures results == first + AtMost(Fresh(network, seen0), Room(|first|, maxResults))
  {
    var seen := seen0;
    results := first;
    ghost var goal := Fresh(network, seen0);
    for i := 0 to |network|
      invariant |results| == |first| || |first| < |results| < maxResults
      invariant results + Fresh(network[i..], seen) == first + goal
    {
      assert network[i..][1..] == network[i + 1..];
      if network[i].ctid !in seen {
        seen := seen + {network[i].ctid};
        Regroup(results, network[i], Fresh(network[i + 1..], seen));
        results := results + [network[i]];
        if |results| >= maxResults {
          CutAtLimit(first, goal, results, Fresh(network[i + 1..], seen), maxResults);
          return;
        }
      }
    }
    NothingCut(first, goal, results, maxResults);
  }

  lemma CutAtLimit(first: seq<SearchResult>, goal: seq<SearchResult>, results: seq<SearchResult>, rest: seq<SearchResult>, maxResults: int)
    requires results + rest == first + goal && |first| < |results|
    requires |results| >= maxResults && (|results| == |first| + 1 || |results| == maxResults)
    ensures results == first + AtMost(goal, Room(|first|, maxResults))
  {
    var n := |results| - |first|;
    assert goal[..n] == results[|first|..] by {
      assert forall k :: 0 <= k < n ==> goal[k] == (first + goal)[|first| + k] == (results + rest)[|first| + k];
    }
    assert results[..|first|] == (results + rest)[..|first|] == (first + goal)[..|first|] == first;
    assert AtMost(goal, n) == goal[..n];
  }

  lemma NothingCut(first: seq<SearchResult>, goal: seq<SearchResult>, results: seq<SearchResult>, maxResults: int)
    requires results == first + goal && (|results| == |first| || |results| < maxResults)
    ensures results == first + AtMost(goal, Room(|first|, maxResults))
  {
  }

  // ---- Laws ----

  lemma {:induction false} FreshCtids(results: seq<SearchResult>, seen: set<string>)
    ensures NoDups(Ctids(Fresh(results, seen)))
    ensures forall c :: c in Ctids(Fresh(results, seen)) <==> c in Ctids(results) && c !in seen
  {
    if results != [] {
      var c0, rest := results[0].ctid, results[1..];
      assert Ctids(results) == [c0] + Ctids(rest);
      if c0 in seen {
        FreshCtids(rest, seen);
      } else {
        FreshCtids(rest, seen + {c0});
        assert Ctids(Fresh(results, seen)) == [c0] + Ctids(Fresh(rest, seen + {c0}));
      }
    }
  }

  ghost function AllCtids(local: seq<SearchResult>, network: seq<SearchResult>): set<string> {
    ToSet(Ctids(local)) + ToSet(Ctids(network))
  }

  lemma CtidsConcat(a: seq<SearchResult>, b: seq<SearchResult>, n: nat)
    ensures Ctids(a + b) == Ctids(a) + Ctids(b)
    ensures Ctids(AtMost(b, n)) == AtMost(Ctids(b), n)
  {
  }

  /** No CTID twice, all local CTIDs first, nothing invented. The local ones are never cut; behind
      them at most one result exceeds the limit. */
  lemma MergedIsBounded(local: seq<SearchResult>, network: seq<SearchResult>, maxResults: int)
    ensures var r := Merged(local, network, maxResults);
      var n := |Fresh(local, {})|;
      && NoDups(Ctids(r))
      && ToSet(Ctids(r)) <= AllCtids(local, network)
      && n <= |r| && ToSet(Ctids(r[..n])) == ToSet(Ctids(local))
      && |r| <= (if maxResults > n + 1 then maxResults else n + 1)
  {
    var first := Fresh(local, {});
    var seen := ToSet(Ctids(first));
    var added, room := Fresh(network, seen), Room(|first|, maxResults);
    var more := AtMost(added, room);
    FreshCtids(local, {});
    FreshCtids(network, seen);
    PrefixNoDups(Ctids(added), room);
    CtidsConcat(first, added, room);
    CtidsConcat(first, more, room);
    NoDupsConcat(Ctids(first), Ctids(more));
    assert (first + more)[..|first|] == first;
    assert ToSet(Ctids(first)) == ToSet(Ctids(local));
    assert forall c :: c in Ctids(first + more) ==> c in Ctids(first) || c in Ctids(added);
  }

  /** Of several results for one CTID the first is kept. */
  lemma {:induction false} FreshIsFirst(results: seq<SearchResult>, seen: set<string>, r: SearchResult)
    requires r in Fresh(results, seen)
    ensures exists i :: (
      && 0 <= i < |results| && results[i] == r && r.ctid !in seen
      && forall k :: 0 <= k < i ==> results[k].ctid != r.ctid)
  {
    var c0, rest := results[0].ctid, results[1..];
    if c0 !in seen && r == results[0] {
      assert results[0] == r;
    } else {
      FreshIsFirst(rest, if c0 in seen then seen else seen + {c0}, r);
      var i :| 0 <= i < |rest| && rest[i] == r && r.ctid !in seen && r.ctid != c0
        && forall k :: 0 <= k < i ==> rest[k].ctid != r.ctid;
      assert results[i + 1] == r;
      assert forall k :: 0 < k < i + 1 ==> results[k] == rest[k - 1];
    }
  }

  /** So a merged result is the first local one with its CTID, or, when there is none, the first from
      the network. */
  lemma MergedResultIs(local: seq<SearchResult>, network: seq<SearchResult>, maxResults: int, r: SearchResult)
    requires r in Merged(local, network, maxResults)
    ensures var from := if r.ctid in Ctids(local) then local else network;
      exists i :: 0 <= i < |from| && from[i] == r && forall k :: 0 <= k < i ==> from[k].ctid != r.ctid
  {
    var first := Fresh(local, {});
    FreshCtids(local, {});
    if r in first {
      FreshIsFirst(local, {}, r);
      var i :| 0 <= i < |local| && local[i] == r && forall k :: 0 <= k < i ==> local[k].ctid != r.ctid;
      assert Ctids(local)[i] == r.ctid;
    } else {
      FreshIsFirst(network, ToSet(Ctids(first)), r);
    }
  }

  lemma SetSizes(local: seq<SearchResult>, network: seq<SearchResult>)
    ensures var l, n := ToSet(Ctids(local)), ToSet(Ctids(network));
      && |Fresh(local, {})| == |l|
      && |Fresh(network, ToSet(Ctids(Fresh(local, {}))))| == |n - l|
      && |AllCtids(local, network)| == |l| + |n - l|
  {
    var first := Fresh(local, {});
    var added := Fresh(network, ToSet(Ctids(first)));
    FreshCtids(local, {});
    FreshCtids(network, ToSet(Ctids(first)));
    NoDupsSize(Ctids(first));
    NoDupsSize(Ctids(added));
    var l, n := ToSet(Ctids(local)), ToSet(Ctids(network));
    assert ToSet(Ctids(first)) == l;
    assert ToSet(Ctids(added)) == n - l;
    assert l + n == l + (n - l);
  }

  /** The merge keeps every CTID exactly when the new network CTIDs fit into the room. */
  lemma MergedIsUnionIff(local: seq<SearchResult>, network: seq<SearchResult>, maxResults: int)
    ensures ToSet(Ctids(Merged(local, network, maxResults))) == AllCtids(local, network)
      <==> var l, n := ToSet(Ctids(local)), ToSet(Ctids(network));
        |n - l| <= if |l| + 1 >= maxResults then 1 else maxResults - |l|
  {
    SetSizes(local, network);
    MergedIsBounded(local, network, maxResults);
    var r := Merged(local, network, maxResults);
    NoDupsSize(Ctids(r));
    if |r| == |AllCtids(local, network)| {
      SameSizeSubset(ToSet(Ctids(r)), AllCtids(local, network));
    }
  }

  /** The merge keeps the limit exactly when the distinct local CTIDs are below it, or just at it
      with no new network CTID. */
  lemma MergeKeepsLimitIff(local: seq<SearchResult>, network: seq<SearchResult>, maxResults: int)
    ensures var l, n := ToSet(Ctids(local)), ToSet(Ctids(network));
      |Merged(local, network, maxResults)| <= maxResults <==> |l| < maxResults || (|l| == maxResults && n <= l)
  {
    SetSizes(local, network);
    var l, n := ToSet(Ctids(local)), ToSet(Ctids(network));
    if n <= l {
      assert n - l == {};
    } else {
      var c :| c in n && c !in l;
      assert c in n - l;
    }
  }

  /** Local results alone exceed every limit by any number: they come back uncut. */
  lemma LocalResultsAreNotCut(local: seq<SearchResult>, maxResults: int)
    requires NoDups(Ctids(local))
    ensures Merged(local, [], maxResults) == local
  {
    NothingSeenTwice(local, {});
    assert local + [] == local;
  }

  lemma {:induction false} NothingSeenTwice(results: seq<SearchResult>, seen: set<string>)
    requires NoDups(Ctids(results)) && forall c :: c in Ctids(results) ==> c !in seen
    ensures Fresh(results, seen) == results
  {
    if results != [] {
      var c0, rest := results[0].ctid, results[1..];
      assert Ctids(results) == [c0] + Ctids(rest);
      NothingSeenTwice(rest, seen + {c0});
    }
  }

  /** In particular, when all distinct CTIDs together fit into maxResults. */
  lemma MergedIsUnionWhenAllFit(local: seq<SearchResult>, network: seq<SearchResult>, maxResults: int)
    requires |AllCtids(local, network)| <= maxResults
    ensures ToSet(Ctids(Merged(local, network, maxResults))) == AllCtids(local, network)
  {
    var l, n := ToSet(Ctids(local)), ToSet(Ctids(network));
    assert AllCtids(local, network) == l + (n - l);
    assert |l + (n - l)| == |l| + |n - l|;
    MergedIsUnionIff(local, network, maxResults);
  }
}
