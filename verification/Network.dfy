/** A network of nodes: runs in which the nodes take steps in any order, and searches in the
    states that such runs reach. */
module Network {
  import opened Sequences
  import opened Text
  import opened TokenIndex
  import opened Node
  import opened Runs
  import opened Merge
  import opened Dht
  import opened Search
  import opened Discovery

  /** A step of one node. */
  datatype NetEvent = NetEvent(id: string, event: Event)

  /** The files of each node; Unicode and hash functions are common to all. */
  type Worlds = map<string, World>

  ghost predicate ValidWorlds(worlds: Worlds) {
    && (forall id :: id in worlds ==> ValidWorld(worlds[id]))
    && (forall a, b :: a in worlds && b in worlds ==> worlds[a].low == worlds[b].low && worlds[a].hash == worlds[b].hash)
  }

  /** The nodes after a run of the network. */
  ghost function NetAfter(worlds: Worlds, run: seq<NetEvent>): map<string, System> {
    if run == [] then map id | id in worlds :: System(NEW_STATE, map[])
    else
      var before := NetAfter(worlds, run[..|run| - 1]);
      var last := run[|run| - 1];
      if last.id in before && last.id in worlds then
        before[last.id := Apply(worlds[last.id], before[last.id], last.event)]
      else before
  }

  /** The steps of one node. */
  function StepsOf(run: seq<NetEvent>, id: string): seq<Event> {
    if run == [] then []
    else
      var last := run[|run| - 1];
      StepsOf(run[..|run| - 1], id) + if last.id == id then [last.event] else []
  }

  /** Each node's part in a run of the network is a run of that node. */
  lemma {:induction false} NodeRuns(worlds: Worlds, run: seq<NetEvent>, id: string)
    requires id in worlds
    ensures id in NetAfter(worlds, run)
    ensures NetAfter(worlds, run)[id] == After(worlds[id], StepsOf(run, id))
  {
    if run != [] {
      var front, last := run[..|run| - 1], run[|run| - 1];
      NodeRuns(worlds, front, id);
      if last.id == id {
        AfterSnoc(worlds[id], StepsOf(front, id), last.event);
      } else {
        assert StepsOf(run, id) == StepsOf(front, id);
        OthersStay(worlds, run, id);
      }
    }
  }

  lemma OthersStay(worlds: Worlds, run: seq<NetEvent>, id: string)
    requires run != [] && run[|run| - 1].id != id && id in NetAfter(worlds, run[..|run| - 1])
    ensures id in NetAfter(worlds, run)
    ensures NetAfter(worlds, run)[id] == NetAfter(worlds, run[..|run| - 1])[id]
  {
  }

  lemma {:induction false} StepsOfPrefix(run: seq<NetEvent>, id: string, i: nat)
    requires i <= |run|
    ensures StepsOf(run[..i], id) <= StepsOf(run, id)
  {
    if i == |run| {
      assert run[..i] == run;
    } else {
      StepsOfPrefix(run[..|run| - 1], id, i);
      assert run[..|run| - 1][..i] == run[..i];
    }
  }

  /** The node with its part in the run. */
  function NodeAt(worlds: Worlds, run: seq<NetEvent>, id: string): Peer
    requires id in worlds
  {
    Peer(worlds[id], StepsOf(run, id))
  }

  /** How far the node has come after the first i steps of the network. */
  function Local(run: seq<NetEvent>, id: string, i: nat): nat
    requires i <= |run|
  {
    |StepsOf(run[..i], id)|
  }

  /** A node's state in the middle of its part is its state in the middle of the run. */
  lemma LocalState(worlds: Worlds, run: seq<NetEvent>, id: string, i: nat)
    requires id in worlds && i <= |run|
    ensures Local(run, id, i) <= |StepsOf(run, id)|
    ensures id in NetAfter(worlds, run[..i])
    ensures SystemAt(NodeAt(worlds, run, id), Local(run, id, i)) == NetAfter(worlds, run[..i])[id]
  {
    StepsOfPrefix(run, id, i);
    assert StepsOf(run, id)[..Local(run, id, i)] == StepsOf(run[..i], id);
    NodeRuns(worlds, run[..i], id);
  }

  lemma LocalIsMonotone(run: seq<NetEvent>, id: string, i: nat, j: nat)
    requires i <= j <= |run|
    ensures Local(run, id, i) <= Local(run, id, j)
  {
    assert run[..j][..i] == run[..i];
    StepsOfPrefix(run[..j], id, i);
  }

  /** A node after the first i steps of the network. */
  ghost function NodeState(worlds: Worlds, run: seq<NetEvent>, i: nat, id: string): State
    requires i <= |run| && id in worlds
  {
    NodeRuns(worlds, run[..i], id);
    NetAfter(worlds, run[..i])[id].state
  }

  /** An operation of the node still owes the index update of this announcement. */
  ghost predicate OwedAt(worlds: Worlds, run: seq<NetEvent>, i: nat, id: string, m: Mark)
    requires i <= |run| && id in worlds
  {
    NodeRuns(worlds, run[..i], id);
    Owed(worlds[id], NetAfter(worlds, run[..i])[id], m)
  }

  /** The nodes that have a record for the key at that moment: the DHT's map from key to peers. */
  ghost predicate IsProvider(worlds: Worlds, run: seq<NetEvent>, i: nat, key: string, id: string)
    requires i <= |run|
  {
    id in worlds && key in NodeState(worlds, run, i, id).records
  }

  /** Lookup works for the key at that moment: it yields the providers, and there are at most
      max. */
  ghost predicate YieldsProviders(worlds: Worlds, run: seq<NetEvent>, i: nat, remote: Remote, key: string, max: nat)
    requires i <= |run|
  {
    && |remote.providers(key)| <= max
    && forall id :: id in remote.providers(key) <==> IsProvider(worlds, run, i, key, id)
  }

  /** The node replies as its handler does, which reads the index first and then the store. */
  ghost predicate RepliedDuring(worlds: Worlds, run: seq<NetEvent>, asked: nat, scanned: nat, remote: Remote,
                                id: string, token: string)
    requires asked <= scanned <= |run| && id in worlds
  {
    && remote.query(id, token).Some?
    && IsReply(NodeState(worlds, run, scanned, id).store, Entry(NodeState(worlds, run, asked, id).index, token), token,
               remote.query(id, token).value)
  }

  /** Who replies to a query replies so, at some moments; unknown peers do not reply. */
  ghost predicate RepliesHonestly(worlds: Worlds, run: seq<NetEvent>, remote: Remote) {
    forall id, t :: remote.query(id, t).Some? ==>
      id in worlds
      && exists asked: nat, scanned: nat :: asked <= scanned <= |run| && RepliedDuring(worlds, run, asked, scanned, remote, id, t)
  }

  /** What a search of the node reads, in this order. */
  ghost predicate SeenDuring(worlds: Worlds, run: seq<NetEvent>, self: string, view: View)
    requires self in worlds
  {
    exists a: nat, b: nat, c: nat :: (
      && a <= b <= c <= |run|
      && view == View(NodeState(worlds, run, a, self).store, NodeState(worlds, run, b, self).index,
                      NodeState(worlds, run, c, self).store))
  }

  function LocalMoments(run: seq<NetEvent>, id: string, at: Moments): Moments
    requires at.found <= |run| && at.asked <= |run| && at.scanned <= |run|
  {
    Moments(Local(run, id, at.found), Local(run, id, at.asked), Local(run, id, at.scanned))
  }

  lemma LocalMomentsValid(worlds: Worlds, run: seq<NetEvent>, id: string, at: Moments)
    requires id in worlds && at.found <= at.asked <= at.scanned <= |run|
    ensures ValidMoments(NodeAt(worlds, run, id), LocalMoments(run, id, at))
  {
    LocalIsMonotone(run, id, at.found, at.asked);
    LocalIsMonotone(run, id, at.asked, at.scanned);
    LocalState(worlds, run, id, at.scanned);
  }

  /** Discovery in every run of every network: a token that some node announced for a CTID before
      the lookup, and of which it owes no index update when it reads its index, leads every search
      of every node to that CTID. */
  lemma EverySearchFindsAnnouncedTracks(worlds: Worlds, run: seq<NetEvent>, self: string, view: View, remote: Remote,
                                        query: string, maxResults: int, results: seq<SearchResult>, fits: set<string>,
                                        id: string, at: Moments, m: Mark)
    requires ValidWorlds(worlds) && self in worlds && id in worlds && at.found <= at.asked <= at.scanned <= |run|
    requires IsSearchResult(worlds[self], view, remote, query, maxResults, results)
    requires AllFit(worlds[self], view, remote, Tokens(worlds[self].low, query), maxResults, fits)
    requires m.token in Tokens(worlds[self].low, query)
    requires m in NodeState(worlds, run, at.found, id).marks
    requires m in NodeState(worlds, run, at.asked, id).announced && !OwedAt(worlds, run, at.asked, id, m)
    requires YieldsProviders(worlds, run, at.found, remote, CidOf(worlds[self].hash(m.token)), 10)
    requires RepliedDuring(worlds, run, at.asked, at.scanned, remote, id, m.token)
    ensures m.ctid in Ctids(results)
  {
    LocalMomentsValid(worlds, run, id, at);
    LocalState(worlds, run, id, at.found);
    LocalState(worlds, run, id, at.asked);
    LocalState(worlds, run, id, at.scanned);
    DiscoveryIsComplete(worlds[self], view, remote, query, maxResults, results, fits,
                        id, NodeAt(worlds, run, id), LocalMoments(run, id, at), m);
  }

  /** And no search finds anything else than own tracks and recognised tracks of some node. */
  lemma EverySearchIsSound(worlds: Worlds, run: seq<NetEvent>, self: string, view: View, remote: Remote, query: string,
                           maxResults: int, results: seq<SearchResult>)
    requires ValidWorlds(worlds) && self in worlds && RepliesHonestly(worlds, run, remote)
    requires SeenDuring(worlds, run, self, view)
    requires IsSearchResult(worlds[self], view, remote, query, maxResults, results)
    ensures NoDups(Ctids(results))
    ensures forall r :: r in results ==>
      || (exists id :: LocalMatch(view.local, Tokens(worlds[self].low, query), id) && Shows(r, view.local[id]))
      || (exists id :: id in worlds && HasTrack(StateOf(NodeAt(worlds, run, id)).store, r.ctid))
  {
    var peers := map id | id in worlds :: NodeAt(worlds, run, id);
    SeenIsView(worlds, run, self, view);
    forall id, t | remote.query(id, t).Some?
      ensures id in peers && Replied(remote, id, peers[id], t)
    {
      HonestReply(worlds, run, remote, id, t);
    }
    SearchIsSound(NodeAt(worlds, run, self), view, remote, peers, query, maxResults, results);
  }

  lemma SeenIsView(worlds: Worlds, run: seq<NetEvent>, self: string, view: View)
    requires self in worlds && SeenDuring(worlds, run, self, view)
    ensures IsView(NodeAt(worlds, run, self), view)
  {
    var a: nat, b: nat, c: nat :| a <= b <= c <= |run|
      && view == View(NodeState(worlds, run, a, self).store, NodeState(worlds, run, b, self).index,
                      NodeState(worlds, run, c, self).store);
    LocalMomentsValid(worlds, run, self, Moments(a, b, c));
    LocalState(worlds, run, self, a);
    LocalState(worlds, run, self, b);
    LocalState(worlds, run, self, c);
    var peer := NodeAt(worlds, run, self);
    assert view == View(StateAt(peer, Local(run, self, a)).store, StateAt(peer, Local(run, self, b)).index,
                        StateAt(peer, Local(run, self, c)).store);
  }

  lemma HonestReply(worlds: Worlds, run: seq<NetEvent>, remote: Remote, id: string, t: string)
    requires RepliesHonestly(worlds, run, remote) && remote.query(id, t).Some?
    ensures id in worlds && Replied(remote, id, NodeAt(worlds, run, id), t)
  {
    var asked: nat, scanned: nat :| asked <= scanned <= |run| && RepliedDuring(worlds, run, asked, scanned, remote, id, t);
    var at := Moments(asked, asked, scanned);
    LocalMomentsValid(worlds, run, id, at);
    LocalState(worlds, run, id, asked);
    LocalState(worlds, run, id, scanned);
    assert RepliedAt(remote, id, NodeAt(worlds, run, id), LocalMoments(run, id, at), t);
  }
}
