/** From a search to the file: what a fetch of a found CTID brings in a network of nodes. */
module Fetching {
  import opened Options
  import opened Text
  import opened Library
  import opened Node
  import opened Runs
  import opened Providers
  import opened Merge
  import opened Dht
  import opened Search
  import opened Discovery
  import opened Network
  import opened Frames
  import opened Transfer

  /** The content of each node's files, by path. */
  type Files = map<string, string -> seq<byte>>

  /** What an attempt brings comes from the node that it reaches, as it serves at some moment. */
  ghost predicate ServedDuring(json: Json, worlds: Worlds, run: seq<NetEvent>, files: Files, utf8: string -> seq<byte>,
                               ctid: string, id: string, attempt: Attempt) {
    id in worlds && id in files
    && exists i: nat :: i <= |run| && SentBy(json, NodeState(worlds, run, i, id).store, files[id], utf8, ctid, attempt)
  }

  /** These bytes start a file whose CTID, by decode-and-hash, is this one. */
  ghost predicate IsPartOfContent(worlds: Worlds, files: Files, ctid: string, id: string, path: string, bytes: seq<byte>) {
    && id in worlds && id in files
    && worlds[id].ctidOf(path) == Some(ctid)
    && bytes <= files[id](path)
  }

  lemma TrackPathHasCtid(worlds: Worlds, run: seq<NetEvent>, i: nat, id: string, track: string)
    requires ValidWorlds(worlds) && id in worlds && i <= |run|
    requires track in NodeState(worlds, run, i, id).store && NodeState(worlds, run, i, id).store[track].ctid != ""
    ensures var t := NodeState(worlds, run, i, id).store[track]; worlds[id].ctidOf(t.path) == Some(t.ctid)
  {
    NodeRuns(worlds, run[..i], id);
    RunsKeepOk(worlds[id], StepsOf(run[..i], id));
  }

  /** Whatever run of whatever network, and wherever streams were cut: a file fetched for a CTID is
      a part of a file that has this CTID. */
  lemma FetchedFileHasTheCtid(json: Json, worlds: Worlds, run: seq<NetEvent>, files: Files, utf8: string -> seq<byte>,
                              ctid: string, providers: seq<string>, attempt: (nat, string) -> Attempt, k: nat, file: seq<byte>)
    requires Faithful(json) && ValidWorlds(worlds) && ctid != ""
    requires DeliveredBy(json, providers, attempt, k, file)
    requires ServedDuring(json, worlds, run, files, utf8, ctid, providers[k], attempt(k, providers[k]))
    ensures file == [] || exists path :: IsPartOfContent(worlds, files, ctid, providers[k], path, file)
  {
    var id := providers[k];
    var i: nat :| i <= |run| && SentBy(json, NodeState(worlds, run, i, id).store, files[id], utf8, ctid, attempt(k, id));
    var store := NodeState(worlds, run, i, id).store;
    ReplyIsOfTrack(json, store, files[id], utf8, ctid, attempt(k, id));
    if file != [] {
      var track :| track in store && store[track].ctid == ctid
        && file <= files[id](store[track].path);
      TrackPathHasCtid(worlds, run, i, id, track);
      assert IsPartOfContent(worlds, files, ctid, id, store[track].path, file);
    }
  }

  // ---- Unbroken streams ----

  /** The whole reply arrived, and a file was read to its end with full reads. */
  ghost predicate SentWhole(json: Json, store: Tracks, files: string -> seq<byte>, utf8: string -> seq<byte>, ctid: string,
                            attempt: Attempt) {
    attempt.Streamed? ==>
      && !attempt.reset
      && exists src ::
        && Serves(store, files, utf8, ctid, src) && ValidSource(src) && attempt.bytes == SentBytes(json, src)
        && (src.Opened? ==> src.schedule.failure.None? && FullReads(src.schedule.sizes))
  }

  ghost predicate WholeDuring(json: Json, worlds: Worlds, run: seq<NetEvent>, files: Files, utf8: string -> seq<byte>,
                              ctid: string, id: string, attempt: Attempt) {
    id in worlds && id in files
    && exists i: nat :: i <= |run| && SentWhole(json, NodeState(worlds, run, i, id).store, files[id], utf8, ctid, attempt)
  }

  /** A whole error reply fails the attempt, a whole file arrives. */
  lemma WholeReply(json: Json, src: Source)
    requires Faithful(json) && ValidSource(src)
    requires src.Opened? ==> src.schedule.failure.None? && FullReads(src.schedule.sizes)
    ensures Received(json, SentBytes(json, src), false) == if src.Opened? then (src.content, true) else ([], false)
  {
    if src.Opened? {
      TransferRoundTrip(json, src, false);
    } else {
      WholeErrorReply(json, src, false);
    }
  }

  lemma WholeReplyIsOfTrack(json: Json, store: Tracks, files: string -> seq<byte>, utf8: string -> seq<byte>, ctid: string,
                            attempt: Attempt) returns (track: string)
    requires Faithful(json) && SentWhole(json, store, files, utf8, ctid, attempt) && Delivers(json, attempt)
    ensures track in store && store[track].ctid == ctid
    ensures Received(json, attempt.bytes, attempt.reset).0 == files(store[track].path)
  {
    var src :| Serves(store, files, utf8, ctid, src) && ValidSource(src) && attempt.bytes == SentBytes(json, src)
      && (src.Opened? ==> src.schedule.failure.None? && FullReads(src.schedule.sizes));
    WholeReply(json, src);
    track :| track in store && store[track].ctid == ctid && src.content == files(store[track].path);
  }

  /** When the streams are not broken, a fetched file is the whole of a file that has the CTID. */
  lemma FetchedFileIsWhole(json: Json, worlds: Worlds, run: seq<NetEvent>, files: Files, utf8: string -> seq<byte>,
                           ctid: string, providers: seq<string>, attempt: (nat, string) -> Attempt, k: nat, file: seq<byte>)
    requires Faithful(json) && ValidWorlds(worlds) && ctid != ""
    requires DeliveredBy(json, providers, attempt, k, file)
    requires WholeDuring(json, worlds, run, files, utf8, ctid, providers[k], attempt(k, providers[k]))
    ensures exists path ::
      IsPartOfContent(worlds, files, ctid, providers[k], path, file) && file == files[providers[k]](path)
  {
    var id := providers[k];
    var i: nat :| i <= |run| && SentWhole(json, NodeState(worlds, run, i, id).store, files[id], utf8, ctid, attempt(k, id));
    var store := NodeState(worlds, run, i, id).store;
    var track := WholeReplyIsOfTrack(json, store, files[id], utf8, ctid, attempt(k, id));
    TrackPathHasCtid(worlds, run, i, id, track);
    assert IsPartOfContent(worlds, files, ctid, id, store[track].path, file);
  }

  // ---- What is found can be fetched ----

  lemma NodeGrows(worlds: Worlds, run: seq<NetEvent>, i: nat, j: nat, id: string)
    requires ValidWorlds(worlds) && id in worlds && i <= j <= |run|
    ensures Grows(NodeState(worlds, run, i, id).store, NodeState(worlds, run, j, id).store)
    ensures NodeState(worlds, run, i, id).marks <= NodeState(worlds, run, j, id).marks
    ensures NodeState(worlds, run, i, id).records <= NodeState(worlds, run, j, id).records
  {
    NodeRuns(worlds, run[..i], id);
    NodeRuns(worlds, run[..j], id);
    assert run[..j][..i] == run[..i];
    StepsOfPrefix(run[..j], id, i);
    var steps, k := StepsOf(run[..j], id), |StepsOf(run[..i], id)|;
    assert steps[..k] == StepsOf(run[..i], id);
    RunGrows(worlds[id], steps, k);
  }

  /** A CTID announced under a token has its node among the providers from then on, unless its own
      announcement was refused before, while the track was being processed, and not taken since. */
  lemma AnnouncerIsProvider(worlds: Worlds, run: seq<NetEvent>, i: nat, j: nat, remote: Remote, id: string, m: Mark)
    requires ValidWorlds(worlds) && id in worlds && i <= j <= |run|
    requires m in NodeState(worlds, run, i, id).marks
    requires m.ctid !in RefusedCtids(worlds[id], StepsOf(run[..i], id)) || CidOf(m.ctid) in NodeState(worlds, run, i, id).records
    requires YieldsProviders(worlds, run, j, remote, CidOf(m.ctid), 12)
    ensures IsDigest(m.ctid) && id in remote.providers(CidOf(m.ctid))
  {
    NodeRuns(worlds, run[..i], id);
    RunsKeepOk(worlds[id], StepsOf(run[..i], id));
    AnnouncedIsProvided(worlds[id], StepsOf(run[..i], id), m);
    MarkIsDigest(worlds[id], NodeState(worlds, run, i, id), m);
    NodeGrows(worlds, run, i, j, id);
    assert IsProvider(worlds, run, j, CidOf(m.ctid), id);
  }

  /** The node is reached, the whole reply arrived, and opening and reading the file did not fail if
      the node has a track with the CTID. */
  ghost predicate SentIfHeld(json: Json, store: Tracks, files: string -> seq<byte>, utf8: string -> seq<byte>, ctid: string,
                             attempt: Attempt) {
    && attempt.Streamed? && !attempt.reset
    && exists src ::
      && Serves(store, files, utf8, ctid, src) && ValidSource(src) && attempt.bytes == SentBytes(json, src)
      && (HasTrack(store, ctid) ==> src.Opened?)
      && (src.Opened? ==> src.schedule.failure.None? && FullReads(src.schedule.sizes))
  }

  lemma HolderDelivers(json: Json, store: Tracks, files: string -> seq<byte>, utf8: string -> seq<byte>, ctid: string,
                       attempt: Attempt)
    requires Faithful(json) && HasTrack(store, ctid) && SentIfHeld(json, store, files, utf8, ctid, attempt)
    ensures Delivers(json, attempt)
  {
    var src :| Serves(store, files, utf8, ctid, src) && ValidSource(src) && attempt.bytes == SentBytes(json, src)
      && (HasTrack(store, ctid) ==> src.Opened?)
      && (src.Opened? ==> src.schedule.failure.None? && FullReads(src.schedule.sizes));
    WholeReply(json, src);
  }

  /** So a fetch of that CTID succeeds at any later moment when the lookup yields the providers, up
      to twelve, the node is reached, and it has kept the file. */
  lemma AnnouncedIsFetchable(json: Json, worlds: Worlds, run: seq<NetEvent>, files: Files, utf8: string -> seq<byte>,
                             remote: Remote, attempt: (nat, string) -> Attempt, i: nat, j: nat, id: string, m: Mark)
    requires Faithful(json) && ValidWorlds(worlds) && id in worlds && id in files && i <= j <= |run|
    requires m in NodeState(worlds, run, i, id).marks
    requires m.ctid !in RefusedCtids(worlds[id], StepsOf(run[..i], id)) || CidOf(m.ctid) in NodeState(worlds, run, i, id).records
    requires YieldsProviders(worlds, run, j, remote, CidOf(m.ctid), 12)
    requires forall k :: SentIfHeld(json, NodeState(worlds, run, j, id).store, files[id], utf8, m.ctid, attempt(k, id))
    ensures var peers := remote.providers(CidOf(m.ctid));
      IsDigest(m.ctid) && exists i :: 0 <= i < 12 && i < |peers| && Delivers(json, attempt(i, peers[i]))
  {
    AnnouncerIsProvider(worlds, run, i, j, remote, id, m);
    var peers := remote.providers(CidOf(m.ctid));
    var k :| 0 <= k < |peers| && peers[k] == id;
    KeepsTrack(worlds, run, i, j, id, m);
    HolderDelivers(json, NodeState(worlds, run, j, id).store, files[id], utf8, m.ctid, attempt(k, id));
  }

  lemma KeepsTrack(worlds: Worlds, run: seq<NetEvent>, i: nat, j: nat, id: string, m: Mark)
    requires ValidWorlds(worlds) && id in worlds && i <= j <= |run|
    requires m in NodeState(worlds, run, i, id).marks
    ensures HasTrack(NodeState(worlds, run, j, id).store, m.ctid)
  {
    NodeGrows(worlds, run, i, j, id);
    NodeRuns(worlds, run[..j], id);
    RunsKeepOk(worlds[id], StepsOf(run[..j], id));
    MarkedTrackIsStored(worlds[id], NodeState(worlds, run, j, id), m);
  }

  lemma MarkedTrackIsStored(w: World, s: State, m: Mark)
    requires StateOk(w, s) && m in s.marks
    ensures HasTrack(s.store, m.ctid)
  {
    assert HasTokenTrack(w, s.store, m.token, m.ctid);
  }

  /** From end to end: a node announced a track under a token. A search of any node with the token
      returns the CTID, a fetch of it at the end of the run succeeds, and any file so fetched is
      the whole of a file that has this CTID. The conditions: the announcement is made before the
      search looks it up and indexed when the node replies, the CTID was not refused; lookups yield
      the providers; the node is reached and its file is there; replies arrive whole; and all CTIDs
      that can come up fit the limit. */
  lemma SearchThenFetch(json: Json, worlds: Worlds, run: seq<NetEvent>, files: Files, utf8: string -> seq<byte>,
                        self: string, view: View, remote: Remote, query: string, maxResults: int,
                        results: seq<SearchResult>, fits: set<string>, id: string, at: Moments, m: Mark,
                        attempt: (nat, string) -> Attempt)
    requires Faithful(json) && ValidWorlds(worlds) && self in worlds && id in worlds && id in files
    requires at.found <= at.asked <= at.scanned <= |run|
    requires IsSearchResult(worlds[self], view, remote, query, maxResults, results)
    requires AllFit(worlds[self], view, remote, Tokens(worlds[self].low, query), maxResults, fits)
    requires m.token in Tokens(worlds[self].low, query)
    requires m in NodeState(worlds, run, at.found, id).marks
    requires m in NodeState(worlds, run, at.asked, id).announced && !OwedAt(worlds, run, at.asked, id, m)
    requires m.ctid !in RefusedCtids(worlds[id], StepsOf(run[..at.found], id))
      || CidOf(m.ctid) in NodeState(worlds, run, at.found, id).records
    requires YieldsProviders(worlds, run, at.found, remote, CidOf(worlds[self].hash(m.token)), 10)
    requires YieldsProviders(worlds, run, |run|, remote, CidOf(m.ctid), 12)
    requires RepliedDuring(worlds, run, at.asked, at.scanned, remote, id, m.token)
    requires forall k :: SentIfHeld(json, NodeState(worlds, run, |run|, id).store, files[id], utf8, m.ctid, attempt(k, id))
    requires forall k, p :: attempt(k, p).Streamed? ==> WholeDuring(json, worlds, run, files, utf8, m.ctid, p, attempt(k, p))
    ensures m.ctid in Ctids(results)
    ensures var peers := remote.providers(CidOf(m.ctid));
      IsDigest(m.ctid) && exists i :: 0 <= i < 12 && i < |peers| && Delivers(json, attempt(i, peers[i]))
    ensures forall k, file :: DeliveredBy(json, remote.providers(CidOf(m.ctid)), attempt, k, file) ==>
      exists p, path :: IsPartOfContent(worlds, files, m.ctid, p, path, file) && file == files[p](path)
  {
    EverySearchFindsAnnouncedTracks(worlds, run, self, view, remote, query, maxResults, results, fits, id, at, m);
    AnnouncedIsFetchable(json, worlds, run, files, utf8, remote, attempt, at.found, |run|, id, m);
    KeepsTrack(worlds, run, at.found, |run|, id, m);
    var providers := remote.providers(CidOf(m.ctid));
    forall k, file | DeliveredBy(json, providers, attempt, k, file)
      ensures exists p, path :: IsPartOfContent(worlds, files, m.ctid, p, path, file) && file == files[p](path)
    {
      FetchedFileIsWhole(json, worlds, run, files, utf8, m.ctid, providers, attempt, k, file);
    }
  }
}
