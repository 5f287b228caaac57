/** One node: the atomic actions that its operations are made of. Every shared-state access of
    the daemon (store write, index update, DHT announcement) is one action, so operations
    running at the same time interleave between any two of them. */
module Node {
  import opened Options
  import opened Sequences
  import opened Text
  import opened Library
  import opened TokenIndex

  /** What the model leaves to the outside: Unicode lower-casing, decode-and-hash of a file
      (None when it fails) and the hash of a token. Both hashes are hex SHA-256. */
  datatype World = World(low: Lowering, ctidOf: string -> Option<string>, hash: string -> string)

  ghost predicate ValidWorld(w: World) {
    && (forall path :: w.ctidOf(path).Some? ==> IsDigest(w.ctidOf(path).value))
    && (forall token :: IsDigest(w.hash(token)))
  }

  predicate IsHexDigit(c: char) {
    '0' <= c <= '9' || 'a' <= c <= 'f' || 'A' <= c <= 'F'
  }

  /** 32 bytes in hex: what ctidToCID and tokenHashToCID accept. */
  predicate IsDigest(s: string) {
    |s| == 64 && forall i :: 0 <= i < |s| ==> IsHexDigit(s[i])
  }

  /** The DHT key of a digest. Hex is read case-insensitively, and CTIDs and token hashes
      share one key space. */
  function CidOf(digest: string): string {
    MapText(AsciiLower, digest)
  }

  /** The value of a hex digit, of either case. */
  function HexValue(c: char): int {
    if '0' <= c <= '9' then c as int - 48
    else if 'a' <= c <= 'f' then c as int - 87
    else if 'A' <= c <= 'F' then c as int - 55
    else -1
  }

  /** A digest is the hex text of 32 bytes. */
  lemma DigestIsHexOf32Bytes(s: string)
    ensures IsDigest(s) <==> |s| == 2 * 32 && forall i :: 0 <= i < |s| ==> 0 <= HexValue(s[i]) < 16
  {
  }

  /** Two digests have the same DHT key exactly when they stand for the same bytes. */
  lemma SameKeyIffSameBytes(a: string, b: string)
    requires IsDigest(a) && IsDigest(b)
    ensures CidOf(a) == CidOf(b) <==> forall i :: 0 <= i < 64 ==> HexValue(a[i]) == HexValue(b[i])
  {
    forall i | 0 <= i < 64
      ensures CidOf(a)[i] == CidOf(b)[i] <==> HexValue(a[i]) == HexValue(b[i])
    {
      assert IsHexDigit(a[i]) && IsHexDigit(b[i]);
    }
    assert CidOf(a) == CidOf(b) <==> forall i :: 0 <= i < 64 ==> CidOf(a)[i] == CidOf(b)[i];
  }

  /** The entries of providedKeys: "ctid:" + ctid and "token:" + hash. */
  datatype Key = CtidKey(ctid: string) | TokenKey(hash: string)

  /** A token announced on behalf of a CTID. */
  datatype Mark = Mark(token: string, ctid: string)

  /** announced: history of successful token announcements since the node started.
      records, marks: the provider records it ever published and the token announcements
      behind them, which outlive a restart. */
  datatype State = State(
    store: Tracks,
    index: Index,
    provided: set<Key>,
    announced: set<Mark>,
    records: set<string>,
    marks: set<Mark>)

  const NEW_STATE := State(map[], map[], {}, {}, {}, {})

  datatype OnFailure = Ignore | SkipTrack | Abort

  /** Reload is ShareTrack's second read of the store, after it processed the track. */
  datatype Action =
    | Save(track: Track)
    | AnnounceCtid(track: Track, onFailure: OnFailure)
    | AnnounceToken(track: Track, token: string)
    | UpdateIndex(track: Track)
    | Reload(id: string, track: Track)

  /** What an operation in progress has still to do. */
  type Plan = seq<Action>

  // ---- The operations ----

  function TokenActions(track: Track, tokens: seq<string>): Plan {
    if tokens == [] then [] else [AnnounceToken(track, tokens[0])] + TokenActions(track, tokens[1..])
  }

  function AnnounceTokens(w: World, track: Track): Plan {
    TokenActions(track, Tokens(w.low, track.title + " " + track.artist))
  }

  /** onTrackProcessed. */
  function HookPlan(w: World, track: Track): Plan {
    if !Indexable(track) then [] else [UpdateIndex(track)] + AnnounceTokens(w, track)
  }

  /** A recognised track is announced; a failure is only logged. */
  function CtidPart(track: Track): Plan {
    if track.recognized then [AnnounceCtid(track, Ignore)] else []
  }

  /** ProcessTrack of the CTR service, with its callback. */
  function ProcessPlan(w: World, track: Track): Plan {
    match w.ctidOf(track.path)
    case None => []
    case Some(ctid) =>
      var done := track.(ctid := ctid);
      [Save(done)] + (CtidPart(done) + HookPlan(w, done))
  }

  /** ShareTrack from the point where the track has a CTID or fails. */
  function ShareTail(w: World, track: Track): Plan {
    if track.ctid == "" || !track.recognized then []
    else [AnnounceCtid(track, Abort)] + AnnounceTokens(w, track) + [UpdateIndex(track)]
  }

  function SharePlan(w: World, store: Tracks, id: string): Plan {
    if id !in store then []
    else if store[id].ctid != "" then ShareTail(w, store[id])
    else if w.ctidOf(store[id].path).None? then []
    else ProcessPlan(w, store[id]) + [Reload(id, store[id].(ctid := w.ctidOf(store[id].path).value))]
  }

  function AnnounceOne(w: World, track: Track): Plan {
    if !Indexable(track) then []
    else [UpdateIndex(track)] + ([AnnounceCtid(track, SkipTrack)] + AnnounceTokens(w, track))
  }

  /** announceAllTracks on a listing of the store. */
  function AnnouncePlan(w: World, listing: seq<Track>): Plan {
    if listing == [] then [] else AnnounceOne(w, listing[0]) + AnnouncePlan(w, listing[1..])
  }

  // ---- One action ----

  function DropTokens(plan: Plan): (r: Plan)
    ensures |r| <= |plan|
  {
    if plan != [] && plan[0].AnnounceToken? then DropTokens(plan[1..]) else plan
  }

  /** Executes the first action. ok is the environment's answer: whether the store took the
      write or the DHT the record. */
  function Step(w: World, s: State, plan: Plan, ok: bool): (State, Plan)
    requires plan != []
  {
    var rest := plan[1..];
    match plan[0]
    case Save(track) =>
      if ok then (s.(store := s.store[track.id := track]), rest) else (s, [])
    case AnnounceCtid(track, onFailure) =>
      if ok && IsDigest(track.ctid) then
        (s.(provided := s.provided + {CtidKey(track.ctid)}, records := s.records + {CidOf(track.ctid)}), rest)
      else
        (s, match onFailure case Ignore => rest case SkipTrack => DropTokens(rest) case Abort => [])
    case AnnounceToken(track, token) =>
      if ok && IsDigest(w.hash(token)) then
        var mark := Mark(token, track.ctid);
        (s.(provided := s.provided + {TokenKey(w.hash(token))},
            records := s.records + {CidOf(w.hash(token))},
            announced := s.announced + {mark},
            marks := s.marks + {mark}), rest)
      else (s, rest)
    case UpdateIndex(track) =>
      (s.(index := Updated(w.low, s.index, track)), rest)
    case Reload(id, track) =>
      (s, ShareTail(w, if id in s.store then s.store[id] else track) + rest)
  }

  /** An operation running alone, one answer per action. */
  function Exec(w: World, s: State, plan: Plan, oks: seq<bool>): (State, Plan)
    decreases |oks|
  {
    if oks == [] || plan == [] then (s, plan)
    else var (s', plan') := Step(w, s, plan, oks[0]); Exec(w, s', plan', oks[1..])
  }

  lemma ExecCons(w: World, s: State, plan: Plan, ok: bool, oks: seq<bool>)
    requires plan != []
    ensures Exec(w, s, plan, [ok] + oks) == Exec(w, Step(w, s, plan, ok).0, Step(w, s, plan, ok).1, oks)
  {
    assert ([ok] + oks)[1..] == oks;
  }

  lemma {:induction false} ExecSnoc(w: World, s: State, plan: Plan, oks: seq<bool>, ok: bool)
    requires Exec(w, s, plan, oks).1 != []
    ensures Exec(w, s, plan, oks + [ok])
         == Step(w, Exec(w, s, plan, oks).0, Exec(w, s, plan, oks).1, ok)
    decreases |oks|
  {
    if oks == [] {
      assert (oks + [ok])[1..] == [];
    } else {
      var (s', plan') := Step(w, s, plan, oks[0]);
      ExecSnoc(w, s', plan', oks[1..], ok);
      assert (oks + [ok])[1..] == oks[1..] + [ok];
    }
  }

  // ---- What every action keeps ----

  /** A stored recognised track with this CTID. */
  ghost predicate HasTrack(store: Tracks, ctid: string) {
    ctid != "" && exists id :: id in store && store[id].recognized && store[id].ctid == ctid
  }

  /** A stored recognised track with this CTID and this token. */
  ghost predicate HasTokenTrack(w: World, store: Tracks, token: string, ctid: string) {
    ctid != "" && exists id :: id in store && store[id].recognized && store[id].ctid == ctid
                               && IsTrackToken(w.low, store[id], token)
  }

  /** CTIDs in the store are what decode-and-hash yields for the file. */
  ghost predicate StoreOk(w: World, store: Tracks) {
    && Filed(store)
    && forall id :: id in store && store[id].ctid != "" ==> w.ctidOf(store[id].path) == Some(store[id].ctid)
  }

  ghost predicate IndexOk(w: World, s: State) {
    forall t :: t in s.index ==>
      && s.index[t] != [] && NoDups(s.index[t])
      && forall c :: c in s.index[t] ==> HasTokenTrack(w, s.store, t, c)
  }

  ghost predicate MarksOk(w: World, s: State) {
    && s.announced <= s.marks
    && (forall m :: m in s.marks ==> HasTokenTrack(w, s.store, m.token, m.ctid) && CidOf(w.hash(m.token)) in s.records)
    && (forall m :: m in s.announced ==> TokenKey(w.hash(m.token)) in s.provided)
  }

  ghost predicate KeyOk(w: World, s: State, k: Key) {
    match k
    case CtidKey(c) => HasTrack(s.store, c)
    case TokenKey(h) => exists m :: m in s.announced && w.hash(m.token) == h
  }

  /** A provider record stands for a CTID of the store or for an announced token. */
  ghost predicate RecordOk(w: World, s: State, r: string) {
    || (exists c :: CidOf(c) == r && HasTrack(s.store, c))
    || (exists m :: m in s.marks && CidOf(w.hash(m.token)) == r)
  }

  ghost predicate StateOk(w: World, s: State) {
    && StoreOk(w, s.store) && IndexOk(w, s) && MarksOk(w, s)
    && (forall k :: k in s.provided ==> KeyOk(w, s, k))
    && (forall r :: r in s.records ==> RecordOk(w, s, r))
  }

  /** The plan will next, after announcing tokens only, index this token and CTID. */
  ghost predicate Owes(w: World, plan: Plan, m: Mark) {
    plan != [] &&
    match plan[0]
    case AnnounceToken(_, _) => Owes(w, plan[1..], m)
    case UpdateIndex(track) => Contributes(w.low, track, m.token) && track.ctid == m.ctid
    case _ => false
  }

  predicate Answerable(index: Index, m: Mark) {
    m.ctid in Entry(index, m.token)
  }

  ghost predicate Sharable(store: Tracks, track: Track) {
    track.id in store && store[track.id] == track && track.recognized && track.ctid != ""
  }

  ghost predicate SameButCtid(a: Track, b: Track) {
    a.(ctid := "") == b.(ctid := "")
  }

  /** What holds of an operation in progress: it announces and indexes only stored recognised
      tracks, and a token only when it is indexed already or will be indexed right after. */
  ghost predicate PlanOk(w: World, store: Tracks, index: Index, plan: Plan)
    decreases |plan|
  {
    plan == [] ||
    var rest := plan[1..];
    match plan[0]
    case Save(track) =>
      && track.id in store && SameButCtid(store[track.id], track) && track.ctid != ""
      && w.ctidOf(track.path) == Some(track.ctid)
      && PlanOk(w, store[track.id := track], index, rest)
    case AnnounceCtid(track, _) =>
      Sharable(store, track) && PlanOk(w, store, index, rest)
    case AnnounceToken(track, token) =>
      && Sharable(store, track) && IsTrackToken(w.low, track, token)
      && (Answerable(index, Mark(token, track.ctid)) || Owes(w, rest, Mark(token, track.ctid)))
      && PlanOk(w, store, index, rest)
    case UpdateIndex(track) =>
      Sharable(store, track) && PlanOk(w, store, Updated(w.low, index, track), rest)
    case Reload(id, _) =>
      id in store && rest == []
  }

  /** The store only grows, and a stored track only ever gains its CTID. */
  ghost predicate Grows(before: Tracks, after: Tracks) {
    forall id :: id in before ==>
      id in after && (after[id] == before[id] || (before[id].ctid == "" && SameButCtid(before[id], after[id])))
  }

  lemma {:induction false} PlanOkMonotone(w: World, store: Tracks, store': Tracks, index: Index, index': Index, plan: Plan)
    requires StoreOk(w, store) && StoreOk(w, store') && Grows(store, store') && Within(index, index')
    requires PlanOk(w, store, index, plan)
    ensures PlanOk(w, store', index', plan)
    decreases |plan|
  {
    if plan != [] {
      var rest := plan[1..];
      match plan[0]
      case Save(track) =>
        PlanOkMonotone(w, store[track.id := track], store'[track.id := track], index, index', rest);
      case UpdateIndex(track) =>
        UpdateMonotone(w.low, index, index', track);
        PlanOkMonotone(w, store, store', Updated(w.low, index, track), Updated(w.low, index', track), rest);
      case Reload(_, _) =>
      case _ =>
        PlanOkMonotone(w, store, store', index, index', rest);
    }
  }

  lemma {:induction false} DropTokensOk(w: World, store: Tracks, index: Index, plan: Plan)
    requires PlanOk(w, store, index, plan)
    ensures PlanOk(w, store, index, DropTokens(plan))
  {
    if plan != [] && plan[0].AnnounceToken? {
      DropTokensOk(w, store, index, plan[1..]);
    }
  }

  // ---- The operations start well ----

  lemma TokenFirst(w: World, store: Tracks, index: Index, track: Track, token: string, rest: Plan)
    requires Sharable(store, track) && IsTrackToken(w.low, track, token) && PlanOk(w, store, index, rest)
    requires Answerable(index, Mark(token, track.ctid)) || Owes(w, rest, Mark(token, track.ctid))
    ensures PlanOk(w, store, index, [AnnounceToken(track, token)] + rest)
  {
    assert ([AnnounceToken(track, token)] + rest)[1..] == rest;
  }

  lemma SaveFirst(w: World, store: Tracks, index: Index, track: Track, rest: Plan)
    requires track.id in store && SameButCtid(store[track.id], track)
    requires track.ctid != "" && w.ctidOf(track.path) == Some(track.ctid)
    requires PlanOk(w, store[track.id := track], index, rest)
    ensures PlanOk(w, store, index, [Save(track)] + rest)
  {
    assert ([Save(track)] + rest)[1..] == rest;
  }

  lemma IndexFirst(w: World, store: Tracks, index: Index, track: Track, rest: Plan)
    requires Sharable(store, track) && PlanOk(w, store, Updated(w.low, index, track), rest)
    ensures PlanOk(w, store, index, [UpdateIndex(track)] + rest)
  {
    assert ([UpdateIndex(track)] + rest)[1..] == rest;
  }

  lemma CtidFirst(w: World, store: Tracks, index: Index, track: Track, onFailure: OnFailure, rest: Plan)
    requires Sharable(store, track) && PlanOk(w, store, index, rest)
    ensures PlanOk(w, store, index, [AnnounceCtid(track, onFailure)] + rest)
  {
    assert ([AnnounceCtid(track, onFailure)] + rest)[1..] == rest;
  }

  lemma {:induction false} TokenActionsOwe(w: World, track: Track, tokens: seq<string>, m: Mark)
    requires Contributes(w.low, track, m.token) && track.ctid == m.ctid
    ensures Owes(w, TokenActions(track, tokens) + [UpdateIndex(track)], m)
  {
    if tokens != [] {
      var rest := TokenActions(track, tokens[1..]) + [UpdateIndex(track)];
      TokenActionsOwe(w, track, tokens[1..], m);
      ConsConcat(AnnounceToken(track, tokens[0]), TokenActions(track, tokens[1..]), [UpdateIndex(track)]);
      assert ([AnnounceToken(track, tokens[0])] + rest)[1..] == rest;
    }
  }

  /** Tokens announced before the index update. */
  lemma {:induction false} TokensThenIndexOk(w: World, store: Tracks, index: Index, track: Track, tokens: seq<string>)
    requires Sharable(store, track)
    requires forall t :: t in tokens ==> IsTrackToken(w.low, track, t)
    ensures PlanOk(w, store, index, TokenActions(track, tokens) + [UpdateIndex(track)])
  {
    if tokens == [] {
      IndexFirst(w, store, index, track, []);
      assert TokenActions(track, tokens) + [UpdateIndex(track)] == [UpdateIndex(track)] + [];
    } else {
      TokensThenIndexOk(w, store, index, track, tokens[1..]);
      TokenActionsOwe(w, track, tokens[1..], Mark(tokens[0], track.ctid));
      TokenFirst(w, store, index, track, tokens[0], TokenActions(track, tokens[1..]) + [UpdateIndex(track)]);
      ConsConcat(AnnounceToken(track, tokens[0]), TokenActions(track, tokens[1..]), [UpdateIndex(track)]);
    }
  }

  /** Tokens announced when they are indexed already. */
  lemma {:induction false} IndexedTokensOk(w: World, store: Tracks, index: Index, track: Track, tokens: seq<string>, rest: Plan)
    requires Sharable(store, track)
    requires forall t :: t in tokens ==> IsTrackToken(w.low, track, t) && Answerable(index, Mark(t, track.ctid))
    requires PlanOk(w, store, index, rest)
    ensures PlanOk(w, store, index, TokenActions(track, tokens) + rest)
  {
    if tokens == [] {
      assert TokenActions(track, tokens) + rest == rest;
    } else {
      IndexedTokensOk(w, store, index, track, tokens[1..], rest);
      TokenFirst(w, store, index, track, tokens[0], TokenActions(track, tokens[1..]) + rest);
      ConsConcat(AnnounceToken(track, tokens[0]), TokenActions(track, tokens[1..]), rest);
    }
  }

  lemma AnnouncedTokens(w: World, track: Track)
    ensures forall t :: t in Tokens(w.low, track.title + " " + track.artist) ==> IsTrackToken(w.low, track, t)
  {
    forall t | t in Tokens(w.low, track.title + " " + track.artist)
      ensures IsTrackToken(w.low, track, t)
    {
      AnnouncedTokensAreIndexed(w.low, track, t);
    }
  }

  lemma ShareTailOk(w: World, store: Tracks, index: Index, track: Track)
    requires track.id in store && store[track.id] == track
    ensures PlanOk(w, store, index, ShareTail(w, track))
  {
    if Indexable(track) {
      AnnouncedTokens(w, track);
      TokensThenIndexOk(w, store, index, track, Tokens(w.low, track.title + " " + track.artist));
      CtidFirst(w, store, index, track, Abort, AnnounceTokens(w, track) + [UpdateIndex(track)]);
      ConsConcat(AnnounceCtid(track, Abort), AnnounceTokens(w, track), [UpdateIndex(track)]);
    }
  }

  /** An index update followed by announcements, as the callback and the periodic announce do. */
  lemma IndexThenTokensOk(w: World, store: Tracks, index: Index, track: Track, rest: Plan)
    requires Sharable(store, track)
    requires PlanOk(w, store, Updated(w.low, index, track), rest)
    ensures PlanOk(w, store, Updated(w.low, index, track), AnnounceTokens(w, track) + rest)
  {
    AnnouncedTokens(w, track);
    IndexedTokensOk(w, store, Updated(w.low, index, track), track,
                    Tokens(w.low, track.title + " " + track.artist), rest);
  }

  lemma HookPlanOk(w: World, store: Tracks, index: Index, track: Track, rest: Plan)
    requires track.id in store && store[track.id] == track
    requires PlanOk(w, store, index, rest)
    requires StoreOk(w, store)
    ensures PlanOk(w, store, index, HookPlan(w, track) + rest)
  {
    if Indexable(track) {
      var index' := Updated(w.low, index, track);
      UpdateGrows(w.low, index, track);
      PlanOkMonotone(w, store, store, index, index', rest);
      IndexThenTokensOk(w, store, index, track, rest);
      IndexFirst(w, store, index, track, AnnounceTokens(w, track) + rest);
      ConsConcat(UpdateIndex(track), AnnounceTokens(w, track), rest);
    } else {
      assert HookPlan(w, track) + rest == rest;
    }
  }

  lemma ProcessedStoreOk(w: World, store: Tracks, done: Track)
    requires StoreOk(w, store) && w.ctidOf(done.path) == Some(done.ctid)
    ensures StoreOk(w, store[done.id := done])
  {
  }

  lemma ProcessPlanOk(w: World, store: Tracks, index: Index, track: Track, rest: Plan)
    requires ValidWorld(w) && StoreOk(w, store)
    requires track.id in store && SameButCtid(store[track.id], track)
    requires w.ctidOf(track.path).Some?
    requires rest == [] || (|rest| == 1 && rest[0].Reload? && rest[0].id in store)
    ensures PlanOk(w, store, index, ProcessPlan(w, track) + rest)
  {
    var ctid := w.ctidOf(track.path).value;
    assert IsDigest(ctid);
    var done := track.(ctid := ctid);
    var store' := store[done.id := done];
    ProcessedStoreOk(w, store, done);
    HookPlanOk(w, store', index, done, rest);
    AfterSaveOk(w, store', index, done, HookPlan(w, done) + rest);
    SaveFirst(w, store, index, done, CtidPart(done) + (HookPlan(w, done) + rest));
    Assoc(CtidPart(done), HookPlan(w, done), rest);
    ConsConcat(Save(done), CtidPart(done) + HookPlan(w, done), rest);
  }

  lemma AfterSaveOk(w: World, store: Tracks, index: Index, done: Track, tail: Plan)
    requires done.id in store && store[done.id] == done && done.ctid != ""
    requires PlanOk(w, store, index, tail)
    ensures PlanOk(w, store, index, CtidPart(done) + tail)
  {
    if done.recognized {
      CtidFirst(w, store, index, done, Ignore, tail);
    } else {
      assert CtidPart(done) + tail == tail;
    }
  }

  lemma SharePlanOk(w: World, store: Tracks, index: Index, id: string)
    requires ValidWorld(w) && StoreOk(w, store)
    ensures PlanOk(w, store, index, SharePlan(w, store, id))
  {
    if id in store {
      if store[id].ctid != "" {
        ShareTailOk(w, store, index, store[id]);
      } else if w.ctidOf(store[id].path).Some? {
        var reload := Reload(id, store[id].(ctid := w.ctidOf(store[id].path).value));
        ProcessPlanOk(w, store, index, store[id], [reload]);
      }
    }
  }

  lemma AnnounceOneOk(w: World, store: Tracks, index: Index, track: Track, rest: Plan)
    requires Sharable(store, track) && PlanOk(w, store, Updated(w.low, index, track), rest)
    ensures PlanOk(w, store, index, AnnounceOne(w, track) + rest)
  {
    var tail := AnnounceTokens(w, track) + rest;
    IndexThenTokensOk(w, store, index, track, rest);
    CtidFirst(w, store, Updated(w.low, index, track), track, SkipTrack, tail);
    IndexFirst(w, store, index, track, [AnnounceCtid(track, SkipTrack)] + tail);
    ConsConcat(UpdateIndex(track), [AnnounceCtid(track, SkipTrack)] + AnnounceTokens(w, track), rest);
    ConsConcat(AnnounceCtid(track, SkipTrack), AnnounceTokens(w, track), rest);
  }

  lemma {:induction false} AnnouncePlanOk(w: World, store: Tracks, index: Index, listing: seq<Track>)
    requires forall i :: 0 <= i < |listing| ==> listing[i].id in store && store[listing[i].id] == listing[i]
    ensures PlanOk(w, store, index, AnnouncePlan(w, listing))
    decreases |listing|
  {
    if listing != [] {
      var track, rest := listing[0], AnnouncePlan(w, listing[1..]);
      AnnouncePlanOk(w, store, Updated(w.low, index, track), listing[1..]);
      if Indexable(track) {
        AnnounceOneOk(w, store, index, track, rest);
      } else {
        assert AnnouncePlan(w, listing) == rest;
      }
    }
  }

  // ---- One action keeps the state well ----

  lemma HasTrackGrows(w: World, store: Tracks, store': Tracks)
    requires Grows(store, store')
    ensures forall c :: HasTrack(store, c) ==> HasTrack(store', c)
    ensures forall t, c :: HasTokenTrack(w, store, t, c) ==> HasTokenTrack(w, store', t, c)
  {
    forall c | HasTrack(store, c)
      ensures HasTrack(store', c)
    {
      var id :| id in store && store[id].recognized && store[id].ctid == c;
      assert store'[id] == store[id];
    }
    forall t, c | HasTokenTrack(w, store, t, c)
      ensures HasTokenTrack(w, store', t, c)
    {
      var id :| id in store && store[id].recognized && store[id].ctid == c && IsTrackToken(w.low, store[id], t);
      assert store'[id] == store[id];
    }
  }

  lemma StoreGrowthKeepsOk(w: World, s: State, store': Tracks)
    requires StateOk(w, s) && StoreOk(w, store') && Grows(s.store, store')
    ensures StateOk(w, s.(store := store'))
  {
    var s' := s.(store := store');
    HasTrackGrows(w, s.store, store');
    forall k | k in s.provided
      ensures KeyOk(w, s', k)
    {
      assert KeyOk(w, s, k);
    }
    forall r | r in s.records
      ensures RecordOk(w, s', r)
    {
      assert RecordOk(w, s, r);
    }
  }

  lemma NewCtidKeepsOk(w: World, s: State, track: Track)
    requires StateOk(w, s) && Sharable(s.store, track)
    ensures StateOk(w, s.(provided := s.provided + {CtidKey(track.ctid)}, records := s.records + {CidOf(track.ctid)}))
  {
    var s' := s.(provided := s.provided + {CtidKey(track.ctid)}, records := s.records + {CidOf(track.ctid)});
    assert HasTrack(s.store, track.ctid);
    forall k | k in s'.provided
      ensures KeyOk(w, s', k)
    {
      assert k in s.provided ==> KeyOk(w, s, k);
    }
    forall r | r in s'.records
      ensures RecordOk(w, s', r)
    {
      assert r in s.records ==> RecordOk(w, s, r);
    }
  }

  lemma NewTokenKeepsOk(w: World, s: State, track: Track, token: string, s': State)
    requires StateOk(w, s) && Sharable(s.store, track) && IsTrackToken(w.low, track, token)
    requires var m := Mark(token, track.ctid);
      s' == s.(provided := s.provided + {TokenKey(w.hash(token))}, records := s.records + {CidOf(w.hash(token))},
               announced := s.announced + {m}, marks := s.marks + {m})
    ensures StateOk(w, s')
  {
    var mark := Mark(token, track.ctid);
    assert mark in s'.announced && mark in s'.marks;
    assert HasTokenTrack(w, s.store, token, track.ctid);
    forall k | k in s'.provided
      ensures KeyOk(w, s', k)
    {
      assert k in s.provided ==> KeyOk(w, s, k);
    }
    forall r | r in s'.records
      ensures RecordOk(w, s', r)
    {
      assert r in s.records ==> RecordOk(w, s, r);
    }
  }

  lemma NewEntriesOk(w: World, s: State, track: Track)
    requires IndexOk(w, s) && Sharable(s.store, track)
    ensures IndexOk(w, s.(index := Updated(w.low, s.index, track)))
  {
    var index' := Updated(w.low, s.index, track);
    forall t | t in index'
      ensures index'[t] != [] && NoDups(index'[t])
      ensures forall c :: c in index'[t] ==> HasTokenTrack(w, s.store, t, c)
    {
      UpdatedEntry(w.low, s.index, track, t);
      assert t in s.index ==> NoDups(s.index[t]);
      if t in TrackTokens(w.low, track) {
        assert HasTokenTrack(w, s.store, t, track.ctid);
      }
    }
  }

  lemma IndexUpdateKeepsOk(w: World, s: State, track: Track)
    requires StateOk(w, s) && Sharable(s.store, track)
    ensures StateOk(w, s.(index := Updated(w.low, s.index, track)))
  {
    var s' := s.(index := Updated(w.low, s.index, track));
    NewEntriesOk(w, s, track);
    forall k | k in s.provided
      ensures KeyOk(w, s', k)
    {
      assert KeyOk(w, s, k);
    }
    forall r | r in s.records
      ensures RecordOk(w, s', r)
    {
      assert RecordOk(w, s, r);
    }
  }

  /** What one action of an operation in progress guarantees. */
  ghost predicate StepOk(w: World, s: State, plan: Plan, s': State, plan': Plan) {
    && StateOk(w, s') && PlanOk(w, s'.store, s'.index, plan')
    && Grows(s.store, s'.store) && Within(s.index, s'.index)
    && s.announced <= s'.announced && s.marks <= s'.marks
    // a new announcement is indexed or owed
    && (forall m :: m in s'.announced && m !in s.announced ==> Answerable(s'.index, m) || Owes(w, plan', m))
    // what was owed is indexed or still owed
    && (forall m :: Owes(w, plan, m) ==> Answerable(s'.index, m) || Owes(w, plan', m))
  }

  /** Every action keeps the state and its own plan well, only grows store and index, and
      never loses the indexing that a token announcement still owes. */
  lemma StepKeepsOk(w: World, s: State, plan: Plan, ok: bool)
    requires plan != [] && StateOk(w, s) && PlanOk(w, s.store, s.index, plan)
    ensures StepOk(w, s, plan, Step(w, s, plan, ok).0, Step(w, s, plan, ok).1)
  {
    match plan[0]
    case Save(_) => SaveKeepsOk(w, s, plan, ok);
    case AnnounceCtid(_, _) => AnnounceCtidKeepsOk(w, s, plan, ok);
    case AnnounceToken(_, _) => AnnounceTokenKeepsOk(w, s, plan, ok);
    case UpdateIndex(_) => UpdateIndexKeepsOk(w, s, plan, ok);
    case Reload(_, _) => ReloadKeepsOk(w, s, plan, ok);
  }

  lemma SaveKeepsOk(w: World, s: State, plan: Plan, ok: bool)
    requires plan != [] && plan[0].Save? && StateOk(w, s) && PlanOk(w, s.store, s.index, plan)
    ensures StepOk(w, s, plan, Step(w, s, plan, ok).0, Step(w, s, plan, ok).1)
  {
    var store' := s.store[plan[0].track.id := plan[0].track];
    assert StoreOk(w, store') && Grows(s.store, store');
    StoreGrowthKeepsOk(w, s, store');
  }

  lemma AnnounceCtidKeepsOk(w: World, s: State, plan: Plan, ok: bool)
    requires plan != [] && plan[0].AnnounceCtid? && StateOk(w, s) && PlanOk(w, s.store, s.index, plan)
    ensures StepOk(w, s, plan, Step(w, s, plan, ok).0, Step(w, s, plan, ok).1)
  {
    NewCtidKeepsOk(w, s, plan[0].track);
    DropTokensOk(w, s.store, s.index, plan[1..]);
  }

  lemma AnnounceTokenKeepsOk(w: World, s: State, plan: Plan, ok: bool)
    requires plan != [] && plan[0].AnnounceToken? && StateOk(w, s) && PlanOk(w, s.store, s.index, plan)
    ensures StepOk(w, s, plan, Step(w, s, plan, ok).0, Step(w, s, plan, ok).1)
  {
    if ok && IsDigest(w.hash(plan[0].token)) {
      NewTokenKeepsOk(w, s, plan[0].track, plan[0].token, Step(w, s, plan, ok).0);
    }
  }

  lemma UpdateIndexKeepsOk(w: World, s: State, plan: Plan, ok: bool)
    requires plan != [] && plan[0].UpdateIndex? && StateOk(w, s) && PlanOk(w, s.store, s.index, plan)
    ensures StepOk(w, s, plan, Step(w, s, plan, ok).0, Step(w, s, plan, ok).1)
  {
    var track := plan[0].track;
    IndexUpdateKeepsOk(w, s, track);
    UpdateGrows(w.low, s.index, track);
    forall m | Owes(w, plan, m)
      ensures Answerable(Updated(w.low, s.index, track), m)
    {
      UpdatedEntry(w.low, s.index, track, m.token);
    }
  }

  lemma ReloadKeepsOk(w: World, s: State, plan: Plan, ok: bool)
    requires plan != [] && plan[0].Reload? && StateOk(w, s) && PlanOk(w, s.store, s.index, plan)
    ensures StepOk(w, s, plan, Step(w, s, plan, ok).0, Step(w, s, plan, ok).1)
  {
    var track := s.store[plan[0].id];
    ShareTailOk(w, s.store, s.index, track);
    assert ShareTail(w, track) + plan[1..] == ShareTail(w, track);
  }
}
