/** Runs of one node: any number of operations interleaved action by action, with tracks
    added and the process restarted at any time. */
module Runs {
  import opened Sequences
  import opened Text
  import opened Library
  import opened TokenIndex
  import opened Node

  /** ops are the operations in progress, by a number. */
  datatype System = System(state: State, ops: map<nat, Plan>)

  /** Process stands for a worker or a caller processing a track it got from the store earlier,
      with or without its CTID. */
  datatype Event =
    | Add(track: Track)
    | Share(op: nat, id: string)
    | Process(op: nat, track: Track)
    | AnnounceAll(op: nat, listing: seq<Track>)
    | Advance(op: nat, ok: bool)
    | Restart

  ghost predicate Enabled(s: System, e: Event) {
    match e
    case Add(track) =>
      && track.id !in s.state.store && track.ctid == ""
      && track.recognized == (track.title != "" && track.artist != "")
    case Share(op, _) => op !in s.ops
    case Process(op, track) =>
      op !in s.ops && track.id in s.state.store && SameButCtid(s.state.store[track.id], track)
    case AnnounceAll(op, listing) => op !in s.ops && Lists(listing, s.state.store)
    case Advance(op, _) => op in s.ops && s.ops[op] != []
    case Restart => true
  }

  /** The index, the bookkeeping and the operations live in memory; the store and the records
      published in the DHT do not. */
  function Restarted(s: State): State {
    s.(index := map[], provided := {}, announced := {})
  }

  /** An event that is not enabled does nothing. */
  ghost function Apply(w: World, s: System, e: Event): System {
    if !Enabled(s, e) then s
    else
      match e
      case Add(track) => s.(state := s.state.(store := s.state.store[track.id := track]))
      case Share(op, id) => s.(ops := s.ops[op := SharePlan(w, s.state.store, id)])
      case Process(op, track) => s.(ops := s.ops[op := ProcessPlan(w, track)])
      case AnnounceAll(op, listing) => s.(ops := s.ops[op := AnnouncePlan(w, listing)])
      case Advance(op, ok) =>
        var (state', plan') := Step(w, s.state, s.ops[op], ok);
        System(state', s.ops[op := plan'])
      case Restart => System(Restarted(s.state), map[])
  }

  /** The system after a run of a new node. */
  ghost function After(w: World, run: seq<Event>): System {
    if run == [] then System(NEW_STATE, map[])
    else Apply(w, After(w, run[..|run| - 1]), run[|run| - 1])
  }

  ghost predicate Owed(w: World, s: System, m: Mark) {
    exists op :: op in s.ops && Owes(w, s.ops[op], m)
  }

  /** The invariant: every announced token is in the index or about to be. */
  ghost predicate SystemOk(w: World, s: System) {
    && StateOk(w, s.state)
    && (forall op :: op in s.ops ==> PlanOk(w, s.state.store, s.state.index, s.ops[op]))
    && (forall m :: m in s.state.announced ==> Answerable(s.state.index, m) || Owed(w, s, m))
  }

  lemma {:induction false} RunsKeepOk(w: World, run: seq<Event>)
    requires ValidWorld(w)
    ensures SystemOk(w, After(w, run))
  {
    if run != [] {
      RunsKeepOk(w, run[..|run| - 1]);
      EventKeepsOk(w, After(w, run[..|run| - 1]), run[|run| - 1]);
    }
  }

  lemma EventKeepsOk(w: World, s: System, e: Event)
    requires ValidWorld(w) && SystemOk(w, s)
    ensures SystemOk(w, Apply(w, s, e))
  {
    if Enabled(s, e) {
      match e
      case Add(track) => AddKeepsOk(w, s, track);
      case Share(op, id) =>
        SharePlanOk(w, s.state.store, s.state.index, id);
        StartKeepsOk(w, s, op, SharePlan(w, s.state.store, id));
      case Process(op, track) =>
        if w.ctidOf(track.path).Some? {
          ProcessPlanOk(w, s.state.store, s.state.index, track, []);
          assert ProcessPlan(w, track) + [] == ProcessPlan(w, track);
        }
        StartKeepsOk(w, s, op, ProcessPlan(w, track));
      case AnnounceAll(op, listing) =>
        AnnouncePlanOk(w, s.state.store, s.state.index, listing);
        StartKeepsOk(w, s, op, AnnouncePlan(w, listing));
      case Advance(op, ok) => AdvanceKeepsOk(w, s, op, ok);
      case Restart => RestartKeepsOk(w, s.state);
    }
  }

  lemma StartKeepsOk(w: World, s: System, op: nat, plan: Plan)
    requires SystemOk(w, s) && op !in s.ops && PlanOk(w, s.state.store, s.state.index, plan)
    ensures SystemOk(w, s.(ops := s.ops[op := plan]))
  {
    var s' := s.(ops := s.ops[op := plan]);
    forall m | Owed(w, s, m)
      ensures Owed(w, s', m)
    {
      var o :| o in s.ops && Owes(w, s.ops[o], m);
      assert s'.ops[o] == s.ops[o];
    }
  }

  lemma AddKeepsOk(w: World, s: System, track: Track)
    requires SystemOk(w, s) && track.id !in s.state.store && track.ctid == ""
    ensures SystemOk(w, s.(state := s.state.(store := s.state.store[track.id := track])))
  {
    var store' := s.state.store[track.id := track];
    StoreGrowthKeepsOk(w, s.state, store');
    forall op | op in s.ops
      ensures PlanOk(w, store', s.state.index, s.ops[op])
    {
      PlanOkMonotone(w, s.state.store, store', s.state.index, s.state.index, s.ops[op]);
    }
    assert forall m :: Owed(w, s, m) ==> Owed(w, s.(state := s.state.(store := store')), m);
  }

  lemma AdvanceKeepsOk(w: World, s: System, op: nat, ok: bool)
    requires SystemOk(w, s) && op in s.ops && s.ops[op] != []
    ensures SystemOk(w, Apply(w, s, Advance(op, ok)))
  {
    StepKeepsOk(w, s.state, s.ops[op], ok);
    var s' := Apply(w, s, Advance(op, ok));
    forall o | o in s'.ops
      ensures PlanOk(w, s'.state.store, s'.state.index, s'.ops[o])
    {
      if o != op {
        PlanOkMonotone(w, s.state.store, s'.state.store, s.state.index, s'.state.index, s.ops[o]);
      }
    }
    forall m | m in s'.state.announced
      ensures Answerable(s'.state.index, m) || Owed(w, s', m)
    {
      if m in s.state.announced && !Answerable(s.state.index, m) {
        var o :| o in s.ops && Owes(w, s.ops[o], m);
        assert o != op ==> Owes(w, s'.ops[o], m);
        assert o == op ==> Answerable(s'.state.index, m) || Owes(w, s'.ops[op], m);
      } else if m !in s.state.announced {
        assert Answerable(s'.state.index, m) || Owes(w, s'.ops[op], m);
      }
    }
  }

  lemma RestartKeepsOk(w: World, s: State)
    requires StateOk(w, s)
    ensures StateOk(w, Restarted(s))
  {
    forall r | r in s.records
      ensures RecordOk(w, Restarted(s), r)
    {
      assert RecordOk(w, s, r);
    }
  }

  // ---- Operations that run alone ----

  lemma AfterSnoc(w: World, run: seq<Event>, e: Event)
    ensures After(w, run + [e]) == Apply(w, After(w, run), e)
  {
    assert (run + [e])[..|run|] == run;
  }

  /** Executing the plan of an operation in progress is a continuation of the run. */
  lemma {:induction false} ExecIsRun(w: World, run: seq<Event>, op: nat, oks: seq<bool>) returns (longer: seq<Event>)
    requires op in After(w, run).ops
    ensures var s := After(w, run);
      var (state', plan') := Exec(w, s.state, s.ops[op], oks);
      After(w, longer) == System(state', s.ops[op := plan'])
    decreases |oks|
  {
    var s := After(w, run);
    if oks == [] || s.ops[op] == [] {
      longer := run;
      assert s.ops[op := s.ops[op]] == s.ops;
    } else {
      AfterSnoc(w, run, Advance(op, oks[0]));
      longer := ExecIsRun(w, run + [Advance(op, oks[0])], op, oks[1..]);
    }
  }

  /** An operation from its start event to its end. */
  lemma OperationIsRun(w: World, run: seq<Event>, start: Event, op: nat, plan: Plan, oks: seq<bool>)
    returns (longer: seq<Event>)
    requires var s := After(w, run); op !in s.ops && Apply(w, s, start) == s.(ops := s.ops[op := plan])
    requires Exec(w, After(w, run).state, plan, oks).1 == []
    ensures var s := After(w, run);
      After(w, longer) == System(Exec(w, s.state, plan, oks).0, s.ops[op := []])
  {
    var s := After(w, run);
    AfterSnoc(w, run, start);
    longer := ExecIsRun(w, run + [start], op, oks);
    assert s.ops[op := plan][op := []] == s.ops[op := []];
  }

  /** A restart keeps the store and the records in the DHT, and forgets the index, the bookkeeping
      and all operations. */
  lemma RestartForgets(w: World, run: seq<Event>)
    ensures var s, s' := After(w, run).state, After(w, run + [Restart]);
      && s'.state.store == s.store && s'.state.records == s.records && s'.state.marks == s.marks
      && s'.state.index == map[] && s'.state.provided == {} && s'.state.announced == {} && s'.ops == map[]
  {
    AfterSnoc(w, run, Restart);
  }

  // ---- What it means ----

  /** At any moment of any run, a token announced since the last start is listed in the index
      with the CTID it was announced for, unless an operation in progress still owes that. */
  lemma AnnouncedTokensAreAnswerable(w: World, run: seq<Event>, m: Mark)
    requires ValidWorld(w)
    requires m in After(w, run).state.announced && !Owed(w, After(w, run), m)
    ensures Answerable(After(w, run).state.index, m)
  {
    RunsKeepOk(w, run);
  }

  /** At any moment of any run: whatever is announced, indexed or recorded in the DHT stems from
      a stored track that is recognised and has that CTID (and that token). */
  lemma UnrecognizedTracksNeverLeak(w: World, run: seq<Event>)
    requires ValidWorld(w)
    ensures var s := After(w, run).state;
      && (forall c :: CtidKey(c) in s.provided ==> HasTrack(s.store, c))
      && (forall t, c :: c in Entry(s.index, t) ==> HasTokenTrack(w, s.store, t, c))
      && (forall h :: TokenKey(h) in s.provided ==>
            exists m :: m in s.announced && w.hash(m.token) == h && HasTokenTrack(w, s.store, m.token, m.ctid))
      && (forall r :: r in s.records ==>
            || (exists c :: CidOf(c) == r && HasTrack(s.store, c))
            || (exists m :: m in s.marks && CidOf(w.hash(m.token)) == r && HasTokenTrack(w, s.store, m.token, m.ctid)))
  {
    RunsKeepOk(w, run);
    var s := After(w, run).state;
    forall c | CtidKey(c) in s.provided
      ensures HasTrack(s.store, c)
    {
      assert KeyOk(w, s, CtidKey(c));
    }
    forall h | TokenKey(h) in s.provided
      ensures exists m :: m in s.announced && w.hash(m.token) == h && HasTokenTrack(w, s.store, m.token, m.ctid)
    {
      assert KeyOk(w, s, TokenKey(h));
      var m :| m in s.announced && w.hash(m.token) == h;
      assert HasTokenTrack(w, s.store, m.token, m.ctid);
    }
    forall r | r in s.records
      ensures || (exists c :: CidOf(c) == r && HasTrack(s.store, c))
              || (exists m :: m in s.marks && CidOf(w.hash(m.token)) == r && HasTokenTrack(w, s.store, m.token, m.ctid))
    {
      assert RecordOk(w, s, r);
      if !(exists c :: CidOf(c) == r && HasTrack(s.store, c)) {
        var m :| m in s.marks && CidOf(w.hash(m.token)) == r;
        assert HasTokenTrack(w, s.store, m.token, m.ctid);
      }
    }
  }

  // ---- Answers to index queries ----

  /** A CTID that the storage fallback may answer with. */
  ghost predicate ScanAnswer(store: Tracks, token: string, ctid: string) {
    ctid != "" && exists id :: id in store && store[id].recognized && store[id].ctid == ctid && Hit(store[id], token)
  }

  /** ctids is an answer to an index query: the entry that was read, or, when that is empty, the
      distinct CTIDs of the recognised tracks that the scan hits, in some order. The store may be
      a later one than the index that the entry is from. */
  ghost predicate IsAnswer(store: Tracks, entry: seq<string>, token: string, ctids: seq<string>) {
    if entry != [] then ctids == entry
    else NoDups(ctids) && forall c :: c in ctids <==> ScanAnswer(store, token, c)
  }

  lemma TakeAgain(run: seq<Event>, i: nat, j: nat)
    requires i <= j <= |run|
    ensures run[..j][..i] == run[..i]
  {
  }

  lemma EventGrows(w: World, s: System, e: Event)
    requires ValidWorld(w) && SystemOk(w, s)
    ensures Grows(s.state.store, Apply(w, s, e).state.store)
    ensures s.state.marks <= Apply(w, s, e).state.marks && s.state.records <= Apply(w, s, e).state.records
  {
    if Enabled(s, e) && e.Advance? {
      StepKeepsOk(w, s.state, s.ops[e.op], e.ok);
    }
  }

  /** From one moment of a run to a later one the store grows, and what was ever announced stays
      so. */
  lemma {:induction false} RunGrows(w: World, run: seq<Event>, i: nat)
    requires ValidWorld(w) && i <= |run|
    ensures Grows(After(w, run[..i]).state.store, After(w, run).state.store)
    ensures After(w, run[..i]).state.marks <= After(w, run).state.marks
    ensures After(w, run[..i]).state.records <= After(w, run).state.records
  {
    if i == |run| {
      assert run[..i] == run;
    } else {
      var front := run[..|run| - 1];
      RunGrows(w, front, i);
      TakeAgain(run, i, |run| - 1);
      RunsKeepOk(w, front);
      EventGrows(w, After(w, front), run[|run| - 1]);
      GrowsTrans(After(w, run[..i]).state.store, After(w, front).state.store, After(w, run).state.store);
    }
  }

  lemma GrowsTrans(a: Tracks, b: Tracks, c: Tracks)
    requires Grows(a, b) && Grows(b, c)
    ensures Grows(a, c)
  {
  }

  /** The entry that a node read at any moment lists distinct CTIDs of tracks that it stores then
      and later. */
  lemma EntryIsSound(w: World, run: seq<Event>, i: nat, token: string)
    requires ValidWorld(w) && i <= |run|
    ensures var entry := Entry(After(w, run[..i]).state.index, token);
      NoDups(entry) && forall c :: c in entry ==> HasTokenTrack(w, After(w, run).state.store, token, c)
  {
    RunsKeepOk(w, run[..i]);
    RunGrows(w, run, i);
    HasTrackGrows(w, After(w, run[..i]).state.store, After(w, run).state.store);
  }

  /** Every answer, at any moment and with an index entry read at any moment before, lists distinct
      CTIDs of stored recognised tracks. */
  lemma AnswersAreSound(w: World, run: seq<Event>, i: nat, token: string, ctids: seq<string>)
    requires ValidWorld(w) && i <= |run|
    requires IsAnswer(After(w, run).state.store, Entry(After(w, run[..i]).state.index, token), token, ctids)
    ensures NoDups(ctids)
    ensures forall c :: c in ctids ==> HasTrack(After(w, run).state.store, c)
    ensures Entry(After(w, run[..i]).state.index, token) != [] ==>
      forall c :: c in ctids ==> HasTokenTrack(w, After(w, run).state.store, token, c)
  {
    EntryIsSound(w, run, i, token);
  }

  /** Some recognised track with the CTID spells the token without a non-ASCII capital. */
  ghost predicate SpelledByTrack(w: World, store: Tracks, m: Mark) {
    exists id ::
      && id in store && store[id].recognized && store[id].ctid == m.ctid
      && (Spelled(w.low, store[id].title, m.token) || Spelled(w.low, store[id].artist, m.token))
  }

  /** What the scan answers with. */
  lemma ScanAnswerIff(w: World, store: Tracks, m: Mark)
    requires IsToken(w.low, m.token) && m.ctid != ""
    ensures ScanAnswer(store, m.token, m.ctid) <==> SpelledByTrack(w, store, m)
  {
    forall id | id in store
      ensures Hit(store[id], m.token) <==>
        Spelled(w.low, store[id].title, m.token) || Spelled(w.low, store[id].artist, m.token)
    {
      ScanHitsIff(w.low, store[id].title, m.token);
      ScanHitsIff(w.low, store[id].artist, m.token);
    }
  }

  lemma TrackTokenIsToken(w: World, store: Tracks, m: Mark)
    requires HasTokenTrack(w, store, m.token, m.ctid)
    ensures IsToken(w.low, m.token)
  {
    var id :| id in store && IsTrackToken(w.low, store[id], m.token);
    TrackTokenIsClean(w.low, store[id], m.token);
  }

  /** A token that the node ever announced, even before a restart or with its index update still
      to come, is answered with its CTID exactly when the entry read at any moment lists it, or is
      empty and a recognised track with the CTID spells the token without a non-ASCII capital. */
  lemma AnsweredAcrossRestarts(w: World, run: seq<Event>, m: Mark, entry: seq<string>, ctids: seq<string>)
    requires ValidWorld(w) && m in After(w, run).state.marks
    requires IsAnswer(After(w, run).state.store, entry, m.token, ctids)
    ensures m.ctid in ctids <==> m.ctid in entry || (entry == [] && SpelledByTrack(w, After(w, run).state.store, m))
  {
    RunsKeepOk(w, run);
    TrackTokenIsToken(w, After(w, run).state.store, m);
    ScanAnswerIff(w, After(w, run).state.store, m);
  }

  /** The title or the artist has the token, and no capital letter outside ASCII. */
  ghost predicate PlainFor(w: World, track: Track, token: string) {
    || (Plain(w.low, track.title) && token in Tokens(w.low, track.title))
    || (Plain(w.low, track.artist) && token in Tokens(w.low, track.artist))
  }

  lemma PlainIsSpelled(w: World, store: Tracks, m: Mark, id: string)
    requires id in store && store[id].recognized && store[id].ctid == m.ctid && PlainFor(w, store[id], m.token)
    ensures SpelledByTrack(w, store, m)
  {
    if Plain(w.low, store[id].title) && m.token in Tokens(w.low, store[id].title) {
      ScanCoversTokens(w.low, store[id].title, m.token);
      TokensAreRuns(w.low, store[id].title, m.token);
      ScanHitsIff(w.low, store[id].title, m.token);
    } else {
      ScanCoversTokens(w.low, store[id].artist, m.token);
      TokensAreRuns(w.low, store[id].artist, m.token);
      ScanHitsIff(w.low, store[id].artist, m.token);
    }
  }

  /** In particular, one plain track behind the announced token is enough for an answer; its CTID
      is then missing exactly when the entry lists only others. */
  lemma PlainTrackIsAnswered(w: World, run: seq<Event>, m: Mark, entry: seq<string>, ctids: seq<string>, id: string)
    requires ValidWorld(w) && m in After(w, run).state.marks
    requires IsAnswer(After(w, run).state.store, entry, m.token, ctids)
    requires var store := After(w, run).state.store;
      id in store && store[id].recognized && store[id].ctid == m.ctid && PlainFor(w, store[id], m.token)
    ensures ctids != []
    ensures m.ctid in ctids <==> entry == [] || m.ctid in entry
  {
    PlainIsSpelled(w, After(w, run).state.store, m, id);
    AnsweredAcrossRestarts(w, run, m, entry, ctids);
  }

  /** No title or artist of a track with the CTID has a capital letter outside ASCII. */
  ghost predicate PlainTracks(w: World, store: Tracks, ctid: string) {
    forall id :: id in store && store[id].ctid == ctid ==> Plain(w.low, store[id].title) && Plain(w.low, store[id].artist)
  }

  /** The scan covers the index at any moment of any run: what is listed under a token is found by
      the scan exactly when spelled, so always for plain tracks. */
  lemma ScanCoversIndex(w: World, run: seq<Event>, token: string, ctid: string)
    requires ValidWorld(w) && ctid in Entry(After(w, run).state.index, token)
    ensures var store := After(w, run).state.store;
      && (ScanAnswer(store, token, ctid) <==> SpelledByTrack(w, store, Mark(token, ctid)))
      && (PlainTracks(w, store, ctid) ==> ScanAnswer(store, token, ctid))
  {
    RunsKeepOk(w, run);
    var store, m := After(w, run).state.store, Mark(token, ctid);
    assert HasTokenTrack(w, store, token, ctid);
    TrackTokenIsToken(w, store, m);
    ScanAnswerIff(w, store, m);
    var id :| id in store && store[id].recognized && store[id].ctid == ctid && IsTrackToken(w.low, store[id], token);
    if PlainTracks(w, store, ctid) {
      PlainIsSpelled(w, store, m, id);
    }
  }

  // ---- After a restart ----

  /** These CTIDs are the one possible answer to a query for the token. */
  ghost predicate OnlyAnswer(s: State, token: string, ctids: seq<string>) {
    forall other :: IsAnswer(s.store, Entry(s.index, token), token, other) <==> other == ctids
  }

  /** After a restart, sharing one track hides every other track with the same token, although its
      token record is still in the DHT. */
  lemma ShareAfterRestartHidesOthers(w: World, s: State, a: Track, b: Track, token: string)
    requires ValidWorld(w) && StateOk(w, s) && Sharable(s.store, a) && Sharable(s.store, b)
    requires IsTrackToken(w.low, a, token) && IsTrackToken(w.low, b, token) && a.ctid != b.ctid
    ensures exists oks ::
      var (s', plan') := Exec(w, Restarted(s), SharePlan(w, s.store, a.id), oks);
      plan' == [] && s'.store == s.store && OnlyAnswer(s', token, [a.ctid])
  {
    var oks := ShareAfterRestart(w, s, a);
    var s' := Exec(w, Restarted(s), SharePlan(w, s.store, a.id), oks).0;
    OneEntry(w, a, token);
    assert OnlyAnswer(s', token, [a.ctid]);
  }

  lemma OneEntry(w: World, a: Track, token: string)
    requires Indexable(a) && IsTrackToken(w.low, a, token)
    ensures Entry(Updated(w.low, map[], a), token) == [a.ctid]
  {
    UpdatedEntry(w.low, map[], a, token);
  }

  /** A share right after a restart, with every announcement taken, leaves its track indexed
      and nothing else. */
  lemma ShareAfterRestart(w: World, s: State, a: Track) returns (oks: seq<bool>)
    requires ValidWorld(w) && StateOk(w, s) && Sharable(s.store, a)
    ensures var (s', plan') := Exec(w, Restarted(s), SharePlan(w, s.store, a.id), oks);
      plan' == [] && s'.store == s.store && s'.index == Updated(w.low, map[], a)
  {
    var tokens := Tokens(w.low, a.title + " " + a.artist);
    var rest := TokenActions(a, tokens) + [UpdateIndex(a)];
    var plan := [AnnounceCtid(a, Abort)] + rest;
    ConsConcat(AnnounceCtid(a, Abort), TokenActions(a, tokens), [UpdateIndex(a)]);
    assert plan == SharePlan(w, s.store, a.id);
    assert IsDigest(a.ctid);
    assert plan[1..] == rest;
    var s1 := Step(w, Restarted(s), plan, true).0;
    oks := TokensThenIndexExec(w, s1, a, tokens);
    ExecCons(w, Restarted(s), plan, true, oks);
    oks := [true] + oks;
  }

  lemma {:induction false} TokensThenIndexExec(w: World, s: State, track: Track, tokens: seq<string>)
    returns (oks: seq<bool>)
    ensures var (s', plan') := Exec(w, s, TokenActions(track, tokens) + [UpdateIndex(track)], oks);
      plan' == [] && s'.store == s.store && s'.index == Updated(w.low, s.index, track)
    decreases |tokens|
  {
    var plan := TokenActions(track, tokens) + [UpdateIndex(track)];
    var (s1, plan1) := Step(w, s, plan, true);
    if tokens == [] {
      assert plan1 == [];
      oks := [];
    } else {
      assert plan1 == TokenActions(track, tokens[1..]) + [UpdateIndex(track)];
      oks := TokensThenIndexExec(w, s1, track, tokens[1..]);
    }
    ExecCons(w, s, plan, true, oks);
    oks := [true] + oks;
  }
}
