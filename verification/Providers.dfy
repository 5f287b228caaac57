/** Which of the announced tracks can be fetched: the provider records of their CTIDs. */
module Providers {
  import opened Sequences
  import opened Text
  import opened Library
  import opened TokenIndex
  import opened Node
  import opened Runs

  // ---- The record of a CTID ----

  /** The CTID that an event fails to announce while its track is being processed: the one
      refusal after which the operation goes on to announce the tokens. */
  ghost function RefusedBy(s: System, e: Event): set<string> {
    if e.Advance? && Enabled(s, e) && !e.ok && s.ops[e.op][0].AnnounceCtid? && s.ops[e.op][0].onFailure == Ignore then
      {s.ops[e.op][0].track.ctid}
    else {}
  }

  /** All such CTIDs of a run. */
  ghost function RefusedCtids(w: World, run: seq<Event>): set<string> {
    if run == [] then {}
    else
      var front := run[..|run| - 1];
      RefusedCtids(w, front) + RefusedBy(After(w, front), run[|run| - 1])
  }

  /** The CTID has a provider record, or was refused. */
  predicate Covered(records: set<string>, refused: set<string>, ctid: string) {
    CidOf(ctid) in records || ctid in refused
  }

  /** The plan announces tokens only of tracks that are covered by then. */
  predicate Backed(records: set<string>, refused: set<string>, plan: Plan)
    decreases |plan|
  {
    plan == [] ||
    var rest := plan[1..];
    match plan[0]
    case AnnounceToken(track, _) => Covered(records, refused, track.ctid) && Backed(records, refused, rest)
    case AnnounceCtid(track, onFailure) =>
      && Backed(records + {CidOf(track.ctid)}, refused, rest)
      && (match onFailure
          case Ignore => Backed(records, refused + {track.ctid}, rest)
          case SkipTrack => Backed(records, refused, DropTokens(rest))
          case Abort => true)
    case Reload(_, _) => rest == []
    case _ => Backed(records, refused, rest)
  }

  lemma {:induction false} BackedMonotone(records: set<string>, records': set<string>, refused: set<string>,
                                          refused': set<string>, plan: Plan)
    requires Backed(records, refused, plan) && records <= records' && refused <= refused'
    ensures Backed(records', refused', plan)
    decreases |plan|
  {
    if plan != [] {
      var rest := plan[1..];
      match plan[0]
      case AnnounceCtid(track, onFailure) =>
        BackedMonotone(records + {CidOf(track.ctid)}, records' + {CidOf(track.ctid)}, refused, refused', rest);
        match onFailure {
          case Ignore => BackedMonotone(records, records', refused + {track.ctid}, refused' + {track.ctid}, rest);
          case SkipTrack => BackedMonotone(records, records', refused, refused', DropTokens(rest));
          case Abort =>
        }
      case Reload(_, _) =>
      case _ => BackedMonotone(records, records', refused, refused', rest);
    }
  }

  lemma {:induction false} DropTokensBacked(records: set<string>, refused: set<string>, plan: Plan)
    requires Backed(records, refused, plan)
    ensures Backed(records, refused, DropTokens(plan))
  {
    if plan != [] && plan[0].AnnounceToken? {
      DropTokensBacked(records, refused, plan[1..]);
    }
  }

  lemma {:induction false} TokensBacked(records: set<string>, refused: set<string>, track: Track, tokens: seq<string>, rest: Plan)
    requires Covered(records, refused, track.ctid) && Backed(records, refused, rest)
    ensures Backed(records, refused, TokenActions(track, tokens) + rest)
  {
    if tokens == [] {
      assert TokenActions(track, tokens) + rest == rest;
    } else {
      TokensBacked(records, refused, track, tokens[1..], rest);
      ConsConcat(AnnounceToken(track, tokens[0]), TokenActions(track, tokens[1..]), rest);
      assert ([AnnounceToken(track, tokens[0])] + (TokenActions(track, tokens[1..]) + rest))[1..]
          == TokenActions(track, tokens[1..]) + rest;
    }
  }

  lemma {:induction false} DropsAllTokens(track: Track, tokens: seq<string>, rest: Plan)
    ensures DropTokens(TokenActions(track, tokens) + rest) == DropTokens(rest)
  {
    if tokens == [] {
      assert TokenActions(track, tokens) + rest == rest;
    } else {
      ConsConcat(AnnounceToken(track, tokens[0]), TokenActions(track, tokens[1..]), rest);
      assert ([AnnounceToken(track, tokens[0])] + (TokenActions(track, tokens[1..]) + rest))[1..]
          == TokenActions(track, tokens[1..]) + rest;
      DropsAllTokens(track, tokens[1..], rest);
    }
  }

  /** Neither saving nor indexing matters here. */
  lemma OtherFirst(records: set<string>, refused: set<string>, a: Action, rest: Plan)
    requires (a.Save? || a.UpdateIndex?) && Backed(records, refused, rest)
    ensures Backed(records, refused, [a] + rest)
  {
    assert ([a] + rest)[1..] == rest;
  }

  lemma CtidBacked(records: set<string>, refused: set<string>, track: Track, onFailure: OnFailure, tokens: seq<string>, rest: Plan)
    requires Backed(records, refused, rest)
    ensures Backed(records, refused, [AnnounceCtid(track, onFailure)] + (TokenActions(track, tokens) + rest))
  {
    var tail := TokenActions(track, tokens) + rest;
    var taken := records + {CidOf(track.ctid)};
    BackedMonotone(records, taken, refused, refused, rest);
    TokensBacked(taken, refused, track, tokens, rest);
    BackedMonotone(records, records, refused, refused + {track.ctid}, rest);
    TokensBacked(records, refused + {track.ctid}, track, tokens, rest);
    DropsAllTokens(track, tokens, rest);
    DropTokensBacked(records, refused, rest);
    assert ([AnnounceCtid(track, onFailure)] + tail)[1..] == tail;
  }

  // ---- The operations ----

  lemma ShareTailBacked(w: World, records: set<string>, refused: set<string>, track: Track)
    ensures Backed(records, refused, ShareTail(w, track))
  {
    if track.ctid != "" && track.recognized {
      var tokens := Tokens(w.low, track.title + " " + track.artist);
      var last := [UpdateIndex(track)];
      assert last[1..] == [];
      CtidBacked(records, refused, track, Abort, tokens, last);
      ConsConcat(AnnounceCtid(track, Abort), TokenActions(track, tokens), last);
    }
  }

  lemma ProcessPlanBacked(w: World, records: set<string>, refused: set<string>, track: Track, rest: Plan)
    requires ValidWorld(w) && w.ctidOf(track.path).Some?
    requires rest == [] || (|rest| == 1 && rest[0].Reload?)
    ensures Backed(records, refused, ProcessPlan(w, track) + rest)
  {
    var ctid := w.ctidOf(track.path).value;
    assert IsDigest(ctid);
    var done := track.(ctid := ctid);
    var hook := CtidPart(done) + HookPlan(w, done);
    if done.recognized {
      var tokens := Tokens(w.low, done.title + " " + done.artist);
      HookBacked(records, refused, done, tokens, rest);
      Assoc([AnnounceCtid(done, Ignore)], [UpdateIndex(done)] + TokenActions(done, tokens), rest);
      ConsConcat(UpdateIndex(done), TokenActions(done, tokens), rest);
    } else {
      assert hook + rest == rest;
    }
    OtherFirst(records, refused, Save(done), hook + rest);
    ConsConcat(Save(done), hook, rest);
  }

  /** The announcement of the CTID, the index update and the tokens. */
  lemma HookBacked(records: set<string>, refused: set<string>, done: Track, tokens: seq<string>, rest: Plan)
    requires Backed(records, refused, rest)
    ensures Backed(records, refused, [AnnounceCtid(done, Ignore)] + ([UpdateIndex(done)] + (TokenActions(done, tokens) + rest)))
  {
    var tail := TokenActions(done, tokens) + rest;
    var taken, gone := records + {CidOf(done.ctid)}, refused + {done.ctid};
    BackedMonotone(records, taken, refused, refused, rest);
    TokensBacked(taken, refused, done, tokens, rest);
    OtherFirst(taken, refused, UpdateIndex(done), tail);
    BackedMonotone(records, records, refused, gone, rest);
    TokensBacked(records, gone, done, tokens, rest);
    OtherFirst(records, gone, UpdateIndex(done), tail);
    assert ([AnnounceCtid(done, Ignore)] + ([UpdateIndex(done)] + tail))[1..] == [UpdateIndex(done)] + tail;
  }

  lemma SharePlanBacked(w: World, records: set<string>, refused: set<string>, store: Tracks, id: string)
    requires ValidWorld(w)
    ensures Backed(records, refused, SharePlan(w, store, id))
  {
    if id in store {
      if store[id].ctid != "" {
        ShareTailBacked(w, records, refused, store[id]);
      } else if w.ctidOf(store[id].path).Some? {
        var reload := Reload(id, store[id].(ctid := w.ctidOf(store[id].path).value));
        assert [reload][1..] == [];
        ProcessPlanBacked(w, records, refused, store[id], [reload]);
      }
    }
  }

  lemma {:induction false} AnnouncePlanBacked(w: World, records: set<string>, refused: set<string>, listing: seq<Track>)
    ensures Backed(records, refused, AnnouncePlan(w, listing))
    decreases |listing|
  {
    if listing != [] {
      var track, rest := listing[0], AnnouncePlan(w, listing[1..]);
      AnnouncePlanBacked(w, records, refused, listing[1..]);
      if Indexable(track) {
        var tokens := Tokens(w.low, track.title + " " + track.artist);
        CtidBacked(records, refused, track, SkipTrack, tokens, rest);
        OtherFirst(records, refused, UpdateIndex(track), [AnnounceCtid(track, SkipTrack)] + (TokenActions(track, tokens) + rest));
        ConsConcat(UpdateIndex(track), [AnnounceCtid(track, SkipTrack)] + TokenActions(track, tokens), rest);
        ConsConcat(AnnounceCtid(track, SkipTrack), TokenActions(track, tokens), rest);
      } else {
        assert AnnouncePlan(w, listing) == rest;
      }
    }
  }

  // ---- Every run ----

  /** Whatever was announced under tokens is covered, and stays so. */
  ghost predicate AllCovered(s: System, refused: set<string>) {
    && (forall m :: m in s.state.marks ==> Covered(s.state.records, refused, m.ctid))
    && (forall op :: op in s.ops ==> Backed(s.state.records, refused, s.ops[op]))
  }

  lemma {:induction false} RunsCoverAnnounced(w: World, run: seq<Event>)
    requires ValidWorld(w)
    ensures AllCovered(After(w, run), RefusedCtids(w, run))
  {
    if run != [] {
      var front := run[..|run| - 1];
      RunsCoverAnnounced(w, front);
      RunsKeepOk(w, front);
      EventKeepsCovered(w, After(w, front), run[|run| - 1], RefusedCtids(w, front));
    }
  }

  lemma EventKeepsCovered(w: World, s: System, e: Event, refused: set<string>)
    requires ValidWorld(w) && SystemOk(w, s) && AllCovered(s, refused)
    ensures AllCovered(Apply(w, s, e), refused + RefusedBy(s, e))
  {
    assert !e.Advance? || !Enabled(s, e) ==> refused + RefusedBy(s, e) == refused;
    if Enabled(s, e) {
      match e
      case Share(op, id) => SharePlanBacked(w, s.state.records, refused, s.state.store, id);
      case Process(op, track) =>
        if w.ctidOf(track.path).Some? {
          ProcessPlanBacked(w, s.state.records, refused, track, []);
          assert ProcessPlan(w, track) + [] == ProcessPlan(w, track);
        }
      case AnnounceAll(op, listing) => AnnouncePlanBacked(w, s.state.records, refused, listing);
      case Advance(op, ok) =>
        StepKeepsCovered(w, s, op, ok, refused);
      case _ =>
    }
  }

  lemma StepKeepsCovered(w: World, s: System, op: nat, ok: bool, refused: set<string>)
    requires ValidWorld(w) && SystemOk(w, s) && AllCovered(s, refused) && op in s.ops && s.ops[op] != []
    ensures AllCovered(Apply(w, s, Advance(op, ok)), refused + RefusedBy(s, Advance(op, ok)))
  {
    var s', refused' := Apply(w, s, Advance(op, ok)), refused + RefusedBy(s, Advance(op, ok));
    StepKeepsOk(w, s.state, s.ops[op], ok);
    StepBacked(w, s.state, s.ops[op], ok, refused, refused');
    forall o | o in s'.ops
      ensures Backed(s'.state.records, refused', s'.ops[o])
    {
      if o != op {
        BackedMonotone(s.state.records, s'.state.records, refused, refused', s.ops[o]);
      }
    }
  }

  ghost predicate StepCovered(s: State, s': State, refused: set<string>, plan': Plan) {
    && s.records <= s'.records && Backed(s'.records, refused, plan')
    && forall m :: m in s'.marks && m !in s.marks ==> Covered(s'.records, refused, m.ctid)
  }

  lemma StepBacked(w: World, s: State, plan: Plan, ok: bool, refused: set<string>, refused': set<string>)
    requires ValidWorld(w) && StateOk(w, s) && plan != [] && PlanOk(w, s.store, s.index, plan)
    requires Backed(s.records, refused, plan)
    requires refused' == refused + if !ok && plan[0].AnnounceCtid? && plan[0].onFailure == Ignore then {plan[0].track.ctid} else {}
    ensures StepCovered(s, Step(w, s, plan, ok).0, refused', Step(w, s, plan, ok).1)
  {
    if plan[0].AnnounceCtid? {
      assert IsDigest(plan[0].track.ctid);
      CtidStepBacked(w, s, plan, ok, refused, refused');
    } else {
      assert refused' == refused;
      OtherStepBacked(w, s, plan, ok, refused);
    }
  }

  lemma CtidStepBacked(w: World, s: State, plan: Plan, ok: bool, refused: set<string>, refused': set<string>)
    requires plan != [] && plan[0].AnnounceCtid? && IsDigest(plan[0].track.ctid) && Backed(s.records, refused, plan)
    requires refused' == refused + if !ok && plan[0].onFailure == Ignore then {plan[0].track.ctid} else {}
    ensures StepCovered(s, Step(w, s, plan, ok).0, refused', Step(w, s, plan, ok).1)
  {
    assert ok || plan[0].onFailure != Ignore ==> refused' == refused;
  }

  lemma OtherStepBacked(w: World, s: State, plan: Plan, ok: bool, refused: set<string>)
    requires plan != [] && !plan[0].AnnounceCtid? && Backed(s.records, refused, plan)
    ensures StepCovered(s, Step(w, s, plan, ok).0, refused, Step(w, s, plan, ok).1)
  {
    var (s', plan') := Step(w, s, plan, ok);
    match plan[0]
    case AnnounceToken(_, _) => BackedMonotone(s.records, s'.records, refused, refused, plan');
    case Reload(id, track) =>
      var found := if id in s.store then s.store[id] else track;
      assert ShareTail(w, found) + plan[1..] == ShareTail(w, found);
      ShareTailBacked(w, s.records, refused, found);
    case _ =>
  }

  /** At any moment of any run, the CTID behind an announced token has a provider record too,
      unless its announcement was refused while the track was being processed. */
  lemma AnnouncedIsProvided(w: World, run: seq<Event>, m: Mark)
    requires ValidWorld(w) && m in After(w, run).state.marks
    ensures CidOf(m.ctid) in After(w, run).state.records || m.ctid in RefusedCtids(w, run)
  {
    RunsCoverAnnounced(w, run);
  }

  // ---- When it is refused ----

  /** No token of the track shares its DHT key with the CTID. */
  ghost predicate NoSharedKey(w: World, track: Track, ctid: string) {
    forall t :: t in Tokens(w.low, track.title + " " + track.artist) ==> CidOf(w.hash(t)) != CidOf(ctid)
  }

  lemma {:induction false} TokensKeepRecord(w: World, s: State, track: Track, tokens: seq<string>, oks: seq<bool>, r: string)
    requires forall t :: t in tokens ==> CidOf(w.hash(t)) != r
    ensures r in Exec(w, s, TokenActions(track, tokens), oks).0.records <==> r in s.records
    decreases |oks|
  {
    if oks != [] && tokens != [] {
      var plan := TokenActions(track, tokens);
      var s' := Step(w, s, plan, oks[0]).0;
      assert plan[1..] == TokenActions(track, tokens[1..]);
      assert tokens[0] in tokens;
      TokensKeepRecord(w, s', track, tokens[1..], oks[1..], r);
    }
  }

  /** The process operation of a recognised track after it was saved. */
  lemma AfterSave(w: World, s: State, track: Track, oks: seq<bool>)
    requires track.recognized && w.ctidOf(track.path).Some? && |oks| >= 1 && oks[0]
    ensures var done := track.(ctid := w.ctidOf(track.path).value);
      Exec(w, s, ProcessPlan(w, track), oks)
      == Exec(w, s.(store := s.store[done.id := done]), [AnnounceCtid(done, Ignore)] + HookPlan(w, done), oks[1..])
  {
    var done := track.(ctid := w.ctidOf(track.path).value);
    assert ProcessPlan(w, track)[1..] == [AnnounceCtid(done, Ignore)] + HookPlan(w, done);
  }

  lemma AfterCtid(w: World, s: State, done: Track, oks: seq<bool>)
    requires IsDigest(done.ctid) && |oks| >= 1
    ensures var s' := if oks[0] then
          s.(provided := s.provided + {CtidKey(done.ctid)}, records := s.records + {CidOf(done.ctid)})
        else s;
      Exec(w, s, [AnnounceCtid(done, Ignore)] + HookPlan(w, done), oks) == Exec(w, s', HookPlan(w, done), oks[1..])
  {
    assert ([AnnounceCtid(done, Ignore)] + HookPlan(w, done))[1..] == HookPlan(w, done);
  }

  lemma HookKeepsRecord(w: World, s: State, done: Track, oks: seq<bool>)
    requires NoSharedKey(w, done, done.ctid)
    ensures CidOf(done.ctid) in Exec(w, s, HookPlan(w, done), oks).0.records <==> CidOf(done.ctid) in s.records
  {
    var tokens := Tokens(w.low, done.title + " " + done.artist);
    if oks != [] && Indexable(done) {
      var s' := s.(index := Updated(w.low, s.index, done));
      assert HookPlan(w, done)[1..] == TokenActions(done, tokens);
      TokensKeepRecord(w, s', done, tokens, oks[1..], CidOf(done.ctid));
    }
  }

  /** Exactly when processing a recognised track, once it is saved, leaves a provider record for
      its CTID: when the network takes that one announcement. Whatever it answers for the tokens
      does not matter. */
  lemma ProcessProvidesIff(w: World, s: State, track: Track, oks: seq<bool>)
    requires ValidWorld(w) && track.recognized && w.ctidOf(track.path).Some?
    requires var ctid := w.ctidOf(track.path).value; NoSharedKey(w, track, ctid) && CidOf(ctid) !in s.records
    requires |oks| >= 2 && oks[0]
    ensures CidOf(w.ctidOf(track.path).value) in Exec(w, s, ProcessPlan(w, track), oks).0.records <==> oks[1]
  {
    var done := track.(ctid := w.ctidOf(track.path).value);
    var s1 := s.(store := s.store[done.id := done]);
    assert IsDigest(done.ctid);
    AfterSave(w, s, track, oks);
    AfterCtid(w, s1, done, oks[1..]);
    var s2 := if oks[1] then s1.(provided := s1.provided + {CtidKey(done.ctid)}, records := s1.records + {CidOf(done.ctid)}) else s1;
    HookKeepsRecord(w, s2, done, oks[1..][1..]);
  }

  lemma {:induction false} AllTokensTaken(w: World, s: State, track: Track, tokens: seq<string>) returns (oks: seq<bool>)
    requires ValidWorld(w)
    ensures var (s', plan') := Exec(w, s, TokenActions(track, tokens), oks);
      && plan' == [] && s'.index == s.index && s.marks <= s'.marks
      && forall t :: t in tokens ==> Mark(t, track.ctid) in s'.marks
    decreases |tokens|
  {
    if tokens == [] {
      oks := [];
    } else {
      var plan := TokenActions(track, tokens);
      var s1 := Step(w, s, plan, true).0;
      assert plan[1..] == TokenActions(track, tokens[1..]);
      oks := AllTokensTaken(w, s1, track, tokens[1..]);
      ExecCons(w, s, plan, true, oks);
      oks := [true] + oks;
    }
  }

  /** So a track can be announced and answered under every token while no lookup of its CTID finds
      a provider: save taken, CTID refused, tokens taken. */
  lemma FindableWithoutProvider(w: World, s: State, track: Track) returns (oks: seq<bool>)
    requires ValidWorld(w) && track.recognized && w.ctidOf(track.path).Some?
    requires var ctid := w.ctidOf(track.path).value; NoSharedKey(w, track, ctid) && CidOf(ctid) !in s.records
    ensures var ctid := w.ctidOf(track.path).value;
      var (s', plan') := Exec(w, s, ProcessPlan(w, track), oks);
      && plan' == [] && CidOf(ctid) !in s'.records
      && forall t :: t in Tokens(w.low, track.title + " " + track.artist) ==>
          Mark(t, ctid) in s'.marks && Answerable(s'.index, Mark(t, ctid))
  {
    var done := track.(ctid := w.ctidOf(track.path).value);
    var tokens := Tokens(w.low, done.title + " " + done.artist);
    assert IsDigest(done.ctid);
    var s1 := s.(store := s.store[done.id := done]);
    var s2 := s1.(index := Updated(w.low, s1.index, done));
    var rest := AllTokensTaken(w, s2, done, tokens);
    oks := [true, false, true] + rest;
    assert oks[1..][1..] == [true] + rest;
    AfterSave(w, s, track, oks);
    AfterCtid(w, s1, done, oks[1..]);
    ExecCons(w, s1, HookPlan(w, done), true, rest);
    assert HookPlan(w, done)[1..] == TokenActions(done, tokens);
    ProcessProvidesIff(w, s, track, oks);
    forall t | t in tokens
      ensures Answerable(s2.index, Mark(t, done.ctid))
    {
      AnnouncedTokensAreIndexed(w.low, done, t);
      UpdatedEntry(w.low, s1.index, done, t);
    }
  }
}
