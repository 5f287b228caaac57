/** What operations leave behind when they complete, among other operations: the periodic announce
    rebuilds the index after a restart, and shares, processing and announces of which nothing is
    refused leave all their announcements. */
module Repair {
  import opened Sequences
  import opened Text
  import opened Library
  import opened TokenIndex
  import opened Node
  import opened Runs

  // ---- Operations that cannot abort ----

  ghost predicate NeverAborts(plan: Plan) {
    forall a :: a in plan ==> !a.Save? && !a.Reload? && (a.AnnounceCtid? ==> a.onFailure != Abort)
  }

  lemma {:induction false} DropTokensKeeps(plan: Plan, a: Action)
    requires NeverAborts(plan) && !a.AnnounceToken?
    ensures NeverAborts(DropTokens(plan)) && (a in plan ==> a in DropTokens(plan))
  {
    if plan != [] && plan[0].AnnounceToken? {
      DropTokensKeeps(plan[1..], a);
    }
  }

  /** The plan will list the track under its token, or that is done. */
  ghost predicate WillIndex(index: Index, plan: Plan, track: Track, m: Mark) {
    NeverAborts(plan) && (UpdateIndex(track) in plan || Answerable(index, m))
  }

  lemma AnswersStay(w: World, s: State, plan: Plan, ok: bool, m: Mark)
    requires plan != [] && Answerable(s.index, m)
    ensures Answerable(Step(w, s, plan, ok).0.index, m)
  {
    if plan[0].UpdateIndex? {
      UpdatedEntry(w.low, s.index, plan[0].track, m.token);
    }
  }

  lemma StepIndexes(w: World, s: State, plan: Plan, ok: bool, track: Track, m: Mark)
    requires Contributes(w.low, track, m.token) && track.ctid == m.ctid
    requires plan != [] && WillIndex(s.index, plan, track, m)
    ensures WillIndex(Step(w, s, plan, ok).0.index, Step(w, s, plan, ok).1, track, m)
  {
    DropTokensKeeps(plan[1..], UpdateIndex(track));
    if plan[0].UpdateIndex? {
      UpdatedEntry(w.low, s.index, plan[0].track, m.token);
    }
  }

  /** An operation that cannot abort and runs alone makes all its index updates, whatever the
      network answers. */
  lemma {:induction false} ExecIndexes(w: World, s: State, plan: Plan, oks: seq<bool>, track: Track, m: Mark)
    requires Contributes(w.low, track, m.token) && track.ctid == m.ctid
    requires WillIndex(s.index, plan, track, m) && Exec(w, s, plan, oks).1 == []
    ensures Answerable(Exec(w, s, plan, oks).0.index, m)
    decreases |oks|
  {
    if oks != [] && plan != [] {
      var (s', plan') := Step(w, s, plan, oks[0]);
      StepIndexes(w, s, plan, oks[0], track, m);
      ExecIndexes(w, s', plan', oks[1..], track, m);
    }
  }

  lemma EventKeepsWillIndex(w: World, s: System, e: Event, op: nat, track: Track, m: Mark)
    requires Contributes(w.low, track, m.token) && track.ctid == m.ctid
    requires op in s.ops && WillIndex(s.state.index, s.ops[op], track, m) && e != Restart
    ensures var s' := Apply(w, s, e); op in s'.ops && WillIndex(s'.state.index, s'.ops[op], track, m)
  {
    if Enabled(s, e) && e.Advance? {
      if e.op == op {
        StepIndexes(w, s.state, s.ops[op], e.ok, track, m);
      } else if Answerable(s.state.index, m) {
        AnswersStay(w, s.state, s.ops[e.op], e.ok, m);
      }
    }
  }

  lemma {:induction false} RunKeepsWillIndex(w: World, run: seq<Event>, more: seq<Event>, op: nat, track: Track, m: Mark)
    requires Contributes(w.low, track, m.token) && track.ctid == m.ctid && Restart !in more
    requires var s := After(w, run); op in s.ops && WillIndex(s.state.index, s.ops[op], track, m)
    ensures var s := After(w, run + more); op in s.ops && WillIndex(s.state.index, s.ops[op], track, m)
  {
    if more == [] {
      assert run + more == run;
    } else {
      var front, last := more[..|more| - 1], more[|more| - 1];
      RunKeepsWillIndex(w, run, front, op, track, m);
      SplitLast(run, more);
      AfterSnoc(w, run + front, last);
      EventKeepsWillIndex(w, After(w, run + front), last, op, track, m);
    }
  }

  lemma SplitLast(run: seq<Event>, more: seq<Event>)
    requires more != []
    ensures run + more == (run + more[..|more| - 1]) + [more[|more| - 1]]
    ensures forall e :: e in more[..|more| - 1] ==> e in more
  {
  }

  /** An operation that cannot abort makes all its index updates by the time it is done, whatever
      the network answers and whatever other operations do meanwhile, unless the node restarts. */
  lemma FinishedPlanIndexed(w: World, run: seq<Event>, more: seq<Event>, op: nat, track: Track, m: Mark)
    requires op in After(w, run).ops && NeverAborts(After(w, run).ops[op]) && UpdateIndex(track) in After(w, run).ops[op]
    requires Contributes(w.low, track, m.token) && track.ctid == m.ctid && Restart !in more
    requires op in After(w, run + more).ops ==> After(w, run + more).ops[op] == []
    ensures Answerable(After(w, run + more).state.index, m)
  {
    RunKeepsWillIndex(w, run, more, op, track, m);
  }

  // ---- The announce plan ----

  lemma {:induction false} TokenActionsOnly(track: Track, tokens: seq<string>)
    ensures forall a :: a in TokenActions(track, tokens) <==> a.AnnounceToken? && a.track == track && a.token in tokens
  {
    if tokens != [] {
      TokenActionsOnly(track, tokens[1..]);
    }
  }

  /** The plan indexes the track and announces its CTID and all its tokens. */
  ghost predicate Announces(w: World, plan: Plan, track: Track) {
    && UpdateIndex(track) in plan && (exists onFailure :: AnnounceCtid(track, onFailure) in plan)
    && forall t :: IsTrackToken(w.low, track, t) ==> AnnounceToken(track, t) in plan
  }

  lemma AnnounceOneShape(w: World, track: Track)
    ensures NeverAborts(AnnounceOne(w, track))
    ensures Indexable(track) ==> Announces(w, AnnounceOne(w, track), track)
  {
    AnnounceTokensShape(w, track);
    if Indexable(track) {
      assert AnnounceCtid(track, SkipTrack) in AnnounceOne(w, track);
    }
  }

  lemma AnnounceTokensShape(w: World, track: Track)
    ensures forall a :: a in AnnounceTokens(w, track) ==> a.AnnounceToken?
    ensures forall t :: IsTrackToken(w.low, track, t) ==> AnnounceToken(track, t) in AnnounceTokens(w, track)
  {
    TokenActionsOnly(track, Tokens(w.low, track.title + " " + track.artist));
    forall t | IsTrackToken(w.low, track, t)
      ensures t in Tokens(w.low, track.title + " " + track.artist)
    {
      AnnouncedTokensAreIndexed(w.low, track, t);
    }
  }

  lemma {:induction false} AnnouncePlanShape(w: World, listing: seq<Track>)
    ensures NeverAborts(AnnouncePlan(w, listing))
    ensures forall track :: track in listing && Indexable(track) ==> Announces(w, AnnouncePlan(w, listing), track)
  {
    if listing != [] {
      AnnouncePlanShape(w, listing[1..]);
      AnnounceOneShape(w, listing[0]);
    }
  }

  /** One complete announce that runs alone makes every token of every shareable track answerable. */
  lemma AnnounceAloneRebuildsIndex(w: World, s: State, listing: seq<Track>, oks: seq<bool>, track: Track, token: string)
    requires Lists(listing, s.store) && Exec(w, s, AnnouncePlan(w, listing), oks).1 == []
    requires Sharable(s.store, track) && IsTrackToken(w.low, track, token)
    ensures Answerable(Exec(w, s, AnnouncePlan(w, listing), oks).0.index, Mark(token, track.ctid))
  {
    AnnouncePlanShape(w, listing);
    ExecIndexes(w, s, AnnouncePlan(w, listing), oks, track, Mark(token, track.ctid));
  }

  /** The announce just after its start, which finds every shareable track. */
  lemma AnnounceStarted(w: World, start: seq<Event>, op: nat, listing: seq<Track>, track: Track)
    requires Enabled(After(w, start), AnnounceAll(op, listing)) && Sharable(After(w, start).state.store, track)
    ensures var s := After(w, start + [AnnounceAll(op, listing)]);
      op in s.ops && NeverAborts(s.ops[op]) && Announces(w, s.ops[op], track)
  {
    AfterSnoc(w, start, AnnounceAll(op, listing));
    AnnouncePlanShape(w, listing);
  }

  /** The announce is complete: the run starts it after `start` and goes on without a restart until
      none of its actions is left, in between whatever other operations do. */
  ghost predicate Complete(w: World, start: seq<Event>, op: nat, listing: seq<Track>, more: seq<Event>) {
    && Enabled(After(w, start), AnnounceAll(op, listing)) && Restart !in more
    && var s := After(w, start + [AnnounceAll(op, listing)] + more);
      op in s.ops ==> s.ops[op] == []
  }

  /** A complete announce makes every token of every track that was shareable at its start
      answerable, also after a restart and whatever the network answers. */
  lemma AnnounceRebuildsIndex(w: World, start: seq<Event>, op: nat, listing: seq<Track>, more: seq<Event>,
                              track: Track, token: string)
    requires Complete(w, start, op, listing, more)
    requires Sharable(After(w, start).state.store, track) && IsTrackToken(w.low, track, token)
    ensures Answerable(After(w, start + [AnnounceAll(op, listing)] + more).state.index, Mark(token, track.ctid))
  {
    AnnounceStarted(w, start, op, listing, track);
    FinishedPlanIndexed(w, start + [AnnounceAll(op, listing)], more, op, track, Mark(token, track.ctid));
  }

  // ---- Index first ----

  /** The plan announces tokens only of tracks that are listed under them by then. */
  ghost predicate IndexedFirst(w: World, index: Index, plan: Plan)
    decreases |plan|
  {
    plan == [] ||
    var rest := plan[1..];
    match plan[0]
    case AnnounceToken(track, t) => Answerable(index, Mark(t, track.ctid)) && IndexedFirst(w, index, rest)
    case UpdateIndex(track) => IndexedFirst(w, Updated(w.low, index, track), rest)
    case AnnounceCtid(_, onFailure) => onFailure != Abort && IndexedFirst(w, index, rest)
    case _ => false
  }

  lemma {:induction false} TokensAfterIndex(w: World, index: Index, track: Track, tokens: seq<string>, rest: Plan)
    requires forall t :: t in tokens ==> Answerable(index, Mark(t, track.ctid))
    requires IndexedFirst(w, index, rest)
    ensures IndexedFirst(w, index, TokenActions(track, tokens) + rest)
  {
    if tokens == [] {
      assert TokenActions(track, tokens) + rest == rest;
    } else {
      TokensAfterIndex(w, index, track, tokens[1..], rest);
      ConsConcat(AnnounceToken(track, tokens[0]), TokenActions(track, tokens[1..]), rest);
      assert ([AnnounceToken(track, tokens[0])] + (TokenActions(track, tokens[1..]) + rest))[1..]
          == TokenActions(track, tokens[1..]) + rest;
    }
  }

  lemma AnnounceOneIndexesFirst(w: World, index: Index, track: Track, rest: Plan)
    requires Indexable(track) && IndexedFirst(w, Updated(w.low, index, track), rest)
    ensures IndexedFirst(w, index, AnnounceOne(w, track) + rest)
  {
    var tokens := Tokens(w.low, track.title + " " + track.artist);
    var index' := Updated(w.low, index, track);
    var tail := TokenActions(track, tokens) + rest;
    forall t | t in tokens
      ensures Answerable(index', Mark(t, track.ctid))
    {
      AnnouncedTokensAreIndexed(w.low, track, t);
      UpdatedEntry(w.low, index, track, t);
    }
    TokensAfterIndex(w, index', track, tokens, rest);
    var ctid := AnnounceCtid(track, SkipTrack);
    assert ([ctid] + tail)[1..] == tail;
    assert ([UpdateIndex(track)] + ([ctid] + tail))[1..] == [ctid] + tail;
    ConsConcat(UpdateIndex(track), [ctid] + TokenActions(track, tokens), rest);
    ConsConcat(ctid, TokenActions(track, tokens), rest);
  }

  lemma {:induction false} AnnouncePlanIndexesFirst(w: World, index: Index, listing: seq<Track>)
    ensures IndexedFirst(w, index, AnnouncePlan(w, listing))
    decreases |listing|
  {
    if listing != [] {
      AnnouncePlanIndexesFirst(w, if Indexable(listing[0]) then Updated(w.low, index, listing[0]) else index, listing[1..]);
      if Indexable(listing[0]) {
        AnnounceOneIndexesFirst(w, index, listing[0], AnnouncePlan(w, listing[1..]));
      } else {
        assert AnnouncePlan(w, listing) == AnnouncePlan(w, listing[1..]);
      }
    }
  }

  lemma {:induction false} DropTokensIndexedFirst(w: World, index: Index, plan: Plan)
    requires IndexedFirst(w, index, plan)
    ensures IndexedFirst(w, index, DropTokens(plan))
  {
    if plan != [] && plan[0].AnnounceToken? {
      DropTokensIndexedFirst(w, index, plan[1..]);
    }
  }

  /** Unlike a share, the periodic announce indexes a track before it announces its tokens: however
      far it has come, all that it announced is answerable. */
  lemma AnnounceNeverOwes(w: World, s: State, listing: seq<Track>, oks: seq<bool>)
    ensures var s' := Exec(w, s, AnnouncePlan(w, listing), oks).0;
      forall m :: m in s'.announced && m !in s.announced ==> Answerable(s'.index, m)
  {
    AnnouncePlanIndexesFirst(w, s.index, listing);
    IndexedFirstNeverOwes(w, s, AnnouncePlan(w, listing), oks, s.announced);
  }

  lemma {:induction false} IndexedFirstNeverOwes(w: World, s: State, plan: Plan, oks: seq<bool>, before: set<Mark>)
    requires IndexedFirst(w, s.index, plan)
    requires forall m :: m in s.announced && m !in before ==> Answerable(s.index, m)
    ensures var s' := Exec(w, s, plan, oks).0;
      forall m :: m in s'.announced && m !in before ==> Answerable(s'.index, m)
    decreases |oks|
  {
    if oks != [] && plan != [] {
      var (s', plan') := Step(w, s, plan, oks[0]);
      if plan[0].AnnounceCtid? {
        DropTokensIndexedFirst(w, s.index, plan[1..]);
      }
      forall m | m in s'.announced && m !in before
        ensures Answerable(s'.index, m)
      {
        if Answerable(s.index, m) {
          AnswersStay(w, s, plan, oks[0], m);
        }
      }
      IndexedFirstNeverOwes(w, s', plan', oks[1..], before);
    }
  }

  // ---- Operations of which nothing is refused ----

  ghost predicate CtidAnnounced(s: State, track: Track) {
    CtidKey(track.ctid) in s.provided && CidOf(track.ctid) in s.records
  }

  ghost predicate TokenAnnounced(w: World, s: State, track: Track, t: string) {
    && Mark(t, track.ctid) in s.announced
    && TokenKey(w.hash(t)) in s.provided && CidOf(w.hash(t)) in s.records
  }

  /** What an action leaves behind when it is taken. */
  ghost predicate Done(w: World, s: State, a: Action) {
    match a
    case Save(track) => track.ctid != "" && track.id in s.store && s.store[track.id] == track
    case AnnounceCtid(track, _) => CtidAnnounced(s, track)
    case AnnounceToken(track, t) => TokenAnnounced(w, s, track, t)
    case UpdateIndex(track) =>
      forall t :: IsTrackToken(w.low, track, t) ==> Answerable(s.index, Mark(t, track.ctid))
    case Reload(_, _) => true
  }

  ghost predicate StateGrows(s: State, s': State) {
    && Grows(s.store, s'.store) && Within(s.index, s'.index)
    && s.provided <= s'.provided && s.announced <= s'.announced && s.records <= s'.records
  }

  lemma DoneStays(w: World, s: State, s': State, a: Action)
    requires StateGrows(s, s') && Done(w, s, a)
    ensures Done(w, s', a)
  {
    if a.UpdateIndex? {
      forall t | IsTrackToken(w.low, a.track, t)
        ensures Answerable(s'.index, Mark(t, a.track.ctid))
      {
        assert Answerable(s.index, Mark(t, a.track.ctid));
      }
    }
  }

  lemma StepGrows(w: World, s: State, plan: Plan, ok: bool)
    requires StateOk(w, s) && plan != [] && PlanOk(w, s.store, s.index, plan)
    ensures StateGrows(s, Step(w, s, plan, ok).0)
  {
    StepKeepsOk(w, s, plan, ok);
  }

  /** An action that is taken does its part and leaves the other ones in the plan. */
  lemma TakenStep(w: World, s: State, plan: Plan)
    requires ValidWorld(w) && StateOk(w, s) && plan != [] && PlanOk(w, s.store, s.index, plan)
    ensures var (s', plan') := Step(w, s, plan, true);
      && Done(w, s', plan[0])
      && forall a :: a in plan ==> a == plan[0] || a in plan'
  {
    match plan[0]
    case AnnounceCtid(track, _) => assert IsDigest(track.ctid);
    case UpdateIndex(track) =>
      forall t | IsTrackToken(w.low, track, t)
        ensures Answerable(Updated(w.low, s.index, track), Mark(t, track.ctid))
      {
        UpdatedEntry(w.low, s.index, track, t);
      }
    case _ =>
  }

  /** The action of an operation is done, or still to do. */
  ghost predicate WillDo(w: World, s: System, op: nat, a: Action) {
    op in s.ops && (a in s.ops[op] || Done(w, s.state, a))
  }

  /** The same for an operation that runs alone. */
  lemma {:induction false} ExecDoes(w: World, s: State, plan: Plan, oks: seq<bool>, a: Action)
    requires ValidWorld(w) && StateOk(w, s) && PlanOk(w, s.store, s.index, plan)
    requires (a in plan || Done(w, s, a)) && Exec(w, s, plan, oks).1 == [] && forall ok :: ok in oks ==> ok
    ensures Done(w, Exec(w, s, plan, oks).0, a)
    decreases |oks|
  {
    if oks != [] && plan != [] {
      assert oks[0] in oks && forall ok :: ok in oks[1..] ==> ok in oks;
      var (s', plan') := Step(w, s, plan, oks[0]);
      StepKeepsOk(w, s, plan, oks[0]);
      StepGrows(w, s, plan, oks[0]);
      TakenStep(w, s, plan);
      if Done(w, s, a) {
        DoneStays(w, s, s', a);
      }
      ExecDoes(w, s', plan', oks[1..], a);
    }
  }

  lemma EventKeepsWillDo(w: World, s: System, e: Event, op: nat, a: Action)
    requires ValidWorld(w) && SystemOk(w, s) && WillDo(w, s, op, a)
    requires e != Restart && e != Advance(op, false)
    ensures WillDo(w, Apply(w, s, e), op, a)
  {
    if Enabled(s, e) && e.Advance? {
      StepGrows(w, s.state, s.ops[e.op], e.ok);
      if Done(w, s.state, a) {
        DoneStays(w, s.state, Apply(w, s, e).state, a);
      } else if e.op == op {
        TakenStep(w, s.state, s.ops[op]);
      }
    } else if Done(w, s.state, a) {
      DoneStays(w, s.state, Apply(w, s, e).state, a);
    }
  }

  lemma {:induction false} RunKeepsWillDo(w: World, run: seq<Event>, more: seq<Event>, op: nat, a: Action)
    requires ValidWorld(w) && Restart !in more && Advance(op, false) !in more
    requires WillDo(w, After(w, run), op, a)
    ensures WillDo(w, After(w, run + more), op, a)
  {
    if more == [] {
      assert run + more == run;
    } else {
      var front, last := more[..|more| - 1], more[|more| - 1];
      SplitLast(run, more);
      RunKeepsWillDo(w, run, front, op, a);
      AfterSnoc(w, run + front, last);
      RunsKeepOk(w, run + front);
      EventKeepsWillDo(w, After(w, run + front), last, op, a);
    }
  }

  /** The CTID is announced, and each token of the track is announced and answerable. */
  ghost predicate FullyShared(w: World, s: State, track: Track) {
    && CtidAnnounced(s, track)
    && forall t :: IsTrackToken(w.low, track, t) ==>
      TokenAnnounced(w, s, track, t) && Answerable(s.index, Mark(t, track.ctid))
  }

  /** The operation runs to its end with nothing of it refused and no restart, in between whatever
      other operations do. */
  ghost predicate Unrefused(w: World, run: seq<Event>, op: nat, more: seq<Event>) {
    && Restart !in more && Advance(op, false) !in more
    && var ops := After(w, run + more).ops;
      op in ops ==> ops[op] == []
  }

  lemma UnrefusedIsDone(w: World, run: seq<Event>, op: nat, more: seq<Event>, a: Action)
    requires ValidWorld(w) && Unrefused(w, run, op, more) && op in After(w, run).ops && a in After(w, run).ops[op]
    ensures Done(w, After(w, run + more).state, a)
  {
    RunKeepsWillDo(w, run, more, op, a);
  }

  lemma UnrefusedShares(w: World, run: seq<Event>, op: nat, more: seq<Event>, track: Track)
    requires ValidWorld(w) && Unrefused(w, run, op, more)
    requires op in After(w, run).ops && Announces(w, After(w, run).ops[op], track)
    ensures FullyShared(w, After(w, run + more).state, track)
  {
    var plan := After(w, run).ops[op];
    var onFailure :| AnnounceCtid(track, onFailure) in plan;
    UnrefusedIsDone(w, run, op, more, AnnounceCtid(track, onFailure));
    UnrefusedIsDone(w, run, op, more, UpdateIndex(track));
    forall t | IsTrackToken(w.low, track, t)
      ensures TokenAnnounced(w, After(w, run + more).state, track, t)
    {
      UnrefusedIsDone(w, run, op, more, AnnounceToken(track, t));
    }
  }

  lemma ExecShares(w: World, s: State, plan: Plan, oks: seq<bool>, track: Track)
    requires ValidWorld(w) && StateOk(w, s) && PlanOk(w, s.store, s.index, plan)
    requires Announces(w, plan, track) && Exec(w, s, plan, oks).1 == [] && forall ok :: ok in oks ==> ok
    ensures FullyShared(w, Exec(w, s, plan, oks).0, track)
  {
    var onFailure :| AnnounceCtid(track, onFailure) in plan;
    ExecDoes(w, s, plan, oks, AnnounceCtid(track, onFailure));
    ExecDoes(w, s, plan, oks, UpdateIndex(track));
    forall t | IsTrackToken(w.low, track, t)
      ensures TokenAnnounced(w, Exec(w, s, plan, oks).0, track, t)
    {
      ExecDoes(w, s, plan, oks, AnnounceToken(track, t));
    }
  }

  /** A complete announce of which nothing is refused leaves, for every track that was shareable at
      its start, a provider record of the CTID and an announcement of each of its tokens, whatever
      was refused before. */
  lemma AnnounceRestoresRecords(w: World, start: seq<Event>, op: nat, listing: seq<Track>, more: seq<Event>, track: Track)
    requires ValidWorld(w) && Enabled(After(w, start), AnnounceAll(op, listing))
    requires Unrefused(w, start + [AnnounceAll(op, listing)], op, more)
    requires Sharable(After(w, start).state.store, track)
    ensures var s := After(w, start + [AnnounceAll(op, listing)] + more).state;
      && CidOf(track.ctid) in s.records
      && forall t :: IsTrackToken(w.low, track, t) ==>
        && Mark(t, track.ctid) in s.announced && CidOf(w.hash(t)) in s.records
        && Answerable(s.index, Mark(t, track.ctid))
  {
    AnnounceStarted(w, start, op, listing, track);
    UnrefusedShares(w, start + [AnnounceAll(op, listing)], op, more, track);
  }

  // ---- Sharing and processing ----

  lemma ShareTailShape(w: World, track: Track)
    requires track.ctid != "" && track.recognized
    ensures Announces(w, ShareTail(w, track), track)
  {
    AnnounceTokensShape(w, track);
    assert AnnounceCtid(track, Abort) in ShareTail(w, track);
  }

  lemma ProcessPlanShape(w: World, track: Track)
    requires track.recognized && w.ctidOf(track.path).Some? && w.ctidOf(track.path).value != ""
    ensures var done := track.(ctid := w.ctidOf(track.path).value);
      Save(done) in ProcessPlan(w, track) && Announces(w, ProcessPlan(w, track), done)
  {
    var done := track.(ctid := w.ctidOf(track.path).value);
    AnnounceTokensShape(w, done);
    assert AnnounceCtid(done, Ignore) in ProcessPlan(w, track);
  }

  /** A recognised track that has its CTID or can be processed. */
  ghost predicate CanShare(w: World, tracks: Tracks, id: string) {
    && id in tracks && tracks[id].recognized
    && (tracks[id].ctid != "" || w.ctidOf(tracks[id].path).Some?)
  }

  /** The track as it is when it has its CTID. */
  ghost function Ready(w: World, track: Track): Track {
    if track.ctid == "" && w.ctidOf(track.path).Some? then track.(ctid := w.ctidOf(track.path).value) else track
  }

  lemma SharePlanShape(w: World, store: Tracks, id: string)
    requires ValidWorld(w) && CanShare(w, store, id)
    ensures var track := Ready(w, store[id]);
      && Announces(w, SharePlan(w, store, id), track)
      && (store[id].ctid == "" ==> Save(track) in SharePlan(w, store, id))
  {
    if store[id].ctid != "" {
      ShareTailShape(w, store[id]);
    } else {
      assert IsDigest(w.ctidOf(store[id].path).value);
      ProcessPlanShape(w, store[id]);
      var track := Ready(w, store[id]);
      var onFailure :| AnnounceCtid(track, onFailure) in ProcessPlan(w, store[id]);
      assert AnnounceCtid(track, onFailure) in SharePlan(w, store, id);
    }
  }

  /** Sharing announces: when a share of a track that can be shared runs to its end with nothing of
      it refused, whatever other operations do meanwhile, the track has its CTID and is announced
      under it and under each of its tokens, and answerable. */
  lemma ShareAnnounces(w: World, start: seq<Event>, op: nat, id: string, more: seq<Event>)
    requires ValidWorld(w) && op !in After(w, start).ops && CanShare(w, After(w, start).state.store, id)
    requires Unrefused(w, start + [Share(op, id)], op, more)
    ensures var s := After(w, start + [Share(op, id)] + more).state;
      && id in s.store && s.store[id].recognized && s.store[id].ctid != ""
      && CidOf(s.store[id].ctid) in s.records && CtidKey(s.store[id].ctid) in s.provided
      && forall t :: IsTrackToken(w.low, s.store[id], t) ==>
        && Mark(t, s.store[id].ctid) in s.announced
        && TokenKey(w.hash(t)) in s.provided && CidOf(w.hash(t)) in s.records
        && Answerable(s.index, Mark(t, s.store[id].ctid))
  {
    var run := start + [Share(op, id)];
    var store := After(w, start).state.store;
    var track := Ready(w, store[id]);
    AfterSnoc(w, start, Share(op, id));
    SharePlanShape(w, store, id);
    UnrefusedShares(w, run, op, more, track);
    RunsKeepOk(w, start);
    if store[id].ctid == "" {
      assert IsDigest(track.ctid);
      UnrefusedIsDone(w, run, op, more, Save(track));
    } else {
      assert (run + more)[..|run|] == run;
      RunGrows(w, run + more, |run|);
    }
  }

  /** So does processing, for a recognised track. */
  lemma ProcessAnnounces(w: World, start: seq<Event>, op: nat, track: Track, more: seq<Event>)
    requires ValidWorld(w) && Enabled(After(w, start), Process(op, track)) && track.recognized
    requires w.ctidOf(track.path).Some? && Unrefused(w, start + [Process(op, track)], op, more)
    ensures var s := After(w, start + [Process(op, track)] + more).state;
      var ctid := w.ctidOf(track.path).value;
      && track.id in s.store && s.store[track.id] == track.(ctid := ctid)
      && CidOf(ctid) in s.records && CtidKey(ctid) in s.provided
      && forall t :: IsTrackToken(w.low, track, t) ==>
        && Mark(t, ctid) in s.announced
        && TokenKey(w.hash(t)) in s.provided && CidOf(w.hash(t)) in s.records
        && Answerable(s.index, Mark(t, ctid))
  {
    var run := start + [Process(op, track)];
    var done := track.(ctid := w.ctidOf(track.path).value);
    assert IsDigest(done.ctid);
    AfterSnoc(w, start, Process(op, track));
    ProcessPlanShape(w, track);
    UnrefusedShares(w, run, op, more, done);
    UnrefusedIsDone(w, run, op, more, Save(done));
    assert forall t :: IsTrackToken(w.low, track, t) <==> IsTrackToken(w.low, done, t);
  }
}
