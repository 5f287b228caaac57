/** The daemon: its operations in imperative form. Each is proved to do exactly what its plan in
    module Node does when it runs alone. */
module Daemon {
  import opened Options
  import opened Sequences
  import opened Text
  import opened Library
  import opened TokenIndex
  import opened Node
  import opened Runs
  import opened Repair
  import opened Dht
  import opened Search

  datatype ShareError = NotFound | ProcessingFailed | NotRecognized | CtidNotProvided

  lemma {:induction false} ExecAppend(w: World, s: State, plan: Plan, a: seq<bool>, b: seq<bool>)
    ensures Exec(w, s, plan, a + b) == Exec(w, Exec(w, s, plan, a).0, Exec(w, s, plan, a).1, b)
    decreases |a|
  {
    if a == [] {
      assert a + b == b;
    } else if plan != [] {
      var (s', plan') := Step(w, s, plan, a[0]);
      ExecAppend(w, s', plan', a[1..], b);
      ConcatHead(a, b);
    }
  }

  /** How many answers were refusals. */
  function Refused(oks: seq<bool>): nat {
    if oks == [] then 0 else Refused(oks[..|oks| - 1]) + if oks[|oks| - 1] then 0 else 1
  }

  lemma RefusedSnoc(oks: seq<bool>, ok: bool)
    ensures Refused(oks + [ok]) == Refused(oks) + if ok then 0 else 1
  {
    assert (oks + [ok])[..|oks|] == oks;
  }

  lemma {:induction false} RefusedAppend(a: seq<bool>, b: seq<bool>)
    ensures Refused(a + b) == Refused(a) + Refused(b)
  {
    if b == [] {
      assert a + b == a;
    } else {
      RefusedAppend(a, b[..|b| - 1]);
      RefusedSnoc(a + b[..|b| - 1], b[|b| - 1]);
      assert a + b == a + b[..|b| - 1] + [b[|b| - 1]];
    }
  }

  lemma RefusedCons(ok: bool, oks: seq<bool>)
    ensures Refused([ok] + oks) == (if ok then 0 else 1) + Refused(oks)
  {
    RefusedAppend([ok], oks);
    RefusedSnoc([], ok);
    assert [] + [ok] == [ok];
  }

  lemma {:induction false} NoneRefused(oks: seq<bool>)
    requires Refused(oks) == 0
    ensures forall ok :: ok in oks ==> ok
  {
    if oks != [] {
      NoneRefused(oks[..|oks| - 1]);
      assert oks == oks[..|oks| - 1] + [oks[|oks| - 1]];
    }
  }

  /** Executing the share plan of a track with nothing refused. */
  lemma ShareExecuted(w: World, s: State, id: string, oks: seq<bool>)
    requires ValidWorld(w) && StateOk(w, s) && CanShare(w, s.store, id)
    requires Exec(w, s, SharePlan(w, s.store, id), oks).1 == [] && Refused(oks) == 0
    ensures FullyShared(w, Exec(w, s, SharePlan(w, s.store, id), oks).0, Ready(w, s.store[id]))
  {
    NoneRefused(oks);
    SharePlanOk(w, s.store, s.index, id);
    SharePlanShape(w, s.store, id);
    ExecShares(w, s, SharePlan(w, s.store, id), oks, Ready(w, s.store[id]));
  }

  lemma ProcessExecuted(w: World, s: State, track: Track, oks: seq<bool>)
    requires ValidWorld(w) && StateOk(w, s) && track.id in s.store && s.store[track.id] == track
    requires track.recognized && w.ctidOf(track.path).Some?
    requires Exec(w, s, ProcessPlan(w, track), oks).1 == [] && Refused(oks) == 0
    ensures FullyShared(w, Exec(w, s, ProcessPlan(w, track), oks).0, track.(ctid := w.ctidOf(track.path).value))
  {
    NoneRefused(oks);
    assert IsDigest(w.ctidOf(track.path).value);
    ProcessPlanOk(w, s.store, s.index, track, []);
    assert ProcessPlan(w, track) + [] == ProcessPlan(w, track);
    ProcessPlanShape(w, track);
    ExecShares(w, s, ProcessPlan(w, track), oks, track.(ctid := w.ctidOf(track.path).value));
  }

  lemma AnnounceExecuted(w: World, s: State, listing: seq<Track>, oks: seq<bool>, track: Track)
    requires ValidWorld(w) && StateOk(w, s) && Lists(listing, s.store) && Sharable(s.store, track)
    requires Exec(w, s, AnnouncePlan(w, listing), oks).1 == [] && Refused(oks) == 0
    ensures FullyShared(w, Exec(w, s, AnnouncePlan(w, listing), oks).0, track)
  {
    NoneRefused(oks);
    AnnouncePlanOk(w, s.store, s.index, listing);
    AnnouncePlanShape(w, listing);
    ExecShares(w, s, AnnouncePlan(w, listing), oks, track);
  }

  lemma HeadAndRest(a: Action, rest: Plan)
    ensures ([a] + rest)[0] == a && ([a] + rest)[1..] == rest
  {
  }

  lemma {:induction false} DropAllTokens(track: Track, tokens: seq<string>, rest: Plan)
    requires rest == [] || !rest[0].AnnounceToken?
    ensures DropTokens(TokenActions(track, tokens) + rest) == rest
  {
    if tokens == [] {
      assert TokenActions(track, tokens) + rest == rest;
    } else {
      DropAllTokens(track, tokens[1..], rest);
      assert (TokenActions(track, tokens) + rest)[1..] == TokenActions(track, tokens[1..]) + rest;
    }
  }

  lemma AnnouncePlanAt(w: World, listing: seq<Track>, i: nat)
    requires i < |listing|
    ensures AnnouncePlan(w, listing[i..]) ==
      if Indexable(listing[i]) then AnnounceOne(w, listing[i]) + AnnouncePlan(w, listing[i + 1..])
      else AnnouncePlan(w, listing[i + 1..])
  {
    assert listing[i..][1..] == listing[i + 1..];
    assert [] + AnnouncePlan(w, listing[i + 1..]) == AnnouncePlan(w, listing[i + 1..]);
  }

  /** An update makes the track answerable under all its tokens. */
  lemma UpdateAnswers(low: Lowering, index: Index, track: Track)
    requires Indexable(track)
    ensures forall t :: IsTrackToken(low, track, t) ==> Answerable(Updated(low, index, track), Mark(t, track.ctid))
  {
    forall t | IsTrackToken(low, track, t)
      ensures Answerable(Updated(low, index, track), Mark(t, track.ctid))
    {
      assert t in TrackTokens(low, track);
      UpdatedEntry(low, index, track, t);
    }
  }

  lemma TokensHead(track: Track, tokens: seq<string>, i: nat, rest: Plan)
    requires i < |tokens|
    ensures TokenActions(track, tokens[i..]) + rest
         == [AnnounceToken(track, tokens[i])] + (TokenActions(track, tokens[i + 1..]) + rest)
  {
    assert tokens[i..][1..] == tokens[i + 1..];
  }

  /** Nothing changed but announcements, and none was lost. */
  ghost predicate OnlyAnnounces(s: State, s': State) {
    s'.store == s.store && s'.index == s.index && s.provided <= s'.provided && s.records <= s'.records
  }

  lemma {:induction false} AnnouncePlanHead(w: World, listing: seq<Track>)
    ensures AnnouncePlan(w, listing) == [] || AnnouncePlan(w, listing)[0].UpdateIndex?
  {
    if listing != [] {
      AnnouncePlanHead(w, listing[1..]);
    }
  }

  class Daemon {
    const w: World
    const store: Storage
    const dht: DhtService
    const search: SearchService
    ghost var trace: seq<Event>
    ghost var nextOp: nat

    ghost predicate Wired()
      reads this, store
    {
      search.w == w && search.store == store && store.Valid()
    }

    /** Between operations, the state is one that the run `trace` reaches, with no operation in
        progress; so whatever is proved of all runs holds of it. */
    ghost predicate Valid()
      reads this, store, dht, search
    {
      && Wired() && ValidWorld(w)
      && View() == After(w, trace).state
      && forall op :: op in After(w, trace).ops ==> op < nextOp && After(w, trace).ops[op] == []
    }

    /** The node state in the sense of module Node. */
    ghost function View(): State
      reads this, store, dht, search
    {
      State(store.tracks, search.localIndex, dht.providedKeys, dht.announced, dht.records, dht.marks)
    }

    /** How often the store or the network refused. */
    ghost function Refusals(): nat
      reads this, store, dht
    {
      store.refusals + dht.refusals
    }

    /** A daemon on services as some run of a node leaves them: a new node, or, after a restart,
        a filled store. */
    constructor (w: World, store: Storage, dht: DhtService, search: SearchService, ghost trace: seq<Event>, ghost nextOp: nat)
      requires search.w == w && search.store == store && store.Valid() && ValidWorld(w)
      requires After(w, trace).state
            == State(store.tracks, search.localIndex, dht.providedKeys, dht.announced, dht.records, dht.marks)
      requires forall op :: op in After(w, trace).ops ==> op < nextOp && After(w, trace).ops[op] == []
      ensures Valid() && this.w == w && this.store == store && this.dht == dht && this.search == search
    {
      this.w, this.store, this.dht, this.search := w, store, dht, search;
      this.trace, this.nextOp := trace, nextOp;
    }

    /** Records a finished operation in the trace. */
    ghost method Finish(start: Event, plan: Plan, oks: seq<bool>)
      requires Wired() && ValidWorld(w)
      requires var s := After(w, trace);
        && nextOp !in s.ops && Apply(w, s, start) == s.(ops := s.ops[nextOp := plan])
        && Exec(w, s.state, plan, oks) == (View(), [])
        && forall op :: op in s.ops ==> op < nextOp && s.ops[op] == []
      modifies this
      ensures Valid()
    {
      trace := OperationIsRun(w, trace, start, nextOp, plan, oks);
      nextOp := nextOp + 1;
    }

    /** The announcement loop that sharing, processing and the periodic announce have in common.
        rest is what the operation does afterwards, oks the answers it got. */
    method AnnounceTrackTokens(track: Track, ghost rest: Plan) returns (ghost oks: seq<bool>)
      requires Wired()
      modifies dht
      ensures Wired() && Exec(w, old(View()), AnnounceTokens(w, track) + rest, oks) == (View(), rest)
      ensures OnlyAnnounces(old(View()), View())
      ensures Refusals() == old(Refusals()) + Refused(oks)
    {
      var tokens := Tokenize(w.low, track.title + " " + track.artist);
      ghost var s0, plan := View(), AnnounceTokens(w, track) + rest;
      ghost var left := plan;
      oks := [];
      for i := 0 to |tokens|
        invariant left == TokenActions(track, tokens[i..]) + rest
        invariant Exec(w, s0, plan, oks) == (View(), left)
        invariant OnlyAnnounces(s0, View())
        invariant Refusals() == old(Refusals()) + Refused(oks)
      {
        ghost var next := TokenActions(track, tokens[i + 1..]) + rest;
        TokensHead(track, tokens, i, rest);
        ghost var answered := AnnounceOneToken(track, tokens[i], next);
        ExecSnoc(w, s0, plan, oks, answered);
        RefusedSnoc(oks, answered);
        oks, left := oks + [answered], next;
      }
      assert TokenActions(track, tokens[|tokens|..]) + rest == rest;
    }

    /** The loop body: hash and announce; a failure is ignored. */
    method AnnounceOneToken(track: Track, token: string, ghost next: Plan) returns (ghost answered: bool)
      requires Wired()
      modifies dht
      ensures Wired() && Step(w, old(View()), [AnnounceToken(track, token)] + next, answered) == (View(), next)
      ensures OnlyAnnounces(old(View()), View())
      ensures Refusals() == old(Refusals()) + if answered then 0 else 1
    {
      HeadAndRest(AnnounceToken(track, token), next);
      var ok: bool;
      ok, answered := dht.ProvideToken(w.hash(token), Mark(token, track.ctid));
    }

    /** Announcing a CTID, with the caller's way of going on after a failure. */
    method AnnounceOneCtid(track: Track, ghost onFailure: OnFailure, ghost next: Plan)
      returns (ok: bool, ghost answered: bool)
      requires Wired()
      modifies dht
      ensures Wired()
      ensures Step(w, old(View()), [AnnounceCtid(track, onFailure)] + next, answered) ==
        (View(), if ok then next else match onFailure case Ignore => next case SkipTrack => DropTokens(next) case Abort => [])
      ensures OnlyAnnounces(old(View()), View())
      ensures ok ==> CtidKey(track.ctid) in dht.providedKeys && CidOf(track.ctid) in dht.records
      ensures Refusals() == old(Refusals()) + if answered then 0 else 1
    {
      HeadAndRest(AnnounceCtid(track, onFailure), next);
      ok, answered := dht.Provide(track.ctid);
    }

    /** The callback that the CTR service runs after processing a track. */
    method OnTrackProcessed(track: Track, ghost rest: Plan) returns (ghost oks: seq<bool>)
      requires Wired()
      modifies dht, search
      ensures Wired() && Exec(w, old(View()), HookPlan(w, track) + rest, oks) == (View(), rest)
      ensures Refusals() == old(Refusals()) + Refused(oks)
    {
      if !track.recognized || track.ctid == "" {
        oks := [];
        assert HookPlan(w, track) + rest == rest;
        return;
      }
      ghost var plan := HookPlan(w, track) + rest;
      assert plan == [UpdateIndex(track)] + (AnnounceTokens(w, track) + rest);
      search.UpdateLocalIndex(track);
      ghost var mid := View();
      assert Step(w, old(View()), plan, true) == (mid, AnnounceTokens(w, track) + rest);
      oks := AnnounceTrackTokens(track, rest);
      ExecCons(w, old(View()), plan, true, oks);
      RefusedCons(true, oks);
      oks := [true] + oks;
    }

    /** The CTR service's ProcessTrack: compute the CTID, save, announce, call back. */
    method ProcessTrackNow(track: Track, ghost rest: Plan) returns (ok: bool, ghost oks: seq<bool>)
      requires Wired()
      modifies store, dht, search
      ensures Wired()
      ensures w.ctidOf(track.path).None? ==> !ok && View() == old(View()) && oks == []
      ensures w.ctidOf(track.path).Some? && Refused(oks) == 0 ==> ok
      ensures w.ctidOf(track.path).Some? ==>
        Exec(w, old(View()), ProcessPlan(w, track) + rest, oks) == (View(), if ok then rest else [])
      ensures ok ==> store.tracks == old(store.tracks)[track.id := track.(ctid := w.ctidOf(track.path).value)]
      ensures Refusals() == old(Refusals()) + Refused(oks)
    {
      oks := [];
      var ctid := w.ctidOf(track.path);
      if ctid.None? {
        return false, oks;
      }
      var done := track.(ctid := ctid.value);
      ghost var plan := ProcessPlan(w, track) + rest;
      ghost var hook := HookPlan(w, done) + rest;
      ghost var tail := CtidPart(done) + hook;
      Assoc(CtidPart(done), HookPlan(w, done), rest);
      ConsConcat(Save(done), CtidPart(done) + HookPlan(w, done), rest);
      HeadAndRest(Save(done), tail);
      ok := store.SaveTrack(done);
      ghost var saved := View();
      assert Step(w, old(View()), plan, ok) == (saved, if ok then tail else []);
      if !ok {
        ExecCons(w, old(View()), plan, false, []);
        RefusedCons(false, []);
        return false, [false];
      }
      ghost var first: seq<bool> := [];
      if done.recognized {
        var _, answered := AnnounceOneCtid(done, Ignore, hook);
        ExecCons(w, saved, tail, answered, []);
        first := [answered] + [];
        RefusedCons(answered, []);
      } else {
        assert tail == hook;
      }
      ghost var mid := View();
      assert Exec(w, saved, tail, first) == (mid, hook);
      oks := OnTrackProcessed(done, rest);
      ExecAppend(w, saved, tail, first, oks);
      ExecCons(w, old(View()), plan, true, first + oks);
      RefusedAppend(first, oks);
      RefusedCons(true, first + oks);
      oks := [true] + (first + oks);
    }

    method ProcessTrack(id: string) returns (ok: bool, ghost oks: seq<bool>)
      requires Valid()
      modifies this, store, dht, search
      ensures Valid()
      // It is the process plan of the stored track, run alone to its end.
      ensures Exec(w, old(View()), (if id in old(store.tracks) then ProcessPlan(w, old(store.tracks)[id]) else []), oks)
           == (View(), [])
      ensures Refusals() == old(Refusals()) + Refused(oks)
      ensures ok ==> id in old(store.tracks) && w.ctidOf(old(store.tracks)[id].path).Some?
      ensures id in old(store.tracks) && w.ctidOf(old(store.tracks)[id].path).Some? && Refused(oks) == 0 ==> ok
      // Success means that the track has the CTID of its file.
      ensures ok ==> var track := old(store.tracks)[id];
        store.tracks == old(store.tracks)[id := track.(ctid := w.ctidOf(track.path).value)]
      // If nothing is refused, a recognised track is announced, under its CTID and every token, and answerable.
      ensures ok && Refused(oks) == 0 && store.tracks[id].recognized ==>
        CtidKey(store.tracks[id].ctid) in dht.providedKeys && CidOf(store.tracks[id].ctid) in dht.records
      ensures ok && Refused(oks) == 0 && store.tracks[id].recognized ==> forall t :: IsTrackToken(w.low, store.tracks[id], t) ==>
        && Mark(t, store.tracks[id].ctid) in dht.announced
        && TokenKey(w.hash(t)) in dht.providedKeys && CidOf(w.hash(t)) in dht.records
        && Answerable(search.localIndex, Mark(t, store.tracks[id].ctid))
    {
      RunsKeepOk(w, trace);
      var found := store.GetTrack(id);
      if found.None? {
        return false, [];
      }
      var track := found.value;
      ok, oks := ProcessTrackNow(track, []);
      assert ProcessPlan(w, track) + [] == ProcessPlan(w, track);
      if ok && Refused(oks) == 0 && track.recognized {
        ProcessExecuted(w, old(View()), track, oks);
      }
      Finish(Process(nextOp, track), ProcessPlan(w, track), oks);
    }

    /** Announces a track that has its CTID: CTID first, tokens next, index last. */
    method ShareReady(track: Track) returns (err: Option<ShareError>, ghost oks: seq<bool>)
      requires Wired() && track.ctid != ""
      modifies dht, search
      ensures Wired() && Exec(w, old(View()), ShareTail(w, track), oks) == (View(), [])
      ensures err == Some(NotRecognized) <==> !track.recognized
      ensures err.Some? ==> err.value.NotRecognized? || err.value.CtidNotProvided?
      ensures err == Some(CtidNotProvided) ==> Refused(oks) > 0 || !IsDigest(track.ctid)
      ensures err.Some? ==> search.localIndex == old(search.localIndex)
      ensures err.None? ==> track.recognized && CtidKey(track.ctid) in dht.providedKeys && CidOf(track.ctid) in dht.records
                            && search.localIndex == Updated(w.low, old(search.localIndex), track)
      ensures err.None? ==> forall t :: IsTrackToken(w.low, track, t) ==>
        Answerable(search.localIndex, Mark(t, track.ctid))
      ensures Refusals() == old(Refusals()) + Refused(oks)
    {
      oks := [];
      if !track.recognized {
        return Some(NotRecognized), oks;
      }
      ghost var plan := ShareTail(w, track);
      ghost var tail := AnnounceTokens(w, track) + [UpdateIndex(track)];
      assert plan == [AnnounceCtid(track, Abort)] + tail;
      var ok, answered := AnnounceOneCtid(track, Abort, tail);
      if !ok {
        ExecCons(w, old(View()), plan, answered, []);
        RefusedCons(answered, []);
        return Some(CtidNotProvided), [answered];
      }
      oks := TokensThenIndex(track);
      ExecCons(w, old(View()), plan, answered, oks);
      RefusedCons(answered, oks);
      oks := [answered] + oks;
      UpdateAnswers(w.low, old(search.localIndex), track);
      err := None;
    }

    /** The last two steps of a share. */
    method TokensThenIndex(track: Track) returns (ghost oks: seq<bool>)
      requires Wired()
      modifies dht, search
      ensures Wired()
      ensures Exec(w, old(View()), AnnounceTokens(w, track) + [UpdateIndex(track)], oks) == (View(), [])
      ensures old(dht.providedKeys) <= dht.providedKeys && old(dht.records) <= dht.records
      ensures search.localIndex == Updated(w.low, old(search.localIndex), track)
      ensures Refusals() == old(Refusals()) + Refused(oks)
    {
      oks := AnnounceTrackTokens(track, [UpdateIndex(track)]);
      ghost var announced := View();
      search.UpdateLocalIndex(track);
      assert [UpdateIndex(track)][1..] == [];
      assert Step(w, announced, [UpdateIndex(track)], true) == (View(), []);
      ExecSnoc(w, old(View()), AnnounceTokens(w, track) + [UpdateIndex(track)], oks, true);
      RefusedSnoc(oks, true);
      oks := oks + [true];
    }

    method ShareTrack(id: string) returns (err: Option<ShareError>, ghost oks: seq<bool>)
      requires Valid()
      modifies this, store, dht, search
      ensures Valid()
      // It is the share plan, run alone to its end.
      ensures Exec(w, old(View()), SharePlan(w, old(store.tracks), id), oks) == (View(), [])
      ensures Refusals() == old(Refusals()) + Refused(oks)
      ensures err == Some(NotFound) <==> id !in old(store.tracks)
      // Success means announced, and answerable for every token.
      ensures err.None? ==> id in store.tracks && Indexable(store.tracks[id])
      ensures err.None? ==> CtidKey(store.tracks[id].ctid) in dht.providedKeys && CidOf(store.tracks[id].ctid) in dht.records
      ensures err.None? ==> forall t :: IsTrackToken(w.low, store.tracks[id], t) ==>
        Answerable(search.localIndex, Mark(t, store.tracks[id].ctid))
      // A recognised track that can be processed fails only if something is refused.
      ensures CanShare(w, old(store.tracks), id) && Refused(oks) == 0 ==> err.None?
      ensures err == Some(ProcessingFailed) ==>
        old(store.tracks)[id].ctid == "" && (w.ctidOf(old(store.tracks)[id].path).None? || Refused(oks) > 0)
      ensures err == Some(NotRecognized) ==> !old(store.tracks)[id].recognized
      ensures err == Some(CtidNotProvided) ==> old(store.tracks)[id].recognized && Refused(oks) > 0
      // And if nothing is refused, every token is announced for the CTID.
      ensures err.None? && Refused(oks) == 0 ==> forall t :: IsTrackToken(w.low, store.tracks[id], t) ==>
        && Mark(t, store.tracks[id].ctid) in dht.announced
        && TokenKey(w.hash(t)) in dht.providedKeys && CidOf(w.hash(t)) in dht.records
    {
      RunsKeepOk(w, trace);
      err, oks := ShareNow(id);
      if err.None? && Refused(oks) == 0 {
        ShareExecuted(w, old(View()), id, oks);
      }
      Finish(Share(nextOp, id), SharePlan(w, old(store.tracks), id), oks);
    }

    /** The body of ShareTrack. */
    method ShareNow(id: string) returns (err: Option<ShareError>, ghost oks: seq<bool>)
      requires Valid()
      modifies store, dht, search
      ensures Wired()
      ensures Exec(w, old(View()), SharePlan(w, old(store.tracks), id), oks) == (View(), [])
      ensures Refusals() == old(Refusals()) + Refused(oks)
      ensures err == Some(NotFound) <==> id !in old(store.tracks)
      ensures err.None? ==> id in store.tracks && Indexable(store.tracks[id])
      ensures err.None? ==> CtidKey(store.tracks[id].ctid) in dht.providedKeys && CidOf(store.tracks[id].ctid) in dht.records
      ensures err.None? ==> forall t :: IsTrackToken(w.low, store.tracks[id], t) ==>
        Answerable(search.localIndex, Mark(t, store.tracks[id].ctid))
      ensures CanShare(w, old(store.tracks), id) && Refused(oks) == 0 ==> err.None?
      ensures err == Some(ProcessingFailed) ==>
        old(store.tracks)[id].ctid == "" && (w.ctidOf(old(store.tracks)[id].path).None? || Refused(oks) > 0)
      ensures err == Some(NotRecognized) ==> !old(store.tracks)[id].recognized
      ensures err == Some(CtidNotProvided) ==> old(store.tracks)[id].recognized && Refused(oks) > 0
      ensures err.None? ==> CanShare(w, old(store.tracks), id) && store.tracks[id] == Ready(w, old(store.tracks)[id])
    {
      RunsKeepOk(w, trace);
      oks := [];
      var found := store.GetTrack(id);
      if found.None? {
        return Some(NotFound), oks;
      }
      var track := found.value;
      ghost var first: seq<bool> := [];
      if track.ctid == "" {
        var ok: bool;
        ok, track, first := ProcessBeforeShare(id, track);
        if !ok {
          return Some(ProcessingFailed), first;
        }
      }
      ghost var mid, plan := View(), SharePlan(w, old(store.tracks), id);
      assert Exec(w, old(View()), plan, first) == (mid, ShareTail(w, track));
      assert IsDigest(track.ctid);
      err, oks := ShareReady(track);
      assert track.recognized == old(store.tracks)[id].recognized;
      assert err.Some? && track.recognized ==> err.value.CtidNotProvided? && Refused(oks) > 0;
      ExecAppend(w, old(View()), plan, first, oks);
      RefusedAppend(first, oks);
      oks := first + oks;
    }

    /** The on-demand processing in ShareTrack, and reading the track again. */
    method ProcessBeforeShare(id: string, track: Track) returns (ok: bool, updated: Track, ghost oks: seq<bool>)
      requires Wired() && id in store.tracks && store.tracks[id] == track && track.ctid == "" && ValidWorld(w)
      modifies store, dht, search
      ensures Wired()
      ensures Exec(w, old(View()), SharePlan(w, old(store.tracks), id), oks) == (View(), if ok then ShareTail(w, updated) else [])
      ensures Refusals() == old(Refusals()) + Refused(oks)
      ensures ok ==> updated == track.(ctid := updated.ctid) && id in store.tracks && store.tracks[id] == updated
      ensures ok ==> w.ctidOf(track.path).Some? && updated == Ready(w, track)
      ensures ok ==> IsDigest(updated.ctid)
      ensures w.ctidOf(track.path).Some? && Refused(oks) == 0 ==> ok
    {
      updated := track;
      ghost var done := track.(ctid := if w.ctidOf(track.path).Some? then w.ctidOf(track.path).value else "");
      ghost var plan, reload := SharePlan(w, store.tracks, id), Reload(id, done);
      ok, oks := ProcessTrackNow(track, [reload]);
      if !ok {
        return;
      }
      var found := store.GetTrack(id);
      if found.Some? {
        updated := found.value;
      }
      ghost var loaded := View();
      assert ShareTail(w, updated) + [] == ShareTail(w, updated);
      assert [reload][1..] == [];
      assert Step(w, loaded, [reload], true) == (loaded, ShareTail(w, updated));
      ExecSnoc(w, old(View()), plan, oks, true);
      RefusedSnoc(oks, true);
      oks := oks + [true];
      if updated.ctid == "" {
        ok := false;
      }
    }

    /** The periodic announce. */
    method AnnounceAllTracks() returns (ghost listing: seq<Track>, ghost oks: seq<bool>)
      requires Valid()
      modifies this, dht, search
      ensures Valid() && Lists(listing, store.tracks)
      // It is the announce plan of some listing of the store, run alone to its end.
      ensures Exec(w, old(View()), AnnouncePlan(w, listing), oks) == (View(), [])
      ensures Refusals() == old(Refusals()) + Refused(oks)
      // It makes every token of every shareable track answerable, whatever is refused.
      ensures forall track, t :: Sharable(store.tracks, track) && IsTrackToken(w.low, track, t) ==>
        Answerable(search.localIndex, Mark(t, track.ctid))
      // If nothing is refused, it announces every shareable track under its CTID and all its tokens.
      ensures Refused(oks) == 0 ==> forall track :: Sharable(store.tracks, track) ==>
        CtidKey(track.ctid) in dht.providedKeys && CidOf(track.ctid) in dht.records
      ensures Refused(oks) == 0 ==> forall track, t :: Sharable(store.tracks, track) && IsTrackToken(w.low, track, t) ==>
        && Mark(t, track.ctid) in dht.announced
        && TokenKey(w.hash(t)) in dht.providedKeys && CidOf(w.hash(t)) in dht.records
    {
      RunsKeepOk(w, trace);
      var tracks := store.GetAllTracks();
      listing := tracks;
      oks := AnnounceListed(tracks);
      forall track, t | Sharable(store.tracks, track) && IsTrackToken(w.low, track, t)
        ensures Answerable(search.localIndex, Mark(t, track.ctid))
      {
        AnnounceAloneRebuildsIndex(w, old(View()), listing, oks, track, t);
      }
      forall track | Refused(oks) == 0 && Sharable(store.tracks, track)
        ensures FullyShared(w, View(), track)
      {
        AnnounceExecuted(w, old(View()), listing, oks, track);
      }
      Finish(AnnounceAll(nextOp, listing), AnnouncePlan(w, listing), oks);
    }

    /** Its loop. */
    method AnnounceListed(tracks: seq<Track>) returns (ghost oks: seq<bool>)
      requires Wired()
      modifies dht, search
      ensures Wired() && Exec(w, old(View()), AnnouncePlan(w, tracks), oks) == (View(), [])
      ensures Refusals() == old(Refusals()) + Refused(oks)
    {
      oks := [];
      for i := 0 to |tracks|
        invariant Wired()
        invariant Exec(w, old(View()), AnnouncePlan(w, tracks), oks) == (View(), AnnouncePlan(w, tracks[i..]))
        invariant Refusals() == old(Refusals()) + Refused(oks)
      {
        var track := tracks[i];
        AnnouncePlanAt(w, tracks, i);
        if !track.recognized || track.ctid == "" {
          continue;
        }
        ghost var more := AnnounceTrack(track, tracks[i + 1..]);
        ExecAppend(w, old(View()), AnnouncePlan(w, tracks), oks, more);
        RefusedAppend(oks, more);
        oks := oks + more;
      }
      assert tracks[|tracks|..] == [];
    }

    /** The loop body of AnnounceAllTracks for a recognised track with a CTID. */
    method AnnounceTrack(track: Track, ghost others: seq<Track>) returns (ghost oks: seq<bool>)
      requires Wired() && Indexable(track)
      modifies dht, search
      ensures Wired()
      ensures Exec(w, old(View()), AnnounceOne(w, track) + AnnouncePlan(w, others), oks)
           == (View(), AnnouncePlan(w, others))
      ensures Refusals() == old(Refusals()) + Refused(oks)
    {
      ghost var rest := AnnouncePlan(w, others);
      ghost var tail := AnnounceTokens(w, track) + rest;
      ghost var afterIndex := [AnnounceCtid(track, SkipTrack)] + tail;
      ghost var plan := AnnounceOne(w, track) + rest;
      ConsConcat(UpdateIndex(track), [AnnounceCtid(track, SkipTrack)] + AnnounceTokens(w, track), rest);
      ConsConcat(AnnounceCtid(track, SkipTrack), AnnounceTokens(w, track), rest);
      HeadAndRest(UpdateIndex(track), afterIndex);
      search.UpdateLocalIndex(track);
      ghost var indexed := View();
      assert Step(w, old(View()), plan, true) == (indexed, afterIndex);
      var ok, answered := AnnounceOneCtid(track, SkipTrack, tail);
      oks := [];
      if ok {
        oks := AnnounceTrackTokens(track, rest);
      } else {
        AnnouncePlanHead(w, others);
        DropAllTokens(track, Tokens(w.low, track.title + " " + track.artist), rest);
      }
      ExecCons(w, indexed, afterIndex, answered, oks);
      ExecCons(w, old(View()), plan, true, [answered] + oks);
      RefusedCons(answered, oks);
      RefusedCons(true, [answered] + oks);
      oks := [true] + ([answered] + oks);
    }

    /** A new track: the id comes from the clock and must be new; the file has been copied to
        destPath unless copying failed. */
    method AddTrack(id: string, destPath: string, copied: bool, title: string, artist: string) returns (r: Option<Track>)
      requires Valid() && id !in store.tracks
      modifies this, store
      ensures Valid()
      ensures r.None? <==> !copied || Refusals() > old(Refusals())
      ensures r.None? ==> View() == old(View())
      ensures r.Some? ==> View() == old(View()).(store := old(store.tracks)[id := r.value])
      ensures r.Some? ==> r.value == Track(id, "", title, artist, destPath, false, title != "" && artist != "")
    {
      if !copied {
        return None;
      }
      var track := Track(id, "", title, artist, destPath, false, title != "" && artist != "");
      var ok := store.SaveTrack(track);
      if !ok {
        return None;
      }
      AfterSnoc(w, trace, Add(track));
      trace := trace + [Add(track)];
      return Some(track);
    }
  }
}
