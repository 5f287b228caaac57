/** The playback queue of the app's audio player. */
module Player {
  import opened Options
  import opened Sequences
  import opened Text

  datatype Item = Item(id: string, path: string)

  datatype RepeatMode = Off | All | One

  /** current is the id of the track being played, if it has one. */
  datatype State = State(queue: seq<Item>, index: int, current: Option<string>, mode: RepeatMode, shuffle: bool)

  const NEW_STATE := State([], -1, None, Off, false)

  /** Nothing is left of the text when white space is trimmed. */
  predicate IsBlank(s: string) {
    forall c :: c in s ==> IsSpace(c) || c == '\U{FEFF}'
  }

  /** The first position with this id, or -1. */
  function IndexOf(queue: seq<Item>, id: string): (i: int)
    ensures -1 <= i < |queue|
    ensures i >= 0 ==> queue[i].id == id && forall k :: 0 <= k < i ==> queue[k].id != id
    ensures i < 0 ==> forall k :: 0 <= k < |queue| ==> queue[k].id != id
  {
    if queue == [] then -1
    else if queue[0].id == id then 0
    else
      var rest := IndexOf(queue[1..], id);
      if rest < 0 then -1 else rest + 1
  }

  function Playable(tracks: seq<Item>): seq<Item> {
    if tracks == [] then []
    else (if IsBlank(tracks[0].path) then [] else [tracks[0]]) + Playable(tracks[1..])
  }

  // ---- The operations on values ----

  function WithQueue(s: State, tracks: seq<Item>, currentId: Option<string>): State {
    var queue := Playable(tracks);
    if queue == [] then s.(queue := [], index := -1)
    else if currentId.Some? then
      s.(queue := queue, index := var i := IndexOf(queue, currentId.value); if i >= 0 then i else 0)
    else s.(queue := queue, index := if s.index < 0 || s.index >= |queue| then 0 else s.index)
  }

  /** loaded tells whether the platform player has a source. */
  function Played(s: State, uri: string, id: Option<string>, loaded: bool): State {
    if IsBlank(uri) then s
    else if id.Some? && id == s.current && loaded then s
    else
      var i := if id.Some? then IndexOf(s.queue, id.value) else -1;
      s.(current := id, index := if i >= 0 then i else s.index)
  }

  function PlayedAt(s: State, i: nat, loaded: bool): State
    requires i < |s.queue|
  {
    Played(s.(index := i), s.queue[i].path, Some(s.queue[i].id), loaded)
  }

  predicate InRange(s: State) {
    0 <= s.index < |s.queue|
  }

  function Repaired(s: State): State {
    if InRange(s) then s else s.(index := 0)
  }

  /** pick is the position that shuffling drew: any but the current one. */
  predicate ValidPick(s: State, pick: nat) {
    pick < |s.queue| && pick != Repaired(s).index
  }

  predicate PickOk(s: State, pick: nat) {
    s.shuffle && |s.queue| > 1 ==> ValidPick(s, pick)
  }

  function Stopped(s: State): State {
    s.(current := None)
  }

  function AfterNext(s: State, auto: bool, pick: nat, loaded: bool): State
    requires PickOk(s, pick)
  {
    if s.queue == [] then s
    else
      var r := Repaired(s);
      if s.shuffle && |s.queue| > 1 then PlayedAt(r, pick, loaded)
      else if r.index < |s.queue| - 1 then PlayedAt(r, r.index + 1, loaded)
      else if s.mode == All then PlayedAt(r, 0, loaded)
      else if auto then Stopped(r)
      else r
  }

  function AfterPrevious(s: State, pick: nat, loaded: bool): State
    requires PickOk(s, pick)
  {
    if s.queue == [] then s
    else
      var r := Repaired(s);
      if s.shuffle && |s.queue| > 1 then PlayedAt(r, pick, loaded)
      else if r.index > 0 then PlayedAt(r, r.index - 1, loaded)
      else if s.mode == All then PlayedAt(r, |s.queue| - 1, loaded)
      else PlayedAt(r, r.index, loaded)
  }

  /** The end of a track: repeat it, or go on. */
  function AfterCompleted(s: State, pick: nat, loaded: bool): State
    requires s.mode == One || PickOk(s, pick)
  {
    if s.mode == One then s else AfterNext(s, true, pick, loaded)
  }

  function Cycled(mode: RepeatMode): RepeatMode {
    match mode case Off => All case All => One case One => Off
  }

  // ---- The service object ----

  class AudioPlayerService {
    var queue: seq<Item>
    var currentIndex: int
    var currentTrackId: Option<string>
    var shuffleEnabled: bool
    var repeatMode: RepeatMode

    ghost function View(): State
      reads this
    {
      State(queue, currentIndex, currentTrackId, repeatMode, shuffleEnabled)
    }

    constructor ()
      ensures View() == NEW_STATE
    {
      queue, currentIndex, currentTrackId, shuffleEnabled, repeatMode := [], -1, None, false, Off;
    }

    method SetQueueFromTracks(tracks: seq<Item>, currentId: Option<string>)
      modifies this
      ensures View() == WithQueue(old(View()), tracks, currentId)
      // The index: -1 for an empty queue, the first track with the given id or else 0, or, without
      // an id, where it was if that is still a position and else 0.
      ensures queue == [] ==> currentIndex == -1
      ensures queue != [] && currentId.Some? ==>
        if exists k :: 0 <= k < |queue| && queue[k].id == currentId.value then
          0 <= currentIndex < |queue| && queue[currentIndex].id == currentId.value
          && forall k :: 0 <= k < currentIndex ==> queue[k].id != currentId.value
        else currentIndex == 0
      ensures queue != [] && currentId.None? ==>
        currentIndex == if 0 <= old(currentIndex) < |queue| then old(currentIndex) else 0
      ensures currentTrackId == old(currentTrackId) && repeatMode == old(repeatMode) && shuffleEnabled == old(shuffleEnabled)
    {
      queue := Playable(tracks);
      if |queue| == 0 {
        currentIndex := -1;
        return;
      }
      if currentId.Some? {
        var idx := IndexOf(queue, currentId.value);
        currentIndex := if idx >= 0 then idx else 0;
      } else if currentIndex < 0 || currentIndex >= |queue| {
        currentIndex := 0;
      }
    }

    /** Whether the source then loads does not matter to the queue. */
    method PlayUri(uri: string, trackId: Option<string>, loaded: bool)
      modifies this
      ensures View() == Played(old(View()), uri, trackId, loaded)
      // Nothing happens for a blank path, or when the track is the current one and loaded.
      ensures IsBlank(uri) || (trackId.Some? && trackId == old(currentTrackId) && loaded) ==> View() == old(View())
      ensures !IsBlank(uri) && !(trackId.Some? && trackId == old(currentTrackId) && loaded) ==>
        && currentTrackId == trackId
        && if trackId.Some? && exists k :: 0 <= k < |queue| && queue[k].id == trackId.value then
             0 <= currentIndex < |queue| && queue[currentIndex].id == trackId.value
             && forall k :: 0 <= k < currentIndex ==> queue[k].id != trackId.value
           else currentIndex == old(currentIndex)
      ensures queue == old(queue) && repeatMode == old(repeatMode) && shuffleEnabled == old(shuffleEnabled)
    {
      if IsBlank(uri) {
        return;
      }
      var sameTrack := trackId.Some? && trackId == currentTrackId;
      if sameTrack && loaded {
        return;
      }
      currentTrackId := trackId;
      if trackId.Some? {
        var idx := IndexOf(queue, trackId.value);
        if idx >= 0 {
          currentIndex := idx;
        }
      }
    }

    method Stop()
      modifies this
      ensures View() == old(View()).(current := None)
    {
      currentTrackId := None;
    }

    method ToggleShuffle()
      modifies this
      ensures View() == old(View()).(shuffle := !old(shuffleEnabled))
    {
      shuffleEnabled := !shuffleEnabled;
    }

    method CycleRepeatMode()
      modifies this
      ensures View() == old(View()).(mode := Cycled(old(repeatMode)))
      ensures old(repeatMode) == Off ==> repeatMode == All
      ensures old(repeatMode) == All ==> repeatMode == One
      ensures old(repeatMode) == One ==> repeatMode == Off
    {
      match repeatMode
      case Off => repeatMode := All;
      case All => repeatMode := One;
      case One => repeatMode := Off;
    }

    /** Redrawing until the position differs from the current one gives any other position. */
    method Draw() returns (pick: nat)
      requires |queue| > 1 && 0 <= currentIndex < |queue|
      ensures pick < |queue| && pick != currentIndex
    {
      var i: int := *;
      pick := if 0 <= i < |queue| && i != currentIndex then i else if currentIndex == 0 then 1 else 0;
    }

    method Next(auto: bool, loaded: bool) returns (ghost pick: nat)
      modifies this
      ensures PickOk(old(View()), pick)
      ensures View() == AfterNext(old(View()), auto, pick, loaded)
    {
      pick := 0;
      if |queue| == 0 {
        return;
      }
      if currentIndex < 0 || currentIndex >= |queue| {
        currentIndex := 0;
      }
      if shuffleEnabled && |queue| > 1 {
        var nextIndex := Draw();
        pick := nextIndex;
        currentIndex := nextIndex;
        var item := queue[currentIndex];
        PlayUri(item.path, Some(item.id), loaded);
        return;
      }
      if currentIndex < |queue| - 1 {
        currentIndex := currentIndex + 1;
        var item := queue[currentIndex];
        PlayUri(item.path, Some(item.id), loaded);
        return;
      }
      if repeatMode == All {
        currentIndex := 0;
        var item := queue[currentIndex];
        PlayUri(item.path, Some(item.id), loaded);
        return;
      }
      if auto {
        Stop();
      }
    }

    method Previous(loaded: bool) returns (ghost pick: nat)
      modifies this
      ensures PickOk(old(View()), pick)
      ensures View() == AfterPrevious(old(View()), pick, loaded)
    {
      pick := 0;
      if |queue| == 0 {
        return;
      }
      if currentIndex < 0 || currentIndex >= |queue| {
        currentIndex := 0;
      }
      if shuffleEnabled && |queue| > 1 {
        var nextIndex := Draw();
        pick := nextIndex;
        currentIndex := nextIndex;
      } else if currentIndex > 0 {
        currentIndex := currentIndex - 1;
      } else if repeatMode == All {
        currentIndex := |queue| - 1;
      }
      var item := queue[currentIndex];
      PlayUri(item.path, Some(item.id), loaded);
    }

    /** The listener of the platform player, on completion. */
    method OnCompleted(loaded: bool) returns (ghost pick: nat)
      modifies this
      ensures old(repeatMode) == One || PickOk(old(View()), pick)
      ensures View() == AfterCompleted(old(View()), pick, loaded)
      ensures old(repeatMode) == One ==> View() == old(View())
    {
      pick := 0;
      if repeatMode == One {
        return;
      }
      pick := Next(true, loaded);
    }
  }

  // ---- Runs ----

  datatype Event =
    | SetQueue(tracks: seq<Item>, currentId: Option<string>)
    | Play(uri: string, id: Option<string>, loaded: bool)
    | Next(pick: nat, loaded: bool)
    | Previous(pick: nat, loaded: bool)
    | Complete(pick: nat, loaded: bool)
    | Stop
    | ToggleShuffle
    | CycleRepeat

  /** An event with an impossible draw does nothing. */
  function Apply(s: State, e: Event): State {
    match e
    case SetQueue(tracks, currentId) => WithQueue(s, tracks, currentId)
    case Play(uri, id, loaded) => Played(s, uri, id, loaded)
    case Next(pick, loaded) => if PickOk(s, pick) then AfterNext(s, false, pick, loaded) else s
    case Previous(pick, loaded) => if PickOk(s, pick) then AfterPrevious(s, pick, loaded) else s
    case Complete(pick, loaded) => if s.mode == One || PickOk(s, pick) then AfterCompleted(s, pick, loaded) else s
    case Stop => Stopped(s)
    case ToggleShuffle => s.(shuffle := !s.shuffle)
    case CycleRepeat => s.(mode := Cycled(s.mode))
  }

  function After(run: seq<Event>): State {
    if run == [] then NEW_STATE else Apply(After(run[..|run| - 1]), run[|run| - 1])
  }

  /** Every queued item has a path to play. */
  ghost predicate QueuePlayable(queue: seq<Item>) {
    forall i :: 0 <= i < |queue| ==> !IsBlank(queue[i].path)
  }

  ghost predicate Ok(s: State) {
    && QueuePlayable(s.queue)
    && (if s.queue == [] then s.index == -1 else InRange(s))
  }

  lemma {:induction false} PlayableKeepsOrder(tracks: seq<Item>)
    ensures QueuePlayable(Playable(tracks))
    ensures forall t :: t in Playable(tracks) <==> t in tracks && !IsBlank(t.path)
  {
    if tracks != [] {
      PlayableKeepsOrder(tracks[1..]);
    }
  }

  /** The queue is the tracks with a path, in order. */
  lemma {:induction false} PlayableConcat(a: seq<Item>, b: seq<Item>)
    ensures Playable(a + b) == Playable(a) + Playable(b)
  {
    if a == [] {
      assert a + b == b;
    } else {
      PlayableConcat(a[1..], b);
      ConcatHead(a, b);
      Assoc(if IsBlank(a[0].path) then [] else [a[0]], Playable(a[1..]), Playable(b));
    }
  }

  lemma PlayableOne(t: Item)
    ensures Playable([t]) == if forall c :: c in t.path ==> c in WHITE_SPACE + ['\U{FEFF}'] then [] else [t]
  {
    assert [t][1..] == [];
    forall c: char
      ensures IsSpace(c) <==> c in WHITE_SPACE
    {
      SpaceIsWhiteSpace(c);
    }
    assert forall c :: c in WHITE_SPACE + ['\U{FEFF}'] <==> c in WHITE_SPACE || c == '\U{FEFF}';
  }

  lemma PlayedAtKeepsOk(s: State, i: nat, loaded: bool)
    requires QueuePlayable(s.queue) && i < |s.queue|
    ensures Ok(PlayedAt(s, i, loaded))
  {
  }

  lemma NextKeepsOk(s: State, auto: bool, pick: nat, loaded: bool)
    requires Ok(s) && PickOk(s, pick)
    ensures Ok(AfterNext(s, auto, pick, loaded))
  {
    if s.queue != [] {
      assert Repaired(s) == s;
      if s.shuffle && |s.queue| > 1 {
        PlayedAtKeepsOk(s, pick, loaded);
      } else {
        PlayedAtKeepsOk(s, if s.index < |s.queue| - 1 then s.index + 1 else 0, loaded);
      }
    }
  }

  lemma PreviousKeepsOk(s: State, pick: nat, loaded: bool)
    requires Ok(s) && PickOk(s, pick)
    ensures Ok(AfterPrevious(s, pick, loaded))
  {
    if s.queue != [] {
      assert Repaired(s) == s;
      if s.shuffle && |s.queue| > 1 {
        PlayedAtKeepsOk(s, pick, loaded);
      } else if s.index > 0 {
        PlayedAtKeepsOk(s, s.index - 1, loaded);
      } else {
        PlayedAtKeepsOk(s, if s.mode == All then |s.queue| - 1 else 0, loaded);
      }
    }
  }

  lemma EventKeepsOk(s: State, e: Event)
    requires Ok(s)
    ensures Ok(Apply(s, e))
  {
    match e
    case SetQueue(tracks, _) => PlayableKeepsOrder(tracks);
    case Next(pick, loaded) => if PickOk(s, pick) { NextKeepsOk(s, false, pick, loaded); }
    case Previous(pick, loaded) => if PickOk(s, pick) { PreviousKeepsOk(s, pick, loaded); }
    case Complete(pick, loaded) => if PickOk(s, pick) { NextKeepsOk(s, true, pick, loaded); }
    case _ =>
  }

  /** In every run the index is -1 for an empty queue and a position of the queue otherwise. */
  lemma {:induction false} IndexIsAlwaysValid(run: seq<Event>)
    ensures Ok(After(run))
  {
    if run != [] {
      IndexIsAlwaysValid(run[..|run| - 1]);
      EventKeepsOk(After(run[..|run| - 1]), run[|run| - 1]);
    }
  }

  // ---- Moving through the queue ----

  ghost predicate UniqueIds(queue: seq<Item>) {
    forall i, j :: 0 <= i < j < |queue| ==> queue[i].id != queue[j].id
  }

  lemma FirstOfUnique(queue: seq<Item>, i: nat)
    requires UniqueIds(queue) && i < |queue|
    ensures IndexOf(queue, queue[i].id) == i
  {
    var j := IndexOf(queue, queue[i].id);
    assert queue[j].id == queue[i].id;
  }

  /** Playing item i leaves the index at i exactly when i is the first item with its id, or the
      same track is loaded already. */
  lemma PlayStaysIff(s: State, i: nat, loaded: bool)
    requires Ok(s) && i < |s.queue|
    ensures PlayedAt(s, i, loaded).index == i <==>
      IndexOf(s.queue, s.queue[i].id) == i || (loaded && s.current == Some(s.queue[i].id))
  {
  }

  /** Whichever item is played, the index points to an item with the id of the current track. */
  lemma IndexShowsCurrent(s: State, i: nat, loaded: bool)
    requires Ok(s) && i < |s.queue|
    ensures var p := PlayedAt(s, i, loaded);
      InRange(p) && p.current == Some(s.queue[i].id) && p.queue[p.index].id == s.queue[i].id
  {
  }

  function Successor(queue: seq<Item>, i: int): int {
    if i + 1 == |queue| then 0 else i + 1
  }

  /** With repeat-all and no shuffle, and as long as no source is loaded, `next` from every
      position leads to the following one, the first after the last, exactly when the ids are
      unique. */
  lemma NextFollowsIffUnique(s: State)
    requires Ok(s) && s.queue != [] && s.mode == All && !s.shuffle
    ensures UniqueIds(s.queue) <==>
      forall i :: 0 <= i < |s.queue| ==> AfterNext(s.(index := i), false, 0, false).index == Successor(s.queue, i)
  {
    if UniqueIds(s.queue) {
      forall i | 0 <= i < |s.queue| {
        FirstOfUnique(s.queue, i);
      }
    } else {
      var a, b :| 0 <= a < b < |s.queue| && s.queue[a].id == s.queue[b].id;
      assert IndexOf(s.queue, s.queue[b].id) <= a;
      assert AfterNext(s.(index := b - 1), false, 0, false).index <= a < b;
    }
  }

  /** The player has position i as its current track. */
  function Playing(s: State, i: nat): State
    requires i < |s.queue|
  {
    s.(index := i, current := Some(s.queue[i].id))
  }

  /** While a source is loaded, `next` from position i leads to the following one exactly when that
      is the first with its id or has the id of the current track. */
  lemma NextFollowsLoadedIff(s: State, i: nat)
    requires Ok(s) && i < |s.queue| && s.mode == All && !s.shuffle
    ensures var j := Successor(s.queue, i);
      AfterNext(Playing(s, i), false, 0, true).index == j
      <==> IndexOf(s.queue, s.queue[j].id) == j || s.queue[j].id == s.queue[i].id
  {
  }

  /** Items with the same id stand next to each other. */
  ghost predicate Grouped(queue: seq<Item>) {
    forall a, k, b :: 0 <= a <= k <= b < |queue| && queue[a].id == queue[b].id ==> queue[k].id == queue[a].id
  }

  lemma FirstOrSameAsBefore(queue: seq<Item>, j: nat)
    requires Grouped(queue) && 0 < j < |queue|
    ensures IndexOf(queue, queue[j].id) == j || queue[j].id == queue[j - 1].id
  {
    var a := IndexOf(queue, queue[j].id);
    assert queue[a].id == queue[j].id && a <= j;
    assert a <= j - 1 ==> queue[j - 1].id == queue[a].id;
  }

  lemma {:induction false} BlockReachesBack(queue: seq<Item>, a: nat, k: nat, b: nat)
    requires a <= k <= b < |queue| && queue[a].id == queue[b].id
    requires forall j :: 0 < j < |queue| ==> IndexOf(queue, queue[j].id) == j || queue[j].id == queue[j - 1].id
    ensures queue[k].id == queue[a].id
    decreases b - k
  {
    if k < b {
      BlockReachesBack(queue, a, k + 1, b);
      assert IndexOf(queue, queue[k + 1].id) <= a;
    }
  }

  /** So, while sources are loaded, `next` follows the queue from every position exactly when equal
      ids stand next to each other. */
  lemma NextFollowsIffGrouped(s: State)
    requires Ok(s) && s.queue != [] && s.mode == All && !s.shuffle
    ensures Grouped(s.queue) <==>
      forall i :: 0 <= i < |s.queue| ==> AfterNext(Playing(s, i), false, 0, true).index == Successor(s.queue, i)
  {
    forall i | 0 <= i < |s.queue| {
      NextFollowsLoadedIff(s, i);
    }
    if Grouped(s.queue) {
      forall i | 0 <= i < |s.queue|
        ensures AfterNext(Playing(s, i), false, 0, true).index == Successor(s.queue, i)
      {
        if i + 1 < |s.queue| {
          FirstOrSameAsBefore(s.queue, i + 1);
        }
      }
    } else if forall i :: 0 <= i < |s.queue| ==> AfterNext(Playing(s, i), false, 0, true).index == Successor(s.queue, i) {
      forall a, k, b | 0 <= a <= k <= b < |s.queue| && s.queue[a].id == s.queue[b].id
        ensures s.queue[k].id == s.queue[a].id
      {
        forall j | 0 < j < |s.queue|
          ensures IndexOf(s.queue, s.queue[j].id) == j || s.queue[j].id == s.queue[j - 1].id
        {
          assert Successor(s.queue, j - 1) == j;
        }
        BlockReachesBack(s.queue, a, k, b);
      }
      assert false;
    }
  }

  /** The track at position i was played: it is the current one, and the index is on the first item
      with its id, or still on i if the track was loaded already. Nothing else changed. */
  ghost predicate NowPlays(s: State, p: State, i: int, loaded: bool) {
    && 0 <= i < |s.queue| && 0 <= p.index < |s.queue|
    && p.queue == s.queue && p.mode == s.mode && p.shuffle == s.shuffle
    && p.current == Some(s.queue[i].id)
    && (if loaded && s.current == Some(s.queue[i].id) then p.index == i
        else s.queue[p.index].id == s.queue[i].id && forall k :: 0 <= k < p.index ==> s.queue[k].id != s.queue[i].id)
  }

  lemma PlayedNowPlays(s: State, i: nat, loaded: bool)
    requires Ok(s) && i < |s.queue|
    ensures NowPlays(s, PlayedAt(s, i, loaded), i, loaded)
  {
  }

  /** What `next` plays: another position when shuffling, else the following one, else the first
      one with repeat-all; otherwise it stops after the end of a track and does nothing when
      pressed. */
  lemma NextPlays(s: State, auto: bool, pick: nat, loaded: bool)
    requires Ok(s) && s.queue != [] && PickOk(s, pick)
    ensures var p := AfterNext(s, auto, pick, loaded);
      if s.shuffle && |s.queue| > 1 then pick != s.index && NowPlays(s, p, pick, loaded)
      else if s.index + 1 < |s.queue| then NowPlays(s, p, s.index + 1, loaded)
      else if s.mode == All then NowPlays(s, p, 0, loaded)
      else p == if auto then s.(current := None) else s
  {
    var i := if s.shuffle && |s.queue| > 1 then pick else if s.index + 1 < |s.queue| then s.index + 1 else 0;
    PlayedNowPlays(s, i, loaded);
  }

  /** What `previous` plays: another position when shuffling, else the one before; at the first
      position the last one with repeat-all, and otherwise the first again. */
  lemma PreviousPlays(s: State, pick: nat, loaded: bool)
    requires Ok(s) && s.queue != [] && PickOk(s, pick)
    ensures var p := AfterPrevious(s, pick, loaded);
      if s.shuffle && |s.queue| > 1 then pick != s.index && NowPlays(s, p, pick, loaded)
      else if s.index > 0 then NowPlays(s, p, s.index - 1, loaded)
      else NowPlays(s, p, if s.mode == All then |s.queue| - 1 else 0, loaded)
  {
    var before := if s.index > 0 then s.index - 1 else if s.mode == All then |s.queue| - 1 else 0;
    PlayedNowPlays(s, if s.shuffle && |s.queue| > 1 then pick else before, loaded);
  }

  /** Where `next` leads without shuffle. */
  lemma NextLands(s: State, auto: bool, loaded: bool)
    requires Ok(s) && s.queue != [] && !s.shuffle && UniqueIds(s.queue)
    ensures var p := AfterNext(s, auto, 0, loaded);
      var last := s.index == |s.queue| - 1;
      && p.queue == s.queue && p.mode == s.mode && !p.shuffle
      && p.index == (if !last then s.index + 1 else if s.mode == All then 0 else s.index)
      && p.current == (if !last || s.mode == All then Some(s.queue[p.index].id) else if auto then None else s.current)
  {
    FirstOfUnique(s.queue, if s.index < |s.queue| - 1 then s.index + 1 else 0);
  }

  /** Where `previous` leads without shuffle. */
  lemma PreviousLands(s: State, loaded: bool)
    requires Ok(s) && s.queue != [] && !s.shuffle && UniqueIds(s.queue)
    ensures var p := AfterPrevious(s, 0, loaded);
      && p.queue == s.queue && p.mode == s.mode && !p.shuffle
      && p.index == (if s.index > 0 then s.index - 1 else if s.mode == All then |s.queue| - 1 else 0)
      && p.current == Some(s.queue[p.index].id)
  {
    FirstOfUnique(s.queue, if s.index > 0 then s.index - 1 else if s.mode == All then |s.queue| - 1 else 0);
  }

  /** Repeat-all without shuffle on a queue with unique ids. */
  ghost predicate GoesRound(s: State) {
    Ok(s) && s.queue != [] && s.mode == All && !s.shuffle && UniqueIds(s.queue)
  }

  lemma NextGoesRound(s: State, loaded: bool)
    requires GoesRound(s)
    ensures var p := AfterNext(s, false, 0, loaded);
      && GoesRound(p) && p.queue == s.queue && p.current == Some(s.queue[p.index].id)
      && p.index == if s.index + 1 == |s.queue| then 0 else s.index + 1
  {
    NextLands(s, false, loaded);
  }

  /** Pressing next, once per element of `loaded`. */
  function AfterNexts(s: State, loaded: seq<bool>): (r: State)
    requires !s.shuffle
    ensures !r.shuffle
  {
    if loaded == [] then s
    else AfterNext(AfterNexts(s, loaded[..|loaded| - 1]), false, 0, loaded[|loaded| - 1])
  }

  /** k positions on from i, round a queue of n. */
  function Round(i: nat, k: nat, n: nat): (r: nat)
    requires i < n
    ensures r < n
  {
    if k == 0 then i
    else
      var before := Round(i, k - 1, n);
      if before + 1 == n then 0 else before + 1
  }

  lemma {:induction false} RoundOnce(i: nat, k: nat, n: nat)
    requires i < n && k <= n
    ensures Round(i, k, n) == if i + k < n then i + k else i + k - n
  {
    if k > 0 {
      RoundOnce(i, k - 1, n);
    }
  }

  /** With repeat-all, no shuffle and unique ids, k presses of next move k positions round the
      queue and play the track there. */
  lemma {:induction false} NextsGoRound(s: State, loaded: seq<bool>)
    requires GoesRound(s)
    ensures var p := AfterNexts(s, loaded);
      && GoesRound(p) && p.queue == s.queue
      && p.index == Round(s.index, |loaded|, |s.queue|)
      && (loaded != [] ==> p.current == Some(s.queue[p.index].id))
  {
    if loaded != [] {
      NextsGoRound(s, loaded[..|loaded| - 1]);
      NextGoesRound(AfterNexts(s, loaded[..|loaded| - 1]), loaded[|loaded| - 1]);
    }
  }

  /** The same while sources are loaded, for a queue with equal ids next to each other. */
  lemma {:induction false} LoadedNextsGoRound(s: State, loaded: seq<bool>)
    requires Ok(s) && s.queue != [] && s.mode == All && !s.shuffle && Grouped(s.queue)
    requires s.current == Some(s.queue[s.index].id) && forall k :: 0 <= k < |loaded| ==> loaded[k]
    ensures AfterNexts(s, loaded) == Playing(s, Round(s.index, |loaded|, |s.queue|))
  {
    if loaded != [] {
      var i: nat := Round(s.index, |loaded| - 1, |s.queue|);
      LoadedNextsGoRound(s, loaded[..|loaded| - 1]);
      NextFollowsLoadedIff(s, i);
      if i + 1 < |s.queue| {
        FirstOrSameAsBefore(s.queue, i + 1);
      }
    }
  }

  /** So n presses visit each of n items and end at the start: every position is reached after a
      number of presses between 1 and n. */
  lemma NextsVisitAll(s: State, loaded: seq<bool>, j: nat)
    requires GoesRound(s) && |loaded| == |s.queue| && j < |s.queue|
    ensures AfterNexts(s, loaded).index == s.index
    ensures exists k :: 0 < k <= |s.queue| && AfterNexts(s, loaded[..k]).index == j
  {
    NextsGoRound(s, loaded);
    RoundOnce(s.index, |s.queue|, |s.queue|);
    var k := if j > s.index then j - s.index else j + |s.queue| - s.index;
    NextsGoRound(s, loaded[..k]);
    RoundOnce(s.index, k, |s.queue|);
  }

  /** And none twice on the way. */
  lemma NextsVisitOnce(s: State, loaded: seq<bool>, k: nat, k': nat)
    requires GoesRound(s) && |loaded| == |s.queue| && 0 < k < k' <= |s.queue|
    ensures AfterNexts(s, loaded[..k]).index != AfterNexts(s, loaded[..k']).index
  {
    NextsGoRound(s, loaded[..k]);
    NextsGoRound(s, loaded[..k']);
    RoundOnce(s.index, k, |s.queue|);
    RoundOnce(s.index, k', |s.queue|);
  }

  /** `previous` undoes `next` exactly unless `next` stood still at the end of a longer queue. */
  lemma PreviousUndoesNextIff(s: State, loaded: bool, loaded': bool)
    requires Ok(s) && s.queue != [] && !s.shuffle && UniqueIds(s.queue)
    ensures AfterPrevious(AfterNext(s, false, 0, loaded), 0, loaded').index == s.index
      <==> s.mode == All || s.index < |s.queue| - 1 || |s.queue| == 1
  {
    NextLands(s, false, loaded);
    PreviousLands(AfterNext(s, false, 0, loaded), loaded');
  }

  /** `next` undoes `previous` exactly unless `previous` stood still at the start of a longer
      queue. */
  lemma NextUndoesPreviousIff(s: State, loaded: bool, loaded': bool)
    requires Ok(s) && s.queue != [] && !s.shuffle && UniqueIds(s.queue)
    ensures AfterNext(AfterPrevious(s, 0, loaded), false, 0, loaded').index == s.index
      <==> s.mode == All || s.index > 0 || |s.queue| == 1
  {
    PreviousLands(s, loaded);
    NextLands(AfterPrevious(s, 0, loaded), false, loaded');
  }

  /** Tracks that end, one per element of `loaded`. */
  function AfterCompletions(s: State, loaded: seq<bool>): (r: State)
    requires !s.shuffle
    ensures !r.shuffle
  {
    if loaded == [] then s
    else AfterCompleted(AfterCompletions(s, loaded[..|loaded| - 1]), 0, loaded[|loaded| - 1])
  }

  /** With repeat off, no shuffle and unique ids, playback runs through the rest of the queue one
      track at a time and then stops. */
  lemma {:induction false} AutoAdvanceStops(s: State, loaded: seq<bool>)
    requires Ok(s) && s.queue != [] && s.mode == Off && !s.shuffle && UniqueIds(s.queue)
    requires |loaded| <= |s.queue| - s.index
    ensures var p := AfterCompletions(s, loaded);
      && p.queue == s.queue && p.mode == Off && !p.shuffle
      && (if s.index + |loaded| < |s.queue| then
            p.index == s.index + |loaded| && (loaded != [] ==> p.current == Some(s.queue[p.index].id))
          else p.index == |s.queue| - 1 && p.current == None)
  {
    if loaded != [] {
      var front := loaded[..|loaded| - 1];
      AutoAdvanceStops(s, front);
      NextLands(AfterCompletions(s, front), true, loaded[|loaded| - 1]);
    }
  }

  /** A shuffle step lands on the drawn position, another one than before. */
  lemma ShuffleMovesElsewhere(s: State, pick: nat, loaded: bool, auto: bool)
    requires Ok(s) && s.shuffle && |s.queue| > 1 && UniqueIds(s.queue) && ValidPick(s, pick)
    ensures AfterNext(s, auto, pick, loaded).index == AfterPrevious(s, pick, loaded).index == pick
    ensures pick != s.index && 0 <= pick < |s.queue|
    ensures AfterNext(s, auto, pick, loaded).current == Some(s.queue[pick].id)
  {
    FirstOfUnique(s.queue, pick);
  }
}
