/** The track store of one node and its slow token scan. */
module Library {
  import opened Options
  import opened Text

  datatype Track = Track(
    id: string,
    ctid: string,
    title: string,
    artist: string,
    path: string,
    liked: bool,
    recognized: bool)

  type Tracks = map<string, Track>

  // ---- Substring search ----

  ghost predicate OccursAt(s: string, p: string, i: int) {
    0 <= i <= |s| - |p| && s[i..i + |p|] == p
  }

  ghost predicate Occurs(s: string, p: string) {
    exists i :: OccursAt(s, p, i)
  }

  /** The nested loop of the storage package. */
  method Contains(s: string, substr: string) returns (found: bool)
    ensures found <==> Occurs(s, substr)
  {
    if |substr| == 0 {
      assert OccursAt(s, substr, 0);
      return true;
    }
    if |substr| > |s| {
      return false;
    }
    var i := 0;
    while i <= |s| - |substr|
      invariant 0 <= i
      invariant forall k :: 0 <= k < i ==> !OccursAt(s, substr, k)
    {
      var matching := true;
      var j := 0;
      while j < |substr|
        invariant 0 <= j <= |substr|
        invariant matching
        invariant s[i..i + j] == substr[..j]
      {
        if s[i + j] != substr[j] {
          matching := false;
          assert s[i..i + |substr|][j] != substr[j];
          break;
        }
        j := j + 1;
      }
      if matching {
        assert OccursAt(s, substr, i);
        return true;
      }
      i := i + 1;
    }
    return false;
  }

  method ToLower(s: string) returns (r: string)
    ensures r == MapText(AsciiLower, s)
    ensures forall i :: 0 <= i < |s| ==> r[i] as int == if 65 <= s[i] as int <= 90 then s[i] as int + 32 else s[i] as int
  {
    var result := new char[|s|];
    for i := 0 to |s|
      invariant forall k :: 0 <= k < i ==> result[k] == AsciiLower(s[k])
    {
      if s[i] >= 'A' && s[i] <= 'Z' {
        result[i] := (s[i] as int + 32) as char;
      } else {
        result[i] := s[i];
      }
    }
    r := result[..];
  }

  /** `token` must be lower-cased by the caller, as in the source. */
  method ContainsToken(text: string, token: string) returns (found: bool)
    ensures found <==> Occurs(MapText(AsciiLower, text), token)
  {
    var textLower := ToLower(text);
    if |textLower| < |token| {
      return false;
    }
    if textLower == token {
      assert OccursAt(textLower, token, 0);
      return true;
    }
    found := Contains(textLower, token);
  }

  /** Equal up to the case of ASCII letters. */
  ghost predicate SameLetter(a: char, b: char) {
    || a == b
    || ('A' <= a <= 'Z' && b as int == a as int + 32)
    || ('A' <= b <= 'Z' && a as int == b as int + 32)
  }

  /** The text holds the token at position i, up to the case of ASCII letters. */
  ghost predicate ReadsAt(text: string, token: string, i: int) {
    0 <= i <= |text| - |token| && forall k :: 0 <= k < |token| ==> SameLetter(text[i + k], token[k])
  }

  /** The scan finds a track exactly when the title or the artist holds the token somewhere, up to
      the case of ASCII letters. */
  lemma HitIff(track: Track, token: string)
    ensures Hit(track, token) <==>
      (exists i :: ReadsAt(track.title, token, i)) || exists i :: ReadsAt(track.artist, token, i)
  {
    TextHitIff(track.title, token);
    TextHitIff(track.artist, token);
  }

  lemma TextHitIff(text: string, token: string)
    ensures TextHit(text, token) <==> exists i :: ReadsAt(text, token, i)
  {
    forall i: int
      ensures ReadsAt(text, token, i) <==> OccursAt(MapText(AsciiLower, text), MapText(AsciiLower, token), i)
    {
      ReadsWhereItOccurs(text, token, i);
    }
  }

  lemma ReadsWhereItOccurs(text: string, token: string, i: int)
    ensures ReadsAt(text, token, i) <==> OccursAt(MapText(AsciiLower, text), MapText(AsciiLower, token), i)
  {
    var t, p := MapText(AsciiLower, text), MapText(AsciiLower, token);
    if 0 <= i <= |text| - |token| {
      assert forall k :: 0 <= k < |p| ==> t[i..i + |p|][k] == t[i + k] == AsciiLower(text[i + k]) && p[k] == AsciiLower(token[k]);
      assert forall k :: 0 <= k < |p| ==> (SameLetter(text[i + k], token[k]) <==> t[i..i + |p|][k] == p[k]);
      assert t[i..i + |p|] == p <==> forall k :: 0 <= k < |p| ==> t[i..i + |p|][k] == p[k];
    }
  }

  /** Whether the scan for `token` hits this text. */
  ghost predicate TextHit(text: string, token: string) {
    Occurs(MapText(AsciiLower, text), MapText(AsciiLower, token))
  }

  /** Whether the scan for `token` hits this track. */
  ghost predicate Hit(track: Track, token: string) {
    TextHit(track.title, token) || TextHit(track.artist, token)
  }

  /** listing enumerates the store: every stored track once, in some order. */
  ghost predicate Lists(listing: seq<Track>, tracks: Tracks) {
    && (forall i :: 0 <= i < |listing| ==> listing[i].id in tracks && tracks[listing[i].id] == listing[i])
    && (forall i, j :: 0 <= i < j < |listing| ==> listing[i].id != listing[j].id)
    && (forall id :: id in tracks ==> tracks[id] in listing)
  }

  /** Tracks are filed under their own id. */
  ghost predicate Filed(tracks: Tracks) {
    forall id :: id in tracks ==> tracks[id].id == id
  }

  class Storage {
    var tracks: Tracks
    ghost var refusals: nat

    ghost predicate Valid()
      reads this
    {
      Filed(tracks)
    }

    constructor ()
      ensures Valid() && tracks == map[] && refusals == 0
    {
      tracks, refusals := map[], 0;
    }

    /** The datastore may refuse the write; refusals counts how often it did. */
    method SaveTrack(track: Track) returns (ok: bool)
      requires Valid()
      modifies this
      ensures Valid()
      ensures tracks == if ok then old(tracks)[track.id := track] else old(tracks)
      ensures refusals == old(refusals) + if ok then 0 else 1
    {
      ok := *;
      if ok {
        tracks := tracks[track.id := track];
      } else {
        refusals := refusals + 1;
      }
    }

    method GetTrack(id: string) returns (r: Option<Track>)
      ensures r == if id in tracks then Some(tracks[id]) else None
    {
      r := if id in tracks then Some(tracks[id]) else None;
    }

    /** All tracks, in whatever order the datastore yields them. */
    method GetAllTracks() returns (listing: seq<Track>)
      requires Valid()
      ensures Lists(listing, tracks)
    {
      listing := [];
      var left := tracks.Keys;
      while left != {}
        invariant left <= tracks.Keys
        invariant forall i :: 0 <= i < |listing| ==> listing[i].id in tracks.Keys - left && tracks[listing[i].id] == listing[i]
        invariant forall i, j :: 0 <= i < j < |listing| ==> listing[i].id != listing[j].id
        invariant forall id :: id in tracks && id !in left ==> tracks[id] in listing
      {
        var id :| id in left;
        left := left - {id};
        listing := listing + [tracks[id]];
      }
    }

    method FindTrackByCTID(ctid: string) returns (r: Option<Track>)
      requires Valid()
      ensures r.Some? ==> r.value in tracks.Values && r.value.ctid == ctid
      ensures r.None? <==> forall id :: id in tracks ==> tracks[id].ctid != ctid
    {
      var listing := GetAllTracks();
      for i := 0 to |listing|
        invariant forall k :: 0 <= k < i ==> listing[k].ctid != ctid
      {
        if listing[i].ctid == ctid {
          assert tracks[listing[i].id] == listing[i];
          return Some(listing[i]);
        }
      }
      return None;
    }

    /** The tracks whose title or artist contains the token, each once. */
    method FindTracksByToken(token: string) returns (results: seq<Track>)
      requires Valid()
      ensures forall r :: r in results ==> r.id in tracks && tracks[r.id] == r && Hit(r, token)
      ensures forall id :: id in tracks && Hit(tracks[id], token) ==> tracks[id] in results
      ensures forall i, j :: 0 <= i < j < |results| ==> results[i].id != results[j].id
    {
      var listing := GetAllTracks();
      results := FilterByToken(listing, token);
    }
  }

  /** The loop of FindTracksByToken over the listed tracks. */
  method FilterByToken(listing: seq<Track>, token: string) returns (results: seq<Track>)
    requires forall i, j :: 0 <= i < j < |listing| ==> listing[i].id != listing[j].id
    ensures forall r :: r in results <==> r in listing && Hit(r, token)
    ensures forall i, j :: 0 <= i < j < |results| ==> results[i].id != results[j].id
  {
    var tokenLower := ToLower(token);
    results := [];
    for i := 0 to |listing|
      invariant forall r :: r in results <==> r in listing[..i] && Hit(r, token)
      invariant forall k, m :: 0 <= k < m < |results| ==> results[k].id != results[m].id
    {
      assert listing[..i + 1] == listing[..i] + [listing[i]];
      var inTitle := ContainsToken(listing[i].title, tokenLower);
      var inArtist := ContainsToken(listing[i].artist, tokenLower);
      if inTitle || inArtist {
        assert forall k :: 0 <= k < |results| ==> results[k] in listing[..i];
        results := results + [listing[i]];
      }
    }
    assert listing[..|listing|] == listing;
  }

  // ---- The scan against the tokens ----

  /** No character of s that only Unicode lower-casing changes (no non-ASCII capital). */
  ghost predicate Plain(low: Lowering, s: string) {
    forall i :: 0 <= i < |s| ==> low(s[i]) == AsciiLower(s[i])
  }

  /** A clean token is its own ASCII lower-case. */
  lemma TokenIsAsciiLower(low: Lowering, t: string)
    requires IsToken(low, t)
    ensures MapText(AsciiLower, t) == t
  {
    forall i | 0 <= i < |t|
      ensures AsciiLower(t[i]) == t[i]
    {
      assert t[i] in t;
    }
  }

  /** From position i on, the text spells the token without a non-ASCII capital. */
  ghost predicate SpelledAt(low: Lowering, text: string, t: string, i: int) {
    && 0 <= i <= |text| - |t|
    && forall k :: i <= k < i + |t| ==> low(text[k]) == AsciiLower(text[k]) == t[k - i]
  }

  ghost predicate Spelled(low: Lowering, text: string, t: string) {
    exists i :: SpelledAt(low, text, t, i)
  }

  lemma SpelledIsOccurrence(low: Lowering, text: string, t: string, i: int)
    requires IsToken(low, t)
    ensures SpelledAt(low, text, t, i) <==> OccursAt(MapText(AsciiLower, text), t, i)
  {
    var lowered := MapText(AsciiLower, text);
    if OccursAt(lowered, t, i) {
      forall k | i <= k < i + |t|
        ensures low(text[k]) == AsciiLower(text[k]) == t[k - i]
      {
        assert lowered[i..i + |t|][k - i] == lowered[k];
        assert t[k - i] in t;
      }
    }
    if SpelledAt(low, text, t, i) {
      assert forall k :: i <= k < i + |t| ==> lowered[k] == t[k - i];
      assert lowered[i..i + |t|] == t;
    }
  }

  /** Exactly when the scan hits a text for a token: somewhere the text spells the token
      without a non-ASCII capital. */
  lemma ScanHitsIff(low: Lowering, text: string, t: string)
    requires IsToken(low, t)
    ensures TextHit(text, t) <==> Spelled(low, text, t)
  {
    TokenIsAsciiLower(low, t);
    forall i: int {
      SpelledIsOccurrence(low, text, t, i);
    }
  }

  /** The scan hits a plain text for each of its tokens. */
  lemma ScanCoversTokens(low: Lowering, text: string, t: string)
    requires Plain(low, text) && t in Tokens(low, text)
    ensures TextHit(text, t)
  {
    TokensAreRuns(low, text, t);
    var lowered := MapText(low, text);
    var i, j :| IsRun(lowered, i, j, IsSeparator) && lowered[i..j] == t;
    assert forall k :: i <= k < j ==> t[k - i] == lowered[k];
    assert SpelledAt(low, text, t, i);
    ScanHitsIff(low, text, t);
  }

  /** A text of one word is found under its own token exactly when it is plain. */
  lemma OneWordFoundIffPlain(low: Lowering, word: string)
    requires (forall c :: c in word ==> !IsSeparator(c)) && ByteLen(MapText(low, word)) >= 2
    ensures Tokens(low, word) == [MapText(low, word)]
    ensures TextHit(word, MapText(low, word)) <==> Plain(low, word)
  {
    var t := MapText(low, word);
    forall c | c in t
      ensures !IsSeparator(c) && low(c) == c
    {
      var k :| 0 <= k < |t| && t[k] == c;
      assert word[k] in word;
    }
    SplitWord(t, IsSeparator);
    assert LongEnough([t]) == [t];
    ScanHitsIff(low, word, t);
    assert Plain(low, word) <==> SpelledAt(low, word, t, 0);
    assert forall i :: SpelledAt(low, word, t, i) ==> i == 0;
  }

  /** Lower-casing of ASCII and of the Cyrillic capitals U+0410 to U+042F. */
  function CyrillicLower(c: char): char {
    if 0x410 <= c as int <= 0x42F then (c as int + 32) as char else AsciiLower(c)
  }

  lemma CyrillicIsLowering()
    ensures IsLowering(CyrillicLower)
  {
  }

  /** The scan does not cover the index in general: a two-letter Cyrillic title is not found
      under its only token. */
  lemma ScanMissesCyrillicCapital()
    ensures IsLowering(CyrillicLower)
    ensures var low: Lowering := CyrillicLower;
      var title, token := "\U{0414}\U{0430}", "\U{0434}\U{0430}";
      token in Tokens(low, title) && !TextHit(title, token)
  {
    CyrillicIsLowering();
    var low: Lowering := CyrillicLower;
    var title := "\U{0414}\U{0430}";
    assert MapText(low, title) == "\U{0434}\U{0430}";
    TwoLetters('\U{0434}', '\U{0430}');
    OneWordFoundIffPlain(low, title);
    assert low(title[0]) != AsciiLower(title[0]);
  }

  lemma TwoLetters(a: char, b: char)
    ensures ByteLen([a, b]) == Width(a) + Width(b)
  {
    assert [a, b][1..] == [b] && [b][1..] == [];
    assert ByteLen([b]) == Width(b) + ByteLen([]);
    assert ByteLen([a, b]) == Width(a) + ByteLen([b]);
  }
}
