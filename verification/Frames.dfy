/** Length-prefixed frames: [4 bytes little-endian length][data]. */
module Frames {
  import opened Sequences

  type byte = b: int | 0 <= b < 256

  const TWO_TO_THE_32 := 0x1_0000_0000
  const MAX_MESSAGE := 10 * 1024 * 1024

  // ---- The uint32 codec ----

  /** The n low bytes of v, lowest first. */
  function LittleEndian(v: nat, n: nat): (r: seq<byte>)
    ensures |r| == n
  {
    if n == 0 then [] else [v % 256] + LittleEndian(v / 256, n - 1)
  }

  function Value(b: seq<byte>): nat {
    if b == [] then 0 else b[0] + 256 * Value(b[1..])
  }

  function Power256(n: nat): nat {
    if n == 0 then 1 else 256 * Power256(n - 1)
  }

  lemma {:induction false} ValueRoundTrip(v: nat, n: nat)
    requires v < Power256(n)
    ensures Value(LittleEndian(v, n)) == v
  {
    if n > 0 {
      ValueRoundTrip(v / 256, n - 1);
      assert LittleEndian(v, n)[1..] == LittleEndian(v / 256, n - 1);
    }
  }

  lemma Uint32RoundTrip(v: nat)
    requires v < TWO_TO_THE_32
    ensures Value(LittleEndian(v, 4)) == v
  {
    assert Power256(2) == 65536;
    assert Power256(4) == TWO_TO_THE_32;
    ValueRoundTrip(v, 4);
  }

  /** The four assignments of writeUint32. */
  lemma FourBytes(v: nat)
    requires v < TWO_TO_THE_32
    ensures LittleEndian(v, 4) == [v % 256, v / 256 % 256, v / 65536 % 256, v / 16777216 % 256]
  {
    assert v / 256 / 256 == v / 65536 && v / 65536 / 256 == v / 16777216;
    assert LittleEndian(v / 65536, 2) == [v / 65536 % 256] + LittleEndian(v / 16777216, 1);
    assert LittleEndian(v / 16777216, 1) == [v / 16777216 % 256] + LittleEndian(v / 16777216 / 256, 0);
  }

  /** The sum in readUint32. */
  lemma FourValue(b: seq<byte>)
    requires |b| == 4
    ensures var b0: int, b1: int, b2: int, b3: int := b[0], b[1], b[2], b[3];
      Value(b) == b0 + 256 * b1 + 65536 * b2 + 16777216 * b3
  {
    assert b[1..][1..] == b[2..] && b[2..][1..] == b[3..] && b[3..][1..] == [];
    assert Value(b[3..]) == b[3] as int;
    assert Value(b[2..]) == b[2] + 256 * Value(b[3..]);
    assert Value(b[1..]) == b[1] + 256 * Value(b[2..]);
  }

  lemma NextBits(x: bv32)
    requires x < 255
    ensures (x + 1) as int == x as int + 1
  {
  }

  /** A byte as a uint32. (Counting up to it is cheaper to verify than a cast.) */
  function Bits(b: byte): (r: bv32)
    ensures r as int == b && r < 256
  {
    if b == 0 then 0
    else
      var before := Bits(b - 1);
      NextBits(before);
      before + 1
  }

  lemma OrSecond(x: bv32, b: bv32)
    requires x < 0x100 && b < 256
    ensures (x | (b << 8)) as int == x as int + 256 * b as int && x | (b << 8) < 0x1_0000
  {
  }

  lemma OrThird(x: bv32, b: bv32)
    requires x < 0x1_0000 && b < 256
    ensures (x | (b << 16)) as int == x as int + 65536 * b as int && x | (b << 16) < 0x100_0000
  {
  }

  lemma OrFourth(x: bv32, b: bv32)
    requires x < 0x100_0000 && b < 256
    ensures (x | (b << 24)) as int == x as int + 16777216 * b as int
  {
  }

  /** The first n bytes or-ed together, each shifted to its place: or-ing adds them. */
  function OrBytes(b: seq<byte>, n: nat): (r: bv32)
    requires 0 < n <= |b| <= 4
    ensures n == 1 ==> r as int == b[0] && r < 0x100
    ensures n == 2 ==> r as int == b[0] + 256 * b[1] as int && r < 0x1_0000
    ensures n == 3 ==> r as int == b[0] + 256 * b[1] as int + 65536 * b[2] as int && r < 0x100_0000
    ensures n == 4 ==> r as int == b[0] + 256 * b[1] as int + 65536 * b[2] as int + 16777216 * b[3] as int
  {
    if n == 1 then Bits(b[0])
    else
      var lower, next := OrBytes(b, n - 1), Bits(b[n - 1]);
      if n == 2 then OrSecond(lower, next); lower | (next << 8)
      else if n == 3 then OrThird(lower, next); lower | (next << 16)
      else OrFourth(lower, next); lower | (next << 24)
  }

  // ---- Frames ----

  /** The length field holds the length modulo 2^32. */
  function Frame(data: seq<byte>): (r: seq<byte>)
    ensures |r| == 4 + |data|
  {
    LittleEndian(|data| % TWO_TO_THE_32, 4) + data
  }

  function Encode(messages: seq<seq<byte>>): seq<byte> {
    if messages == [] then [] else Frame(messages[0]) + Encode(messages[1..])
  }

  /** CleanEof is io.EOF; CutShort is io.ErrUnexpectedEOF; Broken is any other error of the stream,
      such as a reset. */
  datatype Reading = Message(data: seq<byte>, rest: seq<byte>) | CleanEof | CutShort | TooLarge | Broken

  /** io.ReadFull: the end of the stream is clean only before the first byte. */
  function ReadFull(s: seq<byte>, n: nat): (r: Reading)
    ensures r.Message? ==> |r.data| == n && |r.data| + |r.rest| == |s|
  {
    if |s| >= n then Message(s[..n], s[n..]) else if s == [] then CleanEof else CutShort
  }

  /** readMessage on the unread bytes. */
  function Parse(s: seq<byte>): (r: Reading)
    ensures r.Message? ==> |r.data| + |r.rest| + 4 == |s|
  {
    var header := ReadFull(s, 4);
    if !header.Message? then header
    else
      var length := Value(header.data);
      if length > MAX_MESSAGE then TooLarge else ReadFull(header.rest, length)
  }

  /** The reading on a stream whose end is an error in place of EOF, if reset is set. */
  function Ending(r: Reading, reset: bool): Reading {
    if reset && (r.CleanEof? || r.CutShort?) then Broken else r
  }

  /** All messages of a stream, and how it ends. */
  function DecodeAll(s: seq<byte>): (seq<seq<byte>>, Reading)
    decreases |s|
  {
    match Parse(s)
    case Message(data, rest) => var (more, end) := DecodeAll(rest); ([data] + more, end)
    case end => ([], end)
  }

  /** The expression of readUint32. */
  method CombineBytes(buf: array<byte>) returns (v: nat)
    requires buf.Length == 4
    ensures v == Value(buf[..])
  {
    FourValue(buf[..]);
    v := OrBytes(buf[..], 4) as int;
  }

  /** reset tells whether the stream ends with an error. */
  class InStream {
    var unread: seq<byte>
    const reset: bool

    constructor (bytes: seq<byte>, reset: bool)
      ensures unread == bytes && this.reset == reset
    {
      unread := bytes;
      this.reset := reset;
    }

    method Fill(buf: array<byte>) returns (r: Reading)
      modifies this, buf
      ensures r == Ending(ReadFull(old(unread), buf.Length), reset)
      ensures r.Message? ==> buf[..] == r.data && unread == r.rest
    {
      var n := buf.Length;
      if |unread| >= n {
        for i := 0 to n
          invariant unread == old(unread)
          invariant buf[..i] == unread[..i]
        {
          buf[i] := unread[i];
        }
        r := Message(unread[..n], unread[n..]);
        assert buf[..] == unread[..n];
        unread := unread[n..];
      } else {
        r := if reset then Broken else if |unread| == 0 then CleanEof else CutShort;
        unread := [];
      }
    }

    method ReadMessage() returns (r: Reading)
      modifies this
      ensures r == Ending(Parse(old(unread)), reset)
      ensures r.Message? ==> unread == r.rest
    {
      var header := new byte[4];
      r := Fill(header);
      if !r.Message? {
        return;
      }
      var length := CombineBytes(header);
      if length > MAX_MESSAGE {
        return TooLarge;
      }
      var data := new byte[length];
      r := Fill(data);
    }
  }

  /** broken tells whether a write has failed. */
  class OutStream {
    var written: seq<byte>
    ghost var broken: bool

    constructor ()
      ensures written == [] && !broken
    {
      written, broken := [], false;
    }

    /** A failed write may have written part of the data. */
    method Write(data: seq<byte>) returns (ok: bool)
      modifies this
      ensures old(written) <= written <= old(written) + data
      ensures ok ==> written == old(written) + data
      ensures broken == (old(broken) || !ok)
    {
      var n: int := *;
      if 0 <= n < |data| {
        written := written + data[..n];
        broken := true;
        return false;
      }
      written := written + data;
      return true;
    }

    method WriteMessage(data: seq<byte>) returns (ok: bool)
      modifies this
      ensures old(written) <= written <= old(written) + Frame(data)
      ensures ok ==> written == old(written) + Frame(data)
      ensures broken == (old(broken) || !ok)
    {
      var v := |data| % TWO_TO_THE_32;
      var buf := new byte[4];
      buf[0] := v % 256;
      buf[1] := v / 256 % 256;
      buf[2] := v / 65536 % 256;
      buf[3] := v / 16777216 % 256;
      FourBytes(v);
      assert buf[..] == LittleEndian(v, 4);
      ok := Write(buf[..]);
      if ok {
        ok := Write(data);
      }
    }
  }

  // ---- Laws ----

  /** A frame is four bytes of length, the low one first, and the data. */
  lemma FrameIs(data: seq<byte>)
    requires |data| < 0x1_0000_0000
    ensures var f := Frame(data);
      var b0: int, b1: int, b2: int, b3: int := f[0], f[1], f[2], f[3];
      b0 + 256 * b1 + 65536 * b2 + 16777216 * b3 == |data| && f[4..] == data
  {
    var header := LittleEndian(|data|, 4);
    Uint32RoundTrip(|data|);
    FourValue(header);
    assert Frame(data)[..4] == header;
  }

  lemma ParseAfterHeader(header: seq<byte>, v: int, rest: seq<byte>)
    requires 0 <= v < TWO_TO_THE_32 && header == LittleEndian(v, 4)
    ensures Parse(header + rest) == if v > MAX_MESSAGE then TooLarge else ReadFull(rest, v)
  {
    Uint32RoundTrip(v);
    assert (header + rest)[..4] == header && (header + rest)[4..] == rest;
  }

  /** A message is read back exactly when it is at most 10 MB. */
  lemma MessageReadBackIff(data: seq<byte>, rest: seq<byte>)
    ensures Parse(Frame(data) + rest) == Message(data, rest) <==> |data| <= 10 * 1024 * 1024
  {
    var v := |data| % TWO_TO_THE_32;
    var header := LittleEndian(v, 4);
    assert Frame(data) + rest == header + (data + rest);
    ParseAfterHeader(header, v, data + rest);
    if |data| <= MAX_MESSAGE {
      assert (data + rest)[..v] == data && (data + rest)[v..] == rest;
    }
  }

  /** The number of whole frames among the first n bytes. */
  function WholeFrames(messages: seq<seq<byte>>, n: int): (k: nat)
    ensures k <= |messages|
  {
    if messages == [] || n < 4 + |messages[0]| then 0
    else 1 + WholeFrames(messages[1..], n - 4 - |messages[0]|)
  }

  ghost predicate AllFrameable(messages: seq<seq<byte>>) {
    forall i :: 0 <= i < |messages| ==> |messages[i]| <= MAX_MESSAGE
  }

  lemma {:induction false} EncodeAppend(a: seq<seq<byte>>, b: seq<seq<byte>>)
    ensures Encode(a + b) == Encode(a) + Encode(b)
  {
    if a == [] {
      assert a + b == b;
    } else {
      EncodeAppend(a[1..], b);
      ConcatHead(a, b);
      Assoc(Frame(a[0]), Encode(a[1..]), Encode(b));
    }
  }

  /** It is the largest number of leading messages whose encoding fits in n bytes. */
  lemma {:induction false} WholeFramesIsLargest(messages: seq<seq<byte>>, n: nat, j: nat)
    requires j <= |messages|
    ensures |Encode(messages[..j])| <= n <==> j <= WholeFrames(messages, n)
  {
    if j > 0 {
      assert messages[..j] == [messages[0]] + messages[1..][..j - 1];
      EncodeAppend([messages[0]], messages[1..][..j - 1]);
      assert Encode([messages[0]]) == Frame(messages[0]) + Encode([]);
      if n >= 4 + |messages[0]| {
        WholeFramesIsLargest(messages[1..], n - 4 - |messages[0]|, j - 1);
      }
    }
  }

  /** The end of the first n bytes looks clean exactly at a frame boundary and right after the
      header of a message that is not too large. */
  ghost predicate CleanCut(messages: seq<seq<byte>>, n: int) {
    var k := WholeFrames(messages, n);
    var boundary := |Encode(messages[..k])|;
    n == boundary || (n == boundary + 4 && k < |messages| && |messages[k]| <= MAX_MESSAGE)
  }

  lemma CleanCutBehindFirst(messages: seq<seq<byte>>, n: nat)
    requires messages != [] && n >= 4 + |messages[0]|
    ensures CleanCut(messages, n) <==> CleanCut(messages[1..], n - 4 - |messages[0]|)
  {
    var k := WholeFrames(messages[1..], n - 4 - |messages[0]|);
    assert messages[..k + 1] == [messages[0]] + messages[1..][..k];
    EncodeAppend([messages[0]], messages[1..][..k]);
    assert Encode([messages[0]]) == Frame(messages[0]) + Encode([]);
  }

  lemma DecodeFirst(data: seq<byte>, rest: seq<byte>)
    requires |data| <= MAX_MESSAGE
    ensures DecodeAll(Frame(data) + rest) == ([data] + DecodeAll(rest).0, DecodeAll(rest).1)
  {
    MessageReadBackIff(data, rest);
  }

  /** Cutting an encoded sequence anywhere and decoding gives its longest whole-frame prefix. */
  lemma {:induction false} CutDecodes(messages: seq<seq<byte>>, n: nat)
    requires AllFrameable(messages) && n <= |Encode(messages)|
    ensures DecodeAll(Encode(messages)[..n])
         == (messages[..WholeFrames(messages, n)], if CleanCut(messages, n) then CleanEof else CutShort)
  {
    if messages == [] {
    } else if n < 4 + |messages[0]| {
      CutInFirst(messages[0], Encode(messages[1..]), n);
    } else {
      var m := n - 4 - |messages[0]|;
      CutDecodes(messages[1..], m);
      CleanCutBehindFirst(messages, n);
      assert Encode(messages)[..n] == Frame(messages[0]) + Encode(messages[1..])[..m];
      DecodeFirst(messages[0], Encode(messages[1..])[..m]);
      assert messages[..WholeFrames(messages, n)] == [messages[0]] + messages[1..][..WholeFrames(messages[1..], m)];
    }
  }

  lemma CutInFirst(data: seq<byte>, tail: seq<byte>, n: nat)
    requires |data| <= MAX_MESSAGE && n < 4 + |data|
    ensures Parse((Frame(data) + tail)[..n]) == if n == 0 || n == 4 then CleanEof else CutShort
  {
    var s := (Frame(data) + tail)[..n];
    if n >= 4 {
      var header := LittleEndian(|data|, 4);
      assert s == header + s[4..];
      ParseAfterHeader(header, |data|, s[4..]);
    }
  }

  /** Every message but the last is at most 10 MB, and the last fits the length field. */
  ghost predicate LastMayBeTooLarge(messages: seq<seq<byte>>) {
    forall i :: 0 <= i < |messages| ==>
      |messages[i]| <= MAX_MESSAGE || (i == |messages| - 1 && |messages[i]| < TWO_TO_THE_32)
  }

  /** How many of the first k messages the receiver reads. */
  function Readable(messages: seq<seq<byte>>, k: nat): (r: nat)
    requires k <= |messages|
    ensures r <= k
  {
    if k > 0 && |messages[k - 1]| > MAX_MESSAGE then k - 1 else k
  }

  lemma {:induction false} DecodeBehind(messages: seq<seq<byte>>, rest: seq<byte>)
    requires AllFrameable(messages)
    ensures DecodeAll(Encode(messages) + rest) == (messages + DecodeAll(rest).0, DecodeAll(rest).1)
  {
    if messages == [] {
      assert Encode(messages) + rest == rest;
      assert messages + DecodeAll(rest).0 == DecodeAll(rest).0;
    } else {
      DecodeBehind(messages[1..], rest);
      Assoc(Frame(messages[0]), Encode(messages[1..]), rest);
      DecodeFirst(messages[0], Encode(messages[1..]) + rest);
      assert [messages[0]] + (messages[1..] + DecodeAll(rest).0) == messages + DecodeAll(rest).0;
    }
  }

  /** A cut inside a frame that is too large. */
  lemma CutInTooLarge(big: seq<byte>, n: nat)
    requires MAX_MESSAGE < |big| < TWO_TO_THE_32 && n <= |Frame(big)|
    ensures DecodeAll(Frame(big)[..n]) == ([], if n == 0 then CleanEof else if n < 4 then CutShort else TooLarge)
  {
    if n >= 4 {
      var header := LittleEndian(|big|, 4);
      assert Frame(big)[..n] == header + Frame(big)[4..n];
      ParseAfterHeader(header, |big|, Frame(big)[4..n]);
    }
  }

  lemma EncodeSnoc(messages: seq<seq<byte>>, last: seq<byte>)
    ensures Encode(messages + [last]) == Encode(messages) + Frame(last)
  {
    EncodeAppend(messages, [last]);
    assert [last][1..] == [];
    assert Frame(last) + [] == Frame(last);
  }

  /** A cut before the end of the good messages, and one behind them. */
  lemma CutTooLarge(good: seq<seq<byte>>, big: seq<byte>, n: nat)
    requires AllFrameable(good) && MAX_MESSAGE < |big| < TWO_TO_THE_32 && n <= |Encode(good + [big])|
    ensures var size := |Encode(good)|;
      DecodeAll(Encode(good + [big])[..n]) ==
        if n < size then DecodeAll(Encode(good)[..n])
        else (good, if n == size then CleanEof else if n < size + 4 then CutShort else TooLarge)
  {
    var size := |Encode(good)|;
    EncodeSnoc(good, big);
    if n < size {
      assert (Encode(good) + Frame(big))[..n] == Encode(good)[..n];
    } else {
      assert (Encode(good) + Frame(big))[..n] == Encode(good) + Frame(big)[..n - size];
      DecodeBehind(good, Frame(big)[..n - size]);
      CutInTooLarge(big, n - size);
      assert good + [] == good;
    }
  }

  /** Whole frames with one more message behind. */
  lemma WholeFramesSnoc(good: seq<seq<byte>>, big: seq<byte>, n: nat)
    ensures var k := WholeFrames(good + [big], n);
      if n < |Encode(good)| then k == WholeFrames(good, n) < |good|
      else k == if n < |Encode(good)| + 4 + |big| then |good| else |good| + 1
  {
    var all := good + [big];
    var k, j := WholeFrames(all, n), WholeFrames(good, n);
    EncodeSnoc(good, big);
    assert all[..|good|] == good && all[..|all|] == all && good[..|good|] == good;
    WholeFramesIsLargest(all, n, |good|);
    WholeFramesIsLargest(all, n, |all|);
    WholeFramesIsLargest(good, n, |good|);
    WholeFramesIsLargest(good, n, j);
    assert all[..j] == good[..j];
    WholeFramesIsLargest(all, n, j);
    if k <= |good| {
      assert all[..k] == good[..k];
      WholeFramesIsLargest(all, n, k);
      WholeFramesIsLargest(good, n, k);
    }
  }

  /** The bytes decode to the whole frames, a message that is too large excepted, and the end is
      clean as it looks. */
  ghost predicate CutDecodesWell(messages: seq<seq<byte>>, n: nat)
    requires n <= |Encode(messages)|
  {
    var k := WholeFrames(messages, n);
    var (read, end) := DecodeAll(Encode(messages)[..n]);
    && read == messages[..Readable(messages, k)]
    && (end.CleanEof? <==> CleanCut(messages, n) && Readable(messages, k) == k)
  }

  /** The same for a sequence whose last message may be too large: that one is not read, and its
      header makes the end unclean. */
  lemma CutDecodesTooLarge(messages: seq<seq<byte>>, n: nat)
    requires LastMayBeTooLarge(messages) && n <= |Encode(messages)|
    ensures CutDecodesWell(messages, n)
  {
    if AllFrameable(messages) {
      CutDecodes(messages, n);
    } else {
      var good, big := messages[..|messages| - 1], messages[|messages| - 1];
      assert messages == good + [big];
      if n < |Encode(good)| {
        CutInGood(good, big, n);
      } else {
        CutBehindGood(good, big, n);
      }
    }
  }

  lemma CutInGood(good: seq<seq<byte>>, big: seq<byte>, n: nat)
    requires AllFrameable(good) && MAX_MESSAGE < |big| < TWO_TO_THE_32 && n < |Encode(good)|
    ensures n <= |Encode(good + [big])| && CutDecodesWell(good + [big], n)
  {
    var k := WholeFrames(good, n);
    EncodeSnoc(good, big);
    CutTooLarge(good, big, n);
    WholeFramesSnoc(good, big, n);
    CutDecodes(good, n);
    assert (good + [big])[..k] == good[..k];
  }

  lemma CutBehindGood(good: seq<seq<byte>>, big: seq<byte>, n: nat)
    requires AllFrameable(good) && MAX_MESSAGE < |big| < TWO_TO_THE_32 && n <= |Encode(good + [big])|
    ensures n < |Encode(good)| || CutDecodesWell(good + [big], n)
  {
    EncodeSnoc(good, big);
    CutTooLarge(good, big, n);
    WholeFramesSnoc(good, big, n);
    assert (good + [big])[..|good|] == good && (good + [big])[..|good| + 1] == good + [big];
  }

  /** Frame streams are uniquely decodable. */
  lemma EncodeInjective(a: seq<seq<byte>>, b: seq<seq<byte>>)
    requires AllFrameable(a) && AllFrameable(b) && Encode(a) == Encode(b)
    ensures a == b
  {
    WholeStreamDecodes(a);
    WholeStreamDecodes(b);
  }

  lemma WholeStreamDecodes(messages: seq<seq<byte>>)
    requires AllFrameable(messages)
    ensures DecodeAll(Encode(messages)) == (messages, CleanEof)
  {
    var s := Encode(messages);
    CutDecodes(messages, |s|);
    assert s[..|s|] == s && messages[..|messages|] == messages;
    WholeFramesIsLargest(messages, |s|, |messages|);
  }
}
