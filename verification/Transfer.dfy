/** Chunked file transfer over frames, and failover between providers. */
module Transfer {
  import opened Options
  import opened Sequences
  import opened Text
  import opened Library
  import opened Node
  import opened Dht
  import opened Frames

  const CHUNK_SIZE := 64 * 1024

  /** Bound on the bytes of an error text: it may quote the requested CTID, which came in a message
      of at most 10 MB, and JSON decoding makes at most three bytes of one. */
  const MAX_TEXT := 4 * MAX_MESSAGE

  datatype Chunk = Chunk(index: int, data: seq<byte>, total: int)

  // ---- JSON ----

  function Digits(n: nat): nat {
    if n < 10 then 1 else 1 + Digits(n / 10)
  }

  function IntSize(n: int): nat {
    if n < 0 then 1 + Digits(-n) else Digits(n)
  }

  /** Size of base64 text (section 4 of RFC 4648). */
  function Base64Size(n: nat): nat {
    (n + 2) / 3 * 4
  }

  /** Bytes of {"index":I,"data":"D","total":T}. */
  function JsonSize(c: Chunk): nat {
    |"{\"index\":"| + IntSize(c.index) + |",\"data\":\""| + Base64Size(|c.data|) + |"\",\"total\":"| + IntSize(c.total) + 1
  }

  /** encoding/json for chunks: some encoder and decoder. */
  datatype Json = Json(encode: Chunk -> seq<byte>, decode: seq<byte> -> Option<Chunk>)

  /** What is assumed of them: decoding inverts encoding, and the text has the size above. */
  ghost predicate Faithful(json: Json) {
    forall c: Chunk :: json.decode(json.encode(c)) == Some(c) && |json.encode(c)| == JsonSize(c)
  }

  lemma {:induction false} DigitsBound(n: nat, k: nat, bound: nat)
    requires k > 0 && bound == Power10(k) && n < bound
    ensures Digits(n) <= k
  {
    if n >= 10 {
      assert k > 1 by {
        assert Power10(1) == 10 * Power10(0);
      }
      DigitsBound(n / 10, k - 1, Power10(k - 1));
    }
  }

  function Power10(k: nat): nat {
    if k == 0 then 1 else 10 * Power10(k - 1)
  }

  /** An int of the source's width. */
  predicate IsInt64(n: int) {
    -0x8000_0000_0000_0000 <= n < 0x8000_0000_0000_0000
  }

  lemma IntSizeBound(n: int)
    requires IsInt64(n)
    ensures IntSize(n) <= 20
  {
    assert Power10(19) == 10000000000000000000 by {
      assert Power10(10) == 10000000000;
    }
    DigitsBound(if n < 0 then -n else n, 19, Power10(19));
  }

  /** A chunk of at most 64 KB stays far below the frame limit. */
  lemma ChunkFits(json: Json, c: Chunk)
    requires Faithful(json) && |c.data| <= CHUNK_SIZE && IsInt64(c.index) && IsInt64(c.total)
    ensures |json.encode(c)| <= 87384 + 69 < MAX_MESSAGE
  {
    IntSizeBound(c.index);
    IntSizeBound(c.total);
  }

  /** An error frame may be too large for the receiver, but it fits the length field. */
  lemma ErrorFits(json: Json, message: seq<byte>)
    requires Faithful(json) && |message| <= MAX_TEXT
    ensures |json.encode(ErrorChunk(message))| < TWO_TO_THE_32
  {
    IntSizeBound(-1);
    IntSizeBound(0);
  }

  // ---- Sending ----

  /** How reading the file goes: the sizes that Read returns in turn, then a failure or the end
      of the file. */
  datatype Reads = Reads(sizes: seq<nat>, failure: Option<seq<byte>>)

  /** What the sender finds for a request. */
  datatype Source = Unavailable(message: seq<byte>) | Opened(content: seq<byte>, schedule: Reads)

  function Sum(s: seq<nat>): nat {
    if s == [] then 0 else s[0] + Sum(s[1..])
  }

  /** Read fills at least one byte, at most the buffer, and reaches the end unless it fails.
      Failure texts are not empty; sizes are int64. */
  ghost predicate ValidSource(src: Source) {
    match src
    case Unavailable(message) => 0 < |message| <= MAX_TEXT
    case Opened(content, schedule) =>
      && IsInt64(|content| + CHUNK_SIZE)
      && (forall i :: 0 <= i < |schedule.sizes| ==> 0 < schedule.sizes[i] <= CHUNK_SIZE)
      && Sum(schedule.sizes) <= |content|
      && (match schedule.failure
          case None => Sum(schedule.sizes) == |content|
          case Some(message) => 0 < |message| <= MAX_TEXT)
  }

  function TotalChunks(size: nat): nat {
    (size + CHUNK_SIZE - 1) / CHUNK_SIZE
  }

  function ErrorChunk(message: seq<byte>): Chunk {
    Chunk(-1, message, 0)
  }

  /** The data chunks, numbered from `index`. */
  function DataChunks(content: seq<byte>, sizes: seq<nat>, index: nat, total: nat): seq<Chunk>
    requires Sum(sizes) <= |content|
  {
    if sizes == [] then []
    else [Chunk(index, content[..sizes[0]], total)] + DataChunks(content[sizes[0]..], sizes[1..], index + 1, total)
  }

  ghost function SentChunks(src: Source): seq<Chunk>
    requires ValidSource(src)
  {
    match src
    case Unavailable(message) => [ErrorChunk(message)]
    case Opened(content, schedule) =>
      DataChunks(content, schedule.sizes, 0, TotalChunks(|content|))
      + (if schedule.failure.Some? then [ErrorChunk(schedule.failure.value)] else [])
  }

  function EncodeChunks(json: Json, chunks: seq<Chunk>): (r: seq<seq<byte>>)
    ensures |r| == |chunks| && forall i :: 0 <= i < |chunks| ==> r[i] == json.encode(chunks[i])
  {
    seq(|chunks|, i requires 0 <= i < |chunks| => json.encode(chunks[i]))
  }

  /** The bytes that a sender puts on an unbroken stream. */
  ghost function SentBytes(json: Json, src: Source): seq<byte>
    requires ValidSource(src)
  {
    Encode(EncodeChunks(json, SentChunks(src)))
  }

  lemma {:induction false} SumMonotone(s: seq<nat>, i: nat, j: nat)
    requires i <= j <= |s|
    ensures Sum(s[..i]) <= Sum(s[..j]) <= Sum(s)
  {
    if i > 0 {
      assert s[..i][1..] == s[1..][..i - 1] && s[..j][1..] == s[1..][..j - 1];
      SumMonotone(s[1..], i - 1, j - 1);
    } else if j > 0 {
      assert s[..j][1..] == s[1..][..j - 1];
      SumMonotone(s[1..], 0, j - 1);
    }
  }

  lemma SliceOfRest(content: seq<byte>, n: nat, a: nat, b: nat)
    requires a <= b && n + b <= |content|
    ensures content[n..][a..b] == content[n + a..n + b]
  {
  }

  lemma ReadInside(sizes: seq<nat>, i: nat)
    requires i < |sizes|
    ensures Sum(sizes[..i + 1]) == Sum(sizes[..i]) + sizes[i] <= Sum(sizes)
  {
    SumUpTo(sizes, i);
    SumMonotone(sizes, i + 1, |sizes|);
  }

  lemma SumHead(sizes: seq<nat>, i: nat)
    requires 0 < i <= |sizes|
    ensures Sum(sizes[..i]) == sizes[0] + Sum(sizes[1..][..i - 1])
  {
    TakeOfTail(sizes, i);
  }

  lemma BehindFirst(sizes: seq<nat>, i: nat)
    requires 0 < i < |sizes|
    ensures Sum(sizes[..i]) == sizes[0] + Sum(sizes[1..][..i - 1])
    ensures Sum(sizes[..i + 1]) == sizes[0] + Sum(sizes[1..][..i])
    ensures Sum(sizes[1..][..i - 1]) <= Sum(sizes[1..][..i]) && Sum(sizes[..i + 1]) <= Sum(sizes)
  {
    SumHead(sizes, i);
    SumHead(sizes, i + 1);
    SumMonotone(sizes[1..], i - 1, i);
    SumMonotone(sizes, i + 1, |sizes|);
  }

  /** The bytes of read i, counted from behind the first read. */
  lemma ReadBehindFirst(content: seq<byte>, sizes: seq<nat>, i: nat)
    requires Sum(sizes) <= |content| && 0 < i < |sizes|
    ensures Sum(sizes[..i + 1]) <= |content| && Sum(sizes[..i]) <= Sum(sizes[..i + 1])
    ensures Sum(sizes[1..][..i]) <= |content| - sizes[0] && Sum(sizes[1..][..i - 1]) <= Sum(sizes[1..][..i])
    ensures content[sizes[0]..][Sum(sizes[1..][..i - 1])..Sum(sizes[1..][..i])]
         == content[Sum(sizes[..i])..Sum(sizes[..i + 1])]
  {
    BehindFirst(sizes, i);
    SliceOfRest(content, sizes[0], Sum(sizes[1..][..i - 1]), Sum(sizes[1..][..i]));
  }

  /** Chunk i carries the bytes of read i. */
  lemma {:induction false} DataChunkAt(content: seq<byte>, sizes: seq<nat>, index: nat, total: nat, i: nat)
    requires Sum(sizes) <= |content| && i < |sizes|
    ensures |DataChunks(content, sizes, index, total)| == |sizes|
    ensures Sum(sizes[..i + 1]) == Sum(sizes[..i]) + sizes[i] <= |content|
    ensures DataChunks(content, sizes, index, total)[i]
         == Chunk(index + i, content[Sum(sizes[..i])..Sum(sizes[..i + 1])], total)
  {
    DataChunksLength(content, sizes, index, total);
    ReadInside(sizes, i);
    if i > 0 {
      var content', sizes' := content[sizes[0]..], sizes[1..];
      DataChunkAt(content', sizes', index + 1, total, i - 1);
      ReadBehindFirst(content, sizes, i);
      assert DataChunks(content, sizes, index, total)[i] == DataChunks(content', sizes', index + 1, total)[i - 1];
    }
  }

  lemma {:induction false} SumUpTo(sizes: seq<nat>, i: nat)
    requires i < |sizes|
    ensures Sum(sizes[..i + 1]) == Sum(sizes[..i]) + sizes[i]
  {
    if i == 0 {
      assert sizes[..1] == [sizes[0]] && Sum([sizes[0]][1..]) == 0;
    } else {
      SumUpTo(sizes[1..], i - 1);
      assert sizes[..i + 1][1..] == sizes[1..][..i] && sizes[..i][1..] == sizes[1..][..i - 1];
    }
  }

  lemma {:induction false} DataChunksLength(content: seq<byte>, sizes: seq<nat>, index: nat, total: nat)
    requires Sum(sizes) <= |content|
    ensures |DataChunks(content, sizes, index, total)| == |sizes|
  {
    if sizes != [] {
      DataChunksLength(content[sizes[0]..], sizes[1..], index + 1, total);
    }
  }

  lemma NextFrame(frames: seq<seq<byte>>, i: nat)
    requires i < |frames|
    ensures Encode(frames[..i + 1]) == Encode(frames[..i]) + Frame(frames[i])
    ensures Encode(frames[..i + 1]) <= Encode(frames)
  {
    EncodeOne(frames[i]);
    EncodeAppend(frames[..i], [frames[i]]);
    assert frames[..i + 1] == frames[..i] + [frames[i]];
    EncodePrefix(frames, i + 1);
  }

  lemma EncodeOne(frame: seq<byte>)
    ensures Encode([frame]) == Frame(frame)
  {
    assert [frame][1..] == [];
    assert Frame(frame) + [] == Frame(frame);
  }

  lemma EncodePrefix(frames: seq<seq<byte>>, i: nat)
    requires i <= |frames|
    ensures Encode(frames[..i]) <= Encode(frames)
  {
    EncodeAppend(frames[..i], frames[i..]);
    assert frames == frames[..i] + frames[i..];
  }

  /** Sending the next chunk extends a prefix of the whole stream. */
  lemma NextChunk(json: Json, all: seq<Chunk>, i: nat)
    requires i < |all|
    ensures Encode(EncodeChunks(json, all[..i + 1])) == Encode(EncodeChunks(json, all[..i])) + Frame(json.encode(all[i]))
    ensures Encode(EncodeChunks(json, all[..i + 1])) <= Encode(EncodeChunks(json, all))
  {
    var frames := EncodeChunks(json, all);
    assert EncodeChunks(json, all[..i]) == frames[..i] && EncodeChunks(json, all[..i + 1]) == frames[..i + 1];
    NextFrame(frames, i);
  }

  /** Writes one chunk of `all`, the i-th. */
  method SendChunk(json: Json, chunk: Chunk, stream: OutStream, ghost all: seq<Chunk>, ghost i: nat) returns (ok: bool)
    requires i < |all| && chunk == all[i] && stream.written == Encode(EncodeChunks(json, all[..i]))
    modifies stream
    ensures stream.written <= Encode(EncodeChunks(json, all))
    ensures ok ==> stream.written == Encode(EncodeChunks(json, all[..i + 1]))
    ensures stream.broken == (old(stream.broken) || !ok)
  {
    NextChunk(json, all, i);
    ok := stream.WriteMessage(json.encode(chunk));
  }

  /** utf8 gives the bytes of a text. */
  ghost predicate IsUtf8(utf8: string -> seq<byte>) {
    forall text :: |utf8(text)| == ByteLen(text)
  }

  /** What the track lookup comes to: a file of a track with the CTID, as open says that opening and
      reading it goes this time, or the error text. */
  ghost predicate Finds(store: Tracks, open: string -> Source, utf8: string -> seq<byte>, ctid: string, src: Source) {
    if exists id :: id in store && store[id].ctid == ctid then
      exists id :: id in store && store[id].ctid == ctid && src == open(store[id].path)
    else src == Unavailable(utf8("track not found: " + ctid))
  }

  /** Files keep their content; how opening and reading them goes may differ each time. */
  ghost predicate Opens(files: string -> seq<byte>, open: string -> Source) {
    forall path :: open(path).Opened? ==> open(path).content == files(path)
  }

  /** What a node with this store and these files may send for a CTID at any time. */
  ghost predicate Serves(store: Tracks, files: string -> seq<byte>, utf8: string -> seq<byte>, ctid: string, src: Source) {
    if exists id :: id in store && store[id].ctid == ctid then
      || src.Unavailable?
      || exists id :: id in store && store[id].ctid == ctid && src.content == files(store[id].path)
    else src == Unavailable(utf8("track not found: " + ctid))
  }

  lemma FoundIsServed(store: Tracks, files: string -> seq<byte>, open: string -> Source, utf8: string -> seq<byte>,
                      ctid: string, src: Source)
    requires Opens(files, open) && Finds(store, open, utf8, ctid, src)
    ensures Serves(store, files, utf8, ctid, src)
  {
    if exists id :: id in store && store[id].ctid == ctid {
      var id :| id in store && store[id].ctid == ctid && src == open(store[id].path);
    }
  }

  lemma {:induction false} ByteLenConcat(a: string, b: string)
    ensures ByteLen(a + b) == ByteLen(a) + ByteLen(b)
  {
    if a == [] {
      assert a + b == b;
    } else {
      ConcatHead(a, b);
      ByteLenConcat(a[1..], b);
    }
  }

  lemma PrefixedFits(utf8: string -> seq<byte>, text: string, ctid: string)
    requires IsUtf8(utf8) && ByteLen(ctid) <= 3 * MAX_MESSAGE && 0 < |text| <= 20
    ensures ValidSource(Unavailable(utf8(text + ctid)))
  {
    ByteLenConcat(text, ctid);
    ByteLenBounds(text);
  }

  /** The track lookup of handleStream. */
  method FindSource(store: Storage, open: string -> Source, utf8: string -> seq<byte>, ctid: string) returns (src: Source)
    requires store.Valid()
    ensures Finds(store.tracks, open, utf8, ctid, src)
  {
    var track := store.FindTrackByCTID(ctid);
    if track.None? {
      return Unavailable(utf8("track not found: " + ctid));
    }
    src := open(track.value.path);
  }

  /** handleStream: the request is None when it cannot be read; open tells how opening and reading
      each file goes this time. The stream may break at any write. */
  method HandleStream(json: Json, request: Option<string>, store: Storage, open: string -> Source,
                      ghost files: string -> seq<byte>, utf8: string -> seq<byte>, stream: OutStream)
    requires store.Valid() && IsUtf8(utf8) && Opens(files, open) && forall path :: ValidSource(open(path))
    requires request.Some? ==> ByteLen(request.value) <= 3 * MAX_MESSAGE
    requires stream.written == [] && !stream.broken
    modifies stream
    ensures request.None? ==> stream.written == []
    ensures request.Some? ==> exists src :: (
      && Finds(store.tracks, open, utf8, request.value, src) && Serves(store.tracks, files, utf8, request.value, src)
      && ValidSource(src) && stream.written <= SentBytes(json, src)
      && (!stream.broken ==> stream.written == SentBytes(json, src)))
  {
    if request.None? {
      return;
    }
    var src := FindSource(store, open, utf8, request.value);
    FoundIsServed(store.tracks, files, open, utf8, request.value, src);
    PrefixedFits(utf8, "track not found: ", request.value);
    SendSource(json, src, stream);
  }

  /** The reply after the lookup: the file, or an error. */
  method SendSource(json: Json, src: Source, stream: OutStream)
    requires ValidSource(src) && stream.written == [] && !stream.broken
    modifies stream
    ensures stream.written <= SentBytes(json, src)
    ensures !stream.broken ==> stream.written == SentBytes(json, src)
  {
    var whole: bool;
    ghost var all := SentChunks(src);
    assert all[..|all|] == all;
    match src
    case Unavailable(message) =>
      whole := SendChunk(json, ErrorChunk(message), stream, all, 0);
    case Opened(content, schedule) =>
      DataChunksLength(content, schedule.sizes, 0, TotalChunks(|content|));
      whole := SendFile(json, content, schedule.sizes, stream, all);
      if whole && schedule.failure.Some? {
        whole := SendChunk(json, ErrorChunk(schedule.failure.value), stream, all, |schedule.sizes|);
      }
  }

  /** Its loop over the file: read, number, write. */
  method SendFile(json: Json, content: seq<byte>, sizes: seq<nat>, stream: OutStream, ghost all: seq<Chunk>)
    returns (whole: bool)
    requires Sum(sizes) <= |content| && DataChunks(content, sizes, 0, TotalChunks(|content|)) <= all
    requires stream.written == [] && !stream.broken
    modifies stream
    ensures stream.written <= Encode(EncodeChunks(json, all))
    ensures |sizes| <= |all| && stream.broken == !whole
    ensures whole ==> stream.written == Encode(EncodeChunks(json, all[..|sizes|]))
  {
    var fileSize := |content|;
    var totalChunks := (fileSize + CHUNK_SIZE - 1) / CHUNK_SIZE;
    var chunkIndex, offset := 0, 0;
    DataChunksLength(content, sizes, 0, totalChunks);
    while chunkIndex < |sizes|
      invariant 0 <= chunkIndex <= |sizes|
      invariant offset == Sum(sizes[..chunkIndex])
      invariant stream.written == Encode(EncodeChunks(json, all[..chunkIndex])) && !stream.broken
    {
      DataChunkAt(content, sizes, 0, totalChunks, chunkIndex);
      var n := sizes[chunkIndex];
      var chunk := Chunk(chunkIndex, content[offset..offset + n], totalChunks);
      var ok := SendChunk(json, chunk, stream, all, chunkIndex);
      if !ok {
        return false;
      }
      offset, chunkIndex := offset + n, chunkIndex + 1;
    }
    EncodePrefix(EncodeChunks(json, all), |sizes|);
    assert EncodeChunks(json, all[..|sizes|]) == EncodeChunks(json, all)[..|sizes|];
    whole := true;
  }

  // ---- Receiving ----

  /** What one frame makes the receiver do: write data, and stop or read on. */
  datatype Next = Stop(data: seq<byte>, ok: bool) | More(data: seq<byte>, rest: seq<byte>)

  function Handle(json: Json, reading: Reading): (r: Next)
    ensures r.More? ==> reading.Message? && r.rest == reading.rest
  {
    match reading
    case CleanEof => Stop([], true)
    case CutShort => Stop([], false)
    case TooLarge => Stop([], false)
    case Broken => Stop([], false)
    case Message(data, rest) =>
      match json.decode(data)
      case None => Stop([], false)
      case Some(c) =>
        if c.index == -1 && |c.data| > 0 then Stop([], false)
        else if c.index >= c.total - 1 then Stop(c.data, true)
        else More(c.data, rest)
  }

  /** What the receiver writes for the bytes of a stream, and whether it reports success. With
      reset the stream ends with an error. */
  function Received(json: Json, s: seq<byte>, reset: bool): (seq<byte>, bool)
    decreases |s|
  {
    match Handle(json, Ending(Parse(s), reset))
    case Stop(data, ok) => (data, ok)
    case More(data, rest) => var (more, ok) := Received(json, rest, reset); (data + more, ok)
  }

  /** The output file; os.Create empties it. A failed write may leave part of the data. failed
      tells whether creating or writing has failed. */
  class OutFile {
    var contents: seq<byte>
    ghost var failed: bool

    constructor ()
      ensures contents == [] && !failed
    {
      contents, failed := [], false;
    }

    method Create() returns (ok: bool)
      modifies this
      ensures contents == if ok then [] else old(contents)
      ensures failed == (old(failed) || !ok)
    {
      ok := *;
      if ok {
        contents := [];
      } else {
        failed := true;
      }
    }

    method Write(data: seq<byte>) returns (ok: bool)
      modifies this
      ensures old(contents) <= contents <= old(contents) + data
      ensures ok ==> contents == old(contents) + data
      ensures failed == (old(failed) || !ok)
    {
      var n: int := *;
      if 0 <= n < |data| {
        contents := contents + data[..n];
        failed := true;
        return false;
      }
      contents := contents + data;
      return true;
    }
  }

  /** What reaching a provider gives: an error before the stream is read, or the bytes that
      arrive on the stream and how it ends. */
  datatype Attempt = Unreachable | Streamed(bytes: seq<byte>, reset: bool)

  /** A provider whose stream makes a fetch succeed. */
  predicate Delivers(json: Json, attempt: Attempt) {
    attempt.Streamed? && Received(json, attempt.bytes, attempt.reset).1
  }

  /** StreamFromPeer: unless the disk fails, it succeeds exactly when the stream delivers, and
      the file holds what was received. */
  method StreamFromPeer(json: Json, attempt: Attempt, outFile: OutFile) returns (ok: bool)
    modifies outFile
    ensures ok ==> Delivers(json, attempt) && outFile.contents == Received(json, attempt.bytes, attempt.reset).0
    ensures outFile.contents == old(outFile.contents)
      || (attempt.Streamed? && outFile.contents <= Received(json, attempt.bytes, attempt.reset).0)
    ensures old(outFile.failed) ==> outFile.failed
    ensures !outFile.failed ==> ok == Delivers(json, attempt)
    ensures !outFile.failed ==>
      outFile.contents == if attempt.Streamed? then Received(json, attempt.bytes, attempt.reset).0 else old(outFile.contents)
  {
    if attempt.Unreachable? {
      return false;
    }
    var stream := new InStream(attempt.bytes, attempt.reset);
    ok := outFile.Create();
    if !ok {
      return false;
    }
    ok := ReceiveChunks(json, stream, outFile);
  }

  lemma PrefixOfSum(c: seq<byte>, a: seq<byte>, b: seq<byte>, rest: seq<byte>)
    requires c <= a + b
    ensures c <= a + (b + rest) && a + (b + rest) == (a + b) + rest
  {
  }

  /** Its loop over the chunks. */
  method ReceiveChunks(json: Json, stream: InStream, outFile: OutFile) returns (ok: bool)
    requires outFile.contents == []
    modifies stream, outFile
    ensures outFile.contents <= Received(json, old(stream.unread), stream.reset).0
    ensures ok ==> Received(json, old(stream.unread), stream.reset) == (outFile.contents, true)
    ensures old(outFile.failed) ==> outFile.failed
    ensures !outFile.failed ==> Received(json, old(stream.unread), stream.reset) == (outFile.contents, ok)
  {
    ghost var (goal, good) := Received(json, stream.unread, stream.reset);
    while true
      invariant goal == outFile.contents + Received(json, stream.unread, stream.reset).0
      invariant good == Received(json, stream.unread, stream.reset).1
      invariant outFile.failed == old(outFile.failed)
      decreases |stream.unread|
    {
      ghost var before, left := outFile.contents, Received(json, stream.unread, stream.reset);
      var next, written := ReceiveChunk(json, stream, outFile);
      ghost var more := if next.Stop? then [] else Received(json, next.rest, stream.reset).0;
      assert left.0 == next.data + more;
      PrefixOfSum(outFile.contents, before, next.data, more);
      if !written {
        return false;
      }
      if next.Stop? {
        return next.ok;
      }
    }
  }

  /** One round of the loop. Nothing is written for a frame that makes it fail. */
  method ReceiveChunk(json: Json, stream: InStream, outFile: OutFile) returns (next: Next, written: bool)
    modifies stream, outFile
    ensures next == Handle(json, Ending(Parse(old(stream.unread)), stream.reset))
    ensures next.More? ==> stream.unread == next.rest
    ensures old(outFile.contents) <= outFile.contents <= old(outFile.contents) + next.data
    ensures written ==> outFile.contents == old(outFile.contents) + next.data
    ensures outFile.failed == (old(outFile.failed) || !written)
  {
    var reading := stream.ReadMessage();
    if !reading.Message? {
      return Stop([], reading.CleanEof?), true;
    }
    var decoded := json.decode(reading.data);
    if decoded.None? {
      return Stop([], false), true;
    }
    var chunk := decoded.value;
    if chunk.index == -1 && |chunk.data| > 0 {
      return Stop([], false), true;
    }
    written := outFile.Write(chunk.data);
    if chunk.index >= chunk.total - 1 {
      next := Stop(chunk.data, true);
    } else {
      next := More(chunk.data, reading.rest);
    }
  }

  /** attempt(i, id) is what reaching the i-th provider gives. bytes is what it delivers with
      success. */
  ghost predicate DeliveredBy(json: Json, providers: seq<string>, attempt: (nat, string) -> Attempt, i: nat, bytes: seq<byte>) {
    && i < |providers| && Delivers(json, attempt(i, providers[i]))
    && bytes == Received(json, attempt(i, providers[i]).bytes, attempt(i, providers[i]).reset).0
  }

  /** bytes is a part of what the i-th of the providers sent. */
  ghost predicate PartlyFrom(json: Json, providers: seq<string>, attempt: (nat, string) -> Attempt, i: nat, bytes: seq<byte>) {
    && i < |providers| && attempt(i, providers[i]).Streamed?
    && bytes <= Received(json, attempt(i, providers[i]).bytes, attempt(i, providers[i]).reset).0
  }

  /** FetchTrack: look the providers up, then one after the other until one succeeds. Without any,
      the file stays as it is. */
  method FetchTrack(json: Json, remote: Remote, ctid: string, attempt: (nat, string) -> Attempt, outFile: OutFile)
    returns (ok: bool)
    requires !outFile.failed
    modifies outFile
    ensures !IsDigest(ctid) ==> !ok && outFile.contents == old(outFile.contents)
    ensures var peers := remote.providers(CidOf(ctid));
      // Unless the disk failed, it succeeds exactly when one of the first twelve providers delivers.
      && (IsDigest(ctid) && !outFile.failed ==>
            (ok <==> exists i :: 0 <= i < 12 && i < |peers| && Delivers(json, attempt(i, peers[i]))))
      // On success the file is exactly what one provider's stream delivers; nothing of an earlier
      // attempt is left. Unless the disk failed, it is the first provider that delivers.
      && (ok ==> exists i: nat :: (
            && i < 12 && DeliveredBy(json, peers, attempt, i, outFile.contents)
            && (!outFile.failed ==> forall k :: 0 <= k < i ==> !Delivers(json, attempt(k, peers[k])))))
      // On failure it holds a part of what one provider sent, or what it held before.
      && (!ok ==>
            || outFile.contents == old(outFile.contents)
            || exists i: nat :: i < 12 && PartlyFrom(json, peers, attempt, i, outFile.contents))
  {
    ghost var peers := remote.providers(CidOf(ctid));
    var found := DhtService.FindProviders(remote, ctid, 12);
    if found.None? {
      return false;
    }
    var providers := found.value;
    if |providers| == 0 {
      return false;
    }
    for i := 0 to |providers|
      invariant outFile.contents == old(outFile.contents)
        || exists k: nat :: k < 12 && PartlyFrom(json, peers, attempt, k, outFile.contents)
      invariant !outFile.failed ==> forall k :: 0 <= k < i ==> !Delivers(json, attempt(k, peers[k]))
    {
      assert providers[i] == peers[i];
      ok := StreamFromPeer(json, attempt(i, providers[i]), outFile);
      if ok {
        assert DeliveredBy(json, peers, attempt, i, outFile.contents);
        return;
      }
      assert outFile.contents == old(outFile.contents)
        || PartlyFrom(json, peers, attempt, i, outFile.contents)
        || exists k: nat :: k < 12 && PartlyFrom(json, peers, attempt, k, outFile.contents);
    }
    ok := false;
  }

  // ---- What a transfer delivers ----

  /** The chunks of a file: numbered from 0, each with the bytes of its read and the file size in
      units of 64 KB, and at last one with number -1 and the error text if reading failed. */
  lemma SentChunksAre(content: seq<byte>, schedule: Reads, i: nat)
    requires ValidSource(Opened(content, schedule))
    ensures var chunks, count := SentChunks(Opened(content, schedule)), |schedule.sizes|;
      && |chunks| == count + (if schedule.failure.Some? then 1 else 0)
      && (i < count ==>
            && Sum(schedule.sizes[..i + 1]) == Sum(schedule.sizes[..i]) + schedule.sizes[i] <= |content|
            && chunks[i] == Chunk(i, content[Sum(schedule.sizes[..i])..Sum(schedule.sizes[..i + 1])], (|content| + 65535) / 65536))
      && (schedule.failure.Some? ==> chunks[count] == Chunk(-1, schedule.failure.value, 0))
  {
    DataChunksLength(content, schedule.sizes, 0, TotalChunks(|content|));
    if i < |schedule.sizes| {
      DataChunkAt(content, schedule.sizes, 0, TotalChunks(|content|), i);
    }
  }

  lemma ErrorReplyIs(message: seq<byte>)
    requires ValidSource(Unavailable(message))
    ensures SentChunks(Unavailable(message)) == [Chunk(-1, message, 0)]
  {
  }

  /** What the receiver does with a frame: one that is no chunk fails, and so does one that carries
      an error; the last chunk by its number ends with success, and any other is followed by the
      rest of the stream. */
  lemma ReceivedFrame(json: Json, data: seq<byte>, rest: seq<byte>, reset: bool)
    requires |data| <= 10 * 1024 * 1024
    ensures var received, more := Received(json, Frame(data) + rest, reset), Received(json, rest, reset);
      match json.decode(data)
      case None => received == ([], false)
      case Some(c) =>
        if c.index == -1 && c.data != [] then received == ([], false)
        else if c.index + 1 >= c.total then received == (c.data, true)
        else received == (c.data + more.0, more.1)
  {
    MessageReadBackIff(data, rest);
  }

  /** At its end, a stream is a success when it ended by EOF and no byte is left. */
  lemma ReceivedEnd(json: Json, s: seq<byte>, reset: bool)
    requires |s| < 4
    ensures Received(json, s, reset) == ([], s == [] && !reset)
  {
  }

  /** The receiver on whole messages. */
  function FromMessages(json: Json, messages: seq<seq<byte>>, clean: bool): (seq<byte>, bool) {
    if messages == [] then ([], clean)
    else
      match Handle(json, Message(messages[0], []))
      case Stop(data, ok) => (data, ok)
      case More(data, _) => var (more, ok) := FromMessages(json, messages[1..], clean); (data + more, ok)
  }

  lemma {:induction false} ReceivedFromMessages(json: Json, s: seq<byte>, reset: bool)
    ensures Received(json, s, reset) == FromMessages(json, DecodeAll(s).0, DecodeAll(s).1.CleanEof? && !reset)
    decreases |s|
  {
    match Parse(s)
    case Message(data, rest) =>
      ReceivedFromMessages(json, rest, reset);
      assert DecodeAll(s).0[1..] == DecodeAll(rest).0;
    case _ =>
  }

  /** The receiver on chunks. */
  function FromChunks(chunks: seq<Chunk>, clean: bool): (seq<byte>, bool) {
    if chunks == [] then ([], clean)
    else
      var c := chunks[0];
      if c.index == -1 && |c.data| > 0 then ([], false)
      else if c.index >= c.total - 1 then (c.data, true)
      else var (more, ok) := FromChunks(chunks[1..], clean); (c.data + more, ok)
  }

  lemma {:induction false} MessagesAreChunks(json: Json, chunks: seq<Chunk>, clean: bool)
    requires Faithful(json)
    ensures FromMessages(json, EncodeChunks(json, chunks), clean) == FromChunks(chunks, clean)
  {
    if chunks != [] {
      MessagesAreChunks(json, chunks[1..], clean);
      assert EncodeChunks(json, chunks)[1..] == EncodeChunks(json, chunks[1..]);
    }
  }

  lemma FromChunksMore(c: Chunk, rest: seq<Chunk>, clean: bool)
    requires c.index >= 0
    ensures FromChunks([c] + rest, clean) ==
      if c.index >= c.total - 1 then (c.data, true)
      else (c.data + FromChunks(rest, clean).0, FromChunks(rest, clean).1)
  {
    assert ([c] + rest)[1..] == rest;
  }

  lemma SliceSplit(content: seq<byte>, n: nat, m: nat)
    requires n + m <= |content|
    ensures content[..n + m] == content[..n] + content[n..][..m]
  {
  }

  /** Data chunks are written one after the other as long as none is last by its number. */
  lemma {:induction false} EarlyChunks(content: seq<byte>, sizes: seq<nat>, index: nat, total: nat, tail: seq<Chunk>, clean: bool)
    requires Sum(sizes) <= |content| && (sizes == [] || index + |sizes| < total)
    ensures FromChunks(DataChunks(content, sizes, index, total) + tail, clean)
         == (content[..Sum(sizes)] + FromChunks(tail, clean).0, FromChunks(tail, clean).1)
  {
    var chunks := DataChunks(content, sizes, index, total) + tail;
    if sizes == [] {
      assert chunks == tail && content[..0] + FromChunks(tail, clean).0 == FromChunks(tail, clean).0;
    } else {
      var content', sizes' := content[sizes[0]..], sizes[1..];
      var rest := DataChunks(content', sizes', index + 1, total) + tail;
      EarlyChunks(content', sizes', index + 1, total, tail, clean);
      ConsConcat(Chunk(index, content[..sizes[0]], total), DataChunks(content', sizes', index + 1, total), tail);
      FromChunksMore(chunks[0], rest, clean);
      SliceSplit(content, sizes[0], Sum(sizes'));
      PrefixOfSum([], content[..sizes[0]], content'[..Sum(sizes')], FromChunks(tail, clean).0);
    }
  }

  /** Up to the one that is last by its number, and no further. */
  lemma {:induction false} UpToLastChunk(content: seq<byte>, sizes: seq<nat>, index: nat, total: nat, tail: seq<Chunk>, clean: bool)
    requires Sum(sizes) <= |content| && index < total <= index + |sizes|
    ensures Sum(sizes[..total - index]) <= |content|
    ensures FromChunks(DataChunks(content, sizes, index, total) + tail, clean)
         == (content[..Sum(sizes[..total - index])], true)
  {
    var chunks := DataChunks(content, sizes, index, total) + tail;
    var content', sizes' := content[sizes[0]..], sizes[1..];
    var rest := DataChunks(content', sizes', index + 1, total) + tail;
    ConsConcat(Chunk(index, content[..sizes[0]], total), DataChunks(content', sizes', index + 1, total), tail);
    FromChunksMore(chunks[0], rest, clean);
    if index == total - 1 {
      assert sizes[..1] == [sizes[0]] && Sum([sizes[0]][1..]) == 0;
    } else {
      UpToLastChunk(content', sizes', index + 1, total, tail, clean);
      assert sizes[..total - index][1..] == sizes'[..total - index - 1];
      SliceSplit(content, sizes[0], Sum(sizes'[..total - index - 1]));
    }
  }

  lemma {:induction false} CountWithinSum(sizes: seq<nat>)
    requires forall i :: 0 <= i < |sizes| ==> sizes[i] > 0
    ensures |sizes| <= Sum(sizes)
  {
    if sizes != [] {
      CountWithinSum(sizes[1..]);
    }
  }

  /** Every data chunk fits into a frame; an error chunk comes last and fits the length field. */
  lemma SentChunksFit(json: Json, src: Source)
    requires Faithful(json) && ValidSource(src)
    ensures LastMayBeTooLarge(EncodeChunks(json, SentChunks(src)))
    ensures src.Opened? ==> forall i :: 0 <= i < |src.schedule.sizes| ==>
      i < |SentChunks(src)| && |json.encode(SentChunks(src)[i])| <= MAX_MESSAGE
  {
    var chunks := SentChunks(src);
    match src
    case Unavailable(message) =>
      ErrorFits(json, message);
    case Opened(content, schedule) =>
      DataChunksLength(content, schedule.sizes, 0, TotalChunks(|content|));
      forall i | 0 <= i < |schedule.sizes|
        ensures |json.encode(chunks[i])| <= MAX_MESSAGE
      {
        DataChunkFits(json, content, schedule.sizes, i);
      }
      if schedule.failure.Some? {
        ErrorFits(json, schedule.failure.value);
      }
  }

  lemma TotalChunksBound(size: nat)
    ensures TotalChunks(size) <= size
  {
  }

  lemma DataChunkFits(json: Json, content: seq<byte>, sizes: seq<nat>, i: nat)
    requires Faithful(json) && IsInt64(|content|)
    requires forall k :: 0 <= k < |sizes| ==> 0 < sizes[k] <= CHUNK_SIZE
    requires Sum(sizes) <= |content| && i < |sizes|
    ensures |DataChunks(content, sizes, 0, TotalChunks(|content|))| == |sizes|
    ensures |json.encode(DataChunks(content, sizes, 0, TotalChunks(|content|))[i])| <= MAX_MESSAGE
  {
    var total := TotalChunks(|content|);
    CountWithinSum(sizes);
    TotalChunksBound(|content|);
    DataChunkAt(content, sizes, 0, total, i);
    var chunk := DataChunks(content, sizes, 0, total)[i];
    assert |chunk.data| == sizes[i];
    ChunkFits(json, chunk);
  }

  function Min(a: int, b: int): int {
    if a < b then a else b
  }

  /** What the receiver makes of the first n bytes that a sender sends of an opened file, ended by
      EOF or, with reset, by an error. Of k whole frames it uses the data frames up to number
      total - 1; it reports success when it got that one, or when no error frame came and the
      stream seems to end cleanly. */
  lemma TransferOutcome(json: Json, src: Source, n: nat, reset: bool)
    requires Faithful(json) && ValidSource(src) && src.Opened? && n <= |SentBytes(json, src)|
    ensures
      var frames := EncodeChunks(json, SentChunks(src));
      var sizes, total := src.schedule.sizes, TotalChunks(|src.content|);
      var k := WholeFrames(frames, n);
      var used := Min(Min(k, |sizes|), total);
      && Sum(sizes[..used]) <= |src.content|
      && Received(json, SentBytes(json, src)[..n], reset) ==
         (src.content[..Sum(sizes[..used])],
          if 0 < total == used then true else k <= |sizes| && CleanCut(frames, n) && !reset)
  {
    var chunks := SentChunks(src);
    var frames := EncodeChunks(json, chunks);
    var k := WholeFrames(frames, n);
    var read := Readable(frames, k);
    var clean := CleanCut(frames, n) && read == k && !reset;
    ReceivedChunks(json, src, n, reset);
    ChunksOutcome(src, read, clean);
    SentChunksFit(json, src);
    DataChunksLength(src.content, src.schedule.sizes, 0, TotalChunks(|src.content|));
    assert read < k ==> read == |src.schedule.sizes|;
  }

  /** The receiver works on the chunks of the whole frames, except for an error too large. */
  lemma ReceivedChunks(json: Json, src: Source, n: nat, reset: bool)
    requires Faithful(json) && ValidSource(src) && n <= |SentBytes(json, src)|
    ensures
      var frames := EncodeChunks(json, SentChunks(src));
      var k := WholeFrames(frames, n);
      var read := Readable(frames, k);
      Received(json, SentBytes(json, src)[..n], reset)
      == FromChunks(SentChunks(src)[..read], CleanCut(frames, n) && read == k && !reset)
  {
    var chunks := SentChunks(src);
    var frames := EncodeChunks(json, chunks);
    var k := WholeFrames(frames, n);
    var read := Readable(frames, k);
    SentChunksFit(json, src);
    CutDecodesTooLarge(frames, n);
    ReceivedFromMessages(json, SentBytes(json, src)[..n], reset);
    assert frames[..read] == EncodeChunks(json, chunks[..read]);
    MessagesAreChunks(json, chunks[..read], CleanCut(frames, n) && read == k && !reset);
  }

  lemma ChunksOutcome(src: Source, k: nat, clean: bool)
    requires ValidSource(src) && src.Opened? && k <= |SentChunks(src)|
    ensures
      var sizes, total := src.schedule.sizes, TotalChunks(|src.content|);
      var used := Min(Min(k, |sizes|), total);
      && Sum(sizes[..used]) <= |src.content|
      && FromChunks(SentChunks(src)[..k], clean) ==
         (src.content[..Sum(sizes[..used])], if 0 < total == used then true else k <= |sizes| && clean)
  {
    var content, sizes, total := src.content, src.schedule.sizes, TotalChunks(|src.content|);
    var j := Min(k, |sizes|);
    var part := sizes[..j];
    var tail := SentChunks(src)[..k][j..];
    SentPrefix(src, k);
    CountWithinSum(sizes);
    if 0 < total <= j {
      UpToLastChunk(content, part, 0, total, tail, clean);
      assert part[..total] == sizes[..total];
    } else {
      EarlyChunks(content, part, 0, total, tail, clean);
      TailOutcome(src, k, clean);
      assert content[..Sum(part)] + [] == content[..Sum(part)];
    }
  }

  /** The first k chunks are the data chunks of as many reads, and what follows them. */
  lemma SentPrefix(src: Source, k: nat)
    requires ValidSource(src) && src.Opened? && k <= |SentChunks(src)|
    ensures var sizes, total := src.schedule.sizes, TotalChunks(|src.content|);
      var j := Min(k, |sizes|);
      && j <= k && Sum(sizes[..j]) <= |src.content|
      && SentChunks(src)[..k] == DataChunks(src.content, sizes[..j], 0, total) + SentChunks(src)[..k][j..]
  {
    var sizes, total := src.schedule.sizes, TotalChunks(|src.content|);
    var j := Min(k, |sizes|);
    DataChunksPrefix(src.content, sizes, j, 0, total);
    assert SentChunks(src)[..k][..j] == DataChunks(src.content, sizes, 0, total)[..j];
  }

  /** Behind the data there is nothing or one error frame. */
  lemma TailOutcome(src: Source, k: nat, clean: bool)
    requires ValidSource(src) && src.Opened? && k <= |SentChunks(src)|
    ensures FromChunks(SentChunks(src)[..k][Min(k, |src.schedule.sizes|)..], clean)
         == ([], k <= |src.schedule.sizes| && clean)
  {
    DataChunksLength(src.content, src.schedule.sizes, 0, TotalChunks(|src.content|));
    var tail := SentChunks(src)[..k][Min(k, |src.schedule.sizes|)..];
    if k <= |src.schedule.sizes| {
      assert tail == [];
    } else {
      assert tail == [ErrorChunk(src.schedule.failure.value)];
    }
  }

  lemma {:induction false} DataChunksPrefix(content: seq<byte>, sizes: seq<nat>, k: nat, index: nat, total: nat)
    requires k <= |sizes| && Sum(sizes) <= |content|
    ensures Sum(sizes[..k]) <= |content| && |DataChunks(content, sizes, index, total)| == |sizes|
    ensures DataChunks(content, sizes[..k], index, total) == DataChunks(content, sizes, index, total)[..k]
  {
    DataChunksLength(content, sizes, index, total);
    if k > 0 {
      DataChunksPrefix(content[sizes[0]..], sizes[1..], k - 1, index + 1, total);
      TakeOfTail(sizes, k);
      TakeOfTail(DataChunks(content, sizes, index, total), k);
    }
  }

  /** Whatever the reads and wherever and however the stream ends, the output is a prefix of the
      file. */
  lemma OutputIsPrefix(json: Json, src: Source, n: nat, reset: bool)
    requires Faithful(json) && ValidSource(src) && src.Opened? && n <= |SentBytes(json, src)|
    ensures Received(json, SentBytes(json, src)[..n], reset).0 <= src.content
  {
    TransferOutcome(json, src, n, reset);
  }

  lemma {:induction false} ProperPrefixSum(sizes: seq<nat>, j: nat)
    requires j <= |sizes| && forall i :: 0 <= i < |sizes| ==> sizes[i] > 0
    ensures Sum(sizes[..j]) == Sum(sizes) <==> j == |sizes|
  {
    if j == |sizes| {
      assert sizes[..j] == sizes;
    } else if j == 0 {
    } else {
      assert sizes[..j][1..] == sizes[1..][..j - 1];
      ProperPrefixSum(sizes[1..], j - 1);
    }
  }

  /** All frames are whole when nothing is cut. */
  lemma NothingCut(json: Json, src: Source)
    requires ValidSource(src)
    ensures var frames := EncodeChunks(json, SentChunks(src)); WholeFrames(frames, |SentBytes(json, src)|) == |frames|
  {
    var frames := EncodeChunks(json, SentChunks(src));
    WholeFramesIsLargest(frames, |SentBytes(json, src)|, |frames|);
    assert frames[..|frames|] == frames;
  }

  lemma {:induction false} SumBound(sizes: seq<nat>)
    requires forall i :: 0 <= i < |sizes| ==> sizes[i] <= CHUNK_SIZE
    ensures Sum(sizes) <= CHUNK_SIZE * |sizes|
  {
    if sizes != [] {
      SumBound(sizes[1..]);
    }
  }

  lemma EnoughChunks(sizes: seq<nat>)
    requires forall i :: 0 <= i < |sizes| ==> sizes[i] <= CHUNK_SIZE
    ensures TotalChunks(Sum(sizes)) <= |sizes|
  {
    SumBound(sizes);
  }

  /** What becomes of an opened file whose stream arrives whole, with whatever end behind it, and
      with or without an error frame. */
  lemma WholeStreamOutcome(json: Json, src: Source, reset: bool)
    requires Faithful(json) && ValidSource(src) && src.Opened?
    ensures
      var sizes, total := src.schedule.sizes, TotalChunks(|src.content|);
      var used := Min(|sizes|, total);
      && Sum(sizes[..used]) <= |src.content|
      && Received(json, SentBytes(json, src), reset) ==
         (src.content[..Sum(sizes[..used])], 0 < total <= |sizes| || (src.schedule.failure.None? && !reset))
  {
    var all := |SentBytes(json, src)|;
    var frames := EncodeChunks(json, SentChunks(src));
    TransferOutcome(json, src, all, reset);
    assert SentBytes(json, src)[..all] == SentBytes(json, src);
    NothingCut(json, src);
    DataChunksLength(src.content, src.schedule.sizes, 0, TotalChunks(|src.content|));
    assert frames[..|frames|] == frames;
  }

  /** When the file is read to its end, the whole stream is received as a success, whatever comes
      behind it; only an empty file needs the EOF. */
  lemma WholeStreamSucceeds(json: Json, src: Source, reset: bool)
    requires Faithful(json) && ValidSource(src) && src.Opened? && src.schedule.failure.None?
    ensures Received(json, SentBytes(json, src), reset).1 <==> !reset || src.content != []
  {
    WholeStreamOutcome(json, src, reset);
    EnoughChunks(src.schedule.sizes);
  }

  /** The reply ends with an error frame. */
  predicate SendsError(src: Source) {
    src.Unavailable? || src.schedule.failure.Some?
  }

  /** An error frame that arrives fails the attempt exactly if it comes instead of the file, or
      before the announced number of chunks: behind that many the receiver does not read it. */
  lemma ErrorFrameFailsIff(json: Json, src: Source, reset: bool)
    requires Faithful(json) && ValidSource(src) && SendsError(src)
    ensures !Received(json, SentBytes(json, src), reset).1 <==>
      src.Unavailable? || src.content == [] || |src.schedule.sizes| < TotalChunks(|src.content|)
  {
    if src.Opened? {
      WholeStreamOutcome(json, src, reset);
    } else {
      WholeErrorReply(json, src, reset);
    }
  }

  /** A whole error reply. */
  lemma WholeErrorReply(json: Json, src: Source, reset: bool)
    requires Faithful(json) && ValidSource(src) && src.Unavailable?
    ensures Received(json, SentBytes(json, src), reset) == ([], false)
  {
    var all := |SentBytes(json, src)|;
    var frames := EncodeChunks(json, SentChunks(src));
    assert SentBytes(json, src)[..all] == SentBytes(json, src);
    ErrorReply(json, src, all, reset);
    assert Encode(frames) == Frame(frames[0]) + Encode([]);
    assert |frames[0]| == JsonSize(SentChunks(src)[0]) > 0;
  }

  lemma SumOne(n: nat, rest: seq<nat>)
    ensures Sum([n] + rest) == n + Sum(rest)
  {
    assert ([n] + rest)[1..] == rest;
  }

  lemma OneRead(sizes: seq<nat>)
    requires sizes != [] && sizes[0] == 1
    ensures Sum(sizes[..1]) == 1 && Min(|sizes|, TotalChunks(2)) == 1 == TotalChunks(2)
  {
    SumOne(1, []);
    assert sizes[..1] == [1] + [];
  }

  /** Of a file of two bytes one chunk is announced; when its read yields one byte, that is all that
      is received, and with success, whatever comes next. */
  lemma OneByteOfTwo(json: Json, src: Source, reset: bool)
    requires Faithful(json) && ValidSource(src) && src.Opened?
    requires |src.content| == 2 && src.schedule.sizes != [] && src.schedule.sizes[0] == 1
    ensures Received(json, SentBytes(json, src), reset) == (src.content[..1], true)
  {
    OneRead(src.schedule.sizes);
    WholeStreamOutcome(json, src, reset);
  }

  /** It does come so late: a short read, then a failure inside the one announced chunk. Half of the
      file is received with success. */
  lemma ErrorFrameMayBeIgnored(json: Json, a: byte, b: byte, message: seq<byte>, reset: bool)
    requires Faithful(json) && 0 < |message| <= MAX_TEXT
    ensures var src := Opened([a, b], Reads([1], Some(message)));
      ValidSource(src) && SendsError(src) && Received(json, SentBytes(json, src), reset) == ([a], true)
  {
    var src := Opened([a, b], Reads([1], Some(message)));
    SumOne(1, []);
    assert [1] + [] == [1];
    OneByteOfTwo(json, src, reset);
    assert [a, b][..1] == [a];
  }

  /** A transfer cut at n bytes delivers the whole file exactly when the file was read to its end,
      every data frame arrived and the reads took no more chunks than the size announces. */
  lemma TransferCompleteIff(json: Json, src: Source, n: nat, reset: bool)
    requires Faithful(json) && ValidSource(src) && src.Opened? && n <= |SentBytes(json, src)|
    ensures Received(json, SentBytes(json, src)[..n], reset).0 == src.content <==>
      Sum(src.schedule.sizes) == |src.content|
      && |src.schedule.sizes| <= WholeFrames(EncodeChunks(json, SentChunks(src)), n)
      && |src.schedule.sizes| <= TotalChunks(|src.content|)
  {
    var k := WholeFrames(EncodeChunks(json, SentChunks(src)), n);
    var sizes, total := src.schedule.sizes, TotalChunks(|src.content|);
    var used := Min(Min(k, |sizes|), total);
    TransferOutcome(json, src, n, reset);
    ProperPrefixSum(sizes, used);
    SumMonotone(sizes, used, |sizes|);
  }

  /** A reported success means the whole file exactly unless the announced number of chunks came
      and they are not all of the file, or the stream ended too early at a place that looks clean.
      This holds with and without a read failure at the sender. */
  lemma SuccessMeansWholeFileIff(json: Json, src: Source, n: nat, reset: bool)
    requires Faithful(json) && ValidSource(src) && src.Opened? && n <= |SentBytes(json, src)|
    ensures
      var frames := EncodeChunks(json, SentChunks(src));
      var sizes, total, k := src.schedule.sizes, TotalChunks(|src.content|), WholeFrames(frames, n);
      var received := Received(json, SentBytes(json, src)[..n], reset);
      (received.1 ==> received.0 == src.content)
      <==> !(0 < total <= k && total <= |sizes| && Sum(sizes[..total]) < |src.content|)
           && !(k <= |sizes| && k < total && CleanCut(frames, n) && !reset && Sum(sizes[..k]) < |src.content|)
  {
    var sizes, total, k := src.schedule.sizes, TotalChunks(|src.content|), WholeFrames(EncodeChunks(json, SentChunks(src)), n);
    var used := Min(Min(k, |sizes|), total);
    TransferOutcome(json, src, n, reset);
    assert src.content[..Sum(sizes[..used])] == src.content <==> Sum(sizes[..used]) == |src.content|;
  }

  /** For a file read to its end these are the cases of too many reads and of missing chunks. */
  lemma MissingPart(src: Source, j: nat)
    requires ValidSource(src) && src.Opened? && j <= |src.schedule.sizes|
    ensures Sum(src.schedule.sizes[..j]) < |src.content| <==>
      j < |src.schedule.sizes| || Sum(src.schedule.sizes) < |src.content|
  {
    ProperPrefixSum(src.schedule.sizes, j);
    SumMonotone(src.schedule.sizes, j, |src.schedule.sizes|);
  }

  /** All of this happens. A stream that ends behind any proper part of the data frames that were announced
      is a success with that part of the file. */
  lemma EarlyEndIsSuccess(json: Json, src: Source, k: nat) returns (n: nat)
    requires Faithful(json) && ValidSource(src) && src.Opened? && k < |src.schedule.sizes|
    requires k < TotalChunks(|src.content|)
    ensures n <= |SentBytes(json, src)| && Sum(src.schedule.sizes[..k]) < |src.content|
    ensures Received(json, SentBytes(json, src)[..n], false) == (src.content[..Sum(src.schedule.sizes[..k])], true)
  {
    var frames := EncodeChunks(json, SentChunks(src));
    var sizes := src.schedule.sizes;
    DataChunksLength(src.content, sizes, 0, TotalChunks(|src.content|));
    SentChunksFit(json, src);
    n := |Encode(frames[..k])|;
    EncodePrefix(frames, k);
    NextFrame(frames, k);
    WholeFramesIsLargest(frames, n, k);
    WholeFramesIsLargest(frames, n, k + 1);
    assert WholeFrames(frames, n) == k;
    TransferOutcome(json, src, n, false);
    SumMonotone(sizes, k, |sizes|);
    SumUpTo(sizes, k);
    SumMonotone(sizes, k + 1, |sizes|);
  }

  /** And two reads of one byte each, where one chunk is announced, lose the second byte although
      the whole stream arrives. */
  lemma ShortReadsLoseTail(json: Json, a: byte, b: byte)
    requires Faithful(json)
    ensures var src := Opened([a, b], Reads([1, 1], None));
      ValidSource(src) && Received(json, SentBytes(json, src), false) == ([a], true)
  {
    var src := Opened([a, b], Reads([1, 1], None));
    SumOne(1, [1]);
    SumOne(1, []);
    assert [1] + [1] == [1, 1] && [1] + [] == [1];
    OneByteOfTwo(json, src, false);
    assert [a, b][..1] == [a];
  }

  /** Every read but the last fills the buffer. */
  ghost predicate FullReads(sizes: seq<nat>) {
    forall i :: 0 <= i < |sizes| - 1 ==> sizes[i] == CHUNK_SIZE
  }

  lemma {:induction false} FullReadsCount(sizes: seq<nat>)
    requires FullReads(sizes) && forall i :: 0 <= i < |sizes| ==> 0 < sizes[i] <= CHUNK_SIZE
    ensures |sizes| == TotalChunks(Sum(sizes))
  {
    if |sizes| > 1 {
      FullReadsCount(sizes[1..]);
      assert TotalChunks(CHUNK_SIZE + Sum(sizes[1..])) == 1 + TotalChunks(Sum(sizes[1..]));
    } else if |sizes| == 1 {
      assert Sum(sizes[1..]) == 0;
    }
  }

  /** The round trip: with full reads every file, the empty one included, arrives unchanged, in
      ceil(size / 65536) chunks. */
  lemma TransferRoundTrip(json: Json, src: Source, reset: bool)
    requires Faithful(json) && ValidSource(src) && src.Opened? && src.schedule.failure.None?
    requires FullReads(src.schedule.sizes)
    ensures Received(json, SentBytes(json, src), reset) == (src.content, !reset || src.content != [])
    ensures |SentChunks(src)| == (|src.content| + 65535) / 65536
  {
    var all := |SentBytes(json, src)|;
    FullReadsCount(src.schedule.sizes);
    DataChunksLength(src.content, src.schedule.sizes, 0, TotalChunks(|src.content|));
    NothingCut(json, src);
    assert SentBytes(json, src)[..all] == SentBytes(json, src);
    WholeStreamSucceeds(json, src, reset);
    TransferCompleteIff(json, src, all, reset);
  }

  /** An error reply never puts bytes into the file; received whole, it fails the attempt. Cut
      before its data it is taken for an empty file exactly when the cut looks clean. */
  lemma ErrorReply(json: Json, src: Source, n: nat, reset: bool)
    requires Faithful(json) && ValidSource(src) && src.Unavailable? && n <= |SentBytes(json, src)|
    ensures Received(json, SentBytes(json, src)[..n], reset) ==
      ([], !reset && (n == 0 || (n == 4 && JsonSize(ErrorChunk(src.message)) <= MAX_MESSAGE)))
  {
    var chunks := SentChunks(src);
    var frames := EncodeChunks(json, chunks);
    ReceivedChunks(json, src, n, reset);
    assert Encode(frames) == Frame(frames[0]) + Encode([]);
    assert |json.encode(chunks[0])| == JsonSize(chunks[0]);
  }

  /** What the requester makes of any reply, cut anywhere: a part of the file, or nothing. */
  lemma ReplyIsPrefix(json: Json, src: Source, attempt: Attempt)
    requires Faithful(json) && ValidSource(src) && attempt.Streamed? && attempt.bytes <= SentBytes(json, src)
    ensures var file := Received(json, attempt.bytes, attempt.reset).0;
      file == [] || (src.Opened? && file <= src.content)
  {
    var n := |attempt.bytes|;
    assert attempt.bytes == SentBytes(json, src)[..n];
    if src.Opened? {
      OutputIsPrefix(json, src, n, attempt.reset);
    } else {
      ErrorReply(json, src, n, attempt.reset);
    }
  }

  /** The attempt brings what a node with this store and these files sends for the CTID, or a part
      of it. */
  ghost predicate SentBy(json: Json, store: Tracks, files: string -> seq<byte>, utf8: string -> seq<byte>, ctid: string,
                         attempt: Attempt) {
    attempt.Streamed? ==>
      exists src :: Serves(store, files, utf8, ctid, src) && ValidSource(src) && attempt.bytes <= SentBytes(json, src)
  }

  /** A file of the store's track with this CTID starts with these bytes. */
  ghost predicate IsPartOfTrack(store: Tracks, files: string -> seq<byte>, ctid: string, bytes: seq<byte>) {
    exists id :: id in store && store[id].ctid == ctid && bytes <= files(store[id].path)
  }

  /** So one node's reply is a part of a file of one of its tracks with the requested CTID. */
  lemma ReplyIsOfTrack(json: Json, store: Tracks, files: string -> seq<byte>, utf8: string -> seq<byte>, ctid: string,
                       attempt: Attempt)
    requires Faithful(json) && attempt.Streamed? && SentBy(json, store, files, utf8, ctid, attempt)
    ensures var file := Received(json, attempt.bytes, attempt.reset).0;
      file == [] || IsPartOfTrack(store, files, ctid, file)
  {
    var src :| Serves(store, files, utf8, ctid, src) && ValidSource(src) && attempt.bytes <= SentBytes(json, src);
    ReplyIsPrefix(json, src, attempt);
  }

  /** Failover between senders of this kind: a fetch that succeeds leaves a part of a file that one
      of the asked providers has for the CTID, even if every stream may have been cut. */
  lemma FetchedIsPrefixOfOneFile(json: Json, providers: seq<string>, attempt: (nat, string) -> Attempt,
                                 stores: map<string, Tracks>, files: map<string, string -> seq<byte>>,
                                 utf8: string -> seq<byte>, ctid: string, i: nat, file: seq<byte>)
    requires Faithful(json) && DeliveredBy(json, providers, attempt, i, file)
    requires forall k :: 0 <= k < |providers| ==>
      && providers[k] in stores && providers[k] in files
      && SentBy(json, stores[providers[k]], files[providers[k]], utf8, ctid, attempt(k, providers[k]))
    ensures file == [] || exists id :: id in providers && id in stores && id in files && IsPartOfTrack(stores[id], files[id], ctid, file)
  {
    var id := providers[i];
    assert id in providers;
    ReplyIsOfTrack(json, stores[id], files[id], utf8, ctid, attempt(i, id));
  }
}
