/** The chunked transfer coding, as the reader of the gateway's own model list decodes it. */
module ChunkedCoding {
  import opened Common

  const MAX_RESPONSE_BYTES: nat := 1024 * 1024
  const MAX_SIZE_LINE := 32

  type Byte = b: int | 0 <= b < 256

  datatype Decoded = Whole(data: seq<Byte>) | Invalid | TooLarge | Unfinished

  /** buffer.toString('ascii') drops the highest bit. */
  function Ascii(b: Byte): nat {
    b % 128
  }

  /** body.indexOf('\r\n', from), which compares whole bytes. */
  function FindCrlf(body: seq<Byte>, from: nat): (r: Option<nat>)
    requires from <= |body|
    ensures r.Some? ==> from <= r.value && r.value + 2 <= |body| && body[r.value] == 13 && body[r.value + 1] == 10
    ensures forall i :: from <= i < (if r.Some? then r.value else |body| - 1) ==> !(body[i] == 13 && body[i + 1] == 10)
    decreases |body| - from
  {
    if from + 1 >= |body| then None
    else if body[from] == 13 && body[from + 1] == 10 then Some(from)
    else FindCrlf(body, from + 1)
  }

  /** The text of a size line before its first semicolon. */
  function SizeText(line: seq<Byte>): seq<nat> {
    if line == [] || Ascii(line[0]) == ';' as nat then [] else [Ascii(line[0])] + SizeText(line[1..])
  }

  function HexValue(c: nat): Option<nat> {
    if '0' as nat <= c <= '9' as nat then Some(c - '0' as nat)
    else if 'a' as nat <= c <= 'f' as nat then Some(c - 'a' as nat + 10)
    else if 'A' as nat <= c <= 'F' as nat then Some(c - 'A' as nat + 10)
    else None
  }

  predicate IsHex(text: seq<nat>) {
    text != [] && forall i :: 0 <= i < |text| ==> HexValue(text[i]).Some?
  }

  function ParseHex(text: seq<nat>): nat
    requires forall i :: 0 <= i < |text| ==> HexValue(text[i]).Some?
  {
    if text == [] then 0 else 16 * ParseHex(text[..|text| - 1]) + HexValue(text[|text| - 1]).value
  }

  /** The size a line announces, if it is one. */
  function LineSize(line: seq<Byte>): Option<nat> {
    var text := SizeText(line);
    if |line| <= MAX_SIZE_LINE && IsHex(text) then Some(ParseHex(text)) else None
  }

  function Flatten(chunks: seq<seq<Byte>>): seq<Byte> {
    if chunks == [] then [] else Flatten(chunks[..|chunks| - 1]) + chunks[|chunks| - 1]
  }

  /** What lies at an offset: the end, a chunk whose data is `start..end`, or an error. */
  datatype Step = Garbled | Overflow | LastLine | Chunk(start: nat, end: nat)

  function NextStep(body: seq<Byte>, offset: nat, size: nat): (s: Step)
    requires offset <= |body|
    ensures s.Chunk? ==>
              && offset + 2 <= s.start < s.end && s.end + 2 <= |body|
              && size + (s.end - s.start) <= MAX_RESPONSE_BYTES
  {
    var lineEnd := FindCrlf(body, offset);
    if lineEnd.None? then Garbled else
      var announced := LineSize(body[offset..lineEnd.value]);
      if announced.None? then Garbled
      else if announced.value == 0 then LastLine
      else if size + announced.value > MAX_RESPONSE_BYTES then Overflow
      else
        var end := lineEnd.value + 2 + announced.value;
        if end + 2 > |body| || Ascii(body[end]) != 13 || Ascii(body[end + 1]) != 10 then Garbled
        else Chunk(lineEnd.value + 2, end)
  }

  /** Decoding from `offset` on, `done` being decoded already. */
  function DecodeFrom(body: seq<Byte>, offset: nat, done: seq<Byte>): (r: Decoded)
    requires offset <= |body|
    decreases |body| - offset
  {
    if offset == |body| then Unfinished else
      match NextStep(body, offset, |done|)
      case Garbled => Invalid
      case Overflow => TooLarge
      case LastLine => Whole(done)
      case Chunk(start, end) => DecodeFrom(body, end + 2, done + body[start..end])
  }

  lemma DecodeChunkStep(body: seq<Byte>, offset: nat, done: seq<Byte>, start: nat, end: nat)
    requires offset < |body| && NextStep(body, offset, |done|) == Chunk(start, end)
    ensures DecodeFrom(body, offset, done) == DecodeFrom(body, end + 2, done + body[start..end])
  {
    hide NextStep;
  }

  /** One turn of the loop of decodeChunked, checks in their order. */
  method ReadStep(body: seq<Byte>, offset: nat, size: nat) returns (s: Step)
    requires offset < |body| && size <= MAX_RESPONSE_BYTES
    ensures s == NextStep(body, offset, size)
  {
    var lineEnd := FindCrlf(body, offset);
    if lineEnd.None? || lineEnd.value - offset > MAX_SIZE_LINE {
      return Garbled;
    }
    var sizeText := SizeText(body[offset..lineEnd.value]);
    if !IsHex(sizeText) {
      return Garbled;
    }
    var chunkSize := ParseHex(sizeText);
    var start := lineEnd.value + 2;
    if chunkSize == 0 {
      return LastLine;
    }
    if chunkSize > MAX_RESPONSE_BYTES - size {
      return Overflow;
    }
    var chunkEnd := start + chunkSize;
    if chunkEnd + 2 > |body| || Ascii(body[chunkEnd]) != 13 || Ascii(body[chunkEnd + 1]) != 10 {
      return Garbled;
    }
    return Chunk(start, chunkEnd);
  }

  /** decodeChunked */
  method DecodeChunked(body: seq<Byte>) returns (r: Decoded)
    ensures r == DecodeFrom(body, 0, [])
    ensures r.Whole? ==> |r.data| <= MAX_RESPONSE_BYTES && |r.data| <= |body|
  {
    hide NextStep;
    var chunks: seq<seq<Byte>> := [];
    var offset, size := 0, 0;
    while offset < |body|
      invariant 0 <= offset <= |body|
      invariant size == |Flatten(chunks)| && size <= MAX_RESPONSE_BYTES && size <= offset
      invariant DecodeFrom(body, 0, []) == DecodeFrom(body, offset, Flatten(chunks))
      decreases |body| - offset
    {
      var step := ReadStep(body, offset, size);
      match step
      case Garbled => return Invalid;
      case Overflow => return TooLarge;
      case LastLine => return Whole(Flatten(chunks));
      case Chunk(start, end) =>
        DecodeChunkStep(body, offset, Flatten(chunks), start, end);
        ghost var taken := chunks;
        chunks := chunks + [body[start..end]];
        assert chunks[..|chunks| - 1] == taken;
        size := size + (end - start);
        offset := end + 2;
    }
    return Unfinished;
  }

  // ----- What the decoder accepts

  /** One chunk as it lies in the body: its size line, its data, and the two bytes behind it. */
  datatype Frame = Frame(line: seq<Byte>, data: seq<Byte>, end: seq<Byte>)

  const CRLF: seq<Byte> := [13, 10]

  /** A line as the decoder cuts it: up to the first CRLF. */
  ghost predicate IsLine(line: seq<Byte>) {
    FindCrlf(line + CRLF, 0) == Some(|line|)
  }

  ghost predicate IsFrame(f: Frame) {
    && IsLine(f.line) && LineSize(f.line) == Some(|f.data|) && f.data != []
    && |f.end| == 2 && Ascii(f.end[0]) == 13 && Ascii(f.end[1]) == 10
  }

  function Laid(f: Frame): seq<Byte> {
    f.line + CRLF + f.data + f.end
  }

  function Layout(frames: seq<Frame>): seq<Byte> {
    if frames == [] then [] else Laid(frames[0]) + Layout(frames[1..])
  }

  function DataOf(frames: seq<Frame>): seq<Byte> {
    if frames == [] then [] else frames[0].data + DataOf(frames[1..])
  }

  /** A whole body: frames, a line announcing zero, and whatever comes behind it. */
  ghost predicate IsBody(body: seq<Byte>, frames: seq<Frame>, last: seq<Byte>, rest: seq<Byte>) {
    && (forall i :: 0 <= i < |frames| ==> IsFrame(frames[i]))
    && IsLine(last) && LineSize(last) == Some(0)
    && body == Layout(frames) + last + CRLF + rest
    && |DataOf(frames)| <= MAX_RESPONSE_BYTES
  }

  /** The first CRLF of a line is found wherever the line lies. */
  lemma {:induction false} FindInside(before: seq<Byte>, line: seq<Byte>, rest: seq<Byte>, k: nat)
    requires IsLine(line) && k <= |line|
    requires FindCrlf(line + CRLF, k) == Some(|line|)
    ensures FindCrlf(before + line + CRLF + rest, |before| + k) == Some(|before| + |line|)
    decreases |line| - k
  {
    var body := before + line + CRLF + rest;
    assert body[|before| + k] == (line + CRLF)[k] && body[|before| + k + 1] == (line + CRLF)[k + 1];
    if k < |line| {
      FindInside(before, line, rest, k + 1);
    }
  }

  /** A frame in front of a body makes a longer body. */
  lemma BodyCons(f: Frame, body: seq<Byte>, frames: seq<Frame>, last: seq<Byte>, rest: seq<Byte>)
    requires IsFrame(f) && IsBody(body, frames, last, rest)
    requires |f.data| + |DataOf(frames)| <= MAX_RESPONSE_BYTES
    ensures IsBody(Laid(f) + body, [f] + frames, last, rest)
    ensures DataOf([f] + frames) == f.data + DataOf(frames)
  {
    hide Laid;
    hide IsFrame;
    hide IsLine;
    hide LineSize;
    assert ([f] + frames)[1..] == frames;
    Regrouped(Laid(f), Layout(frames), last, CRLF, rest);
    Assoc(Layout(frames), last, CRLF + rest);
    Assoc(Layout(frames) + last, CRLF, rest);
  }

  /** The last line ends the decoding, wherever it lies. */
  lemma LastLineDecodes(before: seq<Byte>, last: seq<Byte>, rest: seq<Byte>, done: seq<Byte>)
    requires IsLine(last) && LineSize(last) == Some(0)
    ensures DecodeFrom(before + last + CRLF + rest, |before|, done) == Whole(done)
  {
    var body := before + last + CRLF + rest;
    FindInside(before, last, rest, 0);
    assert body[|before|..|before| + |last|] == last;
    hide FindCrlf;
    hide LineSize;
    hide IsLine;
    assert NextStep(body, |before|, |done|) == LastLine;
    hide NextStep;
  }

  /** Where the parts of a frame lie. */
  lemma PartsOfFrame(body: seq<Byte>, before: seq<Byte>, f: Frame, tail: seq<Byte>)
    requires |f.end| == 2 && body == before + Laid(f) + tail
    ensures var start := |before| + |f.line| + 2;
            && body == before + f.line + CRLF + (f.data + f.end + tail)
            && |before + Laid(f)| == start + |f.data| + 2 <= |body|
            && body[|before|..|before| + |f.line|] == f.line
            && body[start..start + |f.data|] == f.data
            && body[start + |f.data|] == f.end[0] && body[start + |f.data| + 1] == f.end[1]
  {
    var flat := before + f.line + CRLF + (f.data + f.end + tail);
    assert body == flat;
    assert flat[|before|..|before| + |f.line|] == f.line;
    var start := |before| + |f.line| + 2;
    assert flat[start..] == f.data + f.end + tail;
    assert flat[start..start + |f.data|] == f.data;
  }

  /** One frame is read as a chunk, wherever it lies. */
  lemma FrameIsRead(body: seq<Byte>, before: seq<Byte>, f: Frame, tail: seq<Byte>, size: nat)
    requires IsFrame(f) && size + |f.data| <= MAX_RESPONSE_BYTES && body == before + Laid(f) + tail
    ensures var start := |before| + |f.line| + 2;
            && |body| >= start + |f.data| + 2 == |before + Laid(f)|
            && body[start..start + |f.data|] == f.data
            && NextStep(body, |before|, size) == Chunk(start, start + |f.data|)
  {
    hide Laid;
    PartsOfFrame(body, before, f, tail);
    FindInside(before, f.line, f.data + f.end + tail, 0);
    FrameStep(body, |before|, f, size);
  }

  lemma FrameStep(body: seq<Byte>, offset: nat, f: Frame, size: nat)
    requires IsFrame(f) && size + |f.data| <= MAX_RESPONSE_BYTES
    requires offset + |f.line| + 2 + |f.data| + 2 <= |body|
    requires FindCrlf(body, offset) == Some(offset + |f.line|)
    requires body[offset..offset + |f.line|] == f.line
    requires var end := offset + |f.line| + 2 + |f.data|; body[end] == f.end[0] && body[end + 1] == f.end[1]
    ensures NextStep(body, offset, size) == Chunk(offset + |f.line| + 2, offset + |f.line| + 2 + |f.data|)
  {
    hide FindCrlf;
    hide LineSize;
    hide IsLine;
  }

  lemma ChunkDecodes(body: seq<Byte>, offset: nat, done: seq<Byte>, start: nat, data: seq<Byte>)
    requires offset < |body| && NextStep(body, offset, |done|) == Chunk(start, start + |data|)
    requires start + |data| + 2 <= |body| && body[start..start + |data|] == data
    ensures DecodeFrom(body, offset, done) == DecodeFrom(body, start + |data| + 2, done + data)
  {
    hide NextStep;
    DecodeChunkStep(body, offset, done, start, start + |data|);
  }

  lemma FrameDecodes(body: seq<Byte>, before: seq<Byte>, f: Frame, tail: seq<Byte>, done: seq<Byte>)
    requires IsFrame(f) && |done| + |f.data| <= MAX_RESPONSE_BYTES && body == before + Laid(f) + tail
    ensures DecodeFrom(body, |before|, done) == DecodeFrom(body, |before + Laid(f)|, done + f.data)
  {
    hide *;
    FrameIsRead(body, before, f, tail, |done|);
    ChunkDecodes(body, |before|, done, |before| + |f.line| + 2, f.data);
  }

  /** Every well-laid body decodes to its data. */
  lemma {:induction false} LaidBodyDecodes(before: seq<Byte>, done: seq<Byte>,
                                           frames: seq<Frame>, last: seq<Byte>, rest: seq<Byte>)
    requires IsBody(Layout(frames) + last + CRLF + rest, frames, last, rest)
    requires |done| + |DataOf(frames)| <= MAX_RESPONSE_BYTES
    ensures DecodeFrom(before + (Layout(frames) + last + CRLF + rest), |before|, done) == Whole(done + DataOf(frames))
    decreases |frames|
  {
    hide DecodeFrom;
    hide LineSize;
    hide IsLine;
    if frames == [] {
      LastLineDecodes(before, last, rest, done);
      assert before + ([] + last + CRLF + rest) == before + last + CRLF + rest;
      assert done + DataOf(frames) == done;
    } else {
      var f, others := frames[0], frames[1..];
      var tail := Layout(others) + last + CRLF + rest;
      assert before + (Layout(frames) + last + CRLF + rest) == before + Laid(f) + tail;
      FrameDecodes(before + Laid(f) + tail, before, f, tail, done);
      LaidBodyDecodes(before + Laid(f), done + f.data, others, last, rest);
      assert done + f.data + DataOf(others) == done + DataOf(frames);
    }
  }

  /** A line cut out of a body is a line of its own. */
  lemma {:induction false} CutLine(body: seq<Byte>, offset: nat, end: nat, k: nat)
    requires offset <= k <= end && end + 2 <= |body|
    requires FindCrlf(body, k) == Some(end)
    ensures FindCrlf(body[offset..end] + CRLF, k - offset) == Some(end - offset)
    decreases end - k
  {
    var cut := body[offset..end] + CRLF;
    assert cut == body[offset..end + 2];
    if k < end {
      CutLine(body, offset, end, k + 1);
    }
  }

  /** What the last line of a successful decoding is. */
  lemma DecodedEnd(body: seq<Byte>, offset: nat, size: nat) returns (line: seq<Byte>)
    requires offset <= |body| && NextStep(body, offset, size) == LastLine
    ensures IsLine(line) && LineSize(line) == Some(0)
    ensures offset + |line| + 2 <= |body| && body[offset..] == line + CRLF + body[offset + |line| + 2..]
  {
    var end := FindCrlf(body, offset).value;
    line := body[offset..end];
    CutLine(body, offset, end, offset);
  }

  lemma ChunkParts(body: seq<Byte>, offset: nat, size: nat) returns (end: nat)
    requires offset <= |body| && NextStep(body, offset, size).Chunk?
    ensures FindCrlf(body, offset) == Some(end) && offset <= end
    ensures var s := NextStep(body, offset, size);
            && s.start == end + 2 && s.end + 2 <= |body|
            && LineSize(body[offset..end]) == Some(s.end - s.start)
            && Ascii(body[s.end]) == 13 && Ascii(body[s.end + 1]) == 10
  {
    end := FindCrlf(body, offset).value;
    hide LineSize;
  }

  /** A chunk that was read is a frame. */
  lemma DecodedFrame(body: seq<Byte>, offset: nat, size: nat) returns (f: Frame)
    requires offset <= |body| && NextStep(body, offset, size).Chunk?
    ensures var s := NextStep(body, offset, size);
            IsFrame(f) && f.data == body[s.start..s.end] && body[offset..] == Laid(f) + body[s.end + 2..]
  {
    var s := NextStep(body, offset, size);
    var end := ChunkParts(body, offset, size);
    hide NextStep;
    hide LineSize;
    hide FindCrlf;
    hide Laid;
    var line := body[offset..end];
    CutLine(body, offset, end, offset);
    f := Frame(line, body[s.start..s.end], body[s.end..s.end + 2]);
    CutFrame(body, offset, f, s.end + 2);
  }

  lemma CutFrame(body: seq<Byte>, offset: nat, f: Frame, next: nat)
    requires offset + |f.line| + 2 + |f.data| + |f.end| == next <= |body|
    requires body[offset..offset + |f.line|] == f.line
    requires body[offset + |f.line|..offset + |f.line| + 2] == CRLF
    requires body[offset + |f.line| + 2..offset + |f.line| + 2 + |f.data|] == f.data
    requires body[offset + |f.line| + 2 + |f.data|..next] == f.end
    ensures body[offset..] == Laid(f) + body[next..]
  {
    var a, b := offset + |f.line|, offset + |f.line| + 2;
    Sliced(body, offset, a);
    Sliced(body, a, b);
    Sliced(body, b, b + |f.data|);
    Sliced(body, b + |f.data|, next);
    Regrouped(f.line, CRLF, f.data, f.end, body[next..]);
  }

  lemma Regrouped(a: seq<Byte>, b: seq<Byte>, c: seq<Byte>, d: seq<Byte>, e: seq<Byte>)
    ensures a + (b + (c + (d + e))) == a + b + c + d + e
  {
    Assoc(a, b, c + (d + e));
    Assoc(a + b, c, d + e);
    Assoc(a + b + c, d, e);
  }

  lemma EmptyBody(last: seq<Byte>, rest: seq<Byte>)
    requires IsLine(last) && LineSize(last) == Some(0)
    ensures IsBody(last + CRLF + rest, [], last, rest) && DataOf([]) == []
  {
    assert [] + last == last;
  }

  lemma Sliced(body: seq<Byte>, a: nat, b: nat)
    requires a <= b <= |body|
    ensures body[a..] == body[a..b] + body[b..]
  {
  }

  lemma Assoc(a: seq<Byte>, b: seq<Byte>, c: seq<Byte>)
    ensures a + b + c == a + (b + c)
  {
  }

  /** Whatever decodes is a well-laid body with that data. */
  lemma {:induction false} DecodedIsLaid(body: seq<Byte>, offset: nat, done: seq<Byte>)
    returns (frames: seq<Frame>, last: seq<Byte>, rest: seq<Byte>)
    requires offset <= |body| && |done| <= MAX_RESPONSE_BYTES
    requires DecodeFrom(body, offset, done).Whole?
    ensures IsBody(body[offset..], frames, last, rest)
    ensures DecodeFrom(body, offset, done).data == done + DataOf(frames)
    ensures |done| + |DataOf(frames)| <= MAX_RESPONSE_BYTES
    decreases |body| - offset
  {
    hide NextStep;
    hide LineSize;
    hide IsLine;
    hide IsFrame;
    hide IsBody;
    hide Laid;
    var s := NextStep(body, offset, |done|);
    if s.LastLine? {
      last := DecodedEnd(body, offset, |done|);
      frames, rest := [], body[offset + |last| + 2..];
      EmptyBody(last, rest);
      assert done + [] == done;
    } else {
      var f := DecodedFrame(body, offset, |done|);
      DecodeChunkStep(body, offset, done, s.start, s.end);
      hide DecodeFrom;
      var others;
      others, last, rest := DecodedIsLaid(body, s.end + 2, done + f.data);
      frames := [f] + others;
      hide DataOf;
      BodyCons(f, body[s.end + 2..], others, last, rest);
      Assoc(done, f.data, DataOf(others));
    }
  }

  /** Decoding succeeds exactly on the well-laid bodies whose data is within the limit, and yields that data. */
  lemma DecodesExactly(body: seq<Byte>, data: seq<Byte>)
    ensures DecodeFrom(body, 0, []) == Whole(data)
            <==> exists frames, last, rest :: IsBody(body, frames, last, rest) && DataOf(frames) == data
  {
    hide DecodeFrom;
    hide DataOf;
    hide Layout;
    hide IsFrame;
    hide IsLine;
    hide LineSize;
    if DecodeFrom(body, 0, []) == Whole(data) {
      var frames, last, rest := DecodedIsLaid(body, 0, []);
      assert body[0..] == body && [] + DataOf(frames) == DataOf(frames);
      assert IsBody(body, frames, last, rest) && DataOf(frames) == data;
    }
    if frames, last, rest :| IsBody(body, frames, last, rest) && DataOf(frames) == data {
      LaidBodyDecodes([], [], frames, last, rest);
      assert [] + body == body && [] + data == data;
    }
  }

  // ----- The coding of RFC 9112, section 7.1

  function HexDigit(n: nat): Byte
    requires n < 16
  {
    if n < 10 then 48 + n else 87 + n
  }

  function HexLine(n: nat): (line: seq<Byte>)
    ensures line != []
  {
    if n < 16 then [HexDigit(n)] else HexLine(n / 16) + [HexDigit(n % 16)]
  }

  function Encode(chunks: seq<seq<Byte>>): seq<Byte> {
    if chunks == [] then HexLine(0) + CRLF + CRLF
    else HexLine(|chunks[0]|) + CRLF + chunks[0] + CRLF + Encode(chunks[1..])
  }

  predicate HexByte(b: Byte) {
    48 <= b <= 57 || 97 <= b <= 102
  }

  lemma {:induction false} SizeTextOfHex(line: seq<Byte>)
    requires forall i :: 0 <= i < |line| ==> HexByte(line[i])
    ensures SizeText(line) == line
  {
    if line != [] {
      SizeTextOfHex(line[1..]);
      assert line == [line[0]] + line[1..];
    }
  }

  lemma {:induction false} NoCrlfInHex(line: seq<Byte>, k: nat)
    requires forall i :: 0 <= i < |line| ==> HexByte(line[i])
    requires k <= |line|
    ensures FindCrlf(line + CRLF, k) == Some(|line|)
    decreases |line| - k
  {
    if k < |line| {
      NoCrlfInHex(line, k + 1);
    }
  }

  lemma {:induction false} HexLineReads(n: nat)
    ensures forall i :: 0 <= i < |HexLine(n)| ==> HexByte(HexLine(n)[i])
    ensures SizeText(HexLine(n)) == HexLine(n) && IsHex(HexLine(n)) && ParseHex(HexLine(n)) == n
  {
    var line := HexLine(n);
    if n >= 16 {
      HexLineReads(n / 16);
      assert line[..|line| - 1] == HexLine(n / 16);
    } else {
      assert line[..|line| - 1] == [];
    }
    SizeTextOfHex(line);
  }

  lemma {:induction false} HexLineIsShort(n: nat, digits: nat)
    requires n < Power16(digits) && digits > 0
    ensures |HexLine(n)| <= digits
  {
    if n >= 16 {
      HexLineIsShort(n / 16, digits - 1);
    }
  }

  function Power16(n: nat): nat {
    if n == 0 then 1 else 16 * Power16(n - 1)
  }

  lemma HexLineIsLine(n: nat)
    requires n <= MAX_RESPONSE_BYTES
    ensures IsLine(HexLine(n)) && LineSize(HexLine(n)) == Some(n)
  {
    HexLineReads(n);
    NoCrlfInHex(HexLine(n), 0);
    assert Power16(6) == 16 * Power16(5) == 256 * Power16(4) == 4096 * Power16(3);
    assert Power16(3) == 16 * Power16(2) == 256 * Power16(1) == 4096;
    HexLineIsShort(n, 6);
  }

  function FrameOf(chunk: seq<Byte>): Frame {
    Frame(HexLine(|chunk|), chunk, CRLF)
  }

  lemma {:induction false} FlattenFront(chunks: seq<seq<Byte>>)
    requires chunks != []
    ensures Flatten(chunks) == chunks[0] + Flatten(chunks[1..])
    decreases |chunks|
  {
    if |chunks| > 1 {
      FlattenFront(chunks[..|chunks| - 1]);
      assert chunks[1..][..|chunks| - 2] == chunks[..|chunks| - 1][1..];
    } else {
      assert chunks[..0] == [] && chunks[1..] == [];
    }
  }

  lemma {:induction false} EncodeIsLaid(chunks: seq<seq<Byte>>, rest: seq<Byte>) returns (frames: seq<Frame>)
    requires forall i :: 0 <= i < |chunks| ==> chunks[i] != []
    requires |Flatten(chunks)| <= MAX_RESPONSE_BYTES
    ensures IsBody(Encode(chunks) + rest, frames, HexLine(0), CRLF + rest)
    ensures DataOf(frames) == Flatten(chunks)
    decreases |chunks|
  {
    HexLineIsLine(0);
    if chunks == [] {
      frames := [];
      assert Encode(chunks) + rest == [] + HexLine(0) + CRLF + (CRLF + rest);
    } else {
      FlattenFront(chunks);
      HexLineIsLine(|chunks[0]|);
      hide IsLine;
      hide LineSize;
      var others := EncodeIsLaid(chunks[1..], rest);
      var f := FrameOf(chunks[0]);
      frames := [f] + others;
      hide Flatten;
      hide Layout;
      hide IsBody;
      hide HexLine;
      BodyCons(f, Encode(chunks[1..]) + rest, others, HexLine(0), CRLF + rest);
      assert Encode(chunks) == Laid(f) + Encode(chunks[1..]);
      hide Encode;
      hide Laid;
      Assoc(Laid(f), Encode(chunks[1..]), rest);
    }
  }

  /** Decoding undoes the coding, for every list of non-empty chunks within the limit and whatever follows. */
  lemma ChunkedRoundTrip(chunks: seq<seq<Byte>>, rest: seq<Byte>)
    requires forall i :: 0 <= i < |chunks| ==> chunks[i] != []
    requires |Flatten(chunks)| <= MAX_RESPONSE_BYTES
    ensures DecodeFrom(Encode(chunks) + rest, 0, []) == Whole(Flatten(chunks))
  {
    var frames := EncodeIsLaid(chunks, rest);
    DecodesExactly(Encode(chunks) + rest, Flatten(chunks));
  }

  // ----- What the numerals are worth

  /** A byte of a size line with its letter, if it is one, in lower case. */
  function Lowered(c: nat): nat {
    if 'A' as nat <= c <= 'Z' as nat then c + 32 else c
  }

  function AllLowered(text: seq<nat>): seq<nat> {
    seq(|text|, i requires 0 <= i < |text| => Lowered(text[i]))
  }

  function ZeroBytes(n: nat): seq<nat> {
    seq(n, _ => 48)
  }

  lemma LettersIgnoreCase(c: nat)
    ensures HexValue(Lowered(c)) == HexValue(c)
    ensures HexValue(c).Some? ==> HexValue(c).value < 16 && Lowered(c) == HexDigit(HexValue(c).value)
  {
  }

  /** The hexadecimal digits of n behind some zeros are worth n, in upper or lower case. */
  lemma {:induction false} HexIsWorth(text: seq<nat>, zeros: nat, n: nat)
    requires AllLowered(text) == ZeroBytes(zeros) + HexLine(n)
    ensures IsHex(text) && ParseHex(text) == n
    decreases |text|
  {
    var k := |text| - 1;
    var front := text[..k];
    assert AllLowered(text)[k] == Lowered(text[k]) && |text| == zeros + |HexLine(n)|;
    LettersIgnoreCase(text[k]);
    assert AllLowered(front) == AllLowered(text)[..k];
    if n >= 16 {
      assert AllLowered(text)[..k] == ZeroBytes(zeros) + HexLine(n / 16);
      HexIsWorth(front, zeros, n / 16);
    } else if zeros > 0 {
      assert AllLowered(text)[..k] == ZeroBytes(zeros - 1) + HexLine(0);
      HexIsWorth(front, zeros - 1, 0);
    } else {
      assert front == [];
    }
    HexFront(text);
  }

  lemma HexFront(text: seq<nat>)
    requires text != []
    ensures IsHex(text) <==>
              HexValue(text[|text| - 1]).Some? && (|text| == 1 || IsHex(text[..|text| - 1]))
  {
  }

  /** And nothing else is worth n. */
  lemma {:induction false} WorthIsHex(text: seq<nat>) returns (zeros: nat)
    requires IsHex(text)
    ensures AllLowered(text) == ZeroBytes(zeros) + HexLine(ParseHex(text))
    decreases |text|
  {
    var k := |text| - 1;
    var front, value := text[..k], HexValue(text[k]).value;
    LettersIgnoreCase(text[k]);
    assert AllLowered(text) == AllLowered(front) + [Lowered(text[k])];
    if k == 0 {
      zeros := 0;
      assert ParseHex(front) == 0 && AllLowered(front) == [];
    } else {
      zeros := WorthIsHex(front);
      if ParseHex(front) == 0 {
        zeros := zeros + 1;
        assert HexLine(0) == [48];
        assert ZeroBytes(zeros) == ZeroBytes(zeros - 1) + [48];
      } else {
        var n := ParseHex(text);
        assert n / 16 == ParseHex(front) && n % 16 == value;
      }
    }
  }

  function AsciiOf(line: seq<Byte>): seq<nat> {
    seq(|line|, i requires 0 <= i < |line| => Ascii(line[i]))
  }

  /** The size ends at the first semicolon, behind which a chunk extension may follow. */
  lemma {:induction false} SizeEndsAtSemicolon(size: seq<Byte>, semicolon: Byte, rest: seq<Byte>)
    requires forall i :: 0 <= i < |size| ==> Ascii(size[i]) != ';' as nat
    requires Ascii(semicolon) == ';' as nat
    ensures SizeText(size) == AsciiOf(size) && SizeText(size + [semicolon] + rest) == AsciiOf(size)
    decreases |size|
  {
    var line := size + [semicolon] + rest;
    if size != [] {
      SizeEndsAtSemicolon(size[1..], semicolon, rest);
      assert line[1..] == size[1..] + [semicolon] + rest;
      assert AsciiOf(size) == [Ascii(size[0])] + AsciiOf(size[1..]);
    }
  }

  /** A size line announces n if and only if it is short and its digits are those of n, in either case. */
  lemma SizesExactly(line: seq<Byte>, n: nat)
    ensures LineSize(line) == Some(n) <==>
              && |line| <= MAX_SIZE_LINE
              && exists zeros: nat :: AllLowered(SizeText(line)) == ZeroBytes(zeros) + HexLine(n)
  {
    var text := SizeText(line);
    if LineSize(line) == Some(n) {
      var zeros := WorthIsHex(text);
    }
    if zeros: nat :| AllLowered(text) == ZeroBytes(zeros) + HexLine(n) {
      HexIsWorth(text, zeros, n);
    }
  }

  // ----- Choosing the body of a response

  function DecimalValue(text: string): Option<nat> {
    if text == "" || !('0' <= text[|text| - 1] <= '9') then None
    else if |text| == 1 then Some(text[0] as nat - '0' as nat)
    else
      var front := DecimalValue(text[..|text| - 1]);
      if front.None? then None else Some(10 * front.value + text[|text| - 1] as nat - '0' as nat)
  }

  function DecimalLine(n: nat): string {
    if n < 10 then [(48 + n) as char] else DecimalLine(n / 10) + [(48 + n % 10) as char]
  }

  function ZeroChars(n: nat): string {
    seq(n, _ => '0')
  }

  lemma OneMoreDigit(front: string, digit: nat)
    requires digit < 10
    ensures var value := DecimalValue(front + [(48 + digit) as char]);
            if front == "" then value == Some(digit)
            else if DecimalValue(front).None? then value.None?
            else value == Some(10 * DecimalValue(front).value + digit)
  {
    var text := front + [(48 + digit) as char];
    assert text[..|text| - 1] == front;
  }

  lemma ZerosMore(zeros: nat)
    ensures ZeroChars(zeros + 1) == ZeroChars(zeros) + "0"
  {
  }

  lemma {:induction false} DecimalIsWorth(zeros: nat, n: nat)
    ensures DecimalValue(ZeroChars(zeros) + DecimalLine(n)) == Some(n)
    decreases zeros, n
  {
    hide DecimalValue;
    hide ZeroChars;
    if n >= 10 {
      DecimalIsWorth(zeros, n / 10);
      OneMoreDigit(ZeroChars(zeros) + DecimalLine(n / 10), n % 10);
      assert ZeroChars(zeros) + DecimalLine(n)
          == ZeroChars(zeros) + DecimalLine(n / 10) + [(48 + n % 10) as char];
    } else if zeros > 0 {
      DecimalIsWorth(zeros - 1, 0);
      ZerosMore(zeros - 1);
      OneMoreDigit(ZeroChars(zeros), n);
    } else {
      OneMoreDigit("", n);
      NoZeros();
      assert "" + DecimalLine(n) == DecimalLine(n);
    }
  }

  lemma NoZeros()
    ensures ZeroChars(0) == ""
  {
  }

  lemma {:induction false} WorthIsDecimal(text: string) returns (zeros: nat)
    requires DecimalValue(text).Some?
    ensures text == ZeroChars(zeros) + DecimalLine(DecimalValue(text).value)
    decreases |text|
  {
    zeros := 0;
    var k := |text| - 1;
    if k > 0 {
      var front := text[..k];
      zeros := WorthIsDecimal(front);
      assert text == front + [text[k]];
      if DecimalValue(front).value == 0 {
        zeros := zeros + 1;
        assert ZeroChars(zeros) == ZeroChars(zeros - 1) + "0";
      } else {
        var n := DecimalValue(text).value;
        assert n / 10 == DecimalValue(front).value && n % 10 == text[k] as nat - 48;
      }
    }
  }

  /** A declared length is worth n if and only if it consists of the digits of n behind some zeros. */
  lemma LengthsExactly(text: string, n: nat)
    ensures DecimalValue(text) == Some(n) <==> exists zeros: nat :: text == ZeroChars(zeros) + DecimalLine(n)
  {
    if DecimalValue(text) == Some(n) {
      var zeros := WorthIsDecimal(text);
    }
    if zeros: nat :| text == ZeroChars(zeros) + DecimalLine(n) {
      DecimalIsWorth(zeros, n);
    }
  }

  /**
   * The body selection of parseHttpResponse: a transfer coding goes before a declared length, the length
   * must be met exactly, and no body exceeds the limit.
   */
  method SelectBody(raw: seq<Byte>, transferEncoding: string, contentLength: Option<string>) returns (r: Decoded)
    ensures r.Whole? ==> |r.data| <= MAX_RESPONSE_BYTES
    ensures transferEncoding == "chunked" ==> r == DecodeFrom(raw, 0, [])
    ensures transferEncoding == "" ==>
              (r == Whole(raw) <==>
                 && |raw| <= MAX_RESPONSE_BYTES
                 && (contentLength.Some? ==> DecimalValue(contentLength.value) == Some(|raw|)))
              && (r.Whole? ==> r.data == raw)
              && (r == Invalid <==> contentLength.Some? && DecimalValue(contentLength.value).None?)
              && (r == Unfinished <==>
                    && contentLength.Some? && DecimalValue(contentLength.value).Some?
                    && DecimalValue(contentLength.value).value <= MAX_RESPONSE_BYTES
                    && DecimalValue(contentLength.value).value != |raw|)
    ensures transferEncoding !in {"", "chunked"} ==> r.Invalid?
  {
    var body := raw;
    if transferEncoding != "" {
      if transferEncoding != "chunked" {
        return Invalid;
      }
      var decoded := DecodeChunked(raw);
      if !decoded.Whole? {
        return decoded;
      }
      body := decoded.data;
    } else if contentLength.Some? {
      var declared := DecimalValue(contentLength.value);
      if declared.None? {
        return Invalid;
      }
      if declared.value > MAX_RESPONSE_BYTES {
        return TooLarge;
      }
      if |body| != declared.value {
        return Unfinished;
      }
    }
    if |body| > MAX_RESPONSE_BYTES {
      return TooLarge;
    }
    return Whole(body);
  }
}
