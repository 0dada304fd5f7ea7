/** The framed serial protocol: the frame printer and the byte-stream parser.

        SOF 0x7E | TYPE | LEN lo hi | PAYLOAD[LEN] | CRC lo hi

    `Step` and `Feed` are the parser on values; `FrameParser` is the object that
    updates its fields byte by byte, and is proved to do the same.
  */
module Frames {
  import opened Crc
  import opened Gf2
  import opened Options

  const MAX_PAYLOAD := 256

  /** The frame types either side may send. */
  predicate KnownType(b: Byte) {
    b in {0x4E, 0x41, 0x44, 0x53, 0x54, 0x52, 0x50, 0x51, 0x47, 0x56, 0x49,
          0x74, 0x72, 0x78, 0x6B, 0x65, 0x70, 0x71}
  }

  datatype Frame = Frame(kind: Byte, payload: seq<Byte>)

  /** A frame both sides accept. */
  predicate Legal(f: Frame) {
    KnownType(f.kind) && |f.payload| <= MAX_PAYLOAD
  }

  // --------------------------------------------------------------- the printer

  function Le16(n: nat): (r: seq<Byte>)
    requires n < 0x10000
    ensures |r| == 2
  {
    [n % 0x100, n / 0x100]
  }

  /** TYPE and LEN: the part of the header the checksum covers. */
  function Head(kind: Byte, len: nat): (r: seq<Byte>)
    requires len < 0x10000
    ensures |r| == 3
  {
    [kind] + Le16(len)
  }

  function Checksum(kind: Byte, payload: seq<Byte>): (crc: nat)
    requires |payload| <= MAX_PAYLOAD
    ensures crc < 0x10000
  {
    OfIsRemainder(Head(kind, |payload|) + payload);
    Of(Head(kind, |payload|) + payload)
  }

  /** Everything before the checksum. */
  function Front(kind: Byte, payload: seq<Byte>): seq<Byte>
    requires |payload| <= MAX_PAYLOAD
  {
    [0x7E] + Head(kind, |payload|) + payload
  }

  function Encode(f: Frame): (r: seq<Byte>)
    requires |f.payload| <= MAX_PAYLOAD
    ensures |r| == |f.payload| + 6
  {
    Front(f.kind, f.payload) + Le16(Checksum(f.kind, f.payload))
  }

  /** What a frame is on the wire, byte by byte: the checksum, low byte first, is that of
      everything between it and the start byte. */
  predicate Sealed(b: seq<Byte>, f: Frame) {
    var n := |b|;
    && n == |f.payload| + 6
    && b[0] == 0x7E && b[1] == f.kind && b[2] + (b[3] as nat) * 0x100 == |f.payload| && b[4..n - 2] == f.payload
    && b[n - 2] + (b[n - 1] as nat) * 0x100 == Of(b[1..n - 2])
  }

  lemma SealedIff(b: seq<Byte>, f: Frame)
    requires |f.payload| <= MAX_PAYLOAD
    ensures Sealed(b, f) <==> b == Encode(f)
  {
    hide Of;
    var n := |b|;
    var e := Encode(f);
    EncodeParts(f);
    if Sealed(b, f) {
      assert b[1..n - 2] == [b[1], b[2], b[3]] + b[4..n - 2] == e[1..n - 2];
      assert b == [b[0]] + b[1..n - 2] + [b[n - 2], b[n - 1]];
      assert e == [e[0]] + e[1..n - 2] + [e[n - 2], e[n - 1]];
    }
  }

  lemma EncodeParts(f: Frame)
    requires |f.payload| <= MAX_PAYLOAD
    ensures Sealed(Encode(f), f)
    ensures Encode(f)[2..4] == Le16(|f.payload|)
  {
    hide Of;
    var e, n := Encode(f), |f.payload| + 6;
    assert e[1..n - 2] == Head(f.kind, |f.payload|) + f.payload;
    assert e[4..n - 2] == f.payload;
  }

  /** `None` is the protocol error for an oversize payload. */
  method BuildFrame(kind: Byte, payload: seq<Byte>) returns (r: Option<seq<Byte>>)
    ensures r.None? <==> |payload| > MAX_PAYLOAD
    ensures r.Some? ==> r.value == Encode(Frame(kind, payload)) && Sealed(r.value, Frame(kind, payload))
  {
    if |payload| > MAX_PAYLOAD {
      return None;
    }
    SealedIff(Encode(Frame(kind, payload)), Frame(kind, payload));
    var head := [kind] + Le16(|payload|);
    var crc := Crc16(head + payload);
    r := Some([0x7E] + head + payload + Le16(crc));
  }

  // ---------------------------------------------------------------- the parser

  datatype State = WaitSof | WaitType | WaitLenLo | WaitLenHi | WaitPayload | WaitCrcLo | WaitCrcHi

  datatype Stats = Stats(framesOk: nat, crcErrors: nat, lenErrors: nat, resyncs: nat, timeouts: nat, bytesIn: nat)

  datatype Parser = Parser(state: State, kind: Byte, expected: nat, buf: seq<Byte>, crcRx: nat, stats: Stats)
  {
    predicate InFrame() {
      state != WaitSof
    }

    /** What every reachable parser satisfies. */
    predicate Valid() {
      && (state !in {WaitSof, WaitType} ==> KnownType(kind))
      && (state == WaitLenHi ==> expected < 0x100)
      && (state == WaitPayload ==> |buf| < expected <= MAX_PAYLOAD)
      && (state in {WaitCrcLo, WaitCrcHi} ==> |buf| == expected <= MAX_PAYLOAD)
      && (state == WaitCrcHi ==> crcRx < 0x100)
    }

    /** The bytes of the frame in progress. */
    function Held(): seq<Byte>
      requires Valid()
    {
      match state
      case WaitSof => []
      case WaitType => [0x7E]
      case WaitLenLo => [0x7E, kind]
      case WaitLenHi => [0x7E, kind, expected]
      case WaitPayload => [0x7E] + Head(kind, expected) + buf
      case WaitCrcLo => [0x7E] + Head(kind, expected) + buf
      case WaitCrcHi => [0x7E] + Head(kind, expected) + buf + [crcRx]
    }

    function Reset(): Parser {
      Parser(WaitSof, 0, 0, [], 0, stats)
    }

    /** Abandon a partial frame after the link has been idle. */
    function Timeout(): (p: Parser)
      ensures !p.InFrame()
      ensures p.stats == if InFrame() then stats.(timeouts := stats.timeouts + 1) else stats
    {
      if InFrame() then this.(stats := stats.(timeouts := stats.timeouts + 1)).Reset() else this
    }
  }

  function Fresh(): Parser {
    Parser(WaitSof, 0, 0, [], 0, Stats(0, 0, 0, 0, 0, 0))
  }

  function Resync(p: Parser): Parser {
    p.(state := WaitSof, stats := p.stats.(resyncs := p.stats.resyncs + 1))
  }

  predicate Accepts(kind: Byte, expected: nat, buf: seq<Byte>, crc: nat) {
    expected < 0x10000 && Of(Head(kind, expected) + buf) == crc
  }

  method ChecksumMatches(kind: Byte, expected: nat, buf: seq<Byte>, crc: nat) returns (ok: bool)
    requires expected < 0x10000
    ensures ok <==> Accepts(kind, expected, buf, crc)
  {
    var computed := Crc16([kind] + Le16(expected) + buf);
    ok := computed == crc;
  }

  /** One byte, without the byte counter. */
  function Advance(p: Parser, b: Byte): (Parser, Option<Frame>) {
    match p.state
    case WaitSof => (if b == 0x7E then p.(state := WaitType) else p, None)
    case WaitType => (if KnownType(b) then p.(kind := b, state := WaitLenLo) else Resync(p), None)
    case WaitLenLo => (p.(expected := b, state := WaitLenHi), None)
    case WaitLenHi =>
      var n := p.expected + (b as nat) * 0x100;
      var q := p.(expected := n);
      (if n > MAX_PAYLOAD then Resync(q.(stats := q.stats.(lenErrors := q.stats.lenErrors + 1)))
       else q.(buf := [], state := if n == 0 then WaitCrcLo else WaitPayload), None)
    case WaitPayload =>
      var q := p.(buf := p.buf + [b]);
      (if |q.buf| >= q.expected then q.(state := WaitCrcLo) else q, None)
    case WaitCrcLo => (p.(crcRx := b, state := WaitCrcHi), None)
    case WaitCrcHi =>
      var crc := p.crcRx + (b as nat) * 0x100;
      var q := p.(crcRx := crc, state := WaitSof);
      if Accepts(p.kind, p.expected, p.buf, crc)
      then (q.(stats := q.stats.(framesOk := q.stats.framesOk + 1)), Some(Frame(p.kind, p.buf)))
      else (Resync(q.(stats := q.stats.(crcErrors := q.stats.crcErrors + 1))), None)
  }

  function Step(p: Parser, b: Byte): (Parser, Option<Frame>) {
    Advance(p.(stats := p.stats.(bytesIn := p.stats.bytesIn + 1)), b)
  }

  function Emitted(f: Option<Frame>): seq<Frame> {
    match f case None => [] case Some(x) => [x]
  }

  /** The parser after a run of bytes. */
  function Feed(p: Parser, data: seq<Byte>): Parser
    decreases |data|
  {
    if data == [] then p else Feed(Step(p, data[0]).0, data[1..])
  }

  /** The frames yielded along it. */
  function Yield(p: Parser, data: seq<Byte>): seq<Frame>
    decreases |data|
  {
    if data == [] then [] else Emitted(Step(p, data[0]).1) + Yield(Step(p, data[0]).0, data[1..])
  }

  lemma StepValid(p: Parser, b: Byte)
    requires p.Valid()
    ensures Step(p, b).0.Valid()
  {}

  lemma {:induction false} FeedValid(p: Parser, data: seq<Byte>)
    requires p.Valid()
    ensures Feed(p, data).Valid()
    decreases |data|
  {
    if data != [] {
      StepValid(p, data[0]);
      FeedValid(Step(p, data[0]).0, data[1..]);
    }
  }

  // ------------------------------------------------------------------ chunking

  /** A read boundary is invisible. */
  lemma {:induction false} FeedAppend(p: Parser, a: seq<Byte>, b: seq<Byte>)
    ensures Feed(p, a + b) == Feed(Feed(p, a), b)
    ensures Yield(p, a + b) == Yield(p, a) + Yield(Feed(p, a), b)
    decreases |a|
  {
    if a == [] {
      assert a + b == b;
    } else {
      assert (a + b)[1..] == a[1..] + b;
      FeedAppend(Step(p, a[0]).0, a[1..], b);
    }
  }

  function Join(chunks: seq<seq<Byte>>): seq<Byte> {
    if chunks == [] then [] else chunks[0] + Join(chunks[1..])
  }

  function FeedChunks(p: Parser, chunks: seq<seq<Byte>>): Parser
    decreases |chunks|
  {
    if chunks == [] then p else FeedChunks(Feed(p, chunks[0]), chunks[1..])
  }

  function YieldChunks(p: Parser, chunks: seq<seq<Byte>>): seq<Frame>
    decreases |chunks|
  {
    if chunks == [] then [] else Yield(p, chunks[0]) + YieldChunks(Feed(p, chunks[0]), chunks[1..])
  }

  /** However the serial layer fragments its reads, the result is the same. */
  lemma {:induction false} ChunkingInvisible(p: Parser, chunks: seq<seq<Byte>>)
    ensures FeedChunks(p, chunks) == Feed(p, Join(chunks))
    ensures YieldChunks(p, chunks) == Yield(p, Join(chunks))
    decreases |chunks|
  {
    if chunks != [] {
      ChunkingInvisible(Feed(p, chunks[0]), chunks[1..]);
      FeedAppend(p, chunks[0], Join(chunks[1..]));
    }
  }

  lemma FeedNil(p: Parser)
    ensures Feed(p, []) == p && Yield(p, []) == []
  {}

  lemma FeedDrop(p: Parser, data: seq<Byte>, i: nat)
    requires i < |data|
    ensures Feed(p, data[i..]) == Feed(Step(p, data[i]).0, data[i + 1..])
    ensures Yield(p, data[i..]) == Emitted(Step(p, data[i]).1) + Yield(Step(p, data[i]).0, data[i + 1..])
  {
    hide Of, Advance;
    assert data[i..][1..] == data[i + 1..];
  }

  // ------------------------------------------------- printed frames are parsed

  function Counted(p: Parser, n: nat): Stats {
    p.stats.(bytesIn := p.stats.bytesIn + n)
  }

  lemma FeedOne(p: Parser, b: Byte)
    ensures Feed(p, [b]) == Step(p, b).0 && Yield(p, [b]) == Emitted(Step(p, b).1)
  {
    assert [b][1..] == [];
    assert Emitted(Step(p, b).1) + [] == Emitted(Step(p, b).1);
  }

  lemma StepPayload(p: Parser, b: Byte)
    requires p.state == WaitPayload && |p.buf| < p.expected
    ensures Step(p, b).0 == p.(state := if |p.buf| + 1 == p.expected then WaitCrcLo else WaitPayload,
                               buf := p.buf + [b], stats := Counted(p, 1))
    ensures Step(p, b).1 == None
  {
    hide Of;
  }

  lemma FeedHeadFirst(p: Parser, data: seq<Byte>)
    requires data != []
    ensures Feed(p, data) == Feed(Step(p, data[0]).0, data[1..])
    ensures Yield(p, data) == Emitted(Step(p, data[0]).1) + Yield(Step(p, data[0]).0, data[1..])
  {
    hide Step;
  }

  lemma {:induction false} FeedPayload(p: Parser, data: seq<Byte>)
    requires p.state == WaitPayload && data != [] && |p.buf| + |data| == p.expected
    ensures Feed(p, data) == p.(state := WaitCrcLo, buf := p.buf + data, stats := Counted(p, |data|))
    ensures Yield(p, data) == []
    decreases |data|
  {
    hide Step, Feed, Yield;
    var b, rest := data[0], data[1..];
    var q := Step(p, b).0;
    StepPayload(p, b);
    FeedHeadFirst(p, data);
    if rest == [] {
      assert data == [b];
      FeedNil(q);
    } else {
      FeedPayload(q, rest);
      assert q.buf + rest == p.buf + data;
    }
  }

  function Header(kind: Byte, len: nat): seq<Byte>
    requires len < 0x10000
  {
    [0x7E] + Head(kind, len)
  }

  lemma FeedPair(p: Parser, a: Byte, b: Byte)
    requires Step(p, a).1.None?
    ensures Feed(p, [a, b]) == Step(Step(p, a).0, b).0
    ensures Yield(p, [a, b]) == Emitted(Step(Step(p, a).0, b).1)
  {
    assert [a, b] == [a] + [b];
    FeedAppend(p, [a], [b]);
    FeedOne(p, a);
    FeedOne(Step(p, a).0, b);
  }

  lemma FeedStart(p: Parser, kind: Byte)
    requires !p.InFrame() && KnownType(kind)
    ensures Feed(p, [0x7E, kind]) == p.(state := WaitLenLo, kind := kind, stats := Counted(p, 2))
    ensures Yield(p, [0x7E, kind]) == []
  {
    FeedPair(p, 0x7E, kind);
  }

  lemma FeedLength(p: Parser, len: nat)
    requires p.state == WaitLenLo && len <= MAX_PAYLOAD
    ensures Feed(p, Le16(len))
         == p.(state := if len == 0 then WaitCrcLo else WaitPayload, expected := len, buf := [], stats := Counted(p, 2))
    ensures Yield(p, Le16(len)) == []
  {
    FeedPair(p, len % 0x100, len / 0x100);
  }

  lemma FeedHeader(p: Parser, kind: Byte, len: nat)
    requires !p.InFrame() && KnownType(kind) && len <= MAX_PAYLOAD
    ensures Feed(p, Header(kind, len))
         == p.(state := if len == 0 then WaitCrcLo else WaitPayload, kind := kind, expected := len, buf := [],
               stats := Counted(p, 4))
    ensures Yield(p, Header(kind, len)) == []
  {
    assert Header(kind, len) == [0x7E, kind] + Le16(len);
    FeedStart(p, kind);
    FeedLength(Feed(p, [0x7E, kind]), len);
    FeedAppend(p, [0x7E, kind], Le16(len));
  }

  /** A well-formed header and payload leave the parser waiting for the checksum. */
  lemma FeedFront(p: Parser, kind: Byte, payload: seq<Byte>)
    requires !p.InFrame() && KnownType(kind) && |payload| <= MAX_PAYLOAD
    ensures Feed(p, Front(kind, payload))
         == p.(state := WaitCrcLo, kind := kind, expected := |payload|, buf := payload,
               stats := Counted(p, 4 + |payload|))
    ensures Yield(p, Front(kind, payload)) == []
  {
    hide Of, Step, Feed, Yield, Head;
    FeedHeader(p, kind, |payload|);
    FeedAppend(p, Header(kind, |payload|), payload);
    var q := Feed(p, Header(kind, |payload|));
    FeedNil(q);
    if payload != [] {
      FeedPayload(q, payload);
      assert q.buf + payload == payload;
    }
  }

  /** The parser after a whole frame whose checksum field reads `lo`, `hi`. */
  function AfterFrame(p: Parser, kind: Byte, payload: seq<Byte>, lo: Byte, hi: Byte): Parser
    requires |payload| <= MAX_PAYLOAD
  {
    var good := Checksum(kind, payload) == lo + (hi as nat) * 0x100;
    var s := Counted(p, |payload| + 6);
    Parser(WaitSof, kind, |payload|, payload, lo + (hi as nat) * 0x100,
           if good then s.(framesOk := s.framesOk + 1)
           else s.(crcErrors := s.crcErrors + 1, resyncs := s.resyncs + 1))
  }

  lemma FeedChecksum(p: Parser, lo: Byte, hi: Byte)
    requires p.state == WaitCrcLo && p.expected == |p.buf| <= MAX_PAYLOAD
    ensures var crc := lo + (hi as nat) * 0x100;
            var good := Checksum(p.kind, p.buf) == crc;
            var s := Counted(p, 2);
            && Feed(p, [lo, hi])
               == p.(state := WaitSof, crcRx := crc,
                     stats := if good then s.(framesOk := s.framesOk + 1)
                              else s.(crcErrors := s.crcErrors + 1, resyncs := s.resyncs + 1))
            && Yield(p, [lo, hi]) == if good then [Frame(p.kind, p.buf)] else []
  {
    hide Of, Head, Feed, Yield;
    FeedPair(p, lo, hi);
    assert Checksum(p.kind, p.buf) == Of(Head(p.kind, p.expected) + p.buf);
  }

  lemma FeedWhole(p: Parser, kind: Byte, payload: seq<Byte>, lo: Byte, hi: Byte)
    requires !p.InFrame() && KnownType(kind) && |payload| <= MAX_PAYLOAD
    ensures Feed(p, Front(kind, payload) + [lo, hi]) == AfterFrame(p, kind, payload, lo, hi)
    ensures Yield(p, Front(kind, payload) + [lo, hi])
         == if Checksum(kind, payload) == lo + (hi as nat) * 0x100 then [Frame(kind, payload)] else []
  {
    hide Of, Step, Feed, Yield, Front, Checksum;
    var front := Front(kind, payload);
    FeedFront(p, kind, payload);
    FeedChecksum(Feed(p, front), lo, hi);
    FeedAppend(p, front, [lo, hi]);
  }

  /** From a parser between frames, a printed frame is yielded, alone and unchanged. */
  lemma FrameParsed(p: Parser, f: Frame)
    requires !p.InFrame() && Legal(f)
    ensures Yield(p, Encode(f)) == [f]
    ensures !Feed(p, Encode(f)).InFrame()
    ensures Feed(p, Encode(f)).stats
         == Counted(p, |Encode(f)|).(framesOk := p.stats.framesOk + 1)
  {
    var crc := Checksum(f.kind, f.payload);
    FeedWhole(p, f.kind, f.payload, crc % 0x100, crc / 0x100);
  }

  lemma {:induction false} FeedNoise(p: Parser, noise: seq<Byte>)
    requires !p.InFrame() && 0x7E !in noise
    ensures Feed(p, noise) == p.(stats := Counted(p, |noise|))
    ensures Yield(p, noise) == []
    decreases |noise|
  {
    if noise != [] {
      FeedNoise(Step(p, noise[0]).0, noise[1..]);
    }
  }

  ghost predicate AllLegal(frames: seq<Frame>) {
    forall i | 0 <= i < |frames| :: Legal(frames[i])
  }

  /** Noise, frame, noise, frame, ..., noise. */
  ghost function Interleave(noise: seq<seq<Byte>>, frames: seq<Frame>): seq<Byte>
    requires |noise| == |frames| + 1 && AllLegal(frames)
    decreases |frames|
  {
    if frames == [] then noise[0]
    else noise[0] + (Encode(frames[0]) + Interleave(noise[1..], frames[1..]))
  }

  /** Frames separated by noise free of the start byte are yielded exactly and in
      order, no error counter moves, and the parser ends between frames. */
  lemma {:induction false} StreamParsed(p: Parser, noise: seq<seq<Byte>>, frames: seq<Frame>)
    requires !p.InFrame() && |noise| == |frames| + 1 && AllLegal(frames)
    requires forall i | 0 <= i < |noise| :: 0x7E !in noise[i]
    ensures Yield(p, Interleave(noise, frames)) == frames
    ensures !Feed(p, Interleave(noise, frames)).InFrame()
    ensures Feed(p, Interleave(noise, frames)).stats
         == Counted(p, |Interleave(noise, frames)|).(framesOk := p.stats.framesOk + |frames|)
    decreases |frames|
  {
    hide Feed, Yield, Encode;
    FeedNoise(p, noise[0]);
    if frames != [] {
      var rest := Interleave(noise[1..], frames[1..]);
      var p1 := Feed(p, noise[0]);
      FrameParsed(p1, frames[0]);
      var p2 := Feed(p1, Encode(frames[0]));
      StreamParsed(p2, noise[1..], frames[1..]);
      FeedAppend(p1, Encode(frames[0]), rest);
      FeedAppend(p, noise[0], Encode(frames[0]) + rest);
    }
  }

  /** The six bytes of a ping. */
  lemma PingOnTheWire()
    ensures Encode(Frame(0x50, [])) == [0x7E, 0x50, 0x00, 0x00, 0x52, 0x92]
  {
    hide Of;
    var b: seq<Byte> := [0x7E, 0x50, 0x00, 0x00, 0x52, 0x92];
    assert b[1..4] == [0x50, 0, 0];
    PingChecksum(b[1..4]);
    SealedIff(b, Frame(0x50, []));
  }

  // ------------------------------------------- what is yielded was in the stream

  /** `parts` occur in `s` as disjoint contiguous substrings, in order. */
  ghost predicate Occur(s: seq<Byte>, parts: seq<seq<Byte>>)
    decreases |parts|
  {
    parts == [] || exists i: nat :: OccurAt(s, parts, i)
  }

  ghost predicate OccurAt(s: seq<Byte>, parts: seq<seq<Byte>>, i: nat)
    requires parts != []
    decreases |parts|, 0
  {
    i + |parts[0]| <= |s| && s[i..][..|parts[0]|] == parts[0] && Occur(s[i..][|parts[0]|..], parts[1..])
  }

  lemma OccurLater(lead: seq<Byte>, s: seq<Byte>, parts: seq<seq<Byte>>)
    requires Occur(s, parts)
    ensures Occur(lead + s, parts)
  {
    if parts != [] {
      var i: nat :| OccurAt(s, parts, i);
      assert (lead + s)[|lead| + i..] == s[i..];
      assert OccurAt(lead + s, parts, |lead| + i);
    }
  }

  lemma OccurHere(part: seq<Byte>, s: seq<Byte>, parts: seq<seq<Byte>>)
    requires Occur(s, parts)
    ensures Occur(part + s, [part] + parts)
  {
    var t, all := part + s, [part] + parts;
    assert t[0..] == t && t[..|part|] == part && t[|part|..] == s && all[1..] == parts;
    assert OccurAt(t, all, 0);
  }

  lemma OccurNone(s: seq<Byte>)
    ensures Occur(s, [])
  {}

  ghost function Encodings(frames: seq<Frame>): seq<seq<Byte>>
    requires AllLegal(frames)
  {
    if frames == [] then [] else [Encode(frames[0])] + Encodings(frames[1..])
  }

  /** What one step does to the frame in progress: it grows by the byte, or it is
      dropped, or it is exactly the frame yielded. */
  lemma StepHeld(p: Parser, b: Byte)
    requires p.Valid()
    ensures Step(p, b).0.Valid()
    ensures var (q, f) := Step(p, b);
            match f
            case Some(x) => Legal(x) && p.Held() + [b] == Encode(x) && q.Held() == []
            case None => q.Held() == p.Held() + [b] || q.Held() == []
  {
    hide Of;
    var (q, f) := Step(p, b);
    if f.Some? {
      var crc := p.crcRx + (b as nat) * 0x100;
      assert Le16(crc) == [p.crcRx, b];
    } else if p.state == WaitPayload {
      assert q.Held() == p.Held() + [b];
    } else if p.state == WaitLenHi && q.InFrame() {
      assert q.Held() == p.Held() + [b];
    }
  }

  /** Whatever the stream, every yielded frame is legal and was printed in it,
      and the printed frames do not overlap. */
  lemma {:induction false} YieldedWasPrinted(p: Parser, data: seq<Byte>)
    requires p.Valid()
    ensures AllLegal(Yield(p, data))
    ensures Occur(p.Held() + data, Encodings(Yield(p, data)))
    decreases |data|
  {
    hide Step, Encode, Encodings, Occur, Legal, Yield, Parser.Held, Parser.Valid;
    YieldNone(p);
    if data == [] {
      OccurNone(p.Held() + data);
    } else {
      var b, rest := data[0], data[1..];
      var q, f := Step(p, b).0, Step(p, b).1;
      StepHeld(p, b);
      YieldedWasPrinted(q, rest);
      var lead, later := p.Held() + [b], Yield(q, rest);
      assert p.Held() + data == lead + rest;
      YieldStep(p, data);
      if f.Some? {
        assert q.Held() + rest == rest;
        EncodingsCons(f.value, later);
        OccurHere(lead, rest, Encodings(later));
      } else if q.Held() == [] {
        assert q.Held() + rest == rest;
        OccurLater(lead, rest, Encodings(later));
      }
    }
  }

  lemma YieldNone(p: Parser)
    ensures Yield(p, []) == [] && Encodings([]) == []
  {}

  lemma YieldStep(p: Parser, data: seq<Byte>)
    requires data != []
    ensures var s := Step(p, data[0]);
            Yield(p, data) == if s.1.Some? then [s.1.value] + Yield(s.0, data[1..]) else Yield(s.0, data[1..])
  {
    hide Step;
  }

  lemma EncodingsCons(f: Frame, later: seq<Frame>)
    requires Legal(f) && AllLegal(later)
    ensures AllLegal([f] + later) && Encodings([f] + later) == [Encode(f)] + Encodings(later)
  {
    hide Encode;
    assert ([f] + later)[1..] == later;
  }

  /** From power-up, the frames parsed from any bytes are printed in those bytes. */
  lemma FreshYieldedWasPrinted(data: seq<Byte>)
    ensures AllLegal(Yield(Fresh(), data))
    ensures Occur(data, Encodings(Yield(Fresh(), data)))
  {
    YieldedWasPrinted(Fresh(), data);
    assert Fresh().Held() + data == data;
  }

  /** So each yielded frame stands sealed in the bytes received. */
  lemma YieldedWasSealed(p: Parser, data: seq<Byte>, k: nat) returns (i: nat)
    requires p.Valid() && k < |Yield(p, data)|
    ensures var s, n := p.Held() + data, |Yield(p, data)[k].payload| + 6;
            i + n <= |s| && Sealed(s[i..i + n], Yield(p, data)[k])
  {
    hide Sealed, Encode, Yield, Encodings, Occur;
    YieldedWasPrinted(p, data);
    var s, fs := p.Held() + data, Yield(p, data);
    EncodingAt(fs, k);
    i := OccurMember(s, Encodings(fs), k);
    assert s[i..][..|Encode(fs[k])|] == s[i..i + |Encode(fs[k])|];
    SealedIff(Encode(fs[k]), fs[k]);
  }

  lemma {:induction false} EncodingAt(fs: seq<Frame>, k: nat)
    requires AllLegal(fs) && k < |fs|
    ensures k < |Encodings(fs)| && Encodings(fs)[k] == Encode(fs[k])
  {
    hide Encode;
    if k > 0 {
      EncodingAt(fs[1..], k - 1);
    }
  }

  lemma {:induction false} OccurMember(s: seq<Byte>, parts: seq<seq<Byte>>, k: nat) returns (i: nat)
    requires Occur(s, parts) && k < |parts|
    ensures i + |parts[k]| <= |s| && s[i..][..|parts[k]|] == parts[k]
    decreases k
  {
    var at: nat :| OccurAt(s, parts, at);
    if k == 0 {
      i := at;
    } else {
      var past := at + |parts[0]|;
      var j := OccurMember(s[at..][|parts[0]|..], parts[1..], k - 1);
      i := past + j;
      assert s[at..][|parts[0]|..] == s[past..];
      assert s[past..][j..] == s[i..];
    }
  }

  // ---------------------------------------------------------------- corruption

  /** No frame, one crc error, one resync, and nothing else but the byte count. */
  predicate Dropped(p: Parser, data: seq<Byte>) {
    && Yield(p, data) == []
    && !Feed(p, data).InFrame()
    && Feed(p, data).stats == Counted(p, |data|).(crcErrors := p.stats.crcErrors + 1, resyncs := p.stats.resyncs + 1)
  }

  lemma DroppedIff(p: Parser, kind: Byte, q: seq<Byte>, lo: Byte, hi: Byte)
    requires !p.InFrame() && KnownType(kind) && |q| <= MAX_PAYLOAD
    ensures Dropped(p, Front(kind, q) + [lo, hi]) <==> Checksum(kind, q) != lo + (hi as nat) * 0x100
  {
    FeedWhole(p, kind, q, lo, hi);
  }

  /** Bytes shaped like one frame: a known type, and the length they really have. */
  predicate FrameShaped(r: seq<Byte>) {
    && 6 <= |r| <= MAX_PAYLOAD + 6
    && r[0] == 0x7E && KnownType(r[1]) && r[2] + (r[3] as nat) * 0x100 == |r| - 6
  }

  /** The sixteen bits at the end agree with the checksum of all between them and the start byte. */
  predicate Agrees(r: seq<Byte>)
    requires |r| >= 6
  {
    Of(r[1..|r| - 2]) == r[|r| - 2] + (r[|r| - 1] as nat) * 0x100
  }

  /** Bytes shaped like a frame are yielded as that frame if their checksum agrees, and
      otherwise dropped and counted once. */
  lemma WholeFrameIff(p: Parser, r: seq<Byte>)
    requires !p.InFrame() && FrameShaped(r)
    ensures Yield(p, r) == if Agrees(r) then [Frame(r[1], r[4..|r| - 2])] else []
    ensures Dropped(p, r) <==> !Agrees(r)
  {
    hide Of, Feed, Yield, Dropped;
    var q, lo, hi := r[4..|r| - 2], r[|r| - 2], r[|r| - 1];
    assert Le16(|q|) == [r[2], r[3]];
    assert r == Front(r[1], q) + [lo, hi];
    assert r[1..|r| - 2] == Head(r[1], |q|) + q;
    FeedWhole(p, r[1], q, lo, hi);
    DroppedIff(p, r[1], q, lo, hi);
  }

  /** A frame damaged in transit, its start byte and length intact, its type still a known one. */
  predicate Damaged(f: Frame, r: seq<Byte>)
    requires Legal(f)
  {
    var s := Encode(f);
    |r| == |s| && r[0] == s[0] && KnownType(r[1]) && r[2..4] == s[2..4]
  }

  lemma DamagedShape(f: Frame, r: seq<Byte>)
    requires Legal(f) && Damaged(f, r)
    ensures var s, n := Encode(f), |f.payload| + 6;
            && |r| == |s| == n && FrameShaped(r) && Agrees(s)
            && s[n - 2] == Of(s[1..n - 2]) % 0x100 && s[n - 1] == Of(s[1..n - 2]) / 0x100
  {
    hide Of, Encode;
    var s, n := Encode(f), |f.payload| + 6;
    SealedIff(s, f);
    assert r[2] == r[2..4][0] && r[3] == r[2..4][1] && s[2] == s[2..4][0] && s[3] == s[2..4][1];
    assert s[n - 2] == Of(s[1..n - 2]) % 0x100 && s[n - 1] == Of(s[1..n - 2]) / 0x100;
  }

  /** Any odd number of flips, in the type, the payload or the checksum, drops the frame. */
  lemma OddFlipsDropped(p: Parser, f: Frame, r: seq<Byte>)
    requires !p.InFrame() && Legal(f) && Damaged(f, r)
    requires Weight(PayloadDiff(Encode(f), r)) % 2 == 1
    ensures Dropped(p, r)
  {
    hide Of, Encode, Dropped, PayloadDiff, CrcDiff, Weight, FrameShaped;
    DamagedShape(f, r);
    var s, n := Encode(f), |r|;
    var m, m' := s[1..n - 2], r[1..n - 2];
    FlipsSplit(s, r);
    FieldWeight(Of(m), r[n - 2], r[n - 1]);
    OfIsRemainder(m);
    assert [] + m == m && [] + m' == m';
    OddFlipsDetected([], m, m', r[n - 2] + (r[n - 1] as nat) * 0x100);
    WholeFrameIff(p, r);
  }

  /** Flips with the start byte intact are flips in what the checksum covers and in the checksum. */
  lemma FlipsSplit(s: seq<Byte>, r: seq<Byte>)
    requires |s| == |r| >= 3 && s[0] == r[0]
    ensures var n := |s|;
            Weight(PayloadDiff(s, r)) == Weight(PayloadDiff(s[1..n - 2], r[1..n - 2]))
                                         + Weight(PayloadDiff([s[n - 2], s[n - 1]], [r[n - 2], r[n - 1]]))
  {
    hide PayloadDiff, Weight;
    var n := |s|;
    assert s == [s[0]] + s[1..n - 2] + [s[n - 2], s[n - 1]];
    assert r == [s[0]] + r[1..n - 2] + [r[n - 2], r[n - 1]];
    DiffAppend([s[0]] + s[1..n - 2], [s[n - 2], s[n - 1]], [s[0]] + r[1..n - 2], [r[n - 2], r[n - 1]]);
    DiffAppend([s[0]], s[1..n - 2], [s[0]], r[1..n - 2]);
    NoDiff([s[0]]);
    WeightAppend(PayloadDiff([s[0]], [s[0]]) + PayloadDiff(s[1..n - 2], r[1..n - 2]),
                 PayloadDiff([s[n - 2], s[n - 1]], [r[n - 2], r[n - 1]]));
    WeightAppend(PayloadDiff([s[0]], [s[0]]), PayloadDiff(s[1..n - 2], r[1..n - 2]));
    WeightZero(8);
  }

  lemma NoDiff(a: seq<Byte>)
    ensures PayloadDiff(a, a) == Zero(8 * |a|)
  {
    AddSelf(Message(a));
  }

  /** With the checksum field intact, a frame whose covered bytes have another checksum is dropped. */
  lemma CoveredDamageDropped(p: Parser, f: Frame, r: seq<Byte>)
    requires !p.InFrame() && Legal(f) && Damaged(f, r)
    requires r[|r| - 2..] == Encode(f)[|r| - 2..]
    requires Of(r[1..|r| - 2]) != Of(Encode(f)[1..|r| - 2])
    ensures Dropped(p, r)
  {
    hide Of, Encode, Dropped;
    DamagedShape(f, r);
    var s, n := Encode(f), |r|;
    assert r[n - 2] == r[n - 2..][0] && r[n - 1] == r[n - 2..][1];
    assert s[n - 2] == s[n - 2..][0] && s[n - 1] == s[n - 2..][1];
    WholeFrameIff(p, r);
  }

  /** Any burst of at most sixteen bits in what the checksum covers, the type included, at
      any alignment, drops the frame. */
  lemma BurstDropped(p: Parser, f: Frame, r: seq<Byte>, start: nat, burst: Bits)
    requires !p.InFrame() && Legal(f) && Damaged(f, r)
    requires r[|r| - 2..] == Encode(f)[|r| - 2..]
    requires IsBurst(PayloadDiff(Encode(f)[1..|r| - 2], r[1..|r| - 2]), start, burst)
    ensures Dropped(p, r)
  {
    hide Of, Encode, Dropped, IsBurst, PayloadDiff;
    var m, m' := Encode(f)[1..|r| - 2], r[1..|r| - 2];
    assert [] + m == m && [] + m' == m';
    BurstDetected([], m, m', start, burst);
    CoveredDamageDropped(p, f, r);
  }

  /** Any change confined to two adjacent bytes of it drops the frame. */
  lemma AdjacentBytesDropped(p: Parser, f: Frame, r: seq<Byte>, k: nat)
    requires !p.InFrame() && Legal(f) && Damaged(f, r) && 1 <= k && k + 1 < |r| - 2
    requires r != Encode(f) && forall i | 0 <= i < |r| && i != k && i != k + 1 :: Encode(f)[i] == r[i]
    ensures Dropped(p, r)
  {
    hide Of, Encode, Dropped;
    var m, m' := Encode(f)[1..|r| - 2], r[1..|r| - 2];
    DamageCovered(Encode(f), r, k);
    assert [] + m == m && [] + m' == m';
    AdjacentBytesDetected([], m, m', k - 1);
    CoveredDamageDropped(p, f, r);
  }

  lemma DamageCovered(s: seq<Byte>, r: seq<Byte>, k: nat)
    requires |s| == |r| && 1 <= k && k + 1 < |r| - 2 && s != r
    requires forall i | 0 <= i < |r| && i != k && i != k + 1 :: s[i] == r[i]
    ensures var m, m' := s[1..|r| - 2], r[1..|r| - 2];
            m != m' && forall i | 0 <= i < |m| && i != k - 1 && i != k :: m[i] == m'[i]
    ensures s[|r| - 2..] == r[|r| - 2..]
  {
    var i := if s[k] == r[k] then k + 1 else k;
    assert s[i] != r[i];
    assert s[1..|r| - 2][i - 1] == s[i] && r[1..|r| - 2][i - 1] == r[i];
  }

  /** A frame taken for one of another type is dropped. */
  lemma TypeDamageDropped(p: Parser, f: Frame, kind: Byte)
    requires !p.InFrame() && Legal(f) && KnownType(kind) && kind != f.kind
    ensures Dropped(p, Encode(f)[1 := kind])
  {
    hide Of, Dropped, Encode;
    var s := Encode(f);
    EncodeParts(f);
    assert s[1 := kind][2..4] == s[2..4];
    AdjacentBytesDropped(p, f, s[1 := kind], 1);
  }

  /** Damage to the last payload byte and the first checksum byte drops the frame unless
      it is none, or 0x89 in the one and 0xA1 in the other; then the parser yields the
      damaged frame as if it had been sent. */
  lemma BoundaryDamageDroppedIff(p: Parser, f: Frame, pre: seq<Byte>, b: Byte, c: Byte, lo: Byte, lo': Byte, hi: Byte)
    requires !p.InFrame() && Legal(f) && f.payload == pre + [b]
    requires Le16(Checksum(f.kind, f.payload)) == [lo, hi]
    ensures Dropped(p, Front(f.kind, pre + [c]) + [lo', hi]) <==> !Blind(Xor(b, c), Xor(lo, lo'))
    ensures Yield(p, Front(f.kind, pre + [c]) + [lo', hi])
         == if Blind(Xor(b, c), Xor(lo, lo')) then [Frame(f.kind, pre + [c])] else []
  {
    hide Blind, Xor, Of, Feed, Yield, Front, Dropped;
    var q := pre + [c];
    var crc := Checksum(f.kind, f.payload);
    assert crc == lo + (hi as nat) * 0x100;
    assert crc == Of(Head(f.kind, |q|) + f.payload) && Checksum(f.kind, q) == Of(Head(f.kind, |q|) + q);
    BoundaryDamageIff(Head(f.kind, |q|), pre, b, c, lo, lo', hi);
    DroppedIff(p, f.kind, q, lo', hi);
    FeedWhole(p, f.kind, q, lo', hi);
  }

  // -------------------------------------------------- accounting and recovery

  /** A frame is yielded by its last byte, not before. */
  lemma LastByteCompletes(p: Parser, f: Frame)
    requires !p.InFrame() && Legal(f)
    ensures var b := Encode(f);
            var n := |b| - 1;
            && Yield(p, b[..n]) == [] && Yield(Feed(p, b[..n]), b[n..]) == [f]
  {
    hide Step, Yield, Feed, Front, Checksum;
    var b, front := Encode(f), Front(f.kind, f.payload);
    var lo := Le16(Checksum(f.kind, f.payload))[0];
    assert b[..|b| - 1] == front + [lo] && b == b[..|b| - 1] + b[|b| - 1..];
    FeedFront(p, f.kind, f.payload);
    FeedAppend(p, front, [lo]);
    FeedOne(Feed(p, front), lo);
    NoFrameYet(Feed(p, front), lo);
    FrameParsed(p, f);
    FeedAppend(p, b[..|b| - 1], b[|b| - 1..]);
  }

  lemma NoFrameYet(p: Parser, lo: Byte)
    requires p.state == WaitCrcLo
    ensures Step(p, lo).1.None?
  {}

  /** What reaches a parser: bytes, and idle timeouts between them. */
  datatype Event = Received(b: Byte) | Idle

  function React(p: Parser, e: Event): Parser {
    match e
    case Received(b) => Step(p, b).0
    case Idle => p.Timeout()
  }

  function History(p: Parser, es: seq<Event>): Parser
    decreases |es|
  {
    if es == [] then p else History(React(p, es[0]), es[1..])
  }

  function IsSof(p: Parser, e: Event): nat {
    if e == Received(0x7E) && !p.InFrame() then 1 else 0
  }

  /** Start bytes taken as frame starts along a history. */
  function SofsAccepted(p: Parser, es: seq<Event>): nat
    decreases |es|
  {
    if es == [] then 0 else IsSof(p, es[0]) + SofsAccepted(React(p, es[0]), es[1..])
  }

  function Open(p: Parser): nat {
    if p.InFrame() then 1 else 0
  }

  function Settled(s: Stats): nat {
    s.framesOk + s.resyncs + s.timeouts
  }

  lemma {:induction false} SofsBalance(p: Parser, es: seq<Event>)
    ensures var q := History(p, es);
            SofsAccepted(p, es) + Settled(p.stats) + Open(p) == Settled(q.stats) + Open(q)
    decreases |es|
  {
    hide Of, Accepts;
    if es != [] {
      SofsBalance(React(p, es[0]), es[1..]);
    }
  }

  /** Every start byte accepted since power-up ended as a frame, a resync or a
      timeout, except the one still open. */
  lemma FreshSofsBalance(es: seq<Event>)
    ensures var q := History(Fresh(), es);
            SofsAccepted(Fresh(), es) == q.stats.framesOk + q.stats.resyncs + q.stats.timeouts + Open(q)
  {
    SofsBalance(Fresh(), es);
  }

  /** Length and checksum errors are resyncs. */
  lemma {:induction false} ErrorsAreResyncs(p: Parser, es: seq<Event>)
    requires p.stats.crcErrors + p.stats.lenErrors <= p.stats.resyncs
    ensures var s := History(p, es).stats; s.crcErrors + s.lenErrors <= s.resyncs
    decreases |es|
  {
    if es != [] {
      ErrorsAreResyncs(React(p, es[0]), es[1..]);
    }
  }

  /** The most bytes the frame in progress can still take. */
  function Remaining(p: Parser): nat
    requires p.Valid()
  {
    match p.state
    case WaitSof => 0
    case WaitType => 261
    case WaitLenLo => 260
    case WaitLenHi => 259
    case WaitPayload => p.expected - |p.buf| + 2
    case WaitCrcLo => 2
    case WaitCrcHi => 1
  }

  lemma StepRemaining(p: Parser, b: Byte)
    requires p.Valid() && p.InFrame()
    ensures Step(p, b).0.Valid() && Remaining(Step(p, b).0) < Remaining(p)
  {
    hide Of;
  }

  lemma {:induction false} BackWithin(p: Parser, data: seq<Byte>) returns (i: nat)
    requires p.Valid() && |data| >= Remaining(p)
    ensures i <= Remaining(p) && !Feed(p, data[..i]).InFrame()
    decreases |data|
  {
    i := 0;
    if p.InFrame() {
      StepRemaining(p, data[0]);
      var q := Step(p, data[0]).0;
      var j := BackWithin(q, data[1..]);
      i := j + 1;
      assert data[..i][0] == data[0] && data[..i][1..] == data[1..][..j];
    }
  }

  /** Within 261 bytes of a start byte, whatever they are, the parser is between frames again. */
  lemma BackWithin261(p: Parser, data: seq<Byte>)
    requires p.Valid() && |data| >= 261
    ensures exists i: nat :: i <= 261 && !Feed(p, data[..i]).InFrame()
  {
    assert Remaining(p) <= 261;
    var i := BackWithin(p, data);
    assert !Feed(p, data[..i]).InFrame();
  }

  /** 261 is attained: a start byte, an unsupported length, or a full-size frame. */
  lemma BoundIsTight(p: Parser, payload: seq<Byte>, lo: Byte)
    requires !p.InFrame() && |payload| == MAX_PAYLOAD
    ensures var sent := Front(0x78, payload) + [lo];
            |sent| == 1 + 260 && Feed(p, sent).InFrame()
  {
    FeedFront(p, 0x78, payload);
    FeedAppend(p, Front(0x78, payload), [lo]);
    FeedOne(Feed(p, Front(0x78, payload)), lo);
  }

  /** After an idle reset the next intact frame is parsed, whatever came before. */
  lemma ParsedAfterTimeout(p: Parser, f: Frame)
    requires Legal(f)
    ensures Yield(p.Timeout(), Encode(f)) == [f]
  {
    FrameParsed(p.Timeout(), f);
  }

  // ---------------------------------------------------------------- the object

  /** The parser object of the serial layer. */
  class FrameParser {
    var state: State
    var kind: Byte
    var expected: nat
    var buf: seq<Byte>
    var crcRx: nat
    var stats: Stats

    function Value(): Parser
      reads this
    {
      Parser(state, kind, expected, buf, crcRx, stats)
    }

    constructor ()
      ensures Value() == Fresh()
    {
      stats := Stats(0, 0, 0, 0, 0, 0);
      state, kind, expected, buf, crcRx := WaitSof, 0, 0, [], 0;
    }

    method Timeout()
      modifies this
      ensures Value() == old(Value()).Timeout()
    {
      if state != WaitSof {
        stats := stats.(timeouts := stats.timeouts + 1);
        state, kind, expected, buf, crcRx := WaitSof, 0, 0, [], 0;
      }
    }

    method OneByte(b: Byte) returns (frame: Option<Frame>)
      requires Value().Valid()
      modifies this
      ensures Value().Valid()
      ensures (Value(), frame) == Advance(old(Value()), b)
    {
      hide Of;
      frame := None;
      match state {
        case WaitSof =>
          if b == 0x7E {
            state := WaitType;
          }
        case WaitType =>
          if KnownType(b) {
            kind := b;
            state := WaitLenLo;
          } else {
            stats := stats.(resyncs := stats.resyncs + 1);
            state := WaitSof;
          }
        case WaitLenLo =>
          expected := b;
          state := WaitLenHi;
        case WaitLenHi =>
          expected := expected + (b as nat) * 0x100;
          if expected > MAX_PAYLOAD {
            stats := stats.(lenErrors := stats.lenErrors + 1);
            stats := stats.(resyncs := stats.resyncs + 1);
            state := WaitSof;
          } else {
            buf := [];
            state := if expected == 0 then WaitCrcLo else WaitPayload;
          }
        case WaitPayload =>
          buf := buf + [b];
          if |buf| >= expected {
            state := WaitCrcLo;
          }
        case WaitCrcLo =>
          crcRx := b;
          state := WaitCrcHi;
        case WaitCrcHi =>
          crcRx := crcRx + (b as nat) * 0x100;
          state := WaitSof;
          var good := ChecksumMatches(kind, expected, buf, crcRx);
          if good {
            stats := stats.(framesOk := stats.framesOk + 1);
            frame := Some(Frame(kind, buf));
          } else {
            stats := stats.(crcErrors := stats.crcErrors + 1);
            stats := stats.(resyncs := stats.resyncs + 1);
          }
      }
    }

    method Consume(data: seq<Byte>) returns (frames: seq<Frame>)
      requires Value().Valid()
      modifies this
      ensures Value().Valid()
      ensures Value() == Feed(old(Value()), data) && frames == Yield(old(Value()), data)
    {
      hide Of, Advance, Feed, Yield;
      frames := [];
      assert data[0..] == data;
      for i := 0 to |data|
        invariant Value().Valid()
        invariant Feed(Value(), data[i..]) == Feed(old(Value()), data)
        invariant frames + Yield(Value(), data[i..]) == Yield(old(Value()), data)
      {
        FeedDrop(Value(), data, i);
        stats := stats.(bytesIn := stats.bytesIn + 1);
        var f := OneByte(data[i]);
        frames := frames + match f case None => [] case Some(x) => [x];
      }
      assert data[|data|..] == [] && frames + [] == frames;
      FeedNil(Value());
    }
  }
}
