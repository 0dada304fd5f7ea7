/** The binary run log: rows of float64 words, buffered, appended in batches, and
    recovered from whatever part of the file survives.
  */
module RunLog {
  import opened Crc
  import opened Gf2
  import S = StateCodec
  import opened Options

  /** A float64, as its 64 bits. */
  type Word = nat

  const ZERO: Word := 0
  const ONE: Word := 0x3FF0_0000_0000_0000

  /** Bytes per column. */
  const ITEM: nat := 8

  predicate IsWord(w: Word) {
    S.FitsUnsigned(w, ITEM)
  }

  predicate AreWords(ws: seq<Word>) {
    forall i | 0 <= i < |ws| :: IsWord(ws[i])
  }

  datatype Meta = Meta(neighbors: seq<nat>, dim: nat, stateColumns: seq<string>, timingColumns: seq<string>)

  // -------------------------------------------------------------------- layout of a row

  function Width(n: nat, nState: nat, nTiming: nat, dim: nat): nat {
    2 + nTiming + nState + (3 + dim) * n
  }

  function Columns(m: Meta): (c: nat)
    ensures c > 0
  {
    Width(|m.neighbors|, |m.stateColumns|, |m.timingColumns|, m.dim)
  }

  /** The first n blocks of a row, or of the column names, one block per neighbour. */
  function Blocks<T>(block: nat -> seq<T>, n: nat): seq<T> {
    if n == 0 then [] else Blocks(block, n - 1) + block(n - 1)
  }

  lemma {:induction false} BlocksAt<T>(block: nat -> seq<T>, n: nat, w: nat, i: nat, j: nat)
    requires forall k: nat | k < n :: |block(k)| == w
    requires i < n && j < w
    ensures |Blocks(block, n)| == w * n && w * i + j < w * n
    ensures Blocks(block, n)[w * i + j] == block(i)[j]
    decreases n
  {
    BlocksLength(block, n - 1, w);
    assert w * n == w * (n - 1) + w;
    if i < n - 1 {
      BlocksAt(block, n - 1, w, i, j);
    }
  }

  lemma {:induction false} BlocksLength<T>(block: nat -> seq<T>, n: nat, w: nat)
    requires forall k: nat | k < n :: |block(k)| == w
    ensures |Blocks(block, n)| == w * n
  {
    if n > 0 {
      BlocksLength(block, n - 1, w);
      assert w * n == w * (n - 1) + w;
    }
  }

  /** What one control step hands to the log; numbers are already words. */
  datatype Sample = Sample(t: Word, deviceT: Option<Word>, timing: seq<Word>, channels: seq<Word>,
                           vstates: seq<Word>, recent: seq<bool>, seqs: seq<Word>, rssi: seq<Word>)

  function WordAt(ws: seq<Word>, i: nat): Word {
    if i < |ws| then ws[i] else ZERO
  }

  function FlagAt(bs: seq<bool>, i: nat): Word {
    if i < |bs| && bs[i] then ONE else ZERO
  }

  /** Neighbour i's values, arrival flag, sequence number and signal strength. */
  function NeighborCells(dim: nat, s: Sample, i: nat): (cells: seq<Word>)
    ensures |cells| == dim + 3
  {
    var values := seq<Word>(dim, c requires 0 <= c < dim => WordAt(s.vstates, i * dim + c));
    var link: seq<Word> := [FlagAt(s.recent, i), WordAt(s.seqs, i), WordAt(s.rssi, i)];
    values + link
  }

  function RowBlock(dim: nat, s: Sample): nat -> seq<Word> {
    (i: nat) => NeighborCells(dim, s, i)
  }

  function Row(m: Meta, s: Sample): seq<Word> {
    [s.t, if s.deviceT.None? then s.t else s.deviceT.value] + s.timing + s.channels
    + Blocks(RowBlock(m.dim, s), |m.neighbors|)
  }

  predicate Fits(m: Meta, s: Sample) {
    |s.timing| == |m.timingColumns| && |s.channels| == |m.stateColumns|
  }

  lemma RowWidth(m: Meta, s: Sample)
    requires Fits(m, s)
    ensures |Row(m, s)| == Columns(m)
  {
    BlocksLength(RowBlock(m.dim, s), |m.neighbors|, m.dim + 3);
  }

  // ---------------------------------------------------------------------- column names

  function Digits(n: nat): string {
    if n < 10 then [('0' as int + n) as char] else Digits(n / 10) + [('0' as int + n % 10) as char]
  }

  /** One name per coordinate; only two suffixes exist. */
  function CoordNames(nid: nat, dim: nat): seq<string> {
    if dim == 1 then [Digits(nid)]
    else if dim == 0 then []
    else [Digits(nid) + "_P", Digits(nid) + "_Q"]
  }

  function NameBlock(m: Meta): nat -> seq<string> {
    (i: nat) =>
      if i < |m.neighbors|
      then CoordNames(m.neighbors[i], m.dim)
           + ["rx_" + Digits(m.neighbors[i]), "seq_" + Digits(m.neighbors[i]), "rssi_" + Digits(m.neighbors[i])]
      else []
  }

  function ColumnNames(m: Meta): seq<string> {
    ["timestamp", "device_timestamp"] + m.timingColumns + m.stateColumns + Blocks(NameBlock(m), |m.neighbors|)
  }

  /** There is one name per column exactly when there are no neighbours or at most two coordinates. */
  lemma NamesMatchWidthIff(m: Meta)
    ensures |ColumnNames(m)| == Columns(m) <==> |m.neighbors| == 0 || m.dim <= 2
  {
    hide Blocks, Digits;
    NamesLength(m);
    WidthsDiffer(m.dim, |m.neighbors|);
  }

  function NameWidth(dim: nat): nat {
    3 + if dim <= 2 then dim else 2
  }

  lemma NamesLength(m: Meta)
    ensures |ColumnNames(m)| == 2 + |m.timingColumns| + |m.stateColumns| + NameWidth(m.dim) * |m.neighbors|
  {
    hide Digits;
    BlocksLength(NameBlock(m), |m.neighbors|, NameWidth(m.dim));
  }

  lemma WidthsDiffer(dim: nat, n: nat)
    ensures NameWidth(dim) * n == (3 + dim) * n <==> n == 0 || dim <= 2
  {
    if dim > 2 && n > 0 {
      assert (3 + dim) * n - NameWidth(dim) * n == (dim - 2) * n;
      assert (dim - 2) * n > 0;
    }
  }

  // ---------------------------------------------------------------------- bytes of a row

  function Pack(row: seq<Word>): (b: seq<Byte>)
    ensures |b| == ITEM * |row|
  {
    if row == [] then [] else S.Le(row[0], ITEM) + Pack(row[1..])
  }

  function Unpack(b: seq<Byte>, n: nat): (row: seq<Word>)
    requires |b| >= ITEM * n
    ensures |row| == n
    decreases n
  {
    if n == 0 then [] else [S.Number(b[..ITEM])] + Unpack(b[ITEM..], n - 1)
  }

  lemma WordRoundTrip(w: Word)
    requires IsWord(w)
    ensures S.Number(S.Le(w, ITEM)) == w
  {
    hide Pow2, S.Le, S.Number;
    S.NumberLe(w, ITEM);
  }

  lemma {:induction false} UnpackPack(row: seq<Word>, rest: seq<Byte>)
    requires AreWords(row)
    ensures Unpack(Pack(row) + rest, |row|) == row
    decreases row
  {
    hide S.Le, S.Number, IsWord, Pow2;
    if row != [] {
      WordRoundTrip(row[0]);
      var b := Pack(row) + rest;
      assert b[..ITEM] == S.Le(row[0], ITEM);
      assert b[ITEM..] == Pack(row[1..]) + rest;
      UnpackPack(row[1..], rest);
    }
  }

  function PackAll(rows: seq<seq<Word>>): seq<Byte> {
    if rows == [] then [] else PackAll(rows[..|rows| - 1]) + Pack(rows[|rows| - 1])
  }

  /** Every row of a log is `n` words. */
  predicate Uniform(rows: seq<seq<Word>>, n: nat) {
    forall k | 0 <= k < |rows| :: |rows[k]| == n && AreWords(rows[k])
  }

  function RecordBytes(n: nat): nat {
    ITEM * n
  }

  /** Where record k starts. */
  function Offset(rb: nat, k: nat): nat {
    rb * k
  }

  lemma OffsetStep(rb: nat, k: nat)
    ensures Offset(rb, 0) == 0 && Offset(rb, k + 1) == Offset(rb, k) + rb
  {}

  lemma {:induction false} PackAllLength(rows: seq<seq<Word>>, n: nat)
    requires Uniform(rows, n)
    ensures |PackAll(rows)| == Offset(RecordBytes(n), |rows|)
  {
    hide AreWords, Offset, Pack;
    if rows == [] {
      OffsetStep(RecordBytes(n), 0);
    } else {
      var k := |rows| - 1;
      PackAllLength(rows[..k], n);
      OffsetStep(RecordBytes(n), k);
    }
  }

  lemma {:induction false} OffsetMono(rb: nat, i: nat, j: nat)
    requires i <= j
    ensures Offset(rb, i) <= Offset(rb, j)
  {
    hide Offset;
    if i < j {
      OffsetMono(rb, i, j - 1);
      OffsetStep(rb, j - 1);
    }
  }

  lemma {:induction false} PackAllPrefix(rows: seq<seq<Word>>, n: nat, k: nat)
    requires Uniform(rows, n) && k <= |rows|
    ensures Offset(RecordBytes(n), k) <= |PackAll(rows)|
    ensures PackAll(rows)[..Offset(RecordBytes(n), k)] == PackAll(rows[..k])
    decreases |rows|
  {
    hide AreWords, Offset, Pack, RecordBytes;
    PackAllLength(rows, n);
    PackAllLength(rows[..k], n);
    OffsetMono(RecordBytes(n), k, |rows|);
    if k == |rows| {
      assert rows[..k] == rows;
    } else {
      var l := |rows| - 1;
      PackAllPrefix(rows[..l], n, k);
      assert rows[..l][..k] == rows[..k];
    }
  }

  // ------------------------------------------------------------------------- recovery

  /** How many whole records n bytes hold. */
  function Whole(n: nat, ncols: nat): (k: nat)
    requires ncols > 0
    ensures Offset(RecordBytes(ncols), k) <= n < Offset(RecordBytes(ncols), k) + RecordBytes(ncols)
  {
    WholeRecords(n, RecordBytes(ncols));
    n / RecordBytes(ncols)
  }

  lemma WholeRecords(n: nat, rb: nat)
    requires rb > 0
    ensures Offset(rb, n / rb) <= n < Offset(rb, n / rb) + rb
  {}

  /** Whole records only; a torn last one is dropped. */
  function Recover(blob: seq<Byte>, ncols: nat): (rows: seq<seq<Word>>)
    requires ncols > 0
  {
    RecoverRows(blob, ncols, Whole(|blob|, ncols))
  }

  function RecoverRows(blob: seq<Byte>, ncols: nat, n: nat): (rows: seq<seq<Word>>)
    requires Offset(RecordBytes(ncols), n) <= |blob|
    ensures |rows| == n
  {
    if n == 0 then []
    else
      OffsetStep(RecordBytes(ncols), n - 1);
      RecoverRows(blob, ncols, n - 1) + [Unpack(blob[Offset(RecordBytes(ncols), n - 1)..], ncols)]
  }

  /** Records written back to back are read back one by one. */
  lemma {:induction false} RecoverPacked(rows: seq<seq<Word>>, ncols: nat, torn: seq<Byte>)
    requires Uniform(rows, ncols)
    ensures Offset(RecordBytes(ncols), |rows|) <= |PackAll(rows) + torn|
    ensures RecoverRows(PackAll(rows) + torn, ncols, |rows|) == rows
    decreases |rows|
  {
    hide AreWords, Offset, Unpack, RecordBytes;
    PackAllLength(rows, ncols);
    if rows != [] {
      var k := |rows| - 1;
      var last := Pack(rows[k]);
      PackAllLength(rows[..k], ncols);
      OffsetStep(RecordBytes(ncols), k);
      RecoverPacked(rows[..k], ncols, last + torn);
      assert PackAll(rows) + torn == PackAll(rows[..k]) + (last + torn);
      assert (PackAll(rows) + torn)[Offset(RecordBytes(ncols), k)..] == last + torn;
      UnpackPack(rows[k], torn);
      assert rows == rows[..k] + [rows[k]];
    }
  }

  /** Whatever prefix of the file survives, recovery returns a prefix of the rows:
      every record that survived whole, and nothing else. */
  lemma RecoverPrefix(rows: seq<seq<Word>>, ncols: nat, n: nat)
    requires ncols > 0 && Uniform(rows, ncols) && n <= |PackAll(rows)|
    ensures Whole(n, ncols) <= |rows|
    ensures Recover(PackAll(rows)[..n], ncols) == rows[..Whole(n, ncols)]
  {
    hide AreWords, Offset, Unpack, Pack, Whole, RecordBytes;
    var rb, k := RecordBytes(ncols), Whole(n, ncols);
    PackAllLength(rows, ncols);
    AtMostAll(rb, k, n, |rows|);
    PackAllPrefix(rows, ncols, k);
    var torn := PackAll(rows)[Offset(rb, k)..n];
    assert PackAll(rows)[..n] == PackAll(rows)[..Offset(rb, k)] + torn;
    RecoverPacked(rows[..k], ncols, torn);
  }

  lemma AtMostAll(rb: nat, k: nat, n: nat, all: nat)
    requires Offset(rb, k) <= n <= Offset(rb, all) && n < Offset(rb, k) + rb
    ensures k <= all
  {
    hide Offset;
    if k > all {
      OffsetMono(rb, all + 1, k);
      OffsetStep(rb, all);
      assert false;
    }
  }

  // ------------------------------------------------------------------------- the object

  /** What the log refuses. */
  datatype Refusal = NotStarted | WrongTiming | WrongChannels

  lemma PackAllLast(rows: seq<seq<Word>>)
    requires rows != []
    ensures PackAll(rows) == PackAll(rows[..|rows| - 1]) + Pack(rows[|rows| - 1])
  {}

  lemma {:induction false} PackAllAppend(a: seq<seq<Word>>, b: seq<seq<Word>>)
    ensures PackAll(a + b) == PackAll(a) + PackAll(b)
    decreases |b|
  {
    hide Pack;
    if b == [] {
      assert a + b == a;
    } else {
      hide PackAll;
      var rest := b[..|b| - 1];
      PackAllAppend(a, rest);
      PackAllLast(b);
      PackAllLast(a + b);
      assert (a + b)[..|a + b| - 1] == a + rest;
      assert PackAll(a) + (PackAll(rest) + Pack(b[|b| - 1])) == PackAll(a) + PackAll(rest) + Pack(b[|b| - 1]);
    }
  }

  class Log {
    const meta: Meta
    const flushEvery: nat
    var started: bool
    var file: seq<Byte>
    var buf: seq<Byte>
    var sinceFlush: nat
    var count: nat
    /** The rows in the file and the rows in the buffer. */
    ghost var flushed: seq<seq<Word>>
    ghost var waiting: seq<seq<Word>>
    /** Rows the run before left in the buffer, and those of them still there. */
    ghost var inherited: nat
    ghost var stale: nat

    ghost function Rows(): seq<seq<Word>>
      reads this
    {
      flushed + waiting
    }

    /** Every row is in the file or in the buffer, in order, once; fewer rows than a batch
        wait besides inherited ones; and only a started log has anything waiting. */
    ghost predicate Valid()
      reads this
    {
      && Kept() && sinceFlush < flushEvery
      && (!started ==> waiting == [])
    }

    ghost predicate Kept()
      reads this
    {
      && Uniform(flushed, Columns(meta)) && Uniform(waiting, Columns(meta))
      && file == PackAll(flushed) && buf == PackAll(waiting)
      && count + inherited == |flushed| + |waiting|
      && sinceFlush + stale == |waiting| && stale <= inherited
    }

    constructor (meta: Meta, flushEvery: nat)
      requires flushEvery > 0
      ensures Valid() && !started && Rows() == [] && inherited == 0
      ensures this.meta == meta && this.flushEvery == flushEvery
    {
      this.meta, this.flushEvery := meta, flushEvery;
      started, file, buf, sinceFlush, count := false, [], [], 0, 0;
      flushed, waiting, inherited, stale := [], [], 0, 0;
    }

    /** Empties the file and restarts the counts. The buffer is not touched: the rows a run
        left in it come first in the file of the next. */
    method Start()
      requires Valid()
      modifies this
      ensures Valid() && started && count == 0 && file == []
      ensures flushed == [] && waiting == old(waiting) && inherited == stale == |waiting|
      ensures old(!started) ==> Rows() == [] && inherited == 0
    {
      started, file, sinceFlush, count := true, [], 0, 0;
      flushed, inherited, stale := [], |waiting|, |waiting|;
    }

    /** Writes the buffer out; nothing is lost and nothing waits. */
    method Flush()
      requires Kept() && flushEvery > 0 && (!started ==> waiting == [])
      modifies this`file, this`buf, this`sinceFlush, this`flushed, this`waiting, this`stale
      ensures Valid() && Rows() == old(Rows())
      ensures waiting == [] && buf == [] && sinceFlush == stale == 0 && file == PackAll(Rows())
    {
      hide AreWords, Pack, Columns;
      PackAllAppend(flushed, waiting);
      if started && buf != [] {
        file := file + buf;
        buf := [];
      }
      sinceFlush := 0;
      flushed, waiting, stale := flushed + waiting, [], 0;
    }

    method Append(s: Sample) returns (refused: Option<Refusal>)
      requires Valid() && AreWords(Row(meta, s))
      modifies this
      ensures Valid() && started == old(started) && inherited == old(inherited) && stale <= old(stale)
      ensures refused == if !started then Some(NotStarted)
                         else if |s.timing| != |meta.timingColumns| then Some(WrongTiming)
                         else if |s.channels| != |meta.stateColumns| then Some(WrongChannels)
                         else None
      ensures Rows() == if refused.None? then old(Rows()) + [Row(meta, s)] else old(Rows())
      ensures refused.None? ==> count == old(count) + 1
      ensures refused.None? ==>
                if old(sinceFlush) + 1 < flushEvery
                then file == old(file) && waiting == old(waiting) + [Row(meta, s)] && sinceFlush == old(sinceFlush) + 1
                else waiting == [] && sinceFlush == 0
    {
      hide AreWords, Pack, Row, Columns;
      if !started {
        return Some(NotStarted);
      }
      if |s.timing| != |meta.timingColumns| {
        return Some(WrongTiming);
      }
      if |s.channels| != |meta.stateColumns| {
        return Some(WrongChannels);
      }
      var row := BuildRow(s);
      RowWidth(meta, s);
      Buffer(row);
      if sinceFlush >= flushEvery {
        Flush();
      }
      refused := None;
    }

    method Buffer(row: seq<Word>)
      requires Kept() && |row| == Columns(meta) && AreWords(row)
      modifies this`buf, this`count, this`sinceFlush, this`waiting
      ensures Kept() && Rows() == old(Rows()) + [row] && waiting == old(waiting) + [row]
      ensures count == old(count) + 1 && sinceFlush == old(sinceFlush) + 1
    {
      hide AreWords, Pack, Columns;
      assert (waiting + [row])[..|waiting|] == waiting;
      assert flushed + (waiting + [row]) == flushed + waiting + [row];
      waiting := waiting + [row];
      buf := buf + Pack(row);
      count := count + 1;
      sinceFlush := sinceFlush + 1;
    }

    method BuildRow(s: Sample) returns (row: seq<Word>)
      ensures row == Row(meta, s)
    {
      hide NeighborCells;
      row := [s.t, if s.deviceT.None? then s.t else s.deviceT.value] + s.timing + s.channels;
      ghost var head := row;
      for i := 0 to |meta.neighbors|
        invariant row == head + Blocks(RowBlock(meta.dim, s), i)
      {
        var cells := BuildCells(s, i);
        row := row + cells;
      }
    }

    method BuildCells(s: Sample, i: nat) returns (cells: seq<Word>)
      ensures cells == NeighborCells(meta.dim, s, i)
    {
      cells := [];
      for c := 0 to meta.dim
        invariant |cells| == c && forall x | 0 <= x < c :: cells[x] == WordAt(s.vstates, i * meta.dim + x)
      {
        cells := cells + [WordAt(s.vstates, i * meta.dim + c)];
      }
      cells := cells + [FlagAt(s.recent, i), WordAt(s.seqs, i), WordAt(s.rssi, i)];
    }

    /** The closed file holds every row, those of an earlier run's buffer included. */
    method Close()
      requires Valid()
      modifies this
      ensures Valid() && !started && Rows() == old(Rows()) && count == old(count) && inherited == old(inherited)
      ensures buf == [] && file == PackAll(Rows())
    {
      if started {
        Flush();
        started := false;
      }
      assert flushed + [] == flushed;
    }
  }
}
