/** Reading a run log back: rows to columns, by name. */
module Load {
  import opened Crc
  import opened RunLog
  import opened Options

  predicate Distinct(names: seq<string>) {
    forall i, j | 0 <= i < j < |names| :: names[i] != names[j]
  }

  /** What the first n columns of a row put under a name, in order. */
  function Picked(row: seq<Word>, names: seq<string>, n: nat, name: string): seq<Word>
    requires n <= |names|
  {
    if n == 0 then []
    else Picked(row, names, n - 1, name) + if names[n - 1] == name && n - 1 < |row| then [row[n - 1]] else []
  }

  /** What a whole log puts under a name. */
  function Series(rows: seq<seq<Word>>, names: seq<string>, name: string): seq<Word> {
    if rows == [] then []
    else Series(rows[..|rows| - 1], names, name) + Picked(rows[|rows| - 1], names, |names|, name)
  }

  lemma SeriesEmpty(rows: seq<seq<Word>>, names: seq<string>)
    ensures forall n :: Series(rows[..0], names, n) == []
  {}

  lemma SeriesStep(rows: seq<seq<Word>>, names: seq<string>, k: nat)
    requires k < |rows|
    ensures forall n :: Series(rows[..k + 1], names, n)
                        == Series(rows[..k], names, n) + Picked(rows[k], names, |names|, n)
  {
    assert rows[..k + 1][..k] == rows[..k];
  }

  /** The columns of a node's log, from its metadata and the bytes of its rows file. */
  method LoadNode(m: Meta, blob: seq<Byte>) returns (data: map<string, seq<Word>>)
    ensures forall n :: n in data <==> n in ColumnNames(m)
    ensures forall n | n in data :: data[n] == Series(Recover(blob, Columns(m)), ColumnNames(m), n)
  {
    hide Recover, ColumnNames, Columns, Series, Picked;
    SeriesEmpty(Recover(blob, Columns(m)), ColumnNames(m));
    var names := ColumnNames(m);
    var rows := Recover(blob, Columns(m));
    data := map n | n in names :: [];
    for k := 0 to |rows|
      invariant forall n :: n in data <==> n in names
      invariant forall n | n in data :: data[n] == Series(rows[..k], names, n)
    {
      data := AddRow(data, names, rows[k]);
      SeriesStep(rows, names, k);
    }
    assert rows[..|rows|] == rows;
  }

  method AddRow(data: map<string, seq<Word>>, names: seq<string>, row: seq<Word>) returns (r: map<string, seq<Word>>)
    requires forall n :: n in data <==> n in names
    ensures forall n :: n in r <==> n in names
    ensures forall n | n in r :: r[n] == data[n] + Picked(row, names, |names|, n)
  {
    r := data;
    for i := 0 to |names|
      invariant forall n :: n in r <==> n in names
      invariant forall n | n in r :: r[n] == data[n] + Picked(row, names, i, n)
    {
      assert names[i] in names;
      if i < |row| {
        r := r[names[i] := r[names[i]] + [row[i]]];
      }
    }
  }

  // ----------------------------------------------------------------------- distinct names

  lemma {:induction false} PickedOne(row: seq<Word>, names: seq<string>, n: nat, i: nat)
    requires Distinct(names) && n <= |names| && i < |names| && i < |row|
    ensures Picked(row, names, n, names[i]) == if i < n then [row[i]] else []
  {
    if n > 0 {
      PickedOne(row, names, n - 1, i);
    }
  }

  lemma {:induction false} SeriesIsColumn(rows: seq<seq<Word>>, names: seq<string>, i: nat)
    requires Distinct(names) && i < |names| && forall k | 0 <= k < |rows| :: i < |rows[k]|
    ensures |Series(rows, names, names[i])| == |rows|
    ensures forall k | 0 <= k < |rows| :: Series(rows, names, names[i])[k] == rows[k][i]
  {
    hide Picked, Distinct;
    if rows != [] {
      var l := |rows| - 1;
      SeriesIsColumn(rows[..l], names, i);
      PickedOne(rows[l], names, |names|, i);
    }
  }

  // ---------------------------------------------------------------------- what is where

  function RowsOf(m: Meta, ss: seq<Sample>): (rows: seq<seq<Word>>)
    ensures |rows| == |ss|
  {
    seq(|ss|, k requires 0 <= k < |ss| => Row(m, ss[k]))
  }

  /** Where neighbour i's cell j stands. */
  function CellAt(m: Meta, i: nat, j: nat): nat {
    2 + |m.timingColumns| + |m.stateColumns| + (m.dim + 3) * i + j
  }

  /** What the log keeps of neighbour i: its coordinates, arrival flag, sequence number
      and signal strength, zero where the sample was short. */
  function NeighborValue(m: Meta, s: Sample, i: nat, j: nat): Word {
    if j < m.dim then (if i * m.dim + j < |s.vstates| then s.vstates[i * m.dim + j] else ZERO)
    else if j == m.dim then (if i < |s.recent| && s.recent[i] then ONE else ZERO)
    else if j == m.dim + 1 then (if i < |s.seqs| then s.seqs[i] else ZERO)
    else if i < |s.rssi| then s.rssi[i] else ZERO
  }

  function NeighborName(m: Meta, i: nat, j: nat): string
    requires i < |m.neighbors|
  {
    var d := Digits(m.neighbors[i]);
    if j < m.dim then (if m.dim == 1 then d else if j == 0 then d + "_P" else d + "_Q")
    else if j == m.dim then "rx_" + d
    else if j == m.dim + 1 then "seq_" + d
    else "rssi_" + d
  }

  function HeadValue(m: Meta, s: Sample, j: nat): Word
    requires Fits(m, s) && j < 2 + |m.timingColumns| + |m.stateColumns|
  {
    if j == 0 then s.t
    else if j == 1 then (if s.deviceT.None? then s.t else s.deviceT.value)
    else if j - 2 < |m.timingColumns| then s.timing[j - 2]
    else s.channels[j - 2 - |m.timingColumns|]
  }

  function HeadName(m: Meta, j: nat): string
    requires j < 2 + |m.timingColumns| + |m.stateColumns|
  {
    if j == 0 then "timestamp" else if j == 1 then "device_timestamp"
    else if j - 2 < |m.timingColumns| then m.timingColumns[j - 2]
    else m.stateColumns[j - 2 - |m.timingColumns|]
  }

  lemma CellMeans(m: Meta, s: Sample, i: nat, j: nat)
    requires j < m.dim + 3
    ensures NeighborCells(m.dim, s, i)[j] == NeighborValue(m, s, i, j)
  {
    var cells := NeighborCells(m.dim, s, i);
    if j < m.dim {
      assert cells[j] == WordAt(s.vstates, i * m.dim + j);
    } else if j == m.dim {
      assert cells[j] == FlagAt(s.recent, i);
    }
  }

  lemma NameMeans(m: Meta, i: nat, j: nat)
    requires 1 <= m.dim <= 2 && i < |m.neighbors| && j < m.dim + 3
    ensures |NameBlock(m)(i)| == m.dim + 3 && NameBlock(m)(i)[j] == NeighborName(m, i, j)
  {
    hide Digits;
  }

  lemma NameBlocks(m: Meta)
    requires 1 <= m.dim <= 2
    ensures forall k: nat | k < |m.neighbors| :: |NameBlock(m)(k)| == m.dim + 3
  {
    hide Digits;
  }

  lemma RowCell(m: Meta, s: Sample, i: nat, j: nat)
    requires Fits(m, s) && i < |m.neighbors| && j < m.dim + 3
    ensures CellAt(m, i, j) < |Row(m, s)| && Row(m, s)[CellAt(m, i, j)] == NeighborValue(m, s, i, j)
  {
    hide NeighborCells, NeighborValue, Blocks;
    CellMeans(m, s, i, j);
    BlocksAt(RowBlock(m.dim, s), |m.neighbors|, m.dim + 3, i, j);
  }

  lemma NameCell(m: Meta, i: nat, j: nat)
    requires 1 <= m.dim <= 2 && i < |m.neighbors| && j < m.dim + 3
    ensures CellAt(m, i, j) < |ColumnNames(m)| && ColumnNames(m)[CellAt(m, i, j)] == NeighborName(m, i, j)
  {
    hide Digits, NameBlock, NeighborName;
    NameMeans(m, i, j);
    NameBlocks(m);
    BlocksAt(NameBlock(m), |m.neighbors|, m.dim + 3, i, j);
  }

  lemma HeadCell(m: Meta, s: Sample, j: nat)
    requires Fits(m, s) && j < 2 + |m.timingColumns| + |m.stateColumns|
    ensures j < |Row(m, s)| && Row(m, s)[j] == HeadValue(m, s, j)
  {
    hide Blocks;
  }

  lemma HeadNameAt(m: Meta, j: nat)
    requires j < 2 + |m.timingColumns| + |m.stateColumns|
    ensures j < |ColumnNames(m)| && ColumnNames(m)[j] == HeadName(m, j)
  {
    hide Blocks;
  }

  ghost predicate Loggable(m: Meta, ss: seq<Sample>) {
    forall k | 0 <= k < |ss| :: Fits(m, ss[k]) && AreWords(Row(m, ss[k]))
  }

  lemma RowsUniform(m: Meta, ss: seq<Sample>)
    requires Loggable(m, ss)
    ensures Uniform(RowsOf(m, ss), Columns(m))
  {
    hide Row, AreWords, Columns;
    forall k | 0 <= k < |ss| ensures |Row(m, ss[k])| == Columns(m) {
      RowWidth(m, ss[k]);
    }
  }

  /** A closed log is recovered whole; a torn one up to its last whole record. */
  lemma RecoveredRows(m: Meta, ss: seq<Sample>, n: nat)
    requires Loggable(m, ss) && n <= |PackAll(RowsOf(m, ss))|
    ensures Whole(n, Columns(m)) <= |ss|
    ensures Recover(PackAll(RowsOf(m, ss))[..n], Columns(m)) == RowsOf(m, ss)[..Whole(n, Columns(m))]
    ensures n == |PackAll(RowsOf(m, ss))| ==> Whole(n, Columns(m)) == |ss|
  {
    hide RowsOf, Recover, Whole, Offset, PackAll, Uniform, Columns;
    RowsUniform(m, ss);
    RecoverPrefix(RowsOf(m, ss), Columns(m), n);
    PackAllLength(RowsOf(m, ss), Columns(m));
    RowsOfLength(m, ss);
    if n == |PackAll(RowsOf(m, ss))| {
      ExactWhole(RecordBytes(Columns(m)), Whole(n, Columns(m)), |ss|);
    }
  }

  lemma RowsOfLength(m: Meta, ss: seq<Sample>)
    ensures |RowsOf(m, ss)| == |ss|
  {}

  lemma ExactWhole(rb: nat, k: nat, n: nat)
    requires Offset(rb, k) <= Offset(rb, n) < Offset(rb, k) + rb && k <= n
    ensures k == n
  {
    hide Offset;
    if k < n {
      OffsetStep(rb, k);
      OffsetMono(rb, k + 1, n);
      assert false;
    }
  }

  /** Under each of a neighbour's names, exactly the series appended for it. */
  lemma NeighborColumns(m: Meta, ss: seq<Sample>, i: nat, j: nat)
    requires Loggable(m, ss) && Distinct(ColumnNames(m)) && 1 <= m.dim <= 2
    requires i < |m.neighbors| && j < m.dim + 3
    ensures var col := Series(RowsOf(m, ss), ColumnNames(m), NeighborName(m, i, j));
            |col| == |ss| && forall k | 0 <= k < |ss| :: col[k] == NeighborValue(m, ss[k], i, j)
  {
    hide Row, ColumnNames, CellAt, AreWords, NeighborName, NeighborValue, Series;
    NameCell(m, i, j);
    forall k | 0 <= k < |ss|
      ensures CellAt(m, i, j) < |RowsOf(m, ss)[k]|
      ensures RowsOf(m, ss)[k][CellAt(m, i, j)] == NeighborValue(m, ss[k], i, j)
    {
      RowCell(m, ss[k], i, j);
    }
    SeriesIsColumn(RowsOf(m, ss), ColumnNames(m), CellAt(m, i, j));
  }

  /** And under the names of the two clocks, the tick's timing and the controller's channels. */
  lemma HeadColumns(m: Meta, ss: seq<Sample>, j: nat)
    requires Loggable(m, ss) && Distinct(ColumnNames(m)) && j < 2 + |m.timingColumns| + |m.stateColumns|
    ensures var col := Series(RowsOf(m, ss), ColumnNames(m), HeadName(m, j));
            |col| == |ss| && forall k | 0 <= k < |ss| :: col[k] == HeadValue(m, ss[k], j)
  {
    hide Row, ColumnNames, AreWords, HeadName, HeadValue, Series;
    HeadNameAt(m, j);
    forall k | 0 <= k < |ss|
      ensures j < |RowsOf(m, ss)[k]| && RowsOf(m, ss)[k][j] == HeadValue(m, ss[k], j)
    {
      HeadCell(m, ss[k], j);
    }
    SeriesIsColumn(RowsOf(m, ss), ColumnNames(m), j);
  }

  /** A column of the log: a clock, a timing value or a channel, or a cell of a neighbour. */
  datatype Cell = Head(j: nat) | Link(i: nat, j: nat)

  predicate HasColumn(m: Meta, c: Cell) {
    match c
    case Head(j) => j < 2 + |m.timingColumns| + |m.stateColumns|
    case Link(i, j) => 1 <= m.dim <= 2 && i < |m.neighbors| && j < m.dim + 3
  }

  function NameOf(m: Meta, c: Cell): string
    requires HasColumn(m, c)
  {
    match c case Head(j) => HeadName(m, j) case Link(i, j) => NeighborName(m, i, j)
  }

  function ValueOf(m: Meta, s: Sample, c: Cell): Word
    requires HasColumn(m, c) && Fits(m, s)
  {
    match c case Head(j) => HeadValue(m, s, j) case Link(i, j) => NeighborValue(m, s, i, j)
  }

  /** A series holds what the samples gave for a column, one value per sample, in order. */
  predicate Holds(m: Meta, ss: seq<Sample>, c: Cell, col: seq<Word>)
    requires HasColumn(m, c) && forall k | 0 <= k < |ss| :: Fits(m, ss[k])
  {
    |col| == |ss| && forall k | 0 <= k < |ss| :: col[k] == ValueOf(m, ss[k], c)
  }

  /** From a file of whole rows, or from any part of it a crash left: each column, whatever
      it is, holds the values of exactly the samples that survived whole. */
  lemma LoadedFromPrefix(m: Meta, ss: seq<Sample>, n: nat, c: Cell)
    requires Loggable(m, ss) && Distinct(ColumnNames(m)) && HasColumn(m, c)
    requires n <= |PackAll(RowsOf(m, ss))|
    ensures var kept := Whole(n, Columns(m));
            && kept <= |ss| && (n == |PackAll(RowsOf(m, ss))| ==> kept == |ss|)
            && Holds(m, ss[..kept], c,
                     Series(Recover(PackAll(RowsOf(m, ss))[..n], Columns(m)), ColumnNames(m), NameOf(m, c)))
  {
    hide Row, ColumnNames, AreWords, NeighborName, NeighborValue, HeadName, HeadValue, Series, Recover,
         PackAll, Whole;
    RecoveredRows(m, ss, n);
    var kept := Whole(n, Columns(m));
    assert RowsOf(m, ss)[..kept] == RowsOf(m, ss[..kept]);
    match c
    case Head(j) => HeadColumns(m, ss[..kept], j);
    case Link(i, j) => NeighborColumns(m, ss[..kept], i, j);
  }

  /** The log on disk at any moment of a run, after any appends and flushes, cut anywhere:
      every column holds the samples of the rows that were flushed and survived whole. An
      uncut file is short by the rows still waiting, which are fewer than a batch unless
      the run inherited some. */
  lemma LoadedFromLog(log: Log, ss: seq<Sample>, n: nat, c: Cell)
    requires log.Valid() && Loggable(log.meta, ss) && log.Rows() == RowsOf(log.meta, ss)
    requires Distinct(ColumnNames(log.meta)) && HasColumn(log.meta, c) && n <= |log.file|
    ensures var m, kept := log.meta, Whole(n, Columns(log.meta));
            && kept <= |log.flushed| <= |ss|
            && (n == |log.file| ==> kept == |log.flushed|)
            && (n == |log.file| && log.stale == 0 ==> |ss| - kept < log.flushEvery)
            && (n == |log.file| && !log.started ==> kept == |ss|)
            && Holds(m, ss[..kept], c, Series(Recover(log.file[..n], Columns(m)), ColumnNames(m), NameOf(m, c)))
  {
    hide Row, ColumnNames, AreWords, NameOf, ValueOf, Series, Recover, PackAll, Whole;
    var m, done := log.meta, ss[..|log.flushed|];
    assert log.flushed == log.Rows()[..|log.flushed|] == RowsOf(m, done);
    LoadedFromPrefix(m, done, n, c);
    var kept := Whole(n, Columns(m));
    assert done[..kept] == ss[..kept];
  }
}
