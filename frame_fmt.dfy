/** `impl Display for DataFrame` and `impl Debug for DataFrame`: three header
    lines (names, type labels, dashes), a blank line, then the rows `get(0)`
    to `get(9)` that exist, one line each. Every write goes through `?`, so
    the first refused write ends the rendering. */
module FrameFmt {
  import opened Text
  import opened Sinks
  import opened Values
  import opened CellFmt

  /** How many row indices the preview asks `get` for. */
  const ROW_PREVIEW: nat := 10

  /** Each text right-aligned to `WIDTH` (`{:>15}`), one write each. */
  function Padded(xs: seq<string>): (r: seq<string>)
    ensures |r| == |xs|
  {
    if xs == [] then [] else [PadLeft(WIDTH, xs[0])] + Padded(xs[1..])
  }

  lemma {:induction false} PaddedAt(xs: seq<string>, i: nat)
    requires i < |xs|
    ensures Padded(xs)[i] == PadLeft(WIDTH, xs[i])
  {
    if i > 0 {
      PaddedAt(xs[1..], i - 1);
    }
  }

  /** The fields' names, in schema order. */
  function Names(schema: seq<Field>): (r: seq<string>)
    ensures |r| == |schema|
  {
    if schema == [] then [] else [schema[0].name] + Names(schema[1..])
  }

  /** The fields' type labels, in schema order. */
  function TypeLabels(schema: seq<Field>): (r: seq<string>)
    ensures |r| == |schema|
  {
    if schema == [] then [] else [schema[0].typeLabel] + TypeLabels(schema[1..])
  }

  /** One `---` per field. */
  function Dashes(schema: seq<Field>): (r: seq<string>)
    ensures |r| == |schema|
  {
    if schema == [] then [] else ["---"] + Dashes(schema[1..])
  }

  /** Entry `i` of each header line belongs to field `i`. */
  lemma {:induction false} FieldTexts(schema: seq<Field>, i: nat)
    requires i < |schema|
    ensures Names(schema)[i] == schema[i].name
    ensures TypeLabels(schema)[i] == schema[i].typeLabel
    ensures Dashes(schema)[i] == "---"
  {
    if i > 0 {
      FieldTexts(schema[1..], i - 1);
    }
  }

  /** The writes of the header block, in order. */
  function HeaderWrites(schema: seq<Field>): seq<string>
  {
    Padded(Names(schema)) + (["\n"] + (Padded(TypeLabels(schema)) + (["\n"]
      + (Padded(Dashes(schema)) + ["\n\n"]))))
  }

  /** Each cell of a row, as `Display for AnyType` writes it. */
  function Cells(row: Row): (r: seq<string>)
    ensures |r| == |row|
  {
    if row == [] then [] else [CellText(row[0])] + Cells(row[1..])
  }

  lemma {:induction false} CellsAt(row: Row, i: nat)
    requires i < |row|
    ensures Cells(row)[i] == CellText(row[i])
  {
    if i > 0 {
      CellsAt(row[1..], i - 1);
    }
  }

  /** The writes for row index `i`: a present row's cells and then a line
      break; an absent row nothing. */
  function RowLine(df: DataFrame, i: nat): seq<string>
  {
    match Get(df, i)
    case None => []
    case Some(row) => Cells(row) + ["\n"]
  }

  /** The writes for row indices `from` up to `ROW_PREVIEW - 1`. */
  function RowWrites(df: DataFrame, from: nat): seq<string>
    decreases ROW_PREVIEW - from
  {
    if from >= ROW_PREVIEW then [] else RowLine(df, from) + RowWrites(df, from + 1)
  }

  /** Every write `fmt` attempts for a data frame, in order, when none is refused. */
  function FrameWrites(df: DataFrame): seq<string>
  {
    HeaderWrites(df.schema) + RowWrites(df, 0)
  }

  /** The full rendering of a data frame on a device that refuses nothing. */
  function FrameText(df: DataFrame): string
  {
    Concat(FrameWrites(df))
  }

  /** The text of one header line, before its line break. */
  function HeaderLine(xs: seq<string>): string
  {
    Concat(Padded(xs))
  }

  /** The text of one present row: its cells side by side, then a line break. */
  function RowText(row: Row): string
  {
    Concat(Cells(row)) + "\n"
  }

  /** The data line for row index `i`: the row's text if it exists. */
  function PresentLine(df: DataFrame, i: nat): seq<string>
  {
    match Get(df, i)
    case None => []
    case Some(row) => [RowText(row)]
  }

  /** The data lines of the preview, from row index `from` on: one per
      present row, in index order. */
  function PresentLines(df: DataFrame, from: nat): seq<string>
    decreases ROW_PREVIEW - from
  {
    if from >= ROW_PREVIEW then [] else PresentLine(df, from) + PresentLines(df, from + 1)
  }

  // ----- the renderer -----

  /** One of the three header loops: `write!(f, "{:>15}", x)?` for each `x`. */
  method WritePadded(f: Formatter, xs: seq<string>) returns (r: FmtResult)
    modifies f
    ensures (f.State(), r) == Emit(old(f.State()), Padded(xs))
  {
    ghost var k0 := f.State();
    r := Ok;
    for j := 0 to |xs|
      invariant Emit(k0, Padded(xs)[..j]) == (f.State(), Ok) && r == Ok
    {
      var w := PadLeft(WIDTH, xs[j]);
      PaddedAt(xs, j);
      TakeNext(Padded(xs), j);
      EmitStep(k0, Padded(xs)[..j], w);
      r := f.WriteStr(w);
      if r == Err {
        EmitStopsAtErr(k0, Padded(xs)[..j + 1], Padded(xs)[j + 1..]);
        TakeDrop(Padded(xs), j + 1);
        return;
      }
    }
    assert Padded(xs)[..|xs|] == Padded(xs);
  }

  /** The cells of one present row: `write!(f, "{}", v)?` for each value. */
  method WriteCells(f: Formatter, row: Row) returns (r: FmtResult)
    modifies f
    ensures (f.State(), r) == Emit(old(f.State()), Cells(row))
  {
    ghost var k0 := f.State();
    ghost var cells := Cells(row);
    r := Ok;
    for c := 0 to |row|
      invariant Emit(k0, cells[..c]) == (f.State(), Ok) && r == Ok
    {
      CellsAt(row, c);
      TakeNext(cells, c);
      EmitStep(k0, cells[..c], CellText(row[c]));
      r := FmtCell(row[c], f);
      if r == Err {
        EmitStopsAtErr(k0, cells[..c + 1], cells[c + 1..]);
        TakeDrop(cells, c + 1);
        return;
      }
    }
    assert cells[..|row|] == cells;
  }

  /** One present row: its cells, then `write!(f, "\n")?`. */
  method WriteRow(f: Formatter, row: Row) returns (r: FmtResult)
    modifies f
    ensures (f.State(), r) == Emit(old(f.State()), Cells(row) + ["\n"])
  {
    ghost var k0 := f.State();
    r := WriteCells(f, row);
    EmitAppend(k0, Cells(row), ["\n"]);
    if r == Ok {
      EmitStep(f.State(), [], "\n");
      r := f.WriteStr("\n");
    }
  }

  /** The header block: names, type labels and dashes, each line ended by a
      line break and the last by a blank line. */
  method WriteHeader(f: Formatter, fields: seq<Field>) returns (r: FmtResult)
    modifies f
    ensures (f.State(), r) == Emit(old(f.State()), HeaderWrites(fields))
  {
    ghost var k := f.State();
    ghost var r5: seq<string> := ["\n\n"];
    ghost var r4 := Padded(Dashes(fields)) + r5;
    ghost var r3 := ["\n"] + r4;
    ghost var r2 := Padded(TypeLabels(fields)) + r3;
    ghost var r1 := ["\n"] + r2;

    r := WritePadded(f, Names(fields));
    EmitAppend(k, Padded(Names(fields)), r1);
    if r == Err { return; }

    k := f.State();
    r := f.WriteStr("\n");
    EmitOne(k, "\n");
    EmitAppend(k, ["\n"], r2);
    if r == Err { return; }

    k := f.State();
    r := WritePadded(f, TypeLabels(fields));
    EmitAppend(k, Padded(TypeLabels(fields)), r3);
    if r == Err { return; }

    k := f.State();
    r := f.WriteStr("\n");
    EmitOne(k, "\n");
    EmitAppend(k, ["\n"], r4);
    if r == Err { return; }

    k := f.State();
    r := WritePadded(f, Dashes(fields));
    EmitAppend(k, Padded(Dashes(fields)), r5);
    if r == Err { return; }

    k := f.State();
    r := f.WriteStr("\n\n");
    EmitOne(k, "\n\n");
  }

  /** The row preview: `get(i)` for `i` in `0..10`, each present row written
      as one line. */
  method WriteRows(f: Formatter, df: DataFrame) returns (r: FmtResult)
    modifies f
    ensures (f.State(), r) == Emit(old(f.State()), RowWrites(df, 0))
  {
    ghost var goal := Emit(f.State(), RowWrites(df, 0));
    r := Ok;
    for i := 0 to ROW_PREVIEW
      invariant goal == Emit(f.State(), RowWrites(df, i)) && r == Ok
    {
      ghost var k := f.State();
      EmitAppend(k, RowLine(df, i), RowWrites(df, i + 1));
      var opt := Get(df, i);
      if opt.Some? {
        r := WriteRow(f, opt.value);
        if r == Err { return; }
      } else {
        assert RowLine(df, i) == [];
      }
    }
  }

  /** `impl Display for DataFrame`. */
  method DisplayDataFrame(df: DataFrame, f: Formatter) returns (r: FmtResult)
    modifies f
    ensures (f.State(), r) == Emit(old(f.State()), FrameWrites(df))
  {
    ghost var k0 := f.State();
    r := WriteHeader(f, df.schema);
    EmitAppend(k0, HeaderWrites(df.schema), RowWrites(df, 0));
    if r == Ok {
      r := WriteRows(f, df);
    }
  }

  /** `impl Debug for DataFrame` delegates to `Display`: same output, same result. */
  method DebugDataFrame(df: DataFrame, f: Formatter) returns (r: FmtResult)
    modifies f
    ensures (f.State(), r) == Emit(old(f.State()), FrameWrites(df))
  {
    r := DisplayDataFrame(df, f);
  }

  // ----- properties -----

  /** Every cell write of a row adds at least `WIDTH` characters. */
  lemma CellsNonEmpty(row: Row)
    ensures NonEmptyWrites(Cells(row))
  {
    forall i | 0 <= i < |row|
      ensures |Cells(row)[i]| > 0
    {
      CellKeepsText(row[i]);
    }
  }

  lemma {:induction false} RowWritesNonEmpty(df: DataFrame, from: nat)
    ensures NonEmptyWrites(RowWrites(df, from))
    decreases ROW_PREVIEW - from
  {
    if from < ROW_PREVIEW {
      RowWritesNonEmpty(df, from + 1);
      var line := RowLine(df, from);
      if Get(df, from).Some? {
        CellsNonEmpty(Get(df, from).value);
      }
      assert NonEmptyWrites(line);
      NonEmptyAppend(line, RowWrites(df, from + 1));
    }
  }

  /** No write of a data frame is empty: header entries are padded to 15,
      cells are at least 15 wide, and the rest are line breaks. */
  lemma FrameWritesNonEmpty(df: DataFrame)
    ensures NonEmptyWrites(FrameWrites(df))
  {
    var fs := df.schema;
    var a, b, c := Padded(Names(fs)), Padded(TypeLabels(fs)), Padded(Dashes(fs));
    PaddedNonEmpty(Names(fs));
    PaddedNonEmpty(TypeLabels(fs));
    PaddedNonEmpty(Dashes(fs));
    assert NonEmptyWrites(["\n"]) && NonEmptyWrites(["\n\n"]);
    NonEmptyAppend(c, ["\n\n"]);
    NonEmptyAppend(["\n"], c + ["\n\n"]);
    NonEmptyAppend(b, ["\n"] + (c + ["\n\n"]));
    NonEmptyAppend(["\n"], b + (["\n"] + (c + ["\n\n"])));
    NonEmptyAppend(a, ["\n"] + (b + (["\n"] + (c + ["\n\n"]))));
    RowWritesNonEmpty(df, 0);
    NonEmptyAppend(HeaderWrites(fs), RowWrites(df, 0));
  }

  /** Every padded header entry is at least `WIDTH` characters. */
  lemma PaddedNonEmpty(xs: seq<string>)
    ensures NonEmptyWrites(Padded(xs))
  {
    forall i | 0 <= i < |xs|
      ensures |Padded(xs)[i]| > 0
    {
      PaddedAt(xs, i);
    }
  }

  /** On a device that refuses none of its writes the frame renders in full
      and the result is `Ok`. */
  lemma FrameNoRefusal(df: DataFrame, k: Sink)
    requires AcceptsNext(k, |FrameWrites(df)|)
    ensures Emit(k, FrameWrites(df)).0.out == k.out + FrameText(df)
    ensures Emit(k, FrameWrites(df)).1 == Ok
  {
    var ws := FrameWrites(df);
    EmitNoRefusal(k, ws);
  }

  /** Whatever the device refuses, it holds a prefix of the full rendering,
      and the result is `Ok` exactly when it holds all of it. */
  lemma FrameStopsAtFirstRefusal(df: DataFrame, k: Sink)
    ensures var (k1, r) := Emit(k, FrameWrites(df));
      k1.out <= k.out + FrameText(df) && (r == Ok <==> k1.out == k.out + FrameText(df))
  {
    FrameWritesNonEmpty(df);
    EmitPrefix(k, FrameWrites(df));
  }

  /** The header block is the three lines, the last followed by a blank line. */
  lemma HeaderText(fs: seq<Field>)
    ensures Concat(HeaderWrites(fs)) ==
      HeaderLine(Names(fs)) + "\n" + HeaderLine(TypeLabels(fs)) + "\n"
        + HeaderLine(Dashes(fs)) + "\n\n"
  {
    var a, b, c := Padded(Names(fs)), Padded(TypeLabels(fs)), Padded(Dashes(fs));
    var t4 := c + ["\n\n"];
    var t3 := ["\n"] + t4;
    var t2 := b + t3;
    var t1 := ["\n"] + t2;
    assert Concat(t4) == Concat(c) + "\n\n" by { ConcatSnoc(c, "\n\n"); }
    assert Concat(t3) == "\n" + Concat(t4) by { ConcatCons("\n", t4); }
    assert Concat(t2) == Concat(b) + Concat(t3) by { ConcatAppend(b, t3); }
    assert Concat(t1) == "\n" + Concat(t2) by { ConcatCons("\n", t2); }
    assert Concat(a + t1) == Concat(a) + Concat(t1) by { ConcatAppend(a, t1); }
  }

  /** The rendering is the three header lines (the last followed by a blank
      line) and then the data rows. */
  lemma FrameLayout(df: DataFrame)
    ensures FrameText(df) ==
      HeaderLine(Names(df.schema)) + "\n" + HeaderLine(TypeLabels(df.schema)) + "\n"
        + HeaderLine(Dashes(df.schema)) + "\n\n" + Concat(RowWrites(df, 0))
  {
    HeaderText(df.schema);
    ConcatAppend(HeaderWrites(df.schema), RowWrites(df, 0));
  }

  /** With every text at most 15 characters, a header line is `WIDTH`
      characters per field, and the block for field `i` is that field's text
      right-aligned. */
  lemma {:induction false} HeaderLineBlocks(xs: seq<string>)
    requires forall i :: 0 <= i < |xs| ==> |xs[i]| <= WIDTH
    ensures |HeaderLine(xs)| == WIDTH * |xs|
    ensures forall i :: 0 <= i < |xs| ==>
      HeaderLine(xs)[WIDTH * i..WIDTH * (i + 1)] == PadLeft(WIDTH, xs[i])
  {
    if xs != [] {
      var tail := xs[1..];
      HeaderLineBlocks(tail);
      assert Padded(xs) == [PadLeft(WIDTH, xs[0])] + Padded(tail);
      var first := PadLeft(WIDTH, xs[0]);
      assert HeaderLine(xs) == first + HeaderLine(tail);
      assert |first| == WIDTH;
      forall i | 0 <= i < |xs|
        ensures HeaderLine(xs)[WIDTH * i..WIDTH * (i + 1)] == PadLeft(WIDTH, xs[i])
      {
        if i > 0 {
          assert HeaderLine(xs)[WIDTH * i..WIDTH * (i + 1)]
            == HeaderLine(tail)[WIDTH * (i - 1)..WIDTH * i];
          assert tail[i - 1] == xs[i];
        }
      }
    }
  }

  /** With `k` fields whose names and labels fit in 15 characters, each of
      the three header lines is `15 * k` characters long. */
  lemma HeaderLineLengths(schema: seq<Field>)
    requires forall i :: 0 <= i < |schema| ==> |schema[i].name| <= WIDTH && |schema[i].typeLabel| <= WIDTH
    ensures |HeaderLine(Names(schema))| == WIDTH * |schema|
    ensures |HeaderLine(TypeLabels(schema))| == WIDTH * |schema|
    ensures |HeaderLine(Dashes(schema))| == WIDTH * |schema|
  {
    forall i | 0 <= i < |schema|
      ensures |Names(schema)[i]| <= WIDTH && |TypeLabels(schema)[i]| <= WIDTH
      ensures |Dashes(schema)[i]| <= WIDTH
    {
      FieldTexts(schema, i);
    }
    HeaderLineBlocks(Names(schema));
    HeaderLineBlocks(TypeLabels(schema));
    HeaderLineBlocks(Dashes(schema));
  }

  /** A row's line is at least `WIDTH` characters per cell, plus its line break. */
  lemma {:induction false} RowTextWidth(row: Row)
    ensures |Concat(Cells(row))| >= WIDTH * |row|
  {
    if row != [] {
      RowTextWidth(row[1..]);
      ConcatCons(CellText(row[0]), Cells(row[1..]));
    }
  }

  /** The writes for one row index spell out that index's data line. */
  lemma RowLineText(df: DataFrame, i: nat)
    ensures Concat(RowLine(df, i)) == Concat(PresentLine(df, i))
  {
    match Get(df, i)
    case None =>
    case Some(row) =>
      ConcatSnoc(Cells(row), "\n");
      ConcatCons(RowText(row), []);
  }

  /** The rows part of the rendering is the present rows' lines, in index
      order. */
  lemma {:induction false} RowsAreLines(df: DataFrame, from: nat)
    ensures Concat(RowWrites(df, from)) == Concat(PresentLines(df, from))
    decreases ROW_PREVIEW - from
  {
    if from < ROW_PREVIEW {
      RowsAreLines(df, from + 1);
      RowLineText(df, from);
      ConcatAppend(RowLine(df, from), RowWrites(df, from + 1));
      ConcatAppend(PresentLine(df, from), PresentLines(df, from + 1));
    }
  }

  /** There are at most `ROW_PREVIEW - from` data lines from index `from` on. */
  lemma {:induction false} AtMostPreviewLines(df: DataFrame, from: nat)
    requires from <= ROW_PREVIEW
    ensures |PresentLines(df, from)| <= ROW_PREVIEW - from
    decreases ROW_PREVIEW - from
  {
    if from < ROW_PREVIEW {
      AtMostPreviewLines(df, from + 1);
    }
  }

  /** When every index from `from` to 9 holds a row, there is a line for each. */
  lemma {:induction false} FullPreview(df: DataFrame, from: nat)
    requires from <= ROW_PREVIEW
    requires forall i :: from <= i < ROW_PREVIEW ==> Get(df, i).Some?
    ensures |PresentLines(df, from)| == ROW_PREVIEW - from
    decreases ROW_PREVIEW - from
  {
    if from < ROW_PREVIEW {
      FullPreview(df, from + 1);
      assert |PresentLine(df, from)| == 1;
    }
  }

  /** When no index from `from` to 9 holds a row, nothing is written for them. */
  lemma {:induction false} NoRowsNoWrites(df: DataFrame, from: nat)
    requires forall i :: from <= i < ROW_PREVIEW ==> Get(df, i).None?
    ensures RowWrites(df, from) == []
    decreases ROW_PREVIEW - from
  {
    if from < ROW_PREVIEW {
      NoRowsNoWrites(df, from + 1);
    }
  }

  /** Row indices from 10 on are never consulted. */
  lemma {:induction false} RowsReadOnlyPreview(df: DataFrame, dg: DataFrame, from: nat)
    requires forall i :: from <= i < ROW_PREVIEW ==> Get(df, i) == Get(dg, i)
    ensures RowWrites(df, from) == RowWrites(dg, from)
    decreases ROW_PREVIEW - from
  {
    if from < ROW_PREVIEW {
      RowsReadOnlyPreview(df, dg, from + 1);
    }
  }

  /** Two frames with the same schema and the same rows 0 to 9 render alike,
      on every device. */
  lemma FrameReadsOnlyPreview(df: DataFrame, dg: DataFrame, k: Sink)
    requires df.schema == dg.schema
    requires forall i :: 0 <= i < ROW_PREVIEW ==> Get(df, i) == Get(dg, i)
    ensures Emit(k, FrameWrites(df)) == Emit(k, FrameWrites(dg))
  {
    RowsReadOnlyPreview(df, dg, 0);
  }
}
