/** `impl Display for AnyType`: one cell, written in a single padded `write!`
    with minimum width 15 and Rust's default alignment for the value's type. */
module CellFmt {
  import opened Text
  import opened Sinks
  import opened Values

  /** The minimum width of a cell and of a header entry. */
  const WIDTH: nat := 15

  /** The cell's text before padding; `Null` shows as `null`. */
  function ValueText(v: AnyType): string
  {
    match v
    case Null => "null"
    case U32(x) => U32Text(x)
    case I32(x) => I32Text(x)
    case I64(x) => I64Text(x)
    case F32(x) => FloatText(x)
    case F64(x) => FloatText(x)
    case Bool(x) => BoolText(x)
    case Str(x) => x
  }

  /** Numbers pad on the left by default; `str`, `bool` and the `"null"`
      literal pad on the right. */
  predicate IsNumber(v: AnyType)
  {
    v.U32? || v.I32? || v.I64? || v.F32? || v.F64?
  }

  /** `{:width$}` with `width = 15` applied to the cell's value. */
  function CellText(v: AnyType): (r: string)
    ensures |r| == Max(WIDTH, |ValueText(v)|)
  {
    if IsNumber(v) then PadLeft(WIDTH, ValueText(v)) else PadRight(WIDTH, ValueText(v))
  }

  /** A cell is never shorter than 15 characters and never cut: its text is
      all there, at the right or the left end, with only spaces beside it. */
  lemma CellKeepsText(v: AnyType)
    ensures var pad := Spaces(|CellText(v)| - |ValueText(v)|);
      CellText(v) == if IsNumber(v) then pad + ValueText(v) else ValueText(v) + pad
    ensures |CellText(v)| >= WIDTH && |CellText(v)| >= |ValueText(v)|
    ensures |ValueText(v)| >= WIDTH ==> CellText(v) == ValueText(v)
    ensures forall i :: 0 <= i < |CellText(v)| - |ValueText(v)| ==>
      (if IsNumber(v) then CellText(v)[i] else CellText(v)[|ValueText(v)| + i]) == ' '
  {
    PadLeftShape(WIDTH, ValueText(v));
    PadRightShape(WIDTH, ValueText(v));
    SpacesBlank(|CellText(v)| - |ValueText(v)|);
  }

  /** The one `write!` of `fmt` for a cell. */
  method FmtCell(v: AnyType, f: Formatter) returns (r: FmtResult)
    modifies f
    ensures f.State() == Put(old(f.State()), CellText(v))
    ensures r == ResultOf(old(f.State()))
  {
    r := f.WriteStr(CellText(v));
  }
}
