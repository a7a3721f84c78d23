/** The entities the renderers read: the scalar types, the `AnyType` cell, the
    `Series` column and the `DataFrame`. Their storage (chunked arrays, the
    schema type, row access) lives elsewhere in the library; here each is the
    plain value the renderers see through it. */
module Values {
  import opened Text

  newtype u32 = x: int | 0 <= x < 0x1_0000_0000
  newtype i32 = x: int | -0x8000_0000 <= x < 0x8000_0000
  newtype i64 = x: int | -0x8000_0000_0000_0000 <= x < 0x8000_0000_0000_0000

  /** A floating-point value, carried as the text Rust's shortest round-trip
      float printer gives for it. */
  datatype Float = Float(shortest: string)

  /** One cell of a row. */
  datatype AnyType =
    | Null
    | U32(u: u32)
    | I32(i: i32)
    | I64(l: i64)
    | F32(f: Float)
    | F64(d: Float)
    | Bool(b: bool)
    | Str(s: string)

  /** A column: the element variants the renderer handles, each a sequence of
      optional values (text without the optional wrapper), and `Other` for
      every variant it does not handle. The boolean column is `Booleans`
      (Rust's `Series::Bool`), so that its name does not clash with the
      `Bool` cell of `AnyType`. */
  datatype Series =
    | Int32(i32s: seq<Option<i32>>)
    | Int64(i64s: seq<Option<i64>>)
    | UInt32(u32s: seq<Option<u32>>)
    | Booleans(bools: seq<Option<bool>>)
    | Float32(f32s: seq<Option<Float>>)
    | Float64(f64s: seq<Option<Float>>)
    | Utf8(strs: seq<string>)
    | Other

  /** A schema entry: the field's name and the short label of its data type. */
  datatype Field = Field(name: string, typeLabel: string)

  type Row = seq<AnyType>

  /** A data frame: its schema, and what `get(i)` yields for each index `i`
      below `|rows|`; every later index yields nothing. */
  datatype DataFrame = DataFrame(schema: seq<Field>, rows: seq<Option<Row>>)

  /** `DataFrame::get`. */
  function Get(df: DataFrame, i: nat): Option<Row>
  {
    if i < |df.rows| then df.rows[i] else None
  }

  // ----- `Display` of the scalars, unpadded -----

  function BoolText(b: bool): string
  {
    if b then "true" else "false"
  }

  function U32Text(v: u32): string { IntText(v as int) }

  function I32Text(v: i32): string { IntText(v as int) }

  function I64Text(v: i64): string { IntText(v as int) }

  function FloatText(v: Float): string { v.shortest }
}
