# Text rendering of series and data frames

A Dafny model of `src/fmt.rs`, the debug and display output of the data-frame
library. The file renders three things:

- **a series**: a header naming the element type, then at most ten entries,
  then `]`. A value entry is `\t<value>\n`. A null entry is `\tnull`, with no
  line break.
- **a data frame**: three header lines of fields right-aligned to width 15
  (names, type labels, `---`), a blank line, and then one line for each row
  that `get(0)` to `get(9)` returns.
- **a single cell**: padded to a minimum width of 15, never truncated.

The model keeps the code's shape:

- The renderers are methods that write, one call at a time, to a `Formatter`
  class. Its state is the accepted text, the number of write calls so far,
  and the call numbers the device refuses.
- Each method is proved equal to a pure specification function over that
  state (`Sinks.Sink`).
- The specification functions capture the two error policies the file mixes:
  - `.ok()` is `Sinks.PutAll`: every write is attempted and refusals are
    ignored.
  - `?` is `Sinks.Emit`: the first refused write ends the rendering with `Err`.
- The lemmas then state what the output is and how refusals affect it.

Modules:

- `Text`: concatenation, padding, decimal text of integers, and UTF-8 byte
  prefixes.
- `Sinks`: the device, the two error policies, and the `Formatter` class.
- `Values`: `AnyType`, `Series`, `Field` and `DataFrame`.
- `CellFmt`: `Display for AnyType`.
- `SeriesFmt`: `Debug` and `Display` for `Series`.
- `FrameFmt`: `Display` and `Debug` for `DataFrame`.

Two behaviours of the code are worth knowing:

- **Cell alignment.** The cell format `{:width$}` gives no alignment flag, so
  Rust's defaults apply. Only number cells are right-aligned (padded on the
  left). `str`, `bool` and the `"null"` literal are padded on the right.
- **Short text elements.** A text element shorter than 10 bytes is not shown
  in full. `&v[..10]` panics on it, so `"hi"` makes the whole rendering panic
  (`Outcome.Panicked`).

## Model

| member | source | states |
|---|---|---|
| SeriesFmt.DebugSeries | src/fmt.rs:11-49 | The device state and outcome after `Debug::fmt` are exactly `DebugSpec`: the `format_series!` arm for the six handled column types, the text arm for `Utf8`, and `hello` for any other variant. |
| SeriesFmt.FormatColumn | src/fmt.rs:15-30 | The macro's loop over `take(10)` leaves the device and the result exactly as `ColumnSpec` says. The header is written with `?`, each entry with `.ok()`, and `]` decides the result. |
| SeriesFmt.FormatUtf8 | src/fmt.rs:39-45 | The text arm's loop leaves the device and outcome exactly as `Utf8Spec` says. Each of the first 10 elements is cut to 10 bytes. The first element that cannot be cut panics, and nothing after it is written. |
| SeriesFmt.DisplaySeries | src/fmt.rs:51-55 | `Display` for a series produces the same device state and outcome as `Debug`. |
| SeriesFmt.EntriesAt | src/fmt.rs:19-25 | Entry `i` of a column is `\t` + text + `\n` for a present value and `\tnull` for an absent one. |
| SeriesFmt.TextEntriesAt | src/fmt.rs:41-43 | Entry `j` of a text column is `\t`, then the element's prefix of exactly 10 UTF-8 bytes, then `\n`. |
| SeriesFmt.ColumnNoRefusal | src/fmt.rs:17-28 | On a device that refuses none of the calls, the output is the header, then the entries of the first `min(len, 10)` elements, then `]`. There are `min(len, 10) + 2` calls and the result is `Ok`. |
| SeriesFmt.ColumnErrorPolicy | src/fmt.rs:17-28 | A refused header gives `Err`, with nothing else written. Otherwise every entry is attempted, and a refused entry is simply missing from the output. The result is `Ok` exactly when the `]` write is accepted. |
| SeriesFmt.Utf8NoRefusal | src/fmt.rs:40-44 | When no call is refused and every slice succeeds, a text column renders as header, cut entries and `]`, with `Ok`. |
| SeriesFmt.Utf8PanicIff | src/fmt.rs:40-42 | A text column panics exactly when the header was accepted and one of its first 10 elements has no character boundary at byte 10. At the panic, one call has been made per element before the offending one. |
| SeriesFmt.Utf8ErrorPolicy | src/fmt.rs:40-44 | A refused header gives `Err`, with nothing else written. Otherwise every entry before the first panicking slice is attempted, and a refused entry is simply missing from the output. `]` is written only when no slice panics. The result is then `Ok` exactly when the `]` write is accepted. The call count is one per attempted write. |
| SeriesFmt.HeaderRefused | src/fmt.rs:32-46 | For every variant, a refused first write gives `Err` and leaves the text unchanged. |
| SeriesFmt.OtherPrintsHello | src/fmt.rs:46 | An unhandled variant writes `hello` and nothing else, and returns that write's result. |
| SeriesFmt.SeriesIgnoresTail | src/fmt.rs:18-41 | Two series of one variant that agree on their first 10 elements render identically on every device. |
| SeriesFmt.Int32WithNull | src/fmt.rs:19-28 | `[1, null, 3]` renders as `Series: i32 \n[\n\t1\n\tnull\t3\n]`. The null has no line break, so the next value follows on the same line. |
| CellFmt.CellText | src/fmt.rs:93-102 | A cell is `max(15, len(text))` characters long. |
| CellFmt.CellKeepsText | src/fmt.rs:93-102 | A cell contains the value's whole text with only spaces added: on the left for numbers, on the right for `str`, `bool` and `null`. A text of 15 or more characters is left as it is. |
| CellFmt.FmtCell | src/fmt.rs:91-105 | Displaying a cell is one write call of `CellText`, whose result is returned. |
| FrameFmt.DisplayDataFrame | src/fmt.rs:63-89 | The device state and result after `Display::fmt` are exactly `Emit` of the frame's writes, in order: the header block, then rows 0 to 9. The first refused write stops everything. |
| FrameFmt.DebugDataFrame | src/fmt.rs:57-61 | `Debug` for a data frame produces the same device state and result as `Display`. |
| FrameFmt.WriteHeader | src/fmt.rs:65-76 | The three header loops and their line breaks leave the device exactly as `Emit` of the header writes says. |
| FrameFmt.WritePadded | src/fmt.rs:65-67 | One header loop writes each text right-aligned to 15, with `?`. |
| FrameFmt.WriteRows | src/fmt.rs:78-87 | The loop over indices 0 to 9 writes the present rows and skips the absent ones, with `?`. |
| FrameFmt.WriteRow | src/fmt.rs:80-85 | A present row is its cells, then `\n`, with `?`. |
| FrameFmt.WriteCells | src/fmt.rs:81-83 | The cells of a row are written one call each, with `?`. |
| FrameFmt.FrameNoRefusal | src/fmt.rs:63-89 | On a device that refuses none of its calls, the whole frame text is written and the result is `Ok`. |
| FrameFmt.FrameStopsAtFirstRefusal | src/fmt.rs:63-89 | Whatever the device refuses, its text is a prefix of the full rendering. The result is `Ok` exactly when it holds all of it. |
| FrameFmt.FrameWritesNonEmpty | src/fmt.rs:65-85 | No write of the frame renderer is empty. |
| FrameFmt.HeaderText | src/fmt.rs:65-76 | The header block is the names line, `\n`, the type-label line, `\n`, the dashes line and `\n\n`. |
| FrameFmt.FrameLayout | src/fmt.rs:63-89 | The frame text is the header block followed by the row writes, with nothing after the last row. |
| FrameFmt.FieldTexts | src/fmt.rs:65-74 | Entry `i` of each header line belongs to field `i` in schema order: its name, its type label, and `---`. |
| FrameFmt.PaddedAt | src/fmt.rs:65-75 | Header entry `i` is `{:>15}` of its text. |
| FrameFmt.HeaderLineBlocks | src/fmt.rs:65-75 | With every text at most 15 characters, a header line is `15 * k` characters for `k` texts. Characters `15i` to `15(i+1)` are text `i` right-aligned, with no separators. |
| FrameFmt.HeaderLineLengths | src/fmt.rs:65-75 | With `k` fields whose names and labels fit in 15 characters, each of the three header lines is `15 * k` long. |
| FrameFmt.CellsAt | src/fmt.rs:81-83 | Cell write `i` of a row is that value's `Display`. |
| FrameFmt.RowTextWidth | src/fmt.rs:81-83 | A row's line has at least 15 characters per cell. |
| FrameFmt.RowLineText | src/fmt.rs:79-85 | The writes for one index spell its data line, or nothing for an absent row. |
| FrameFmt.RowsAreLines | src/fmt.rs:78-87 | The row part of the output is the present rows' lines, in index order. |
| FrameFmt.AtMostPreviewLines | src/fmt.rs:78 | There are at most 10 data lines. |
| FrameFmt.FullPreview | src/fmt.rs:78-80 | When indices 0 to 9 all hold rows, there are exactly 10 data lines. |
| FrameFmt.NoRowsNoWrites | src/fmt.rs:78-80 | When no index from 0 to 9 holds a row, nothing is written after the header. |
| FrameFmt.FrameReadsOnlyPreview | src/fmt.rs:78-79 | Frames with the same schema and the same `get(0)` to `get(9)` render alike on every device. |
| Sinks.Formatter.WriteStr | src/fmt.rs:17 | One `write!` is one call: the whole text is appended if the call is accepted, nothing if it is refused. The result says which. |
| Sinks.PutAllKeeps | src/fmt.rs:18-27 | Under `.ok()` the device ends with exactly the accepted writes, in order, one call per write. |
| Sinks.KeptAt | src/fmt.rs:21-24 | Under `.ok()`, write `i` is kept whole unless its call is refused, in which case it is dropped. |
| Sinks.KeptAll | src/fmt.rs:18-27 | When no call is refused, `.ok()` keeps every write. |
| Sinks.EmitCharacterized | src/fmt.rs:65-86 | Under `?` the device holds the writes before the first refused call, and that call is the last one made. The result is `Ok` exactly when no call was refused. |
| Sinks.EmitStopsAtErr | src/fmt.rs:65-86 | Under `?`, after a refused write the later writes change nothing. |
| Sinks.EmitNoRefusal | src/fmt.rs:65-86 | Under `?` with no refused call, every write lands and the result is `Ok`. |
| Sinks.EmitPrefix | src/fmt.rs:65-86 | Under `?` with non-empty writes, the device always holds a prefix of the full text. It holds all of it exactly when the result is `Ok`. |
| Text.NatTextRoundTrip | src/fmt.rs:96-98 | The decimal text of a natural number reads back as that number. |
| Text.IntTextRoundTrip | src/fmt.rs:96-98 | The decimal text of an integer, with its minus sign, reads back as that integer. |
| Text.NatTextDigits | src/fmt.rs:96-98 | Decimal text has only digits, and a leading `0` only for zero. |
| Text.PadLeftShape | src/fmt.rs:66 | `{:>w}` puts `max(w, len(s)) - len(s)` spaces before the whole text. |
| Text.PadRightShape | src/fmt.rs:95-102 | Default-aligned text gets the same number of spaces after it. |
| Text.SpacesBlank | src/fmt.rs:93-102 | Padding consists only of spaces. |
| Text.BytePrefix | src/fmt.rs:42 | `&v[..n]`, when it does not panic, is a prefix of `v` whose UTF-8 encoding is exactly `n` bytes. |
| Text.BytePrefixIff | src/fmt.rs:42 | `&v[..n]` panics exactly when byte `n` is not a character boundary of `v`. |
| Text.AsciiBytePrefix | src/fmt.rs:42 | On one-byte characters, the first `n` bytes are the first `n` characters. |
| Text.TooShortHasNoBytePrefix | src/fmt.rs:42 | A string shorter than `n` bytes cannot be cut at byte `n`. |

## Left out

- Float text: `f32` and `f64` cells and columns carry the text of Rust's shortest round-trip printer as a given string (`Values.Float`). Float formatting is floating-point numerics.
- Type labels: `data_type().to_str()` is defined elsewhere in the library, so each field carries its label as a given string.
- Storage: chunked-array iteration, `schema.fields()` and `DataFrame::get` are modelled as plain sequences. `get(i)` is a lookup that yields nothing past the stored rows.
- Formatter internals: each `write!` is one atomic call that the device either takes whole or refuses. A device that accepts part of one write is not modelled.
- Frame methods: `WritePadded`, `WriteCells`, `WriteRow`, `WriteHeader` and `WriteRows` are pieces of the single `fmt` of `Display for DataFrame`, split along its loops. Each `?` exit becomes a returned `Err` that the caller passes on.
- Integer widths: `u32`, `i32` and `i64` are range-restricted integers. Their decimal text is exact, and no arithmetic on them can wrap.
- Outcome of a panic: a panic ends the rendering as `Outcome.Panicked`. Unwinding and what the caller sees of a panic are outside the model.
- FrameFmt.FrameNoRefusal: states the text and the result, but not the call count. `Sinks.EmitNoRefusal` states the call count for any list of writes.
