/** `impl Debug for Series` and `impl Display for Series`: a header naming the
    element type, at most `LIMIT` entries, then `]`. Element writes go through
    `.ok()`, so a refused element write is ignored; the header and the closing
    bracket go through `?` and decide the result. */
module SeriesFmt {
  import opened Text
  import opened Sinks
  import opened Values

  /** How many elements are shown, and the byte length a text entry is cut to. */
  const LIMIT: nat := 10

  /** What rendering a series ends in: a returned `fmt::Result`, or a panic
      from slicing a text element. */
  datatype Outcome = Returned(result: FmtResult) | Panicked

  function Header(typeName: string): string
  {
    "Series: " + typeName + " \n[\n"
  }

  /** One element: its text on a line of its own after a tab, or `null`
      after a tab with no line break. */
  function Entry(item: Option<string>): string
  {
    match item
    case Some(t) => "\t" + t + "\n"
    case None => "\tnull"
  }

  /** `iter().take(LIMIT)`. */
  function Take<T>(xs: seq<T>): (r: seq<T>)
    ensures |r| == Min(|xs|, LIMIT)
  {
    xs[..Min(|xs|, LIMIT)]
  }

  function Entries(items: seq<Option<string>>): (r: seq<string>)
    ensures |r| == |items|
  {
    if items == [] then []
    else Entries(items[..|items| - 1]) + [Entry(items[|items| - 1])]
  }

  /** Entry `i` is element `i` written as `format_series!` writes it. */
  lemma {:induction false} EntriesAt(items: seq<Option<string>>, i: nat)
    requires i < |items|
    ensures Entries(items)[i] == Entry(items[i])
  {
    var n := |items|;
    if i < n - 1 {
      EntriesAt(items[..n - 1], i);
    }
  }

  /** The unpadded `Display` text of each present element of a column. */
  function ShowAll<T>(xs: seq<Option<T>>, show: T -> string): (r: seq<Option<string>>)
    ensures |r| == |xs|
  {
    seq(|xs|, i requires 0 <= i < |xs| =>
      match xs[i] case Some(v) => Some(show(v)) case None => None)
  }

  /** The type name `format_series!` is given for each column variant it handles. */
  function Label(s: Series): string
    requires !s.Utf8? && !s.Other?
  {
    match s
    case Int32(_) => "i32"
    case Int64(_) => "i64"
    case UInt32(_) => "u32"
    case Booleans(_) => "bool"
    case Float32(_) => "f32"
    case Float64(_) => "f64"
  }

  function Items(s: Series): seq<Option<string>>
    requires !s.Utf8? && !s.Other?
  {
    match s
    case Int32(a) => ShowAll(a, I32Text)
    case Int64(a) => ShowAll(a, I64Text)
    case UInt32(a) => ShowAll(a, U32Text)
    case Booleans(a) => ShowAll(a, BoolText)
    case Float32(a) => ShowAll(a, FloatText)
    case Float64(a) => ShowAll(a, FloatText)
  }

  // ----- the specification: what each arm does to the device -----

  /** The `format_series!` macro: the header with `?`, each of the first
      `LIMIT` entries with `.ok()`, then `]`, whose result is returned. */
  function ColumnSpec(k: Sink, typeName: string, items: seq<Option<string>>): (Sink, FmtResult)
  {
    var k0 := Put(k, Header(typeName));
    if !Accepts(k) then (k0, Err)
    else
      var k1 := PutAll(k0, Entries(Take(items)));
      (Put(k1, "]"), ResultOf(k1))
  }

  /** Position of the first of `vs` whose slice `&v[..LIMIT]` panics; `|vs|`
      when none does. */
  function FirstPanic(vs: seq<string>): (m: nat)
    ensures m <= |vs|
    ensures forall j :: 0 <= j < m ==> BytePrefix(vs[j], LIMIT).Some?
    ensures m < |vs| ==> BytePrefix(vs[m], LIMIT).None?
  {
    if vs == [] || BytePrefix(vs[0], LIMIT).None? then 0
    else 1 + FirstPanic(vs[1..])
  }

  /** The entries of the first `m` text elements, each cut to `LIMIT` bytes. */
  function TextEntries(vs: seq<string>, m: nat): (r: seq<string>)
    requires m <= FirstPanic(vs)
    ensures |r| == m
  {
    if m == 0 then []
    else TextEntries(vs, m - 1) + ["\t" + BytePrefix(vs[m - 1], LIMIT).value + "\n"]
  }

  /** Entry `j` is text element `j` cut to its first `LIMIT` bytes, after a
      tab and before a line break. */
  lemma {:induction false} TextEntriesAt(vs: seq<string>, m: nat, j: nat)
    requires m <= FirstPanic(vs) && j < m
    ensures BytePrefix(vs[j], LIMIT).Some?
    ensures TextEntries(vs, m)[j] == "\t" + BytePrefix(vs[j], LIMIT).value + "\n"
    ensures Utf8Width(BytePrefix(vs[j], LIMIT).value) == LIMIT
  {
    if j < m - 1 {
      TextEntriesAt(vs, m - 1, j);
    }
  }

  /** The `Utf8` arm: like `format_series!`, but with no optional wrapper and
      each element sliced to its first `LIMIT` bytes, which may panic. */
  function Utf8Spec(k: Sink, a: seq<string>): (Sink, Outcome)
  {
    var k0 := Put(k, Header("str"));
    if !Accepts(k) then (k0, Returned(Err))
    else
      var vs := Take(a);
      var m := FirstPanic(vs);
      var k1 := PutAll(k0, TextEntries(vs, m));
      if m < |vs| then (k1, Panicked)
      else (Put(k1, "]"), Returned(ResultOf(k1)))
  }

  /** `Debug::fmt` for a series, arm by arm. */
  function DebugSpec(s: Series, k: Sink): (Sink, Outcome)
  {
    match s
    case Utf8(a) => Utf8Spec(k, a)
    case Other => (Put(k, "hello"), Returned(ResultOf(k)))
    case _ =>
      var c := ColumnSpec(k, Label(s), Items(s));
      (c.0, Returned(c.1))
  }

  // ----- the renderer -----

  /** The `format_series!` macro, instantiated with a column's type name and the
      text of its elements. */
  method FormatColumn(f: Formatter, typeName: string, items: seq<Option<string>>) returns (r: FmtResult)
    modifies f
    ensures (f.State(), r) == ColumnSpec(old(f.State()), typeName, items)
  {
    r := f.WriteStr(Header(typeName));
    if r == Err {
      return;
    }
    ghost var k1 := f.State();
    var n := Min(|items|, LIMIT);
    var i := 0;
    while i < n
      invariant 0 <= i <= n
      invariant f.State() == PutAll(k1, Entries(items[..i]))
    {
      var ignored := f.WriteStr(Entry(items[i]));
      assert items[..i + 1][..i] == items[..i];
      PutAllStep(k1, Entries(items[..i]), Entry(items[i]));
      i := i + 1;
    }
    assert items[..n] == Take(items);
    r := f.WriteStr("]");
  }

  /** The `Utf8` arm. */
  method FormatUtf8(f: Formatter, a: seq<string>) returns (o: Outcome)
    modifies f
    ensures f.State() == Utf8Spec(old(f.State()), a).0
    ensures o == Utf8Spec(old(f.State()), a).1
  {
    var r := f.WriteStr(Header("str"));
    if r == Err {
      return Returned(Err);
    }
    ghost var k1 := f.State();
    ghost var vs := Take(a);
    var n := Min(|a|, LIMIT);
    var i := 0;
    while i < n
      invariant 0 <= i <= n && i <= FirstPanic(vs)
      invariant f.State() == PutAll(k1, TextEntries(vs, i))
    {
      assert vs[i] == a[i];
      var p := BytePrefix(a[i], LIMIT);
      if p.None? {
        assert FirstPanic(vs) == i;
        return Panicked;
      }
      var w := "\t" + p.value + "\n";
      assert TextEntries(vs, i + 1) == TextEntries(vs, i) + [w];
      var ignored := f.WriteStr(w);
      PutAllStep(k1, TextEntries(vs, i), w);
      i := i + 1;
    }
    r := f.WriteStr("]");
    o := Returned(r);
  }

  /** `impl Debug for Series`. */
  method DebugSeries(s: Series, f: Formatter) returns (o: Outcome)
    modifies f
    ensures (f.State(), o) == DebugSpec(s, old(f.State()))
  {
    match s {
      case Int32(a) =>
        var r := FormatColumn(f, "i32", ShowAll(a, I32Text));
        o := Returned(r);
      case Int64(a) =>
        var r := FormatColumn(f, "i64", ShowAll(a, I64Text));
        o := Returned(r);
      case UInt32(a) =>
        var r := FormatColumn(f, "u32", ShowAll(a, U32Text));
        o := Returned(r);
      case Booleans(a) =>
        var r := FormatColumn(f, "bool", ShowAll(a, BoolText));
        o := Returned(r);
      case Float32(a) =>
        var r := FormatColumn(f, "f32", ShowAll(a, FloatText));
        o := Returned(r);
      case Float64(a) =>
        var r := FormatColumn(f, "f64", ShowAll(a, FloatText));
        o := Returned(r);
      case Utf8(a) =>
        o := FormatUtf8(f, a);
      case Other =>
        var r := f.WriteStr("hello");
        o := Returned(r);
    }
  }

  /** `impl Display for Series` delegates to `Debug`: same output, same result. */
  method DisplaySeries(s: Series, f: Formatter) returns (o: Outcome)
    modifies f
    ensures (f.State(), o) == DebugSpec(s, old(f.State()))
  {
    o := DebugSeries(s, f);
  }

  // ----- properties -----

  /** On a device that refuses nothing, a handled non-text column renders as
      its header, one entry for each of its first `LIMIT` elements, and `]`;
      the call succeeds. */
  lemma ColumnNoRefusal(k: Sink, typeName: string, items: seq<Option<string>>)
    requires AcceptsNext(k, |Take(items)| + 2)
    ensures ColumnSpec(k, typeName, items) ==
      (Sink(k.out + Header(typeName) + Concat(Entries(Take(items))) + "]",
            k.calls + |Take(items)| + 2, k.failing),
       Ok)
  {
    var k0 := Put(k, Header(typeName));
    PutAllKeeps(k0, Entries(Take(items)));
    KeptAll(k0, Entries(Take(items)));
  }

  /** The error policy of `format_series!`. A refused header write ends the
      rendering with `Err` before any element is written. Otherwise every one
      of the first `LIMIT` entries is attempted, a refused one simply missing
      from the output, and the result is that of writing `]`. */
  lemma ColumnErrorPolicy(k: Sink, typeName: string, items: seq<Option<string>>)
    ensures var c := ColumnSpec(k, typeName, items);
      var n := |Take(items)|;
      if !Accepts(k) then c == (Sink(k.out, k.calls + 1, k.failing), Err)
      else
        && c.0.calls == k.calls + n + 2
        && c.0.out == k.out + Header(typeName)
                      + Concat(KeptItems(Put(k, Header(typeName)), Entries(Take(items))))
                      + (if k.calls + n + 1 in k.failing then "" else "]")
        && (c.1 == Ok <==> k.calls + n + 1 !in k.failing)
  {
    PutAllKeeps(Put(k, Header(typeName)), Entries(Take(items)));
  }

  /** On a device that refuses nothing, and when no slice panics, a text
      column renders as its header, each of its first `LIMIT` elements cut to
      `LIMIT` bytes, and `]`. */
  lemma Utf8NoRefusal(k: Sink, a: seq<string>)
    requires AcceptsNext(k, |Take(a)| + 2)
    requires forall j :: 0 <= j < |Take(a)| ==> BytePrefix(a[j], LIMIT).Some?
    ensures FirstPanic(Take(a)) == |Take(a)|
    ensures Utf8Spec(k, a) ==
      (Sink(k.out + Header("str") + Concat(TextEntries(Take(a), |Take(a)|)) + "]",
            k.calls + |Take(a)| + 2, k.failing),
       Returned(Ok))
  {
    var vs := Take(a);
    var k0 := Put(k, Header("str"));
    var es := TextEntries(vs, |vs|);
    PutAllKeeps(k0, es);
    KeptAll(k0, es);
    var k1 := PutAll(k0, es);
    assert k1 == Sink(k.out + Header("str") + Concat(es), k.calls + 1 + |vs|, k.failing);
    assert Accepts(k1);
  }

  /** A text column panics exactly when the header was written and one of its
      first `LIMIT` elements has no character boundary at byte `LIMIT`; the
      closing `]` is then never written. */
  lemma Utf8PanicIff(k: Sink, a: seq<string>)
    ensures Utf8Spec(k, a).1 == Panicked <==>
      Accepts(k) && exists j :: 0 <= j < |Take(a)| && !IsCharBoundary(a[j], LIMIT)
    ensures Utf8Spec(k, a).1 == Panicked ==>
      Utf8Spec(k, a).0.calls == k.calls + 1 + FirstPanic(Take(a))
  {
    var vs := Take(a);
    var m := FirstPanic(vs);
    if Accepts(k) {
      PutAllKeeps(Put(k, Header("str")), TextEntries(vs, m));
      if m < |vs| {
        BytePrefixIff(a[m], LIMIT);
      } else {
        forall j | 0 <= j < |vs|
          ensures IsCharBoundary(a[j], LIMIT)
        {
          BytePrefixIff(a[j], LIMIT);
        }
      }
    }
  }

  /** The error policy of the `Utf8` arm. A refused header write ends the
      rendering with `Err` before any element is written. Otherwise every
      entry up to the first panicking slice is attempted, a refused one simply
      missing from the output; `]` is written only when no slice panics, and
      its result is then the result of the rendering. */
  lemma Utf8ErrorPolicy(k: Sink, a: seq<string>)
    ensures var vs := Take(a);
      var m := FirstPanic(vs);
      var k0 := Put(k, Header("str"));
      var u := Utf8Spec(k, a);
      if !Accepts(k) then u == (Sink(k.out, k.calls + 1, k.failing), Returned(Err))
      else
        && u.0.out == k.out + Header("str") + Concat(KeptItems(k0, TextEntries(vs, m)))
                      + (if m < |vs| || k.calls + m + 1 in k.failing then "" else "]")
        && u.0.calls == k.calls + m + (if m < |vs| then 1 else 2)
        && (m == |vs| ==> (u.1 == Returned(Ok) <==> k.calls + m + 1 !in k.failing))
  {
    var vs := Take(a);
    var m := FirstPanic(vs);
    var k0 := Put(k, Header("str"));
    PutAllKeeps(k0, TextEntries(vs, m));
    if Accepts(k) {
      var k1 := PutAll(k0, TextEntries(vs, m));
      assert k1.calls == k.calls + 1 + m;
      var text := k.out + Header("str") + Concat(KeptItems(k0, TextEntries(vs, m)));
      assert k1.out == text;
      if m < |vs| {
        assert Utf8Spec(k, a) == (k1, Panicked);
        assert text + "" == text;
      } else {
        assert Utf8Spec(k, a) == (Put(k1, "]"), Returned(ResultOf(k1)));
        if !Accepts(k1) {
          assert text + "" == text;
        }
      }
    }
  }

  /** A refused header write: whatever the variant, nothing reaches the
      device and the result is `Err`. */
  lemma HeaderRefused(s: Series, k: Sink)
    requires !Accepts(k)
    ensures DebugSpec(s, k) == (Sink(k.out, k.calls + 1, k.failing), Returned(Err))
  {
  }

  /** A variant the renderer does not handle prints `hello` and nothing else. */
  lemma OtherPrintsHello(k: Sink)
    ensures DebugSpec(Other, k).0.out == if Accepts(k) then k.out + "hello" else k.out
    ensures DebugSpec(Other, k).0.calls == k.calls + 1
    ensures DebugSpec(Other, k).1 == Returned(ResultOf(k))
  {
  }

  /** Two series of one variant that agree on their first `LIMIT` elements. */
  predicate SameHead(s: Series, t: Series)
  {
    match (s, t)
    case (Int32(a), Int32(b)) => Take(a) == Take(b)
    case (Int64(a), Int64(b)) => Take(a) == Take(b)
    case (UInt32(a), UInt32(b)) => Take(a) == Take(b)
    case (Booleans(a), Booleans(b)) => Take(a) == Take(b)
    case (Float32(a), Float32(b)) => Take(a) == Take(b)
    case (Float64(a), Float64(b)) => Take(a) == Take(b)
    case (Utf8(a), Utf8(b)) => Take(a) == Take(b)
    case (Other, Other) => true
    case _ => false
  }

  lemma TakeShowAll<T>(a: seq<Option<T>>, b: seq<Option<T>>, show: T -> string)
    requires Take(a) == Take(b)
    ensures Take(ShowAll(a, show)) == Take(ShowAll(b, show))
  {
    assert |Take(ShowAll(a, show))| == |Take(ShowAll(b, show))|;
    forall i | 0 <= i < |Take(ShowAll(a, show))|
      ensures Take(ShowAll(a, show))[i] == Take(ShowAll(b, show))[i]
    {
      assert a[i] == Take(a)[i] == Take(b)[i] == b[i];
    }
  }

  /** Elements past the first `LIMIT` never affect the rendering. */
  lemma SeriesIgnoresTail(s: Series, t: Series, k: Sink)
    requires SameHead(s, t)
    ensures DebugSpec(s, k) == DebugSpec(t, k)
  {
    match (s, t) {
      case (Int32(a), Int32(b)) => TakeShowAll(a, b, I32Text);
      case (Int64(a), Int64(b)) => TakeShowAll(a, b, I64Text);
      case (UInt32(a), UInt32(b)) => TakeShowAll(a, b, U32Text);
      case (Booleans(a), Booleans(b)) => TakeShowAll(a, b, BoolText);
      case (Float32(a), Float32(b)) => TakeShowAll(a, b, FloatText);
      case (Float64(a), Float64(b)) => TakeShowAll(a, b, FloatText);
      case (Utf8(a), Utf8(b)) =>
      case (Other, Other) =>
    }
  }

  /** An `i32` column with a null in the middle: the null entry has no line
      break, so the next value follows it on the same line. */
  lemma Int32WithNull()
    ensures DebugSpec(Int32([Some(1), None, Some(3)]), Sink([], 0, {})) ==
      (Sink(Header("i32") + "\t1\n" + "\tnull" + "\t3\n" + "]", 5, {}), Returned(Ok))
  {
    var k: Sink := Sink([], 0, {});
    var items := Items(Int32([Some(1), None, Some(3)]));
    Int32WithNullItems(items);
    ColumnNoRefusal(k, "i32", items);
    assert [] + Header("i32") == Header("i32");
    var c := ColumnSpec(k, "i32", items);
    assert c.0 == Sink(Header("i32") + ("\t1\n" + "\tnull" + "\t3\n") + "]", 5, {});
    assert c.1 == Ok;
    var s := Int32([Some(1), None, Some(3)]);
    assert DebugSpec(s, k) == (c.0, Returned(c.1));
    assert Header("i32") + ("\t1\n" + "\tnull" + "\t3\n") + "]" == Header("i32") + "\t1\n" + "\tnull" + "\t3\n" + "]";
  }

  lemma Int32WithNullItems(items: seq<Option<string>>)
    requires items == Items(Int32([Some(1), None, Some(3)]))
    ensures Take(items) == items
    ensures Concat(Entries(items)) == "\t1\n" + "\tnull" + "\t3\n"
  {
    assert DigitChar(1) == '1' && DigitChar(3) == '3';
    assert I32Text(1) == "1" && I32Text(3) == "3";
    assert items == [Some("1"), None, Some("3")];
    assert Entry(items[0]) == "\t1\n" && Entry(items[1]) == "\tnull" && Entry(items[2]) == "\t3\n";
    var es := Entries(items);
    assert Entries(items[..1]) == ["\t1\n"] by { assert items[..1][..0] == []; }
    assert Entries(items[..2]) == ["\t1\n", "\tnull"] by { assert items[..2][..1] == items[..1]; }
    assert es == ["\t1\n", "\tnull", "\t3\n"] by { assert items[..2] == items[..|items| - 1]; }
    assert es[1..][1..][1..] == [];
    assert Concat(es[1..][1..]) == "\t3\n";
    assert Concat(es[1..]) == "\tnull\t3\n";
  }
}
