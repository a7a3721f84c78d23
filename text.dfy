/** Text primitives shared by the renderers: concatenation, the space padding
    that Rust's `Formatter` applies for a minimum width, the decimal text of
    integers, and the UTF-8 byte widths behind slicing a `str` by byte index. */
module Text {

  datatype Option<+T> = None | Some(value: T)

  function Max(a: int, b: int): int { if a < b then b else a }

  function Min(a: int, b: int): int { if a < b then a else b }

  /** The strings of `ws`, in order, with nothing between them. */
  function Concat(ws: seq<string>): string
  {
    if ws == [] then [] else ws[0] + Concat(ws[1..])
  }

  /** Taking one more element of a sequence appends that element. */
  lemma TakeNext<T>(s: seq<T>, i: nat)
    requires i < |s|
    ensures s[..i + 1] == s[..i] + [s[i]]
  {
  }

  /** A sequence is its prefix followed by the rest. */
  lemma TakeDrop<T>(s: seq<T>, i: nat)
    requires i <= |s|
    ensures s[..i] + s[i..] == s
  {
  }

  lemma ConcatCons(w: string, ws: seq<string>)
    ensures Concat([w] + ws) == w + Concat(ws)
  {
    assert ([w] + ws)[1..] == ws;
  }

  lemma {:induction false} ConcatAppend(a: seq<string>, b: seq<string>)
    ensures Concat(a + b) == Concat(a) + Concat(b)
  {
    if a == [] {
      assert a + b == b;
    } else {
      assert (a + b)[1..] == a[1..] + b;
      ConcatAppend(a[1..], b);
    }
  }

  lemma AppendAssoc<T>(a: seq<T>, b: seq<T>, c: seq<T>)
    ensures (a + b) + c == a + (b + c)
  {
  }

  /** Appending one more text to the list appends it to the concatenation. */
  lemma ConcatSnoc(ws: seq<string>, w: string)
    ensures Concat(ws + [w]) == Concat(ws) + w
  {
    ConcatAppend(ws, [w]);
    ConcatCons(w, []);
    assert w + Concat([]) == w;
  }

  function Spaces(n: nat): (r: string)
    ensures |r| == n
  {
    if n == 0 then [] else [' '] + Spaces(n - 1)
  }

  /** `Spaces(n)` holds nothing but spaces. */
  lemma {:induction false} SpacesBlank(n: nat)
    ensures forall i :: 0 <= i < n ==> Spaces(n)[i] == ' '
  {
    if n > 0 {
      SpacesBlank(n - 1);
      assert Spaces(n) == [' '] + Spaces(n - 1);
    }
  }

  /** `{:>w}`, and the default alignment of numbers: spaces on the left up to
      width `w`; a text already `w` characters wide is left as it is. */
  function PadLeft(w: nat, s: string): (r: string)
    ensures |r| == Max(w, |s|)
  {
    if |s| < w then Spaces(w - |s|) + s else s
  }

  /** The default alignment of `str` and `bool`: spaces on the right up to
      width `w`, never truncating. */
  function PadRight(w: nat, s: string): (r: string)
    ensures |r| == Max(w, |s|)
  {
    if |s| < w then s + Spaces(w - |s|) else s
  }

  /** Right alignment keeps the whole text, with only spaces before it. */
  lemma PadLeftShape(w: nat, s: string)
    ensures PadLeft(w, s) == Spaces(Max(w, |s|) - |s|) + s
  {
    var n := Max(w, |s|) - |s|;
    if |s| >= w {
      assert n == 0;
      assert Spaces(0) + s == s;
    } else {
      assert n == w - |s|;
    }
  }

  /** Left alignment keeps the whole text, with only spaces after it. */
  lemma PadRightShape(w: nat, s: string)
    ensures PadRight(w, s) == s + Spaces(Max(w, |s|) - |s|)
  {
    var n := Max(w, |s|) - |s|;
    if |s| >= w {
      assert n == 0;
      assert s + Spaces(0) == s;
    } else {
      assert n == w - |s|;
    }
  }

  // ----- decimal text of integers (Rust's `Display` for integer types) -----

  function DigitChar(d: nat): (c: char)
    requires d < 10
    ensures '0' <= c <= '9'
  {
    (d + '0' as int) as char
  }

  function DigitValue(c: char): int
  {
    c as int - '0' as int
  }

  /** The decimal digits of `n`, most significant first, without leading zeros. */
  function NatText(n: nat): (r: string)
    ensures |r| >= 1
  {
    if n < 10 then [DigitChar(n)] else NatText(n / 10) + [DigitChar(n % 10)]
  }

  /** `NatText` writes only digits, and a leading `0` only for zero itself. */
  lemma {:induction false} NatTextDigits(n: nat)
    ensures forall i :: 0 <= i < |NatText(n)| ==> '0' <= NatText(n)[i] <= '9'
    ensures NatText(n)[0] == '0' ==> n == 0 && NatText(n) == "0"
  {
    if n >= 10 {
      NatTextDigits(n / 10);
      var r, p := NatText(n), NatText(n / 10);
      assert r == p + [DigitChar(n % 10)];
      forall i | 0 <= i < |r|
        ensures '0' <= r[i] <= '9'
      {
        if i < |p| {
          assert r[i] == p[i];
        }
      }
      assert r[0] == p[0];
    }
  }

  /** The number a string of decimal digits denotes; the partner of `NatText`. */
  function NatValue(s: string): int
  {
    if s == [] then 0 else 10 * NatValue(s[..|s| - 1]) + DigitValue(s[|s| - 1])
  }

  lemma {:induction false} NatTextRoundTrip(n: nat)
    ensures NatValue(NatText(n)) == n
  {
    if n >= 10 {
      var r := NatText(n);
      assert r[..|r| - 1] == NatText(n / 10);
      NatTextRoundTrip(n / 10);
    }
  }

  /** Decimal text of an integer: a minus sign for negative values, then the digits. */
  function IntText(i: int): string
  {
    if i < 0 then "-" + NatText(-i) else NatText(i)
  }

  function IntValue(s: string): int
  {
    if |s| > 0 && s[0] == '-' then -NatValue(s[1..]) else NatValue(s)
  }

  lemma IntTextRoundTrip(i: int)
    ensures IntValue(IntText(i)) == i
  {
    if i < 0 {
      assert IntText(i)[1..] == NatText(-i);
      NatTextRoundTrip(-i);
    } else {
      NatTextDigits(i);
      NatTextRoundTrip(i);
    }
  }

  // ----- UTF-8 widths: a Rust `str` is the UTF-8 encoding of its characters -----

  /** Number of bytes UTF-8 uses for one Unicode scalar value. */
  function Utf8Len(c: char): (n: nat)
    ensures 1 <= n <= 4
  {
    if c as int < 0x80 then 1
    else if c as int < 0x800 then 2
    else if c as int < 0x1_0000 then 3
    else 4
  }

  /** Length in bytes of the UTF-8 encoding of `s` (Rust's `str::len`). */
  function Utf8Width(s: string): nat
  {
    if s == [] then 0 else Utf8Len(s[0]) + Utf8Width(s[1..])
  }

  /** Byte index `i` of `s` falls between two characters, or at either end
      (Rust's `str::is_char_boundary`, for an index within the string). */
  ghost predicate IsCharBoundary(s: string, i: nat)
  {
    exists k :: 0 <= k <= |s| && Utf8Width(s[..k]) == i
  }

  /** `&s[..n]` on a Rust `str`: the characters whose encoding fills the first
      `n` bytes, or None where the slice panics (byte `n` is past the end or
      inside a character). */
  function BytePrefix(s: string, n: nat): (r: Option<string>)
    ensures r.Some? ==> |r.value| <= |s| && r.value == s[..|r.value|]
    ensures r.Some? ==> Utf8Width(r.value) == n
  {
    if n == 0 then Some([])
    else if s == [] || n < Utf8Len(s[0]) then None
    else match BytePrefix(s[1..], n - Utf8Len(s[0]))
      case None => None
      case Some(p) =>
        var q := [s[0]] + p;
        assert q[1..] == p;
        Some(q)
  }

  lemma PrefixWidth(s: string, k: nat)
    requires 1 <= k <= |s|
    ensures Utf8Width(s[..k]) == Utf8Len(s[0]) + Utf8Width(s[1..][..k - 1])
  {
    assert s[..k][1..] == s[1..][..k - 1];
  }

  /** `BytePrefix` fails exactly when the slice end is not a character boundary. */
  lemma {:induction false} BytePrefixIff(s: string, n: nat)
    ensures BytePrefix(s, n).Some? <==> IsCharBoundary(s, n)
  {
    if BytePrefix(s, n).Some? {
      var p := BytePrefix(s, n).value;
      assert 0 <= |p| <= |s| && Utf8Width(s[..|p|]) == n;
    } else {
      forall k | 0 <= k <= |s|
        ensures Utf8Width(s[..k]) != n
      {
        if k > 0 {
          PrefixWidth(s, k);
          if Utf8Len(s[0]) <= n {
            BytePrefixIff(s[1..], n - Utf8Len(s[0]));
          }
        }
      }
    }
  }

  /** On characters of one byte each, the byte prefix is the character prefix. */
  lemma {:induction false} AsciiBytePrefix(s: string, n: nat)
    requires n <= |s|
    requires forall i :: 0 <= i < n ==> s[i] as int < 0x80
    ensures BytePrefix(s, n) == Some(s[..n])
  {
    if n > 0 {
      AsciiBytePrefix(s[1..], n - 1);
      assert [s[0]] + s[1..][..n - 1] == s[..n];
    }
  }

  lemma {:induction false} PrefixWidthBound(s: string, k: nat)
    requires k <= |s|
    ensures Utf8Width(s[..k]) <= Utf8Width(s)
  {
    if k > 0 {
      PrefixWidth(s, k);
      PrefixWidthBound(s[1..], k - 1);
    }
  }

  /** A string whose encoding is shorter than `n` bytes cannot be sliced at `n`. */
  lemma TooShortHasNoBytePrefix(s: string, n: nat)
    requires Utf8Width(s) < n
    ensures BytePrefix(s, n).None?
  {
    BytePrefixIff(s, n);
    forall k | 0 <= k <= |s|
      ensures Utf8Width(s[..k]) != n
    {
      PrefixWidthBound(s, k);
    }
  }
}
