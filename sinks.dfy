/** The output device behind a `std::fmt::Formatter`, and the two ways the
    renderers react to a refused write: `.ok()` (ignore it and go on) and `?`
    (stop and return the error). */
module Sinks {
  import opened Text

  /** A `fmt::Result`: success, or the error the device reported. */
  datatype FmtResult = Ok | Err

  /** The state of the device: the text it has accepted so far, how many
      write calls it has received, and the numbers (counting from 0) of the
      write calls it refuses. A refused write adds nothing. */
  datatype Sink = Sink(out: string, calls: nat, failing: set<nat>)

  /** The next write call will be accepted. */
  predicate Accepts(k: Sink)
  {
    k.calls !in k.failing
  }

  /** None of the next `n` write calls will be refused. */
  predicate AcceptsNext(k: Sink, n: nat)
  {
    forall c :: c in k.failing ==> c < k.calls || k.calls + n <= c
  }

  /** One write call of the text `s`. */
  function Put(k: Sink, s: string): Sink
  {
    Sink(if Accepts(k) then k.out + s else k.out, k.calls + 1, k.failing)
  }

  function ResultOf(k: Sink): FmtResult
  {
    if Accepts(k) then Ok else Err
  }

  // ----- `.ok()`: every write is attempted, its result thrown away -----

  /** Writes `ws` one call each, in order, ignoring refusals. */
  function PutAll(k: Sink, ws: seq<string>): Sink
  {
    if ws == [] then k else Put(PutAll(k, ws[..|ws| - 1]), ws[|ws| - 1])
  }

  /** What the device keeps of the write numbered `c`: all of `w`, or
      nothing if it refuses that call. */
  function Kept(k: Sink, c: nat, w: string): string
  {
    if c in k.failing then "" else w
  }

  /** For each of `ws`, the text the device keeps of it when it is written
      starting at call number `k.calls`. */
  function KeptItems(k: Sink, ws: seq<string>): (r: seq<string>)
    ensures |r| == |ws|
  {
    if ws == [] then []
    else KeptItems(k, ws[..|ws| - 1]) + [Kept(k, k.calls + |ws| - 1, ws[|ws| - 1])]
  }

  /** Entry `i` is what the device keeps of the write with call number
      `k.calls + i`. */
  lemma {:induction false} KeptAt(k: Sink, ws: seq<string>, i: nat)
    requires i < |ws|
    ensures KeptItems(k, ws)[i] == Kept(k, k.calls + i, ws[i])
  {
    var n := |ws|;
    if i < n - 1 {
      KeptAt(k, ws[..n - 1], i);
    }
  }

  lemma PutAllStep(k: Sink, ws: seq<string>, w: string)
    ensures PutAll(k, ws + [w]) == Put(PutAll(k, ws), w)
  {
    assert (ws + [w])[..|ws|] == ws;
  }

  /** Under `.ok()` the device ends up with exactly the accepted writes, in
      order, and one call has been made per write. */
  lemma {:induction false} PutAllKeeps(k: Sink, ws: seq<string>)
    ensures PutAll(k, ws) == Sink(k.out + Concat(KeptItems(k, ws)), k.calls + |ws|, k.failing)
  {
    if ws != [] {
      var n := |ws|;
      var init := ws[..n - 1];
      PutAllKeeps(k, init);
      var mid := PutAll(k, init);
      var kept := KeptItems(k, init);
      var last := Kept(k, k.calls + n - 1, ws[n - 1]);
      assert KeptItems(k, ws) == kept + [last];
      ConcatSnoc(kept, last);
      assert Put(mid, ws[n - 1]).out == mid.out + last;
      AppendAssoc(k.out, Concat(kept), last);
    }
  }

  /** When no write is refused, every write is kept. */
  lemma {:induction false} KeptAll(k: Sink, ws: seq<string>)
    requires AcceptsNext(k, |ws|)
    ensures KeptItems(k, ws) == ws
  {
    if ws != [] {
      var n := |ws|;
      KeptAll(k, ws[..n - 1]);
      assert k.calls + n - 1 !in k.failing;
      TakeNext(ws, n - 1);
    }
  }

  // ----- `?`: the first refused write ends the rendering -----

  /** Writes `ws` one call each, in order, stopping after the first refused
      call; the result is `Err` exactly when one was refused. */
  function Emit(k: Sink, ws: seq<string>): (Sink, FmtResult)
  {
    if ws == [] then (k, Ok)
    else
      var before := Emit(k, ws[..|ws| - 1]);
      if before.1 == Err then before else (Put(before.0, ws[|ws| - 1]), ResultOf(before.0))
  }

  /** Index, among the next `n` calls, of the first one the device refuses;
      `n` when it refuses none of them. */
  function FirstRefused(k: Sink, n: nat): (m: nat)
    ensures m <= n
    ensures forall c :: k.calls <= c < k.calls + m ==> c !in k.failing
    ensures m < n ==> k.calls + m in k.failing
  {
    if n == 0 then 0
    else
      var m := FirstRefused(k, n - 1);
      if m < n - 1 then m
      else if k.calls + n - 1 in k.failing then n - 1
      else n
  }

  lemma EmitStep(k: Sink, done: seq<string>, w: string)
    requires Emit(k, done).1 == Ok
    ensures Emit(k, done + [w]) == (Put(Emit(k, done).0, w), ResultOf(Emit(k, done).0))
  {
    assert (done + [w])[..|done|] == done;
  }

  lemma EmitOne(k: Sink, w: string)
    ensures Emit(k, [w]) == (Put(k, w), ResultOf(k))
  {
    assert [w][..0] == [];
  }

  /** Under `?` the device ends up with the writes before the first refused
      one, one call more than those writes if a call was refused, and the
      result is `Ok` exactly when no call was refused. */
  lemma {:induction false} EmitCharacterized(k: Sink, ws: seq<string>)
    ensures var m := FirstRefused(k, |ws|);
      && Emit(k, ws).0.out == k.out + Concat(ws[..m])
      && Emit(k, ws).0.calls == (if m < |ws| then k.calls + m + 1 else k.calls + m)
      && Emit(k, ws).0.failing == k.failing
      && (Emit(k, ws).1 == Ok <==> m == |ws|)
  {
    var n := |ws|;
    if n == 0 {
      assert ws[..0] == [];
    } else {
      var init, last := ws[..n - 1], ws[n - 1];
      EmitCharacterized(k, init);
      var m := FirstRefused(k, n - 1);
      var before := Emit(k, init);
      if m < n - 1 {
        assert init[..m] == ws[..m];
      } else {
        assert init[..n - 1] == init;
        if k.calls + n - 1 !in k.failing {
          TakeNext(ws, n - 1);
          ConcatSnoc(init, last);
          AppendAssoc(k.out, Concat(init), last);
        }
      }
    }
  }

  /** After a refused write under `?`, later writes change nothing. */
  lemma {:induction false} EmitStopsAtErr(k: Sink, done: seq<string>, rest: seq<string>)
    requires Emit(k, done).1 == Err
    ensures Emit(k, done + rest) == Emit(k, done)
  {
    if rest != [] {
      var init := rest[..|rest| - 1];
      EmitStopsAtErr(k, done, init);
      assert (done + rest)[..|done + rest| - 1] == done + init;
    } else {
      assert done + rest == done;
    }
  }

  /** `?` composes: writing `a` and then `b` is writing `a + b`. */
  lemma {:induction false} EmitAppend(k: Sink, a: seq<string>, b: seq<string>)
    ensures Emit(k, a + b) == if Emit(k, a).1 == Err then Emit(k, a) else Emit(Emit(k, a).0, b)
  {
    if b == [] {
      assert a + b == a;
    } else {
      var init := b[..|b| - 1];
      EmitAppend(k, a, init);
      assert (a + b)[..|a + b| - 1] == a + init;
    }
  }

  /** Under `?`, a device that refuses none of the writes takes all of them. */
  lemma EmitNoRefusal(k: Sink, ws: seq<string>)
    requires AcceptsNext(k, |ws|)
    ensures Emit(k, ws).0.out == k.out + Concat(ws)
    ensures Emit(k, ws).0.calls == k.calls + |ws|
    ensures Emit(k, ws).1 == Ok
  {
    EmitCharacterized(k, ws);
    assert ws[..|ws|] == ws;
  }

  /** `a` is a prefix of `a + b`, and a proper one when `b` is not empty. */
  lemma PrefixOfAppend<T>(a: seq<T>, b: seq<T>)
    ensures a <= a + b
    ensures |b| > 0 ==> a != a + b
  {
    assert (a + b)[..|a|] == a;
  }

  /** A write that adds at least one character. */
  predicate NonEmptyWrites(ws: seq<string>)
  {
    forall i :: 0 <= i < |ws| ==> |ws[i]| > 0
  }

  /** Two lists of non-empty writes, one after the other, are non-empty writes. */
  lemma NonEmptyAppend(a: seq<string>, b: seq<string>)
    requires NonEmptyWrites(a) && NonEmptyWrites(b)
    ensures NonEmptyWrites(a + b)
  {
    forall i | 0 <= i < |a + b|
      ensures |(a + b)[i]| > 0
    {
      if i >= |a| {
        assert (a + b)[i] == b[i - |a|];
      }
    }
  }

  /** Under `?` the device always holds a prefix of the full text, and the
      result is `Ok` exactly when it holds all of it (provided no write is
      empty, so a refused write always leaves something out). */
  lemma EmitPrefix(k: Sink, ws: seq<string>)
    requires NonEmptyWrites(ws)
    ensures var (k1, r) := Emit(k, ws);
      k1.out <= k.out + Concat(ws) && (r == Ok <==> k1.out == k.out + Concat(ws))
  {
    EmitCharacterized(k, ws);
    var m := FirstRefused(k, |ws|);
    var done, rest := ws[..m], ws[m..];
    if m < |ws| {
      TakeDrop(ws, m);
      ConcatAppend(done, rest);
      assert rest == [ws[m]] + ws[m + 1..];
      ConcatCons(ws[m], ws[m + 1..]);
      AppendAssoc(k.out, Concat(done), Concat(rest));
      PrefixOfAppend(k.out + Concat(done), Concat(rest));
    } else {
      assert done == ws;
    }
  }

  /** A `Formatter` as the renderers use it: each `write!` is one call to the
      device, which either takes the whole text or refuses it. */
  class Formatter {
    var out: string
    var calls: nat
    const failing: set<nat>

    function State(): Sink
      reads this
    {
      Sink(out, calls, failing)
    }

    constructor (failing: set<nat>)
      ensures State() == Sink([], 0, failing)
    {
      out := [];
      calls := 0;
      this.failing := failing;
    }

    /** One `write!(f, ...)` of the already formatted text `s`. */
    method WriteStr(s: string) returns (r: FmtResult)
      modifies this
      ensures State() == Put(old(State()), s)
      ensures r == ResultOf(old(State()))
      ensures r == Ok <==> out == old(out) + s && old(calls) !in failing
    {
      if calls in failing {
        r := Err;
      } else {
        out := out + s;
        r := Ok;
      }
      calls := calls + 1;
    }
  }
}
