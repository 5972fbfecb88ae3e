/** The Standard MIDI File variable-length quantity (the `encodeVariableLength`
    helper of domain/midiEncoder.ts): an integer written as base-128 digits,
    most significant first, with bit 7 set on every byte but the last. */
module VariableLength {
  import opened Wrappers
  import opened Types

  /** JavaScript's ToInt32: the bitwise operators `&` and `>>` first wrap
      their operand into the signed 32-bit range. */
  function ToInt32(x: int): (r: int)
    ensures -0x8000_0000 <= r < 0x8000_0000
    ensures (r - x) % 0x1_0000_0000 == 0
    ensures 0 <= x < 0x8000_0000 ==> r == x
    ensures 0 <= x ==> r <= x
  {
    (x + 0x8000_0000) % 0x1_0000_0000 - 0x8000_0000
  }

  /** `v & 0x7F` */
  function LowGroup(v: int): (r: int)
    ensures 0 <= r < 0x80
    ensures 0 <= v < 0x8000_0000 ==> r == v % 0x80
  {
    ToInt32(v) % 0x80
  }

  /** `v >> 7`, an arithmetic shift of the 32-bit value; below 2^31 it is
      division by 128, and on any positive input it moves towards zero. */
  function Shift7(v: int): (r: int)
    ensures 0 <= v < 0x8000_0000 ==> r == v / 0x80
    ensures v > 0 ==> r < v
    ensures v >= 0 ==> r <= v / 0x80
    ensures r < 0x100_0000
  {
    ToInt32(v) / 0x80
  }

  // ---------------------------------------------------------------------
  // The reference encoding, on naturals

  /** The base-128 digits of `w`, most significant first, each with bit 7
      set; empty for 0. */
  function Continued(w: nat): (r: seq<Byte>)
    decreases w
  {
    if w == 0 then [] else Continued(w / 0x80) + [w % 0x80 + 0x80]
  }

  /** The minimal variable-length quantity of `v`. */
  function Vlq(v: nat): (r: seq<Byte>)
  {
    Continued(v / 0x80) + [v % 0x80]
  }

  /** Well-formed quantity: at least one byte, the last one below 0x80 and
      every other one with bit 7 set. */
  predicate WellFormed(bs: seq<Byte>)
  {
    && |bs| >= 1
    && bs[|bs| - 1] < 0x80
    && forall k :: 0 <= k < |bs| - 1 ==> bs[k] >= 0x80
  }

  lemma {:induction false} ContinuedBytes(w: nat)
    ensures forall k :: 0 <= k < |Continued(w)| ==> Continued(w)[k] >= 0x80
    ensures w > 0 ==> |Continued(w)| >= 1 && Continued(w)[0] > 0x80
    decreases w
  {
    if w > 0 {
      ContinuedBytes(w / 0x80);
    }
  }

  /** The encoding is well formed, single-byte exactly for values up to 127,
      and minimal: it never starts with the padding byte 0x80. */
  lemma VlqShape(v: nat)
    ensures WellFormed(Vlq(v))
    ensures |Vlq(v)| == 1 <==> v <= 0x7F
    ensures Vlq(v)[0] != 0x80
  {
    ContinuedBytes(v / 0x80);
  }

  /** Powers of 128. */
  function Pow128(n: nat): (r: nat)
    ensures r >= 1
  {
    if n == 0 then 1 else 0x80 * Pow128(n - 1)
  }

  lemma {:induction false} VlqLength(v: nat, n: nat)
    requires v < Pow128(n)
    ensures |Continued(v)| <= n
    decreases n
  {
    if v > 0 {
      assert n > 0;
      VlqLength(v / 0x80, n - 1);
    }
  }

  // ---------------------------------------------------------------------
  // Reading a quantity back, as a MIDI reader does

  /** Reads one quantity from the front of `bs`, most significant group
      first, starting from the accumulator `acc`; returns the value and the
      number of bytes read, or None when the bytes end before a byte below
      0x80. */
  function ReadFrom(bs: seq<Byte>, acc: nat): (r: Option<(nat, nat)>)
    ensures r.Some? ==> 1 <= r.value.1 <= |bs|
    decreases |bs|
  {
    if bs == [] then None
    else if bs[0] < 0x80 then Some((acc * 0x80 + bs[0], 1))
    else
      match ReadFrom(bs[1..], acc * 0x80 + (bs[0] - 0x80))
      case None => None
      case Some((v, n)) => Some((v, n + 1))
  }

  function ReadVlq(bs: seq<Byte>): (r: Option<(nat, nat)>)
    ensures r.Some? ==> 1 <= r.value.1 <= |bs|
  {
    ReadFrom(bs, 0)
  }

  /** The accumulator `acc` after `n` further 7-bit groups that are all
      zero: `acc` shifted left by `7 * n` bits. */
  function Shifted(acc: nat, n: nat): nat
  {
    if n == 0 then acc else Shifted(acc, n - 1) * 0x80
  }

  lemma {:induction false} ShiftedZero(n: nat)
    ensures Shifted(0, n) == 0
  {
    if n > 0 {
      ShiftedZero(n - 1);
    }
  }

  lemma {:induction false} ReadContinued(w: nat, tail: seq<Byte>, acc: nat)
    ensures ReadFrom(Continued(w) + tail, acc)
         == Consumed(ReadFrom(tail, Shifted(acc, |Continued(w)|) + w), |Continued(w)|)
    decreases w
  {
    if w == 0 {
      assert Continued(w) + tail == tail;
      match ReadFrom(tail, acc) {
        case None =>
        case Some(r) => assert r == (r.0, r.1 + 0);
      }
    } else {
      var q, d := w / 0x80, w % 0x80;
      var n := |Continued(q)|;
      var t := [d + 0x80] + tail;
      var a := Shifted(acc, n) + q;
      var rest := ReadFrom(tail, Shifted(acc, n + 1) + w);
      assert ReadFrom(Continued(w) + tail, acc) == Consumed(ReadFrom(t, a), n) by {
        assert Continued(w) + tail == Continued(q) + t;
        ReadContinued(q, t, acc);
      }
      assert ReadFrom(t, a) == Consumed(rest, 1) by {
        ReadOneContinued(d, tail, a);
        assert a * 0x80 + d == Shifted(acc, n + 1) + w;
      }
      assert |Continued(w)| == n + 1;
      ConsumedTwice(rest, 1, n);
    }
  }

  /** A read result with `k` more bytes counted as consumed. */
  function Consumed(r: Option<(nat, nat)>, k: nat): Option<(nat, nat)>
  {
    match r
    case None => None
    case Some((v, n)) => Some((v, n + k))
  }

  lemma ReadOneContinued(d: nat, tail: seq<Byte>, a: nat)
    requires d < 0x80
    ensures ReadFrom([d + 0x80] + tail, a) == Consumed(ReadFrom(tail, a * 0x80 + d), 1)
  {
    var t := [d + 0x80] + tail;
    assert t[0] == d + 0x80 && t[1..] == tail;
  }

  lemma ConsumedTwice(r: Option<(nat, nat)>, j: nat, k: nat)
    ensures Consumed(Consumed(r, j), k) == Consumed(r, j + k)
  {
  }

  /** Round trip: a reader recovers `v` from its encoding followed by any
      further bytes, and consumes exactly the encoding. */
  lemma VlqRoundTrip(v: nat, rest: seq<Byte>)
    ensures ReadVlq(Vlq(v) + rest) == Some((v, |Vlq(v)|))
  {
    var q, d := v / 0x80, v % 0x80;
    assert Vlq(v) + rest == Continued(q) + ([d] + rest);
    ReadContinued(q, [d] + rest, 0);
    ShiftedZero(|Continued(q)|);
    assert ([d] + rest)[0] == d;
    assert ReadFrom([d] + rest, q) == Some((q * 0x80 + d, 1));
    assert |Vlq(v)| == |Continued(q)| + 1;
  }

  /** Distinct values have distinct encodings. */
  lemma VlqInjective(v: nat, w: nat)
    requires Vlq(v) == Vlq(w)
    ensures v == w
  {
    VlqRoundTrip(v, []);
    VlqRoundTrip(w, []);
    assert Vlq(v) + [] == Vlq(w) + [];
  }

  // ---------------------------------------------------------------------
  // The source's loop, with JavaScript's 32-bit bitwise operators

  function Reversed(s: seq<Byte>): (r: seq<Byte>)
    ensures |r| == |s|
  {
    if s == [] then [] else Reversed(s[1..]) + [s[0]]
  }

  /** The bytes the source's `while` loop pushes after the first one, when the
      loop variable holds `v`. */
  function Pushed(v: int): (r: seq<Byte>)
    ensures r == [] <==> v <= 0x7F
    ensures forall k :: 0 <= k < |r| ==> r[k] >= 0x80
    decreases if v > 0 then v else 0
  {
    if v <= 0x7F then []
    else [LowGroup(Shift7(v)) + 0x80] + Pushed(Shift7(v))
  }

  /** What `encodeVariableLength(value)` returns, for any integer `value`. */
  function EncodedLength(value: int): (r: seq<Byte>)
    ensures |r| == 1 + |Pushed(value)|
    ensures r[|r| - 1] == LowGroup(value) < 0x80
  {
    Reversed([LowGroup(value)] + Pushed(value))
  }

  lemma {:induction false} PushedIsContinued(v: nat)
    requires v < 0x8000_0000
    ensures Reversed(Pushed(v)) == Continued(v / 0x80)
    decreases v
  {
    if v > 0x7F {
      var q := v / 0x80;
      assert Shift7(v) == q;
      PushedIsContinued(q);
      var s := [LowGroup(q) + 0x80] + Pushed(q);
      assert s[1..] == Pushed(q);
    }
  }

  /** Below 2^31 the source's loop computes exactly the minimal quantity. */
  lemma EncodedIsVlq(v: int)
    requires 0 <= v < 0x8000_0000
    ensures EncodedLength(v) == Vlq(v)
  {
    PushedIsContinued(v);
    var s: seq<Byte> := [LowGroup(v)] + Pushed(v);
    assert s[1..] == Pushed(v);
    assert LowGroup(v) == v % 0x80;
    calc {
      EncodedLength(v);
      Reversed(s);
      Reversed(s[1..]) + [s[0]];
      Continued(v / 0x80) + [v % 0x80];
    }
  }

  lemma {:induction false} PushedBound(w: int, k: nat)
    requires w < Pow128(k + 1)
    ensures |Pushed(w)| <= k
    decreases k
  {
    if w > 0x7F {
      assert Pow128(1) == 0x80;
      assert Pow128(k + 1) == 0x80 * Pow128(k);
      PushedBound(Shift7(w), k - 1);
    }
  }

  /** Whatever the input, the encoding is at most five bytes long. */
  lemma EncodedLengthAtMost5(value: int)
    ensures |EncodedLength(value)| <= 5
  {
    if value > 0x7F {
      assert Pow128(4) == 0x1000_0000;
      PushedBound(Shift7(value), 3);
    }
  }

  /** A zero delta time is the single byte 0x00. */
  lemma EncodedZero()
    ensures EncodedLength(0) == [0x00]
  {
    EncodedIsVlq(0);
    assert Continued(0) == [];
  }

  lemma {:induction false} ReversedAt(s: seq<Byte>, k: nat)
    requires k < |s|
    ensures Reversed(s)[k] == s[|s| - 1 - k]
  {
    if k < |s| - 1 {
      ReversedAt(s[1..], k);
    }
  }

  /** Whatever the input, the output has the shape of a quantity: bit 7 set
      on every byte but the last. */
  lemma EncodedWellFormed(value: int)
    ensures WellFormed(EncodedLength(value))
  {
    var s := [LowGroup(value)] + Pushed(value);
    ReversedAt(s, |s| - 1);
    forall k | 0 <= k < |s| - 1
      ensures EncodedLength(value)[k] >= 0x80
    {
      ReversedAt(s, k);
      assert s[|s| - 1 - k] == Pushed(value)[|s| - 2 - k];
    }
  }

  /** `encodeVariableLength`: pushes the low group, then while the value
      exceeds 0x7F shifts it right by 7 and pushes the next group with bit 7
      set, and finally reverses the buffer. */
  method EncodeVariableLength(value: int) returns (bytes: seq<Byte>)
    ensures bytes == EncodedLength(value)
    ensures WellFormed(bytes)
    ensures 0 <= value < 0x8000_0000 ==> bytes == Vlq(value) && ReadVlq(bytes) == Some((value, |bytes|))
    ensures value <= 0x7F ==> bytes == [LowGroup(value)]
  {
    var v := value;
    var buffer: seq<Byte> := [LowGroup(v)];
    while v > 0x7F
      invariant buffer + Pushed(v) == [LowGroup(value)] + Pushed(value)
      decreases if v > 0 then v else 0
    {
      v := Shift7(v);
      buffer := buffer + [LowGroup(v) + 0x80];
    }
    assert buffer == [LowGroup(value)] + Pushed(value) by {
      assert Pushed(v) == [];
      assert buffer + [] == buffer;
    }
    bytes := Reversed(buffer);
    EncodedWellFormed(value);
    if 0 <= value < 0x8000_0000 {
      EncodedIsVlq(value);
      VlqRoundTrip(value, []);
      assert bytes + [] == bytes;
    }
  }
}
