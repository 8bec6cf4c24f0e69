/**
 The output LUT surface (nvidia-drm-crtc.c): a header of 3-bit segment sizes, then 16-bit entries
 resampled from the 1024-entry LUT that user space supplies, in a buffer rounded up to 256 bytes.

 The buffer is a list of 16-bit words; a 64-bit word of the source is four of them, low one first.
 */
module Lut {
  import opened Base

  const ARRAY_SIZE: nat := 1024     // NVKMS_LUT_ARRAY_SIZE
  const ENTRY_BYTES: nat := 8       // NVKMS_LUT_CAPS_LUT_ENTRY_SIZE
  const HEADER_ENTRIES: nat := 4    // NUM_VSS_HEADER_ENTRIES
  const INTERP_MAX: nat := 63

  // Interpolation

  /** An entry's share: the entry times its weight, divided by the sum of the weights. */
  function Share(entry: nat, weight: nat, max: nat): nat
    requires max > 0
  {
    entry * weight / max
  }

  /** The 64-bit sum that unorm16_lut_interp computes. */
  function WideSum(entry0: nat, entry1: nat, interp: nat, max: nat): nat
    requires interp <= max && max > 0
  {
    Share(entry0, max - interp, max) + Share(entry1, interp, max)
  }

  /** unorm16_lut_interp, with its final cast to 16 bits. */
  function Interpolate(entry0: nat, entry1: nat, interp: nat, max: nat): nat
    requires interp <= max && max > 0
  {
    WideSum(entry0, entry1, interp, max) % TWO_16
  }

  /** The quotient of a division, pinned between multiples of the divisor. */
  lemma DivBounds(n: nat, m: nat)
    requires m > 0
    ensures n / m * m <= n < (n / m + 1) * m
  {
    assert n == n / m * m + n % m;
  }

  lemma QuotientSum(a: nat, b: nat, m: nat, q0: nat, q1: nat)
    requires q0 * m <= a < (q0 + 1) * m && q1 * m <= b < (q1 + 1) * m
    ensures (q0 + q1) * m <= a + b < (q0 + q1 + 2) * m
  {
    assert (q0 + q1) * m == q0 * m + q1 * m;
    assert (q0 + q1 + 2) * m == (q0 + 1) * m + (q1 + 1) * m;
  }

  lemma MulMonotone(a: nat, b: nat, c: nat)
    requires a <= b
    ensures a * c <= b * c
  {}

  lemma MeanBelow(entry0: nat, entry1: nat, top: nat, interp: nat, max: nat)
    requires interp <= max && entry0 <= top && entry1 <= top
    ensures entry0 * (max - interp) + entry1 * interp <= top * max
  {
    MulMonotone(entry0, top, max - interp);
    MulMonotone(entry1, top, interp);
    assert top * (max - interp) + top * interp == top * max;
  }

  lemma CancelMul(a: nat, b: nat, m: nat)
    requires m > 0 && a * m <= b * m
    ensures a <= b
  {
    if a > b { MulMonotone(b + 1, a, m); }
  }

  lemma Quotients(a: nat, b: nat, m: nat, top: nat)
    requires m > 0 && a + b <= top * m
    ensures var q := a / m + b / m; q <= top && q * m <= a + b < (q + 2) * m
  {
    var q0, q1 := a / m, b / m;
    DivBounds(a, m);
    DivBounds(b, m);
    QuotientSum(a, b, m, q0, q1);
    CancelMul(q0 + q1, top, m);
  }

  /** The sum lies in (exact - 2, exact], where exact is the true weighted mean, and never exceeds
      the larger entry. */
  lemma WideBounds(entry0: nat, entry1: nat, interp: nat, max: nat)
    requires interp <= max && max > 0
    ensures var r := WideSum(entry0, entry1, interp, max);
      && r * max <= entry0 * (max - interp) + entry1 * interp < (r + 2) * max
      && r <= (if entry0 <= entry1 then entry1 else entry0)
  {
    var top := if entry0 <= entry1 then entry1 else entry0;
    MeanBelow(entry0, entry1, top, interp, max);
    Quotients(entry0 * (max - interp), entry1 * interp, max, top);
  }

  /** So the cast to 16 bits loses nothing. */
  lemma InterpolateBounds(entry0: nat, entry1: nat, interp: nat, max: nat)
    requires interp <= max && max > 0 && entry0 < TWO_16 && entry1 < TWO_16
    ensures Interpolate(entry0, entry1, interp, max) == WideSum(entry0, entry1, interp, max)
  {
    WideBounds(entry0, entry1, interp, max);
  }

  /** The step of the table that the 16-bit position `v` falls into. */
  function Step(v: nat): (i: nat)
    requires v < TWO_16
    ensures i < ARRAY_SIZE && i * 64 <= v < i * 64 + 64
  {
    v / 64
  }

  /** One channel of the table resampled at the 16-bit position `v`. */
  function Resample(lut: seq<nat>, v: nat): nat
    requires |lut| == ARRAY_SIZE && v < TWO_16
  {
    var i, interp := Step(v), v % 64;
    if interp > 0 && i + 1 < ARRAY_SIZE then Interpolate(lut[i], lut[i + 1], interp, INTERP_MAX)
    else lut[i]
  }

  /** 63 times the exact value at `v` of the piecewise linear curve through the table. */
  function Exact63(lut: seq<nat>, v: nat): nat
    requires |lut| == ARRAY_SIZE && v < TWO_16
  {
    var i, interp := Step(v), v % 64;
    if i + 1 < ARRAY_SIZE then lut[i] * (INTERP_MAX - interp) + lut[i + 1] * interp
    else lut[i] * INTERP_MAX
  }

  predicate Words(s: seq<nat>) {
    forall i :: 0 <= i < |s| ==> s[i] < TWO_16
  }

  /** Every resampled channel fits 16 bits and lies in (exact - 2, exact]. */
  lemma ResampleBounds(lut: seq<nat>, v: nat)
    requires |lut| == ARRAY_SIZE && Words(lut) && v < TWO_16
    ensures var r := Resample(lut, v);
      r < TWO_16 && r * INTERP_MAX <= Exact63(lut, v) < (r + 2) * INTERP_MAX
  {
    var i, interp := Step(v), v % 64;
    if interp > 0 && i + 1 < ARRAY_SIZE {
      WideBounds(lut[i], lut[i + 1], interp, INTERP_MAX);
      InterpolateBounds(lut[i], lut[i + 1], interp, INTERP_MAX);
    }
  }

  // Sizes and the header

  /** Rounds a byte count up to a multiple of 256. */
  function Align256(n: nat): (r: nat)
    ensures n <= r < n + 256 && r % 256 == 0
  {
    (n + 255) / 256 * 256
  }

  function SurfaceBytes(entries: nat): nat {
    Align256((HEADER_ENTRIES + entries) * ENTRY_BYTES)
  }

  function Pow8(i: nat): nat {
    if i == 0 then 1 else 8 * Pow8(i - 1)
  }

  /** The number whose 3-bit digits, low one first, are `ds`. */
  function Packed(ds: seq<nat>): nat {
    if ds == [] then 0 else ds[0] + 8 * Packed(ds[1..])
  }

  predicate Digits(ds: seq<nat>) {
    forall i :: 0 <= i < |ds| ==> ds[i] < 8
  }

  /** The digit that a reader of the header extracts. */
  function Digit(v: nat, i: nat): nat {
    if i == 0 then v % 8 else Digit(v / 8, i - 1)
  }

  /** Packing loses nothing: each segment size can be read back. */
  lemma {:induction false} PackedRoundTrip(ds: seq<nat>, i: nat)
    requires Digits(ds) && i < |ds|
    ensures Digit(Packed(ds), i) == ds[i]
  {
    var rest := Packed(ds[1..]);
    assert (ds[0] + 8 * rest) % 8 == ds[0] && (ds[0] + 8 * rest) / 8 == rest;
    if i > 0 {
      PackedRoundTrip(ds[1..], i - 1);
    }
  }

  lemma {:induction false} PackedAppend(ds: seq<nat>, d: nat)
    ensures Packed(ds + [d]) == Packed(ds) + d * Pow8(|ds|)
  {
    if ds == [] {
      assert (ds + [d])[1..] == [];
    } else {
      assert (ds + [d])[1..] == ds[1..] + [d];
      PackedAppend(ds[1..], d);
      assert d * Pow8(|ds|) == 8 * (d * Pow8(|ds| - 1));
    }
  }

  lemma {:induction false} PackedBound(ds: seq<nat>)
    requires Digits(ds)
    ensures Packed(ds) < Pow8(|ds|)
  {
    if ds != [] {
      PackedBound(ds[1..]);
    }
  }

  /** The segment sizes that go into header entry `e`. */
  function HeaderDigits(segs: seq<nat>, e: nat): seq<nat>
  {
    var lo := if e * 16 <= |segs| then e * 16 else |segs|;
    var hi := if e * 16 + 16 <= |segs| then e * 16 + 16 else |segs|;
    segs[lo..hi]
  }

  /** The inner loop that packs header entry `e`. */
  method PackHeader(segs: seq<nat>, e: nat) returns (v: nat)
    requires Digits(segs)
    ensures v == Packed(HeaderDigits(segs, e))
    ensures v < Pow8(16)
  {
    v := 0;
    ghost var ds := HeaderDigits(segs, e);
    var i := 0;
    ghost var n := |ds|;
    while i < 16 && e * 16 + i < |segs|
      invariant 0 <= i <= n && n <= 16
      invariant v == Packed(ds[..i])
    {
      PackedAppend(ds[..i], segs[e * 16 + i]);
      assert ds[..i + 1] == ds[..i] + [segs[e * 16 + i]];
      v := v + segs[e * 16 + i] * Pow8(i);
      i := i + 1;
    }
    assert ds[..i] == ds;
    PackedBound(ds);
    Pow8Monotone(|ds|, 16);
  }

  lemma {:induction false} Pow8Monotone(a: nat, b: nat)
    requires a <= b
    ensures Pow8(a) <= Pow8(b)
    decreases b - a
  {
    if a < b {
      Pow8Monotone(a, b - 1);
    }
  }

  // Filling the surface

  /** The regamma LUT from user space. */
  datatype ColorLut = ColorLut(red: seq<nat>, green: seq<nat>, blue: seq<nat>)

  predicate ValidLut(l: ColorLut) {
    && |l.red| == |l.green| == |l.blue| == ARRAY_SIZE
    && Words(l.red) && Words(l.green) && Words(l.blue)
  }

  function Channel(l: ColorLut, c: nat): seq<nat> {
    if c == 0 then l.red else if c == 1 then l.green else l.blue
  }

  /** A variable-segment-size curve: its segment sizes and its entries. */
  datatype Vss = Vss(segs: seq<nat>, entries: seq<nat>)

  predicate ValidVss(v: Vss) {
    Digits(v.segs) && |v.segs| <= HEADER_ENTRIES * 16 && Words(v.entries) && v.entries != []
  }

  function NumEntries(vss: Option<Vss>): nat {
    (if vss.Some? then |vss.value.entries| else ARRAY_SIZE) + 1
  }

  /** Channel `c` of entry `k`: the LUT resampled through the curve, the LUT itself, the curve
      itself, or the identity. */
  function EntryValue(lut: Option<ColorLut>, vss: Option<Vss>, k: nat, c: nat): nat
    requires (lut.Some? ==> ValidLut(lut.value)) && (vss.Some? ==> ValidVss(vss.value))
    requires k < NumEntries(vss) - 1
  {
    if lut.Some? then
      if vss.Some? then Resample(Channel(lut.value, c), vss.value.entries[k])
      else Channel(lut.value, c)[k]
    else if vss.Some? then vss.value.entries[k]
    else k * 64
  }

  /** The words of an entry are red, green and blue, in this order: from the LUT resampled through the
      curve, from the LUT itself, or the same value for all three. */
  lemma EntryChannels(lut: Option<ColorLut>, vss: Option<Vss>, k: nat)
    requires (lut.Some? ==> ValidLut(lut.value)) && (vss.Some? ==> ValidVss(vss.value))
    requires k < NumEntries(vss) - 1
    ensures var w := (c: nat) => EntryValue(lut, vss, k, c);
      && (lut.Some? && vss.None? ==>
            w(0) == lut.value.red[k] && w(1) == lut.value.green[k] && w(2) == lut.value.blue[k])
      && (lut.Some? && vss.Some? ==>
            var v := vss.value.entries[k];
            w(0) == Resample(lut.value.red, v) && w(1) == Resample(lut.value.green, v)
            && w(2) == Resample(lut.value.blue, v))
      && (lut.None? ==> w(0) == w(1) == w(2) == if vss.Some? then vss.value.entries[k] else k * 64)
  {}

  /** At a position on the grid the resampled value is the table's own. */
  lemma ResampleOnGrid(lut: seq<nat>, i: nat)
    requires |lut| == ARRAY_SIZE && Words(lut) && i < ARRAY_SIZE
    ensures Resample(lut, i * 64) == lut[i]
  {}

  /** Every value stored fits 16 bits. */
  lemma EntryFits(lut: Option<ColorLut>, vss: Option<Vss>, k: nat, c: nat)
    requires (lut.Some? ==> ValidLut(lut.value)) && (vss.Some? ==> ValidVss(vss.value))
    requires k < NumEntries(vss) - 1
    ensures EntryValue(lut, vss, k, c) < TWO_16
  {
    if lut.Some? && vss.Some? {
      ResampleBounds(Channel(lut.value, c), vss.value.entries[k]);
    }
  }

  /** The `j`-th 16-bit word of a 64-bit word. */
  function WordOf(v: nat, j: nat): nat {
    if j == 0 then v % 0x1_0000
    else if j == 1 then v / 0x1_0000 % 0x1_0000
    else if j == 2 then v / 0x1_0000_0000 % 0x1_0000
    else v / 0x1_0000_0000_0000 % 0x1_0000
  }

  /** The 64-bit word that four 16-bit words make. */
  function Joined(w0: nat, w1: nat, w2: nat, w3: nat): nat {
    w0 + 0x1_0000 * w1 + 0x1_0000_0000 * w2 + 0x1_0000_0000_0000 * w3
  }

  lemma SplitAndJoin(v: nat)
    requires v < TWO_64
    ensures Joined(WordOf(v, 0), WordOf(v, 1), WordOf(v, 2), WordOf(v, 3)) == v
  {
    var a := v / 0x1_0000;
    var b := a / 0x1_0000;
    assert b == v / 0x1_0000_0000 && b / 0x1_0000 == v / 0x1_0000_0000_0000;
  }

  lemma Pow8Sixteen()
    ensures Pow8(16) == 0x1_0000_0000_0000
  {
    assert Pow8(4) == 4096;
    assert Pow8(8) == 4096 * 4096;
    assert Pow8(12) == 4096 * 4096 * 4096;
  }

  /** The stored word `j` of header entry `e`. */
  function HeaderWord(segs: seq<nat>, e: nat, j: nat): nat {
    WordOf(Packed(HeaderDigits(segs, e)), j)
  }

  /** Every segment size can be read back from the four words of its header entry. */
  lemma HeaderRoundTrip(segs: seq<nat>, i: nat)
    requires Digits(segs) && i < |segs|
    ensures var e := i / 16;
      Digit(Joined(HeaderWord(segs, e, 0), HeaderWord(segs, e, 1), HeaderWord(segs, e, 2),
                   HeaderWord(segs, e, 3)), i % 16) == segs[i]
  {
    var e := i / 16;
    var ds := HeaderDigits(segs, e);
    assert i == e * 16 + i % 16;
    assert ds[i % 16] == segs[i];
    PackedBound(ds);
    Pow8Monotone(|ds|, 16);
    Pow8Sixteen();
    SplitAndJoin(Packed(ds));
    PackedRoundTrip(ds, i % 16);
  }

  /** Three words stored one after the other. */
  method StoreThree(buf: array<nat>, at: nat, w0: nat, w1: nat, w2: nat)
    requires at + 2 < buf.Length
    modifies buf
    ensures buf[at] == w0 && buf[at + 1] == w1 && buf[at + 2] == w2
    ensures forall i :: 0 <= i < buf.Length && !(at <= i < at + 3) ==> buf[i] == old(buf[i])
  {
    buf[at], buf[at + 1], buf[at + 2] := w0, w1, w2;
  }

  /** The header loop. */
  method FillHeader(buf: array<nat>, segs: seq<nat>)
    requires Digits(segs) && buf.Length >= HEADER_ENTRIES * 4
    modifies buf
    ensures forall e, j :: 0 <= e < HEADER_ENTRIES && 0 <= j < 4 ==> buf[e * 4 + j] == HeaderWord(segs, e, j)
    ensures forall i :: HEADER_ENTRIES * 4 <= i < buf.Length ==> buf[i] == old(buf[i])
  {
    for e := 0 to HEADER_ENTRIES
      invariant forall d, j :: 0 <= d < e && 0 <= j < 4 ==> buf[d * 4 + j] == HeaderWord(segs, d, j)
      invariant forall i :: HEADER_ENTRIES * 4 <= i < buf.Length ==> buf[i] == old(buf[i])
    {
      var v := PackHeader(segs, e);
      StoreThree(buf, e * 4, WordOf(v, 0), WordOf(v, 1), WordOf(v, 2));
      buf[e * 4 + 3] := WordOf(v, 3);
    }
  }

  /** The entry loop. */
  method FillEntryLoop(buf: array<nat>, lut: Option<ColorLut>, vss: Option<Vss>)
    requires (lut.Some? ==> ValidLut(lut.value)) && (vss.Some? ==> ValidVss(vss.value))
    requires buf.Length >= (HEADER_ENTRIES + NumEntries(vss)) * 4
    modifies buf
    ensures forall i :: 0 <= i < HEADER_ENTRIES * 4 ==> buf[i] == old(buf[i])
    ensures forall k, c :: 0 <= k < NumEntries(vss) - 1 && 0 <= c < 3 ==>
      buf[(k + HEADER_ENTRIES) * 4 + c] == EntryValue(lut, vss, k, c)
  {
    for k := 0 to NumEntries(vss) - 1
      invariant forall i :: 0 <= i < HEADER_ENTRIES * 4 ==> buf[i] == old(buf[i])
      invariant forall j, c :: 0 <= j < k && 0 <= c < 3 ==>
        buf[(j + HEADER_ENTRIES) * 4 + c] == EntryValue(lut, vss, j, c)
    {
      StoreThree(buf, (k + HEADER_ENTRIES) * 4,
                 EntryValue(lut, vss, k, 0), EntryValue(lut, vss, k, 1), EntryValue(lut, vss, k, 2));
    }
  }

  /** The entry loop and the copy of the last entry. */
  method FillEntries(buf: array<nat>, lut: Option<ColorLut>, vss: Option<Vss>)
    requires (lut.Some? ==> ValidLut(lut.value)) && (vss.Some? ==> ValidVss(vss.value))
    requires buf.Length >= (HEADER_ENTRIES + NumEntries(vss)) * 4
    modifies buf
    ensures forall i :: 0 <= i < HEADER_ENTRIES * 4 ==> buf[i] == old(buf[i])
    ensures forall k, c :: 0 <= k < NumEntries(vss) - 1 && 0 <= c < 3 ==>
      buf[(k + HEADER_ENTRIES) * 4 + c] == EntryValue(lut, vss, k, c)
    ensures var last := (HEADER_ENTRIES + NumEntries(vss) - 1) * 4;
      && buf[last] == buf[last - 4] && buf[last + 1] == buf[last - 3]
      && buf[last + 2] == buf[last - 2] && buf[last + 3] == buf[last - 1]
  {
    FillEntryLoop(buf, lut, vss);
    var last := (HEADER_ENTRIES + NumEntries(vss) - 1) * 4;
    StoreThree(buf, last, buf[last - 4], buf[last - 3], buf[last - 2]);
    buf[last + 3] := buf[last - 1];
  }

  /** create_drm_olut_surface_vss: every store lands inside the aligned surface. */
  method CreateOlutSurface(lut: Option<ColorLut>, vss: Option<Vss>) returns (buf: array<nat>)
    requires (lut.Some? ==> ValidLut(lut.value)) && (vss.Some? ==> ValidVss(vss.value))
    ensures fresh(buf) && buf.Length * 2 == SurfaceBytes(NumEntries(vss))
    ensures buf.Length >= (HEADER_ENTRIES + NumEntries(vss)) * 4
    ensures forall k, c :: 0 <= k < NumEntries(vss) - 1 && 0 <= c < 3 ==>
      buf[(k + HEADER_ENTRIES) * 4 + c] == EntryValue(lut, vss, k, c)
    ensures vss.Some? ==> forall e, j :: 0 <= e < HEADER_ENTRIES && 0 <= j < 4 ==>
      buf[e * 4 + j] == HeaderWord(vss.value.segs, e, j)
    ensures var last := (HEADER_ENTRIES + NumEntries(vss) - 1) * 4;
      && buf[last] == buf[last - 4] && buf[last + 1] == buf[last - 3]
      && buf[last + 2] == buf[last - 2] && buf[last + 3] == buf[last - 1]
  {
    buf := new nat[SurfaceBytes(NumEntries(vss)) / 2];
    if vss.Some? {
      FillHeader(buf, vss.value.segs);
    }
    FillEntries(buf, lut, vss);
  }
}
