/** The geometry behind the mood seal's drawing (ui/draw/MoodSealDrawers.kt):
    how the influence bands share their arc, when the entry dots are drawn,
    and how the tag labels share the text ring and answer a touch. The
    canvas calls themselves are not modelled; the values they are given are. */
module SealDrawing {

  import opened Wrappers
  import opened Model
  import opened InfluenceMath

  /* ---------------- influence bands ---------------- */

  const BandGreen: int := 0xFF66BB6A
  const BandRed: int := 0xFFE57373

  /** The arc of the bands starts at -160 degrees and spans 320. */
  const BandsStart: real := -160.0
  const AvailableSweep: real := 320.0

  /** One arc of `drawInfluenceBands`. */
  datatype Band = Band(start: real, sweep: real, thickness: real, color: int)

  /** The total magnitude of the entries' deltas, summed from the first on. */
  function SumAbs(entries: seq<LedgerEntry>): (s: real)
    ensures s >= 0.0
  {
    if entries == [] then 0.0 else SumAbs(entries[..|entries| - 1]) + Abs(entries[|entries| - 1].delta)
  }

  /** `totalAbs`: the total magnitude, but at least 0.01. */
  function TotalAbs(entries: seq<LedgerEntry>): (t: real)
    ensures t >= 0.01 && t >= SumAbs(entries)
    ensures SumAbs(entries) >= 0.01 ==> t == SumAbs(entries)
  {
    var s := SumAbs(entries);
    if s < 0.01 then 0.01 else s
  }

  /** A fraction in [0, 1] of a non-negative amount lies between 0 and the amount. */
  lemma ScaleWithin(t: real, x: real)
    requires 0.0 <= t <= 1.0 && x >= 0.0
    ensures 0.0 <= t * x <= x
  {
    assert (1.0 - t) * x >= 0.0;
  }

  /** The stroke width of one band: the base width plus up to `maxExtra`,
      growing with |delta| up to 2. */
  function Thickness(delta: real, baseThickness: real, maxExtra: real): (width: real)
    ensures maxExtra >= 0.0 ==> baseThickness <= width <= baseThickness + maxExtra
    ensures delta == 0.0 ==> width == baseThickness
  {
    var m := Abs(delta);
    var clamped := if m > 2.0 then 2.0 else m;
    if maxExtra >= 0.0 then ScaleWithin(clamped / 2.0, maxExtra); baseThickness + (clamped / 2.0) * maxExtra
    else baseThickness + (clamped / 2.0) * maxExtra
  }

  /** A band is at least the base width and at most base plus extra; it is
      thickest from |delta| = 2 on, and never thinner for a larger |delta|. */
  lemma ThicknessBounds(delta: real, other: real, baseThickness: real, maxExtra: real)
    requires maxExtra >= 0.0
    ensures baseThickness <= Thickness(delta, baseThickness, maxExtra) <= baseThickness + maxExtra
    ensures Abs(delta) >= 2.0 ==> Thickness(delta, baseThickness, maxExtra) == baseThickness + maxExtra
    ensures Abs(delta) <= Abs(other) ==>
      Thickness(delta, baseThickness, maxExtra) <= Thickness(other, baseThickness, maxExtra)
  {
    var m := Abs(delta);
    var c := if m > 2.0 then 2.0 else m;
    var n := Abs(other);
    var d := if n > 2.0 then 2.0 else n;
    if m <= n {
      assert 0.0 <= d / 2.0 - c / 2.0 <= 1.0;
      ScaleWithin(d / 2.0 - c / 2.0, maxExtra);
      assert (d / 2.0) * maxExtra - (c / 2.0) * maxExtra == (d / 2.0 - c / 2.0) * maxExtra;
    }
  }

  /** The sweep of one band: its share of the available arc. */
  function BandSweep(delta: real, entries: seq<LedgerEntry>): real {
    AvailableSweep * (Abs(delta) / TotalAbs(entries))
  }

  /** Where band `k` starts: after the sweeps of the bands before it. */
  function BandStart(entries: seq<LedgerEntry>, k: nat): real
    requires k <= |entries|
  {
    BandsStart + AvailableSweep * (SumAbs(entries[..k]) / TotalAbs(entries))
  }

  /** Band `k` is the one entry `k` gets: where it starts, its sweep, its
      width, and green for a non-negative delta, red otherwise. */
  ghost predicate IsBandOf(band: Band, entries: seq<LedgerEntry>, k: nat, baseThickness: real, maxExtra: real)
    requires k < |entries|
  {
    && band.start == BandStart(entries, k)
    && band.sweep == BandSweep(entries[k].delta, entries)
    && band.thickness == Thickness(entries[k].delta, baseThickness, maxExtra)
    && (band.color == BandGreen <==> entries[k].delta >= 0.0)
    && (band.color == BandRed <==> entries[k].delta < 0.0)
  }

  /** `drawInfluenceBands`: nothing for no entries; otherwise one band per
      entry, in order, each starting where the previous one ended. */
  method InfluenceBands(entries: seq<LedgerEntry>, baseThickness: real, maxExtra: real) returns (bands: seq<Band>)
    ensures entries == [] ==> bands == []
    ensures |bands| == |entries|
    ensures forall k :: 0 <= k < |bands| ==> IsBandOf(bands[k], entries, k, baseThickness, maxExtra)
    ensures bands != [] ==> bands[0].start == BandsStart
    ensures forall k :: 0 <= k < |bands| - 1 ==> bands[k + 1].start == bands[k].start + bands[k].sweep
  {
    bands := [];
    if entries == [] {
      return;
    }
    var totalAbs := TotalAbs(entries);
    var startAngle := BandsStart;
    assert entries[..0] == [];
    for i := 0 to |entries|
      invariant |bands| == i
      invariant startAngle == BandStart(entries, i)
      invariant forall k :: 0 <= k < i ==> IsBandOf(bands[k], entries, k, baseThickness, maxExtra)
    {
      var band := DrawBand(entries, i, totalAbs, startAngle, baseThickness, maxExtra);
      bands := bands + [band];
      BandStartStep(entries, i);
      startAngle := startAngle + band.sweep;
    }
    forall k | 0 <= k < |bands| - 1
      ensures bands[k + 1].start == bands[k].start + bands[k].sweep
    {
      BandStartStep(entries, k);
    }
  }

  /** One pass of the loop in `drawInfluenceBands`: the band of entry `i`. */
  method DrawBand(entries: seq<LedgerEntry>, i: nat, totalAbs: real, startAngle: real, baseThickness: real, maxExtra: real)
    returns (band: Band)
    requires i < |entries| && totalAbs == TotalAbs(entries) && startAngle == BandStart(entries, i)
    ensures IsBandOf(band, entries, i, baseThickness, maxExtra)
  {
    var entry := entries[i];
    var weight := Abs(entry.delta) / totalAbs;
    var sweep := AvailableSweep * weight;
    var thickness := Thickness(entry.delta, baseThickness, maxExtra);
    var color := if entry.delta >= 0.0 then BandGreen else BandRed;
    band := Band(startAngle, sweep, thickness, color);
  }

  /** `(s + a) / t` splits into the two shares. */
  lemma SplitShare(s: real, a: real, t: real)
    requires t > 0.0
    ensures (s + a) / t == s / t + a / t
  {
    var x := s / t;
    var y := a / t;
    assert x * t == s;
    assert y * t == a;
    assert (x + y) * t == s + a;
  }

  lemma WholeShare(s: real)
    requires s > 0.0
    ensures s / s == 1.0
  {
  }

  lemma DivMonotone(a: real, b: real, t: real)
    requires t > 0.0 && a <= b
    ensures a / t <= b / t
  {
    assert (b - a) / t >= 0.0;
    assert b / t - a / t == (b - a) / t;
  }

  lemma BandStartStep(entries: seq<LedgerEntry>, k: nat)
    requires k < |entries|
    ensures BandStart(entries, k + 1) == BandStart(entries, k) + BandSweep(entries[k].delta, entries)
  {
    assert entries[..k + 1][..k] == entries[..k];
    SplitShare(SumAbs(entries[..k]), Abs(entries[k].delta), TotalAbs(entries));
  }

  /** The bands end where they began plus 320 degrees whenever the deltas
      weigh at least 0.01 in total; below that they cover less, in proportion. */
  lemma BandsFillTheArc(entries: seq<LedgerEntry>)
    ensures SumAbs(entries) >= 0.01 ==> BandStart(entries, |entries|) == BandsStart + AvailableSweep
    ensures SumAbs(entries) < 0.01 ==>
      BandStart(entries, |entries|) == BandsStart + AvailableSweep * (SumAbs(entries) / 0.01)
  {
    var n := |entries|;
    assert entries[..n] == entries;
    var total := SumAbs(entries);
    var t := TotalAbs(entries);
    assert BandStart(entries, n) == BandsStart + AvailableSweep * (total / t);
    if total >= 0.01 {
      assert t == total;
      WholeShare(total);
    }
  }

  /** Sweeps are proportional to |delta|: two bands compare as their deltas'
      magnitudes do. */
  lemma SweepsProportional(entries: seq<LedgerEntry>, i: nat, j: nat)
    requires i < |entries| && j < |entries|
    ensures BandSweep(entries[i].delta, entries) * Abs(entries[j].delta)
         == BandSweep(entries[j].delta, entries) * Abs(entries[i].delta)
    ensures Abs(entries[i].delta) <= Abs(entries[j].delta) ==>
      BandSweep(entries[i].delta, entries) <= BandSweep(entries[j].delta, entries)
  {
    var t := TotalAbs(entries);
    var a, b := Abs(entries[i].delta), Abs(entries[j].delta);
    var x, y := a / t, b / t;
    assert x * t == a;
    assert y * t == b;
    assert x * b * t == a * b;
    assert y * a * t == a * b;
    if a <= b {
      DivMonotone(a, b, t);
    }
  }

  /* ---------------- entry dots ---------------- */

  /** `drawEntryDots`: the angle and delta of each dot drawn. Nothing is drawn
      for no entries, or when fewer angles than entries are known. */
  function EntryDots(entries: seq<LedgerEntry>, angles: seq<real>): (dots: seq<(real, real)>)
    ensures dots == [] <==> entries == [] || |angles| < |entries|
    ensures dots != [] ==> (|dots| == |entries| &&
      forall k :: 0 <= k < |dots| ==> dots[k] == (angles[k], entries[k].delta))
  {
    if entries == [] || |angles| < |entries| then []
    else seq(|entries|, k requires 0 <= k < |entries| => (angles[k], entries[k].delta))
  }

  /* ---------------- tag labels ---------------- */

  const TagPaddingDeg: real := 6.0
  const MinSweepDeg: real := 14.0
  const MaxTagArc: real := 282.0

  /** `normalizedBaseStart`: where the labels start, in [0, 360). */
  function NormalizedBaseStart(rotationDeg: real): (r: real)
    ensures 0.0 <= r < 360.0
    ensures r == Mod360(rotationDeg - 160.0)
  {
    NormalizeAngle(-160.0 + rotationDeg)
  }

  /** A whole turn of the seal leaves the labels where they were. */
  lemma BaseStartPeriodic(rotationDeg: real, turns: int)
    ensures NormalizedBaseStart(rotationDeg + 360.0 * turns as real) == NormalizedBaseStart(rotationDeg)
  {
    ModShift(rotationDeg - 160.0, turns);
  }

  /** The arc one label asks for: its text's arc (at least 14 degrees) plus
      6 degrees of padding. `raw` is the measured width of the text as an
      angle on the text ring. */
  function TagSweep(raw: real): (s: real)
    ensures s >= MinSweepDeg + TagPaddingDeg
    ensures s == (if raw > MinSweepDeg then raw else MinSweepDeg) + TagPaddingDeg
  {
    (if raw < MinSweepDeg then MinSweepDeg else raw) + TagPaddingDeg
  }

  function TagSweeps(raw: seq<real>): (s: seq<real>)
    ensures |s| == |raw| && forall k :: 0 <= k < |raw| ==> s[k] == TagSweep(raw[k])
  {
    seq(|raw|, k requires 0 <= k < |raw| => TagSweep(raw[k]))
  }

  /** `sweepScale`: shrinks the labels to 282 degrees when they ask for more. */
  function SweepScale(raw: seq<real>): (c: real)
    ensures 0.0 < c <= 1.0
  {
    var total := Sum(TagSweeps(raw));
    if total > MaxTagArc then MaxTagArc / total else 1.0
  }

  function Scaled(s: seq<real>, c: real): (r: seq<real>)
    ensures |r| == |s| && forall k :: 0 <= k < |s| ==> r[k] == s[k] * c
  {
    seq(|s|, k requires 0 <= k < |s| => s[k] * c)
  }

  /** The arc each label finally gets. */
  function ScaledSweeps(raw: seq<real>): (s: seq<real>)
    ensures |s| == |raw|
  {
    Scaled(TagSweeps(raw), SweepScale(raw))
  }

  lemma SumAppend(s: seq<real>, x: real)
    ensures Sum(s + [x]) == Sum(s) + x
  {
    assert (s + [x])[..|s|] == s;
  }

  lemma SumPrefixStep(s: seq<real>, k: nat)
    requires k < |s|
    ensures Sum(s[..k + 1]) == Sum(s[..k]) + s[k]
  {
    assert s[..k + 1] == s[..k] + [s[k]];
    SumAppend(s[..k], s[k]);
  }

  lemma {:induction false} SumScaled(s: seq<real>, c: real)
    ensures Sum(Scaled(s, c)) == Sum(s) * c
  {
    if s != [] {
      var n := |s| - 1;
      ScaledStep(s, c);
      SumScaled(s[..n], c);
      Distribute(Sum(s[..n]), s[n], c);
    }
  }

  lemma ScaledStep(s: seq<real>, c: real)
    requires s != []
    ensures Sum(Scaled(s, c)) == Sum(Scaled(s[..|s| - 1], c)) + s[|s| - 1] * c
  {
    var n := |s| - 1;
    assert forall j :: 0 <= j < n ==> Scaled(s, c)[..n][j] == Scaled(s[..n], c)[j];
    assert Scaled(s, c)[..n] == Scaled(s[..n], c);
  }

  lemma Distribute(a: real, x: real, c: real)
    ensures (a + x) * c == a * c + x * c
  {
  }

  lemma {:induction false} SumOfPositives(s: seq<real>, k: nat)
    requires forall j :: 0 <= j < |s| ==> s[j] >= 0.0
    requires k < |s|
    ensures s[k] <= Sum(s) && Sum(s) >= 0.0
  {
    var n := |s| - 1;
    if k < n {
      SumOfPositives(s[..n], k);
    } else if n > 0 {
      SumOfPositives(s[..n], 0);
    }
  }

  /** The labels take exactly what they ask for when that fits in 282
      degrees, and exactly 282 degrees otherwise; every label keeps a
      positive arc of at most 282 degrees. */
  lemma ScaledSweepsSpec(raw: seq<real>)
    ensures Sum(TagSweeps(raw)) <= MaxTagArc ==> ScaledSweeps(raw) == TagSweeps(raw)
    ensures Sum(TagSweeps(raw)) > MaxTagArc ==> Sum(ScaledSweeps(raw)) == MaxTagArc
    ensures Sum(ScaledSweeps(raw)) <= MaxTagArc
    ensures forall k :: 0 <= k < |raw| ==> 0.0 < ScaledSweeps(raw)[k] <= MaxTagArc
  {
    var s := TagSweeps(raw);
    var c := SweepScale(raw);
    var r := ScaledSweeps(raw);
    SumScaled(s, c);
    if Sum(s) <= MaxTagArc {
      assert r == s;
    }
    forall k | 0 <= k < |raw|
      ensures 0.0 < r[k] <= MaxTagArc
    {
      SumOfPositives(r, k);
    }
  }

  /** One label's arc on the ring, as compared against a touch. */
  datatype TagArc = TagArc(start: real, end: real, sweep: real)

  /** The touch test of one label: inside [start, end], or, for an arc that
      wraps past 0, at or after its start or at or before its end. */
  predicate IsActive(touchAngle: Option<real>, arc: TagArc) {
    touchAngle.Some? &&
      var t := touchAngle.value;
      if arc.start <= arc.end then arc.start <= t <= arc.end
      else t >= arc.start || t <= arc.end
  }

  /** The touch test is the arc read counter-clockwise from its start: a
      touch angle in [0, 360) is active exactly when it lies at most `sweep`
      degrees past the start, wrapping around 0 included. */
  lemma ActiveIffWithinSweep(t: real, arc: TagArc)
    requires 0.0 <= t < 360.0
    requires 0.0 <= arc.start < 360.0 && 0.0 <= arc.sweep < 360.0
    requires arc.end == Mod360(arc.start + arc.sweep)
    ensures IsActive(Some(t), arc) <==> Mod360(t - arc.start) <= arc.sweep
  {
    if arc.start + arc.sweep < 360.0 {
      ModUnique(arc.start + arc.sweep, arc.start + arc.sweep, 0);
    } else {
      ModUnique(arc.start + arc.sweep, arc.start + arc.sweep - 360.0, 1);
    }
    if t >= arc.start {
      ModUnique(t - arc.start, t - arc.start, 0);
    } else {
      ModUnique(t - arc.start, t - arc.start + 360.0, -1);
    }
  }

  /** The labels whose arc the touch falls in, in label order: the indices
      `onActiveTagChange` is called with. */
  function ActiveIndices(arcs: seq<TagArc>, touchAngle: Option<real>): (r: seq<nat>)
    ensures forall k: nat :: k in r <==> k < |arcs| && IsActive(touchAngle, arcs[k])
    ensures forall i, j :: 0 <= i < j < |r| ==> r[i] < r[j]
  {
    if arcs == [] then []
    else
      var n := |arcs| - 1;
      var init := ActiveIndices(arcs[..n], touchAngle);
      assert forall k :: k in init ==> k < n;
      if IsActive(touchAngle, arcs[n]) then
        assert forall i, j :: 0 <= i < j < |init| + 1 ==> (init + [n])[i] < (init + [n])[j] by {
          forall i, j | 0 <= i < j < |init| + 1
            ensures (init + [n])[i] < (init + [n])[j]
          {
            if j == |init| {
              assert init[i] in init;
            }
          }
        }
        init + [n]
      else init
  }

  /** Adding a label adds its index to the active ones exactly when the
      touch falls in its arc. */
  lemma ActiveStep(arcs: seq<TagArc>, arc: TagArc, touchAngle: Option<real>)
    ensures ActiveIndices(arcs + [arc], touchAngle)
         == if IsActive(touchAngle, arc) then ActiveIndices(arcs, touchAngle) + [|arcs|]
            else ActiveIndices(arcs, touchAngle)
  {
    assert (arcs + [arc])[..|arcs|] == arcs;
  }

  lemma ModOfMod(x: real, y: real)
    ensures Mod360(Mod360(x) + y) == Mod360(x + y)
  {
    var f := (x / 360.0).Floor;
    assert Mod360(x) + y == (x + y) + 360.0 * (-f) as real;
    ModShift(x + y, -f);
  }

  /** Label `k`'s arc: it starts `arcOffset` (the sweeps before it) past the
      base start, and both ends are reduced to [0, 360). */
  function ArcAt(base: real, sweeps: seq<real>, k: nat): (arc: TagArc)
    requires k < |sweeps|
    ensures arc.sweep == sweeps[k]
    ensures 0.0 <= arc.start < 360.0 && 0.0 <= arc.end < 360.0
    ensures arc.end == Mod360(arc.start + arc.sweep)
  {
    var start := Mod360(base + Sum(sweeps[..k]));
    TagArc(start, Mod360(start + sweeps[k]), sweeps[k])
  }

  /** Each label's arc starts exactly where the previous one ends, and the
      first starts at the base. */
  lemma ArcsAreContiguous(base: real, sweeps: seq<real>, k: nat)
    requires 0.0 <= base < 360.0
    requires k + 1 < |sweeps|
    ensures ArcAt(base, sweeps, 0).start == base
    ensures ArcAt(base, sweeps, k + 1).start == ArcAt(base, sweeps, k).end
  {
    assert sweeps[..0] == [];
    ModUnique(base, base, 0);
    SumPrefixStep(sweeps, k);
    ModOfMod(base + Sum(sweeps[..k]), sweeps[k]);
  }

  /** The label loop of `drawMoodSeal`: the arc of every label, and the
      labels the touch falls in. No labels, no arcs. */
  method TagArcs(raw: seq<real>, rotationDeg: real, touchAngle: Option<real>) returns (arcs: seq<TagArc>, active: seq<nat>)
    ensures |arcs| == |raw|
    ensures forall k :: 0 <= k < |arcs| ==> arcs[k] == ArcAt(NormalizedBaseStart(rotationDeg), ScaledSweeps(raw), k)
    ensures active == ActiveIndices(arcs, touchAngle)
  {
    arcs, active := [], [];
    if raw == [] {
      return;
    }
    var sweeps := ScaledSweeps(raw);
    var base := NormalizedBaseStart(rotationDeg);
    ScaledSweepsSpec(raw);
    var arcOffset := 0.0;
    assert sweeps[..0] == [];
    for i := 0 to |raw|
      invariant |arcs| == i
      invariant arcOffset == Sum(sweeps[..i]) && arcOffset >= 0.0
      invariant forall k :: 0 <= k < i ==> arcs[k] == ArcAt(base, sweeps, k)
      invariant active == ActiveIndices(arcs, touchAngle)
    {
      var sweep := sweeps[i];
      var arc := LabelArc(base, sweeps, i, arcOffset);
      ActiveStep(arcs, arc, touchAngle);
      ArcsStep(arcs, arc, base, sweeps);
      arcs := arcs + [arc];
      if IsActive(touchAngle, arc) {
        active := active + [i];
      }
      SumPrefixStep(sweeps, i);
      arcOffset := arcOffset + sweep;
    }
  }

  /** One round of the label loop: the arc of label `i`, which starts
      `arcOffset` past the base. Kotlin's `%` agrees with the mathematical
      remainder on the non-negative angles it is given here. */
  method LabelArc(base: real, sweeps: seq<real>, i: nat, arcOffset: real) returns (arc: TagArc)
    requires 0.0 <= base && arcOffset >= 0.0
    requires i < |sweeps| && sweeps[i] > 0.0
    requires arcOffset == Sum(sweeps[..i])
    ensures arc == ArcAt(base, sweeps, i)
  {
    var sweep := sweeps[i];
    var startAngle := Rem360(base + arcOffset);
    var endAngle := Rem360(startAngle + sweep);
    arc := TagArc(startAngle, endAngle, sweep);
    ArcStep(base, sweeps, i, arcOffset);
  }

  lemma ArcsStep(arcs: seq<TagArc>, arc: TagArc, base: real, sweeps: seq<real>)
    requires |arcs| < |sweeps|
    requires forall k :: 0 <= k < |arcs| ==> arcs[k] == ArcAt(base, sweeps, k)
    requires arc == ArcAt(base, sweeps, |arcs|)
    ensures forall k :: 0 <= k <= |arcs| ==> (arcs + [arc])[k] == ArcAt(base, sweeps, k)
  {
  }

  /** One round of the label loop computes `ArcAt`: Kotlin's `%` agrees with
      the mathematical remainder on the non-negative angles it is given here. */
  lemma ArcStep(base: real, sweeps: seq<real>, i: nat, arcOffset: real)
    requires 0.0 <= base && arcOffset >= 0.0
    requires i < |sweeps| && sweeps[i] > 0.0
    requires arcOffset == Sum(sweeps[..i])
    ensures var startAngle := Rem360(base + arcOffset);
      TagArc(startAngle, Rem360(startAngle + sweeps[i]), sweeps[i]) == ArcAt(base, sweeps, i)
  {
    RemOfNonNegative(base + arcOffset);
    RemOfNonNegative(Rem360(base + arcOffset) + sweeps[i]);
  }
}
