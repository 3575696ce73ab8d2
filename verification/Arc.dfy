/** Arcs and the grid of directions along them (src/geometry/arc.cc, src/geometry/arc.h). Angles are in degrees. */
module Arcs {
  import opened Wrappers

  function Ceil(x: real): int { -((-x).Floor) }

  /** The remainder by a full turn with the sign of the argument, as fmod gives it. */
  function Fmod360(x: real): real {
    var q := x / 360.0;
    x - Turns(if q >= 0.0 then q.Floor else Ceil(q))
  }

  /** So many full turns. */
  function Turns(k: int): real { 360.0 * k as real }

  /** The same direction in [0, 360). */
  function GetPositive(degrees: real): real {
    var d := Fmod360(degrees);
    if d < 0.0 then d + 360.0 else d
  }

  ghost predicate SameDirection(a: real, b: real) { exists k: int :: a == b + Turns(k) }

  lemma PositiveIs(degrees: real)
    ensures SameDirection(degrees, GetPositive(degrees)) && 0.0 <= GetPositive(degrees) < 360.0
  {
    var q := degrees / 360.0;
    var k := if q >= 0.0 then q.Floor else Ceil(q);
    if Fmod360(degrees) < 0.0 {
      assert degrees == GetPositive(degrees) + Turns(k - 1);
    } else {
      assert degrees == GetPositive(degrees) + Turns(k);
    }
  }

  lemma SignIs(q: real, d: real)
    requires d > 0.0
    ensures q * d >= 0.0 <==> q >= 0.0
  {
  }

  // ----- The grid

  /** One entry: the axis it turns by and the half-open range of steps from there. */
  datatype Quadrant = Quadrant(axis: nat, startIndex: int, endIndex: int)

  function Range(low: int, high: int): seq<int> {
    if low >= high then [] else seq(high - low, i => low + i)
  }

  /** The step at which a quadrant begins. */
  function Base(quadrant: int, n: int): int { quadrant * n }

  /** All steps listed, counted from angle zero; the i-th entry stands for the quadrant `first` + i. */
  function Flat(slots: seq<Quadrant>, first: int, n: int): seq<int> {
    if slots == [] then []
    else
      var k := |slots| - 1;
      Flat(slots[..k], first, n) + Range(Base(first + k, n) + slots[k].startIndex, Base(first + k, n) + slots[k].endIndex)
  }

  /** An angle in steps of 90/n degrees. */
  function Steps(degrees: real, n: nat): real { degrees / 90.0 * n as real }

  function Nudge(n: nat): real
    requires n >= 1
  {
    90.0 / n as real * 0.1
  }

  function NextStep(degrees: real, quadrant: int, n: nat): int {
    Ceil((degrees / 90.0 - quadrant as real) * n as real)
  }

  /** The whole steps from angle a up to, not including, angle b. */
  function StepsBetween(a: real, b: real, n: nat): seq<int> { Range(Ceil(Steps(a, n)), Ceil(Steps(b, n))) }

  lemma CeilIs(x: real)
    ensures Ceil(x) as real - 1.0 < x <= Ceil(x) as real
  {
  }

  lemma CeilUnique(x: real, k: int)
    requires k as real - 1.0 < x <= k as real
    ensures Ceil(x) == k
  {
    CeilIs(x);
  }

  lemma CeilWithin(x: real, n: int)
    requires 0.0 <= x < n as real
    ensures 0 <= Ceil(x) <= n
  {
    CeilIs(x);
    assert (Ceil(x) - 1) as real < n as real;
  }

  /** The step the code looks for, counted from the start of the angle's own quadrant. */
  lemma NextStepIs(degrees: real, quadrant: int, n: nat)
    requires n >= 1 && quadrant == (degrees / 90.0).Floor
    ensures NextStep(degrees, quadrant, n) == Ceil(Steps(degrees, n)) - Base(quadrant, n)
    ensures 0 <= NextStep(degrees, quadrant, n) <= n
  {
    var f := degrees / 90.0 - quadrant as real;
    assert 0.0 <= f < 1.0;
    StepWithin(f, n);
    var x := f * n as real;
    assert x == Steps(degrees, n) - (quadrant * n) as real;
    CeilIs(x);
    CeilUnique(Steps(degrees, n), Ceil(x) + quadrant * n);
  }

  lemma StepWithin(f: real, n: nat)
    requires 0.0 <= f < 1.0 && n >= 1
    ensures 0 <= Ceil(f * n as real) <= n
  {
    var r := n as real;
    assert (1.0 - f) * r > 0.0;
    assert (1.0 - f) * r == r - f * r;
    var x := f * r;
    assert 0.0 <= x < r;
    CeilWithin(x, n);
  }

  /** A whole step lies at or after an angle, or before it. */
  lemma StepsAt(degrees: real, n: nat, k: int)
    requires n >= 1
    ensures k >= Ceil(Steps(degrees, n)) <==> k as real * (90.0 / n as real) >= degrees
  {
    var r := n as real;
    var step := 90.0 / r;
    assert step * r == 90.0 && step > 0.0;
    CeilIs(Steps(degrees, n));
    assert Steps(degrees, n) * step == degrees by {
      assert degrees / 90.0 * r * step == degrees / 90.0 * (r * step);
    }
    var gap := k as real - Steps(degrees, n);
    SignIs(gap, step);
    assert gap * step == k as real * step - degrees;
  }

  lemma RangeJoins(low: int, mid: int, high: int)
    requires low <= mid <= high
    ensures Range(low, mid) + Range(mid, high) == Range(low, high)
  {
  }

  /** In a quadrant whose floor is known. */
  lemma QuadrantsApart(a: real, b: real, sweep: real)
    requires a < b <= a + sweep
    ensures (a / 90.0).Floor <= (b / 90.0).Floor
    ensures sweep < 720.0 ==> (b / 90.0).Floor <= (a / 90.0).Floor + 8
    ensures sweep < 360.0 ==> (b / 90.0).Floor <= (a / 90.0).Floor + 4
  {
  }

  ghost predicate WellFormed(slots: seq<Quadrant>, first: int, n: int) {
    forall i :: 0 <= i < |slots| ==>
      slots[i].axis == (first + i) % 4 && 0 <= slots[i].startIndex < slots[i].endIndex <= n
  }

  /** The entries so far, the last one still open to the end of its quadrant; `low` is the first step of all. */
  ghost predicate Pending(slots: seq<Quadrant>, first: int, n: int, low: int) {
    && slots != [] && WellFormed(slots, first, n)
    && var k := |slots| - 1;
    && slots[k].endIndex == n
    && var at := Base(first + k, n) + slots[k].startIndex;
    && low <= at && Flat(slots[..k], first, n) == Range(low, at)
    && (if k == 0 then low == at else slots[k].startIndex == 0)
  }

  /** Ready for the next quadrant. */
  ghost predicate Open(slots: seq<Quadrant>, first: int, n: int, low: int) {
    if slots == [] then low == Base(first, n) else Pending(slots, first, n, low)
  }

  lemma FirstQuadrant(slot: Quadrant, first: int, n: int, low: int)
    requires slot.axis == first % 4 && 0 <= slot.startIndex < slot.endIndex == n
    requires low == Base(first, n) + slot.startIndex
    ensures Pending([slot], first, n, low)
  {
    assert [slot][..0] == [];
  }

  lemma WellFormedAdd(slots: seq<Quadrant>, slot: Quadrant, first: int, n: int)
    requires WellFormed(slots, first, n) && slot.axis == (first + |slots|) % 4 && 0 <= slot.startIndex < slot.endIndex <= n
    ensures WellFormed(slots + [slot], first, n)
  {
  }

  /** All entries but the last, and then the last. */
  lemma FlatSplits(slots: seq<Quadrant>, first: int, n: int, low: int, end: int)
    requires slots != []
    requires var k := |slots| - 1; var base := Base(first + k, n);
      && low <= base + slots[k].startIndex <= base + slots[k].endIndex == end
      && Flat(slots[..k], first, n) == Range(low, base + slots[k].startIndex)
    ensures Flat(slots, first, n) == Range(low, end)
  {
    hide Range, Base;
    var k := |slots| - 1;
    RangeJoins(low, Base(first + k, n) + slots[k].startIndex, end);
  }

  lemma AddQuadrant(slots: seq<Quadrant>, first: int, n: int, low: int)
    requires n >= 1 && Open(slots, first, n, low)
    ensures Open(slots + [Quadrant((first + |slots|) % 4, 0, n)], first, n, low)
  {
    hide Base, Flat, Range, WellFormed;
    var slot := Quadrant((first + |slots|) % 4, 0, n);
    if slots == [] {
      FirstQuadrant(slot, first, n, low);
      assert slots + [slot] == [slot];
    } else {
      var k := |slots| - 1;
      assert (slots + [slot])[..k + 1] == slots;
      NextBase(first + k, n);
      WellFormedAdd(slots, slot, first, n);
      StartsInside(slots, first, n);
      FlatSplits(slots, first, n, low, Base(first + k, n) + n);
    }
  }

  lemma StartsInside(slots: seq<Quadrant>, first: int, n: int)
    requires WellFormed(slots, first, n) && slots != []
    ensures 0 <= slots[|slots| - 1].startIndex < n
  {
  }

  lemma NextBase(quadrant: int, n: int)
    ensures Base(quadrant + 1, n) == Base(quadrant, n) + n
  {
  }

  /** The entries with the last one cut at the end of the arc, or dropped if nothing is left of it. */
  function Closed(slots: seq<Quadrant>, last: int): seq<Quadrant> {
    if slots == [] then []
    else
      var k := |slots| - 1;
      if last <= slots[k].startIndex then slots[..k] else slots[k := slots[k].(endIndex := last)]
  }

  lemma WellFormedClosed(slots: seq<Quadrant>, first: int, n: int, last: int)
    requires WellFormed(slots, first, n) && last <= n
    ensures WellFormed(Closed(slots, last), first, n)
  {
  }

  lemma NothingInRange(low: int, high: int)
    requires low >= high
    ensures Range(low, high) == []
  {
  }

  lemma LastQuadrant(slots: seq<Quadrant>, first: int, n: int, low: int, last: int)
    requires Open(slots, first, n, low) && 0 <= last <= n
    ensures WellFormed(Closed(slots, last), first, n)
    ensures Flat(Closed(slots, last), first, n) == Range(low, Base(first + |slots| - 1, n) + last)
  {
    hide Base, Flat, Range, WellFormed;
    var k := |slots| - 1;
    var at := Base(first + k, n);
    NextBase(first - 1, n);
    NothingFlat(first, n);
    if slots == [] {
      NothingInRange(low, at + last);
    } else {
      WellFormedClosed(slots, first, n, last);
      if last > slots[k].startIndex {
        var kept := slots[k := slots[k].(endIndex := last)];
        assert kept[..k] == slots[..k];
        FlatSplits(kept, first, n, low, at + last);
      } else if k == 0 {
        NothingInRange(low, low);
        NothingInRange(low, at + last);
      }
    }
  }

  lemma NothingFlat(first: int, n: int)
    ensures Flat([], first, n) == [] && WellFormed([], first, n)
  {
  }

  lemma NudgeIs(n: nat)
    requires n >= 1
    ensures 0.0 < Nudge(n) <= 9.0
  {
    var q := 90.0 / n as real;
    assert q * n as real == 90.0;
  }

  lemma NothingListed(a: real, b: real, n: nat)
    requires a >= b && n >= 1
    ensures StepsBetween(a, b, n) == []
  {
    var r := n as real;
    var gap := a / 90.0 - b / 90.0;
    SignIs(gap, r);
    assert gap * r == Steps(a, n) - Steps(b, n);
  }

  class Arc {
    const start: real
    const sweep: real

    ghost predicate Valid() { 0.0 <= sweep < 720.0 }

    /** A negative sweep is turned round, and more than one turn becomes at most two. */
    constructor (startDegrees: real, sweepDegrees: real)
      ensures Valid()
      ensures start == if sweepDegrees < 0.0 then startDegrees + sweepDegrees else startDegrees
      ensures SameDirection(if sweepDegrees < 0.0 then -sweepDegrees else sweepDegrees, sweep)
      ensures -360.0 <= sweepDegrees <= 360.0 ==> sweep == if sweepDegrees < 0.0 then -sweepDegrees else sweepDegrees
      ensures sweep >= 360.0 <==> sweepDegrees >= 360.0 || sweepDegrees <= -360.0
    {
      var s, w := startDegrees, sweepDegrees;
      if w < 0.0 {
        s := s + w;
        w := -w;
      }
      ghost var distance := w;
      ghost var k := 0;
      if w > 360.0 {
        k := (w / 360.0).Floor - 1;
        w := 360.0 + Fmod360(w);
      }
      assert distance == w + Turns(k);
      start, sweep := s, w;
    }

    /** The first direction to list, and the one to stop before. */
    function First(n: nat): real
      requires n >= 1
    {
      GetPositive(start) + Nudge(n)
    }

    function Last(n: nat): real
      requires n >= 1
    {
      GetPositive(start) + sweep - Nudge(n)
    }

    /** The entries are returned in an array of nine, the first `count` of them valid; the directions
        of the two ends are None where the original leaves zero vectors. `quadrant` is the
        quadrant, not reduced to one turn, of the first entry. */
    method ComputeIterations(stepCount: nat, simplify360: bool)
        returns (startAngle: Option<real>, endAngle: Option<real>, quadrants: array<Quadrant>, count: nat, ghost quadrant: nat)
      requires Valid() && stepCount >= 1
      ensures fresh(quadrants) && quadrants.Length == 9 && count <= 9
      ensures sweep == 0.0 ==> startAngle == None && endAngle == None && count == 0
      ensures IsCircle(simplify360) ==> startAngle == Some(0.0) && endAngle == Some(0.0)
      ensures IsCircle(simplify360) ==> quadrant == 0 && quadrants[..count] == CircleQuadrants(stepCount)
      ensures IsOpen(simplify360) ==>
        startAngle == Some(GetPositive(start)) && endAngle == Some(GetPositive(start) + sweep)
      ensures IsOpen(simplify360) ==> WellFormed(quadrants[..count], quadrant, stepCount)
      ensures IsOpen(simplify360) && sweep < 360.0 ==> count <= 5
      ensures IsOpen(simplify360) ==>
        Flat(quadrants[..count], quadrant, stepCount) == StepsBetween(First(stepCount), Last(stepCount), stepCount)
    {
      hide StepsBetween, WellFormed, Flat, GetPositive;
      NothingFlat(0, stepCount);
      quadrants := new Quadrant[9](_ => Quadrant(0, 0, 0));
      startAngle, endAngle, count, quadrant := None, None, 0, 0;
      if sweep == 0.0 {
        return;
      }
      if simplify360 && sweep >= 360.0 {
        startAngle, endAngle, count := Some(0.0), Some(0.0), 4;
        quadrants[0] := Quadrant(0, 1, stepCount);
        quadrants[1] := Quadrant(1, 0, stepCount);
        quadrants[2] := Quadrant(2, 0, stepCount);
        quadrants[3] := Quadrant(3, 0, stepCount);
        assert quadrants[..4] == CircleQuadrants(stepCount);
        return;
      }
      var s := GetPositive(start);
      var e := s + sweep;
      PositiveIs(start);
      startAngle, endAngle := Some(s), Some(e);
      var nudge := Nudge(stepCount);
      if s + nudge >= e - nudge {
        NothingListed(s + nudge, e - nudge, stepCount);
        return;
      }
      NudgeIs(stepCount);
      count, quadrant := FillQuadrants(quadrants, s + nudge, e - nudge, stepCount, sweep);
    }

    predicate IsCircle(simplify360: bool) { simplify360 && sweep >= 360.0 }

    predicate IsOpen(simplify360: bool) { sweep > 0.0 && !IsCircle(simplify360) }
  }

  /** The rest of ComputeIterations: the entries from angle a up to angle b. */
  method FillQuadrants(quadrants: array<Quadrant>, a: real, b: real, stepCount: nat, ghost sweep: real)
      returns (count: nat, ghost quadrant: nat)
    requires quadrants.Length == 9 && stepCount >= 1
    requires 0.0 <= a < b <= a + sweep && sweep < 720.0
    modifies quadrants
    ensures count <= 9 && (sweep < 360.0 ==> count <= 5)
    ensures Flat(quadrants[..count], quadrant, stepCount) == StepsBetween(a, b, stepCount)
    ensures WellFormed(quadrants[..count], quadrant, stepCount)
  {
    hide Steps, NextStep, Ceil, Range, Base, Flat, Open, WellFormed;
    var n := stepCount;
    var cur := (a / 90.0).Floor;
    var end := (b / 90.0).Floor;
    QuadrantsApart(a, b, sweep);
    NextStepIs(a, cur, n);
    NextStepIs(b, end, n);
    var first := NextStep(a, cur, n);
    ghost var low := Ceil(Steps(a, n));
    var i := 0;
    quadrants[i] := Quadrant(cur % 4, first, n);
    quadrant := cur + 1;
    ghost var slots: seq<Quadrant> := [];  // the entries kept so far
    Starts(cur, first, n, low);
    if quadrants[0].endIndex > quadrants[0].startIndex {
      i := i + 1;
      quadrant := cur;
      slots := [Quadrant(cur % 4, first, n)];
    }
    while cur < end
      invariant cur <= end <= quadrant + 8 && (sweep < 360.0 ==> end <= quadrant + 4)
      invariant i == cur + 1 - quadrant && 0 <= i <= 9 && quadrants[..i] == slots
      invariant Open(slots, quadrant, n, low)
    {
      AddQuadrant(slots, quadrant, n, low);
      cur := cur + 1;
      quadrants[i] := Quadrant(cur % 4, 0, n);
      i := i + 1;
      slots := slots + [Quadrant(cur % 4, 0, n)];
    }
    var last := NextStep(b, cur, n);
    LastQuadrant(slots, quadrant, n, low, last);
    if i > 0 {
      quadrants[i - 1] := quadrants[i - 1].(endIndex := last);
      if quadrants[i - 1].endIndex <= quadrants[i - 1].startIndex {
        i := i - 1;
      }
    }
    assert quadrants[..i] == Closed(slots, last);
    count := i;
  }

  /** Where the listing starts, whether or not the first quadrant has a step. */
  lemma Starts(cur: int, first: int, n: int, low: int)
    requires 0 <= first <= n && low == Base(cur, n) + first
    ensures first < n ==> Open([Quadrant(cur % 4, first, n)], cur, n, low)
    ensures first == n ==> Open([], cur + 1, n, low)
  {
    NextBase(cur, n);
    if first < n {
      FirstQuadrant(Quadrant(cur % 4, first, n), cur, n, low);
    }
  }

  /** The four entries of a whole circle: the first starts one step in, since the start direction is listed apart. */
  function CircleQuadrants(n: nat): seq<Quadrant> {
    [Quadrant(0, 1, n), Quadrant(1, 0, n), Quadrant(2, 0, n), Quadrant(3, 0, n)]
  }

  // ----- What the listing means

  /** The steps listed are exactly the multiples of 90/n degrees from a up to b. */
  lemma StepsBetweenAre(a: real, b: real, n: nat, k: int)
    requires n >= 1
    ensures k in StepsBetween(a, b, n) <==> a <= k as real * (90.0 / n as real) < b
  {
    hide Ceil, Steps;
    StepsAt(a, n, k);
    StepsAt(b, n, k);
    RangeHas(Ceil(Steps(a, n)), Ceil(Steps(b, n)), k);
  }

  /** In terms of the arc: the multiples of 90/n degrees at least a tenth of a step past its start and
      more than a tenth of a step before its end. */
  lemma ListedAngles(arc: Arc, n: nat, k: int)
    requires n >= 1
    ensures k in StepsBetween(arc.First(n), arc.Last(n), n) <==>
      var step := 90.0 / n as real; var angle := k as real * step;
      GetPositive(arc.start) <= angle - step / 10.0 && angle + step / 10.0 < GetPositive(arc.start) + arc.sweep
  {
    hide StepsBetween, GetPositive;
    StepsBetweenAre(arc.First(n), arc.Last(n), n, k);
  }

  lemma RangeHas(low: int, high: int, k: int)
    ensures k in Range(low, high) <==> low <= k < high
  {
    if low <= k < high {
      assert Range(low, high)[k - low] == k;
    }
  }

  /** Each once and in increasing order, without a gap. */
  lemma StepsBetweenAscend(a: real, b: real, n: nat)
    ensures forall i :: 0 < i < |StepsBetween(a, b, n)| ==>
      StepsBetween(a, b, n)[i] == StepsBetween(a, b, n)[i - 1] + 1
  {
  }

  /** The step an entry's index stands for, from the rendering loop of arc.h. */
  lemma {:induction false} FlatHas(slots: seq<Quadrant>, first: int, n: int, k: int)
    ensures k in Flat(slots, first, n) <==>
      exists i :: 0 <= i < |slots| && Base(first + i, n) + slots[i].startIndex <= k < Base(first + i, n) + slots[i].endIndex
  {
    hide Base, Range;
    if slots != [] {
      var last := |slots| - 1;
      FlatHas(slots[..last], first, n, k);
      RangeHas(Base(first + last, n) + slots[last].startIndex, Base(first + last, n) + slots[last].endIndex, k);
    }
  }

  lemma FlatAdd(slots: seq<Quadrant>, slot: Quadrant, n: int, low: int, high: int)
    requires Flat(slots, 0, n) == Range(low, |slots| * n + slot.startIndex)
    requires low <= |slots| * n + slot.startIndex && slot.startIndex <= slot.endIndex
    requires high == |slots| * n + slot.endIndex
    ensures Flat(slots + [slot], 0, n) == Range(low, high)
  {
    hide Range;
    assert (slots + [slot])[..|slots|] == slots;
    RangeJoins(low, |slots| * n + slot.startIndex, high);
  }

  lemma CircleSteps(n: nat)
    requires n >= 1
    ensures Flat(CircleQuadrants(n), 0, n) == Range(1, 4 * n)
  {
    hide Flat;
    var a, b, c, d := Quadrant(0, 1, n), Quadrant(1, 0, n), Quadrant(2, 0, n), Quadrant(3, 0, n);
    NothingFlat(0, n);
    assert [] + [a] == [a] && [a] + [b] == [a, b] && [a, b] + [c] == [a, b, c] && [a, b, c] + [d] == CircleQuadrants(n);
    FlatAdd([], a, n, 1, n);
    FlatAdd([a], b, n, 1, 2 * n);
    FlatAdd([a, b], c, n, 1, 3 * n);
    FlatAdd([a, b, c], d, n, 1, 4 * n);
  }

  /** A whole circle lists every step but the first, which is the start direction; with a single
      step to the quadrant its first entry lists nothing, which the rendering code does not allow. */
  lemma CircleIsWellFormed(n: nat)
    requires n >= 1
    ensures Flat(CircleQuadrants(n), 0, n) == Range(1, 4 * n)
    ensures WellFormed(CircleQuadrants(n), 0, n) <==> n >= 2
  {
    hide Flat, Range;
    CircleSteps(n);
    assert CircleQuadrants(n)[0].startIndex == 1;
  }
}
