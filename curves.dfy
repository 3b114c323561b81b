/** The recursive curve generators that fill a Camera's buffer. Each generator
    is specified by a function giving the sequence of line segments it draws
    (the arguments of its `add_line` calls); the recording methods append the
    records of exactly those segments. */
module Curves {
  import opened Commands
  import opened Recorder

  /** A choice of (heading in degrees, distance) to (dx, dy). The trigonometry
      is left abstract, so every result below holds for any choice. */
  type Polar = (real, real) -> (real, real)

  /** `calculate_components`: the offset of a move of `distance` along
      `angle`. */
  function Components(comp: Polar, angle: real, distance: real): (real, real)
  {
    comp(angle, distance)
  }

  /** One `add_line` call: a segment from (x, y) along `angle` for `distance`. */
  datatype Segment = Segment(x: real, y: real, angle: real, distance: real)

  /** Where a segment ends. */
  function End(comp: Polar, s: Segment): (real, real)
  {
    (s.x + Components(comp, s.angle, s.distance).0, s.y + Components(comp, s.angle, s.distance).1)
  }

  /** The three records of one `add_line`: pen down, a goto to the segment's
      end (recorded with that end as its world point), pen up. */
  function LineOf(comp: Polar, s: Segment): seq<Record>
  {
    var e := End(comp, s);
    [ Record(PenDown, [], map[], None, None),
      Record(Goto, [e.0, e.1], map[], Some(e.0), Some(e.1)),
      Record(PenUp, [], map[], None, None) ]
  }

  /** The records of a sequence of `add_line` calls. */
  function Lines(comp: Polar, segs: seq<Segment>): seq<Record>
  {
    LinesFrom(comp, segs, 0)
  }

  /** The records of the calls for segs[i..]. */
  function LinesFrom(comp: Polar, segs: seq<Segment>, i: nat): seq<Record>
    requires i <= |segs|
    decreases |segs| - i
  {
    if i == |segs| then [] else LineOf(comp, segs[i]) + LinesFrom(comp, segs, i + 1)
  }

  /** Three records per segment. */
  lemma {:induction false} LinesFromLength(comp: Polar, segs: seq<Segment>, i: nat)
    requires i <= |segs|
    ensures |LinesFrom(comp, segs, i)| == 3 * (|segs| - i)
    decreases |segs| - i
  {
    if i < |segs| {
      LinesFromLength(comp, segs, i + 1);
    }
  }

  lemma LinesLength(comp: Polar, segs: seq<Segment>)
    ensures |Lines(comp, segs)| == 3 * |segs|
  {
    LinesFromLength(comp, segs, 0);
  }

  /** Past the end of `a`, the records of a + b are those of b. */
  lemma {:induction false} LinesFromSuffix(comp: Polar, a: seq<Segment>, b: seq<Segment>, j: nat)
    requires j <= |b|
    ensures LinesFrom(comp, a + b, |a| + j) == LinesFrom(comp, b, j)
    decreases |b| - j
  {
    if j < |b| {
      assert (a + b)[|a| + j] == b[j];
      LinesFromSuffix(comp, a, b, j + 1);
    }
  }

  lemma {:induction false} LinesFromPrefix(comp: Polar, a: seq<Segment>, b: seq<Segment>, i: nat)
    requires i <= |a|
    ensures LinesFrom(comp, a + b, i) == LinesFrom(comp, a, i) + LinesFrom(comp, b, 0)
    decreases |a| - i
  {
    if i < |a| {
      assert (a + b)[i] == a[i];
      LinesFromPrefix(comp, a, b, i + 1);
    } else {
      LinesFromSuffix(comp, a, b, 0);
    }
  }

  lemma LinesAppend(comp: Polar, a: seq<Segment>, b: seq<Segment>)
    ensures Lines(comp, a + b) == Lines(comp, a) + Lines(comp, b)
  {
    LinesFromPrefix(comp, a, b, 0);
  }

  lemma AppendThree(base: seq<Record>, a: seq<Record>, b: seq<Record>)
    ensures base + (a + b) == base + a + b
  {
  }

  lemma AppendFour(base: seq<Record>, a: seq<Record>, b: seq<Record>, c: seq<Record>, d: seq<Record>)
    ensures base + (a + b + c + d) == base + a + b + c + d
  {
  }

  /** The records of a single segment. */
  lemma LineIsLines(comp: Polar, s: Segment)
    ensures Lines(comp, [s]) == LineOf(comp, s)
  {
    assert LinesFrom(comp, [s], 1) == [];
  }

  lemma {:induction false} LinesFromAt(comp: Polar, segs: seq<Segment>, k: nat, i: nat)
    requires k <= i < |segs|
    ensures |LinesFrom(comp, segs, k)| == 3 * (|segs| - k)
    ensures LinesFrom(comp, segs, k)[3 * (i - k) .. 3 * (i - k) + 3] == LineOf(comp, segs[i])
    decreases i - k
  {
    LinesFromLength(comp, segs, k);
    if k < i {
      LinesFromAt(comp, segs, k + 1, i);
      assert LinesFrom(comp, segs, k)[3 * (i - k) .. 3 * (i - k) + 3]
          == LinesFrom(comp, segs, k + 1)[3 * (i - k - 1) .. 3 * (i - k - 1) + 3];
    }
  }

  /** Records 3i, 3i+1 and 3i+2 are the pen-down, goto and pen-up of segment i:
      every segment is drawn by its own `add_line`, in order. */
  lemma LinesAt(comp: Polar, segs: seq<Segment>, i: nat)
    requires i < |segs|
    ensures |Lines(comp, segs)| == 3 * |segs|
    ensures Lines(comp, segs)[3 * i .. 3 * i + 3] == LineOf(comp, segs[i])
  {
    LinesFromAt(comp, segs, 0, i);
  }

  lemma {:induction false} LinesFromBind(comp: Polar, segs: seq<Segment>, i: nat)
    requires i <= |segs|
    ensures AllBind(LinesFrom(comp, segs, i))
    decreases |segs| - i
  {
    if i < |segs| {
      LinesFromBind(comp, segs, i + 1);
      var a: seq<Record>, b: seq<Record> := LineOf(comp, segs[i]), LinesFrom(comp, segs, i + 1);
      forall j | 0 <= j < |a + b|
        ensures Binds((a + b)[j].cmd, (a + b)[j].args, (a + b)[j].kwargs)
      {
        if j < |a| { assert (a + b)[j] == a[j]; } else { assert (a + b)[j] == b[j - |a|]; }
      }
    }
  }

  /** Every call `add_line` records is one its pen method accepts, so a replay
      of the generators' records never raises TypeError. */
  lemma LinesBind(comp: Polar, segs: seq<Segment>)
    ensures AllBind(Lines(comp, segs))
  {
    LinesFromBind(comp, segs, 0);
  }

  function Pow(b: nat, n: nat): (r: nat)
    ensures r > 0 || b == 0
  {
    if n == 0 then 1 else b * Pow(b, n - 1)
  }

  function RPow(b: real, n: nat): (r: real)
    ensures b > 0.0 ==> r > 0.0
  {
    if n == 0 then 1.0 else b * RPow(b, n - 1)
  }

  /** Every segment has length `d`. */
  predicate AllOfLength(segs: seq<Segment>, d: real)
  {
    forall i :: 0 <= i < |segs| ==> segs[i].distance == d
  }

  lemma AllOfLengthAppend(a: seq<Segment>, b: seq<Segment>, d: real)
    requires AllOfLength(a, d) && AllOfLength(b, d)
    ensures AllOfLength(a + b, d)
  {
    forall i | 0 <= i < |a + b|
      ensures (a + b)[i].distance == d
    {
      if i < |a| { assert (a + b)[i] == a[i]; } else { assert (a + b)[i] == b[i - |a|]; }
    }
  }

  lemma DivideTwice(size: real, b: real, n: nat)
    requires b > 0.0 && n > 0
    ensures (size / b) / RPow(b, n - 1) == size / RPow(b, n)
  {
    assert RPow(b, n) == b * RPow(b, n - 1);
  }

  // ---------------------------------------------------------------- Koch

  /** The turns between the four sub-curves of a Koch step. */
  const KochTurns: seq<real> := [60.0, -120.0, 60.0, 0.0]

  /** The segments of a Koch curve of `order`. */
  function Koch(comp: Polar, order: nat, size: real, x: real, y: real, angle: real): seq<Segment>
    decreases order, 1
  {
    if order == 0 then [Segment(x, y, angle, size)]
    else KochSteps(comp, order - 1, size / 3.0, x, y, angle, KochTurns)
  }

  /** The remaining sub-curves of a Koch step, each of `order` and length `sub`,
      starting at (x, y) with heading `angle`; after each one the pen advances
      by `sub` and turns by the next entry of `turns`. */
  function KochSteps(comp: Polar, order: nat, sub: real, x: real, y: real, angle: real, turns: seq<real>): seq<Segment>
    decreases order + 1, 0, |turns|
  {
    if turns == [] then []
    else
      var d := Components(comp, angle, sub);
      Koch(comp, order, sub, x, y, angle) + KochSteps(comp, order, sub, x + d.0, y + d.1, angle + turns[0], turns[1..])
  }

  /** A Koch curve of order n draws 4^n segments. */
  lemma {:induction false} KochCount(comp: Polar, order: nat, size: real, x: real, y: real, angle: real)
    ensures |Koch(comp, order, size, x, y, angle)| == Pow(4, order)
    decreases order, 1
  {
    if order > 0 {
      KochStepsCount(comp, order - 1, size / 3.0, x, y, angle, KochTurns);
    }
  }

  lemma {:induction false} KochStepsCount(comp: Polar, order: nat, sub: real, x: real, y: real, angle: real, turns: seq<real>)
    ensures |KochSteps(comp, order, sub, x, y, angle, turns)| == |turns| * Pow(4, order)
    decreases order + 1, 0, |turns|
  {
    if turns != [] {
      var d := Components(comp, angle, sub);
      KochCount(comp, order, sub, x, y, angle);
      KochStepsCount(comp, order, sub, x + d.0, y + d.1, angle + turns[0], turns[1..]);
      assert |turns| * Pow(4, order) == Pow(4, order) + (|turns| - 1) * Pow(4, order);
    }
  }

  /** Every segment of a Koch curve of order n has length size / 3^n. */
  lemma {:induction false} KochLeafLength(comp: Polar, order: nat, size: real, x: real, y: real, angle: real)
    ensures AllOfLength(Koch(comp, order, size, x, y, angle), size / RPow(3.0, order))
    decreases order, 1
  {
    if order > 0 {
      var d := size / RPow(3.0, order);
      assert (size / 3.0) / RPow(3.0, order - 1) == d by { DivideTwice(size, 3.0, order); }
      KochStepsLeafLength(comp, order - 1, size / 3.0, x, y, angle, KochTurns);
    }
  }

  lemma {:induction false} KochStepsLeafLength(comp: Polar, order: nat, sub: real, x: real, y: real, angle: real, turns: seq<real>)
    ensures AllOfLength(KochSteps(comp, order, sub, x, y, angle, turns), sub / RPow(3.0, order))
    decreases order + 1, 0, |turns|
  {
    if turns != [] {
      var d := Components(comp, angle, sub);
      var head := Koch(comp, order, sub, x, y, angle);
      var rest := KochSteps(comp, order, sub, x + d.0, y + d.1, angle + turns[0], turns[1..]);
      assert KochSteps(comp, order, sub, x, y, angle, turns) == head + rest;
      KochLeafLength(comp, order, sub, x, y, angle);
      KochStepsLeafLength(comp, order, sub, x + d.0, y + d.1, angle + turns[0], turns[1..]);
      AllOfLengthAppend(head, rest, sub / RPow(3.0, order));
    }
  }

  /** The records `draw_koch` appends for a Koch curve of `order`. */
  function KochRecords(comp: Polar, order: nat, size: real, x: real, y: real, angle: real): seq<Record>
    decreases order, 1
  {
    if order == 0 then LineOf(comp, Segment(x, y, angle, size))
    else KochStepsRecords(comp, order - 1, size / 3.0, x, y, angle, KochTurns)
  }

  /** The records of the remaining sub-curves of a Koch step. */
  function KochStepsRecords(comp: Polar, order: nat, sub: real, x: real, y: real, angle: real, turns: seq<real>): seq<Record>
    decreases order + 1, 0, |turns|
  {
    if turns == [] then []
    else
      var d := Components(comp, angle, sub);
      KochRecords(comp, order, sub, x, y, angle) + KochStepsRecords(comp, order, sub, x + d.0, y + d.1, angle + turns[0], turns[1..])
  }

  /** The records are those of the curve's segments, in order. */
  lemma {:induction false} KochRecordsAreLines(comp: Polar, order: nat, size: real, x: real, y: real, angle: real)
    ensures KochRecords(comp, order, size, x, y, angle) == Lines(comp, Koch(comp, order, size, x, y, angle))
    decreases order, 1
  {
    if order == 0 {
      LineIsLines(comp, Segment(x, y, angle, size));
    } else {
      KochStepsRecordsAreLines(comp, order - 1, size / 3.0, x, y, angle, KochTurns);
    }
  }

  lemma {:induction false} KochStepsRecordsAreLines(comp: Polar, order: nat, sub: real, x: real, y: real, angle: real, turns: seq<real>)
    ensures KochStepsRecords(comp, order, sub, x, y, angle, turns) == Lines(comp, KochSteps(comp, order, sub, x, y, angle, turns))
    decreases order + 1, 0, |turns|
  {
    if turns != [] {
      var d := Components(comp, angle, sub);
      var piece := Koch(comp, order, sub, x, y, angle);
      var rest := KochSteps(comp, order, sub, x + d.0, y + d.1, angle + turns[0], turns[1..]);
      assert KochSteps(comp, order, sub, x, y, angle, turns) == piece + rest;
      KochRecordsAreLines(comp, order, sub, x, y, angle);
      KochStepsRecordsAreLines(comp, order, sub, x + d.0, y + d.1, angle + turns[0], turns[1..]);
      LinesAppend(comp, piece, rest);
    }
  }

  /** Once the first remaining sub-curve is recorded and the pen has advanced
      by `sub` and turned, the other sub-curves complete the step. */
  lemma KochAdvance(comp: Polar, order: nat, sub: real, x: real, y: real, angle: real, turns: seq<real>,
                    px: real, py: real, before: seq<Record>, after: seq<Record>)
    requires turns != []
    requires px == x + Components(comp, angle, sub).0 && py == y + Components(comp, angle, sub).1
    requires after == before + KochRecords(comp, order, sub, x, y, angle)
    ensures after + KochStepsRecords(comp, order, sub, px, py, angle + turns[0], turns[1..])
         == before + KochStepsRecords(comp, order, sub, x, y, angle, turns)
  {
    AppendThree(before, KochRecords(comp, order, sub, x, y, angle),
                KochStepsRecords(comp, order, sub, px, py, angle + turns[0], turns[1..]));
  }

  /** `draw_koch`: records the Koch curve of `order`. */
  method DrawKoch(c: Camera, comp: Polar, order: nat, size: real, x: real, y: real, angle: real)
    modifies c`objects
    ensures c.objects == old(c.objects) + KochRecords(comp, order, size, x, y, angle)
    decreases order
  {
    if order == 0 {
      AddLine(c, comp, x, y, angle, size);
    } else {
      var px, py, heading := x, y, angle;
      var sub := size / 3.0;
      var turns := KochTurns;
      ghost var goal := old(c.objects) + KochRecords(comp, order, size, x, y, angle);
      while turns != []
        invariant c.objects + KochStepsRecords(comp, order - 1, sub, px, py, heading, turns) == goal
      {
        var change := turns[0];
        var d := Components(comp, heading, sub);
        ghost var before := c.objects;
        DrawKoch(c, comp, order - 1, sub, px, py, heading);
        KochAdvance(comp, order - 1, sub, px, py, heading, turns, px + d.0, py + d.1, before, c.objects);
        px, py, heading := px + d.0, py + d.1, heading + change;
        turns := turns[1..];
      }
      assert c.objects + [] == c.objects;
    }
  }

  // ---------------------------------------------------------- Sierpinski

  /** The segments of a Sierpinski figure of `order`: three pieces, each
      followed by an advance of the full `size` and a 120 degree turn. */
  function Sierpinski(comp: Polar, order: nat, size: real, x: real, y: real, angle: real): seq<Segment>
    decreases order, 1
  {
    SierpinskiSteps(comp, order, size, x, y, angle, 3)
  }

  /** The last `k` of the three pieces of a Sierpinski figure. A piece of order 0
      is one segment of `size`; a piece of higher order is a figure of one order
      less and half the size. */
  function SierpinskiSteps(comp: Polar, order: nat, size: real, x: real, y: real, angle: real, k: nat): seq<Segment>
    decreases order, 0, k
  {
    if k == 0 then []
    else
      var piece := if order == 0 then [Segment(x, y, angle, size)]
                   else Sierpinski(comp, order - 1, size / 2.0, x, y, angle);
      var d := Components(comp, angle, size);
      piece + SierpinskiSteps(comp, order, size, x + d.0, y + d.1, angle + 120.0, k - 1)
  }

  /** A Sierpinski figure of order n draws 3^(n+1) segments. */
  lemma {:induction false} SierpinskiCount(comp: Polar, order: nat, size: real, x: real, y: real, angle: real)
    ensures |Sierpinski(comp, order, size, x, y, angle)| == Pow(3, order + 1)
    decreases order, 1
  {
    SierpinskiStepsCount(comp, order, size, x, y, angle, 3);
  }

  lemma {:induction false} SierpinskiStepsCount(comp: Polar, order: nat, size: real, x: real, y: real, angle: real, k: nat)
    ensures |SierpinskiSteps(comp, order, size, x, y, angle, k)| == k * Pow(3, order)
    decreases order, 0, k
  {
    if k > 0 {
      var d := Components(comp, angle, size);
      if order > 0 {
        SierpinskiCount(comp, order - 1, size / 2.0, x, y, angle);
      }
      SierpinskiStepsCount(comp, order, size, x + d.0, y + d.1, angle + 120.0, k - 1);
      assert k * Pow(3, order) == Pow(3, order) + (k - 1) * Pow(3, order);
    }
  }

  /** Every segment of a Sierpinski figure of order n has length size / 2^n. */
  lemma {:induction false} SierpinskiLeafLength(comp: Polar, order: nat, size: real, x: real, y: real, angle: real)
    ensures AllOfLength(Sierpinski(comp, order, size, x, y, angle), size / RPow(2.0, order))
    decreases order, 1
  {
    SierpinskiStepsLeafLength(comp, order, size, x, y, angle, 3);
  }

  lemma {:induction false} SierpinskiStepsLeafLength(comp: Polar, order: nat, size: real, x: real, y: real, angle: real, k: nat)
    ensures AllOfLength(SierpinskiSteps(comp, order, size, x, y, angle, k), size / RPow(2.0, order))
    decreases order, 0, k
  {
    if k > 0 {
      var d := Components(comp, angle, size);
      var len := size / RPow(2.0, order);
      var piece := if order == 0 then [Segment(x, y, angle, size)]
                   else Sierpinski(comp, order - 1, size / 2.0, x, y, angle);
      var rest := SierpinskiSteps(comp, order, size, x + d.0, y + d.1, angle + 120.0, k - 1);
      assert SierpinskiSteps(comp, order, size, x, y, angle, k) == piece + rest;
      if order > 0 {
        assert (size / 2.0) / RPow(2.0, order - 1) == len by { DivideTwice(size, 2.0, order); }
        SierpinskiLeafLength(comp, order - 1, size / 2.0, x, y, angle);
      }
      SierpinskiStepsLeafLength(comp, order, size, x + d.0, y + d.1, angle + 120.0, k - 1);
      AllOfLengthAppend(piece, rest, len);
    }
  }

  /** Every figure's first segment starts at its origin with its heading. */
  lemma {:induction false} SierpinskiStartsAtOrigin(comp: Polar, order: nat, size: real, x: real, y: real, angle: real)
    ensures |Sierpinski(comp, order, size, x, y, angle)| > 0
    ensures Sierpinski(comp, order, size, x, y, angle)[0].x == x
    ensures Sierpinski(comp, order, size, x, y, angle)[0].y == y
    ensures Sierpinski(comp, order, size, x, y, angle)[0].angle == angle
    decreases order
  {
    var d := Components(comp, angle, size);
    var piece := if order == 0 then [Segment(x, y, angle, size)]
                 else Sierpinski(comp, order - 1, size / 2.0, x, y, angle);
    var rest := SierpinskiSteps(comp, order, size, x + d.0, y + d.1, angle + 120.0, 2);
    assert Sierpinski(comp, order, size, x, y, angle) == piece + rest;
    if order > 0 {
      SierpinskiStartsAtOrigin(comp, order - 1, size / 2.0, x, y, angle);
    }
  }

  /** Between the pieces of a figure of order n > 0 the pen advances by the
      full `size` although each piece is only half as large: the second piece
      starts `Components(comp, angle, size)` away from the origin, not `Components(comp, angle, size / 2)`. */
  lemma SierpinskiSecondPieceStart(comp: Polar, order: nat, size: real, x: real, y: real, angle: real)
    requires order > 0
    ensures |Sierpinski(comp, order, size, x, y, angle)| > Pow(3, order)
    ensures |Sierpinski(comp, order - 1, size / 2.0, x + Components(comp, angle, size).0, y + Components(comp, angle, size).1, angle + 120.0)| > 0
    ensures Sierpinski(comp, order, size, x, y, angle)[Pow(3, order)]
         == Sierpinski(comp, order - 1, size / 2.0, x + Components(comp, angle, size).0, y + Components(comp, angle, size).1, angle + 120.0)[0]
  {
    var d := Components(comp, angle, size);
    var first := Sierpinski(comp, order - 1, size / 2.0, x, y, angle);
    var second := Sierpinski(comp, order - 1, size / 2.0, x + d.0, y + d.1, angle + 120.0);
    var rest := SierpinskiSteps(comp, order, size, x + d.0, y + d.1, angle + 120.0, 2);
    var d2 := Components(comp, angle + 120.0, size);
    var last := SierpinskiSteps(comp, order, size, x + d.0 + d2.0, y + d.1 + d2.1, angle + 120.0 + 120.0, 1);
    assert Sierpinski(comp, order, size, x, y, angle) == first + rest;
    assert rest == second + last;
    SierpinskiCount(comp, order - 1, size / 2.0, x, y, angle);
    SierpinskiCount(comp, order - 1, size / 2.0, x + d.0, y + d.1, angle + 120.0);
    SierpinskiStartsAtOrigin(comp, order - 1, size / 2.0, x + d.0, y + d.1, angle + 120.0);
    assert (first + (second + last))[|first|] == second[0];
  }

  /** The records `draw_sierpinski` appends for a figure of `order`. */
  function SierpinskiRecords(comp: Polar, order: nat, size: real, x: real, y: real, angle: real): seq<Record>
    decreases order, 1
  {
    SierpinskiStepsRecords(comp, order, size, x, y, angle, 3)
  }

  function SierpinskiStepsRecords(comp: Polar, order: nat, size: real, x: real, y: real, angle: real, k: nat): seq<Record>
    decreases order, 0, k
  {
    if k == 0 then []
    else
      var piece := if order == 0 then LineOf(comp, Segment(x, y, angle, size))
                   else SierpinskiRecords(comp, order - 1, size / 2.0, x, y, angle);
      var d := Components(comp, angle, size);
      piece + SierpinskiStepsRecords(comp, order, size, x + d.0, y + d.1, angle + 120.0, k - 1)
  }

  /** The records are those of the figure's segments, in order. */
  lemma {:induction false} SierpinskiRecordsAreLines(comp: Polar, order: nat, size: real, x: real, y: real, angle: real)
    ensures SierpinskiRecords(comp, order, size, x, y, angle) == Lines(comp, Sierpinski(comp, order, size, x, y, angle))
    decreases order, 1
  {
    SierpinskiStepsRecordsAreLines(comp, order, size, x, y, angle, 3);
  }

  lemma {:induction false} SierpinskiStepsRecordsAreLines(comp: Polar, order: nat, size: real, x: real, y: real, angle: real, k: nat)
    ensures SierpinskiStepsRecords(comp, order, size, x, y, angle, k)
         == Lines(comp, SierpinskiSteps(comp, order, size, x, y, angle, k))
    decreases order, 0, k
  {
    if k > 0 {
      var d := Components(comp, angle, size);
      var piece := if order == 0 then [Segment(x, y, angle, size)]
                   else Sierpinski(comp, order - 1, size / 2.0, x, y, angle);
      var rest := SierpinskiSteps(comp, order, size, x + d.0, y + d.1, angle + 120.0, k - 1);
      assert SierpinskiSteps(comp, order, size, x, y, angle, k) == piece + rest;
      if order == 0 {
        LineIsLines(comp, Segment(x, y, angle, size));
      } else {
        SierpinskiRecordsAreLines(comp, order - 1, size / 2.0, x, y, angle);
      }
      SierpinskiStepsRecordsAreLines(comp, order, size, x + d.0, y + d.1, angle + 120.0, k - 1);
      LinesAppend(comp, piece, rest);
    }
  }

  /** Once one piece is recorded and the pen has advanced by `size` and turned,
      the remaining pieces complete the figure. */
  lemma SierpinskiAdvance(comp: Polar, order: nat, size: real, x: real, y: real, angle: real, k: nat,
                          px: real, py: real, before: seq<Record>, after: seq<Record>)
    requires k > 0
    requires px == x + Components(comp, angle, size).0 && py == y + Components(comp, angle, size).1
    requires after == before + (if order == 0 then LineOf(comp, Segment(x, y, angle, size))
                                else SierpinskiRecords(comp, order - 1, size / 2.0, x, y, angle))
    ensures after + SierpinskiStepsRecords(comp, order, size, px, py, angle + 120.0, k - 1)
         == before + SierpinskiStepsRecords(comp, order, size, x, y, angle, k)
  {
    var piece := if order == 0 then LineOf(comp, Segment(x, y, angle, size))
                 else SierpinskiRecords(comp, order - 1, size / 2.0, x, y, angle);
    AppendThree(before, piece, SierpinskiStepsRecords(comp, order, size, px, py, angle + 120.0, k - 1));
  }

  /** `draw_sierpinski`: records the Sierpinski figure of `order`. */
  method DrawSierpinski(c: Camera, comp: Polar, order: nat, size: real, x: real, y: real, angle: real)
    modifies c`objects
    ensures c.objects == old(c.objects) + SierpinskiRecords(comp, order, size, x, y, angle)
    decreases order
  {
    ghost var goal := old(c.objects) + SierpinskiRecords(comp, order, size, x, y, angle);
    var px, py, heading := x, y, angle;
    if order == 0 {
      for i := 0 to 3
        invariant c.objects + SierpinskiStepsRecords(comp, order, size, px, py, heading, 3 - i) == goal
      {
        ghost var before := c.objects;
        AddLine(c, comp, px, py, heading, size);
        var d := Components(comp, heading, size);
        SierpinskiAdvance(comp, order, size, px, py, heading, 3 - i, px + d.0, py + d.1, before, c.objects);
        px, py, heading := px + d.0, py + d.1, heading + 120.0;
      }
    } else {
      for i := 0 to 3
        invariant c.objects + SierpinskiStepsRecords(comp, order, size, px, py, heading, 3 - i) == goal
      {
        ghost var before := c.objects;
        DrawSierpinski(c, comp, order - 1, size / 2.0, px, py, heading);
        var d := Components(comp, heading, size);
        SierpinskiAdvance(comp, order, size, px, py, heading, 3 - i, px + d.0, py + d.1, before, c.objects);
        px, py, heading := px + d.0, py + d.1, heading + 120.0;
      }
    }
    assert c.objects + [] == c.objects;
  }

  // ---------------------------------------------------------------- Tree

  /** The segments of a tree with trunk `length` at heading `heading`: the
      trunk, the left subtree (turned by +spread), the right subtree (turned
      by -spread), each with its length reduced by `shorten`, and a return
      segment from the trunk's end at the reversed heading. A trunk of at most
      5 draws nothing. A longer trunk with `shorten` <= 0 never finishes
      drawing; the function gives [] there and DrawTree excludes that case. */
  function Tree(comp: Polar, length: int, shorten: int, spread: real, x: real, y: real, heading: real): seq<Segment>
    decreases length
  {
    if length > 5 && shorten > 0 then
      var d := Components(comp, heading, length as real);
      [Segment(x, y, heading, length as real)]
      + Tree(comp, length - shorten, shorten, spread, x + d.0, y + d.1, heading + spread)
      + Tree(comp, length - shorten, shorten, spread, x + d.0, y + d.1, heading - spread)
      + [Segment(x + d.0, y + d.1, heading + 180.0, length as real)]
    else []
  }

  /** The number of levels of a tree. */
  function TreeDepth(length: int, shorten: int): nat
    decreases length
  {
    if length > 5 && shorten > 0 then 1 + TreeDepth(length - shorten, shorten) else 0
  }

  /** A tree of depth d draws 2 * (2^d - 1) segments: a trunk and its return
      segment for every one of the 2^d - 1 branches. */
  lemma {:induction false} TreeCount(comp: Polar, length: int, shorten: int, spread: real, x: real, y: real, heading: real)
    ensures |Tree(comp, length, shorten, spread, x, y, heading)| == 2 * (Pow(2, TreeDepth(length, shorten)) - 1)
    decreases length
  {
    if length > 5 && shorten > 0 {
      var d := Components(comp, heading, length as real);
      TreeCount(comp, length - shorten, shorten, spread, x + d.0, y + d.1, heading + spread);
      TreeCount(comp, length - shorten, shorten, spread, x + d.0, y + d.1, heading - spread);
    }
  }

  /** With a positive `shorten`, a trunk longer than 5 has
      ceil((length - 5) / shorten) levels. */
  lemma {:induction false} TreeDepthBound(length: int, shorten: int)
    requires shorten > 0
    ensures length <= 5 ==> TreeDepth(length, shorten) == 0
    ensures length > 5 ==> (TreeDepth(length, shorten) - 1) * shorten < length - 5 <= TreeDepth(length, shorten) * shorten
    decreases length
  {
    if length > 5 {
      TreeDepthBound(length - shorten, shorten);
    }
  }

  /** A trunk of at most 5 draws nothing; a longer one starts with its trunk and
      ends with a segment of the same length from the trunk's end at the
      reversed heading, so the pen retraces the trunk. */
  lemma TreeShape(comp: Polar, length: int, shorten: int, spread: real, x: real, y: real, heading: real)
    requires length <= 5 || shorten > 0
    ensures length <= 5 ==> Tree(comp, length, shorten, spread, x, y, heading) == []
    ensures length > 5 ==>
      var t := Tree(comp, length, shorten, spread, x, y, heading);
      |t| >= 2
      && t[0] == Segment(x, y, heading, length as real)
      && t[|t| - 1] == Segment(End(comp, t[0]).0, End(comp, t[0]).1, heading + 180.0, length as real)
  {
  }

  /** The records of one level of a tree, with the trunk's end given as
      (px, py): trunk, left subtree, right subtree, return segment. */
  lemma TreeLinesUnfold(comp: Polar, length: int, shorten: int, spread: real, x: real, y: real, heading: real, px: real, py: real)
    requires length > 5 && shorten > 0
    requires px == x + Components(comp, heading, length as real).0
    requires py == y + Components(comp, heading, length as real).1
    ensures Lines(comp, Tree(comp, length, shorten, spread, x, y, heading))
         == LineOf(comp, Segment(x, y, heading, length as real))
            + Lines(comp, Tree(comp, length - shorten, shorten, spread, px, py, heading + spread))
            + Lines(comp, Tree(comp, length - shorten, shorten, spread, px, py, heading - spread))
            + LineOf(comp, Segment(px, py, heading + 180.0, length as real))
  {
    var trunk := Segment(x, y, heading, length as real);
    var back := Segment(px, py, heading + 180.0, length as real);
    var left := Tree(comp, length - shorten, shorten, spread, px, py, heading + spread);
    var right := Tree(comp, length - shorten, shorten, spread, px, py, heading - spread);
    LineIsLines(comp, trunk);
    LineIsLines(comp, back);
    LinesAppend(comp, [trunk], left);
    LinesAppend(comp, [trunk] + left, right);
    LinesAppend(comp, [trunk] + left + right, [back]);
  }

  /** Trunk, both subtrees and the return segment, recorded in that order,
      are the records of the whole tree. */
  lemma TreeRecorded(comp: Polar, length: int, shorten: int, spread: real, x: real, y: real, heading: real,
                     px: real, py: real, before: seq<Record>, after: seq<Record>)
    requires length > 5 && shorten > 0
    requires px == x + Components(comp, heading, length as real).0
    requires py == y + Components(comp, heading, length as real).1
    requires after == before + LineOf(comp, Segment(x, y, heading, length as real))
                      + Lines(comp, Tree(comp, length - shorten, shorten, spread, px, py, heading + spread))
                      + Lines(comp, Tree(comp, length - shorten, shorten, spread, px, py, heading - spread))
                      + LineOf(comp, Segment(px, py, heading + 180.0, length as real))
    ensures after == before + Lines(comp, Tree(comp, length, shorten, spread, x, y, heading))
  {
    TreeLinesUnfold(comp, length, shorten, spread, x, y, heading, px, py);
    AppendFour(before, LineOf(comp, Segment(x, y, heading, length as real)),
               Lines(comp, Tree(comp, length - shorten, shorten, spread, px, py, heading + spread)),
               Lines(comp, Tree(comp, length - shorten, shorten, spread, px, py, heading - spread)),
               LineOf(comp, Segment(px, py, heading + 180.0, length as real)));
  }

  /** `draw_tree`: records the tree; recursion stops once the branch length is
      at most 5, which a positive `shorten` guarantees. */
  method DrawTree(c: Camera, comp: Polar, length: int, shorten: int, spread: real, x: real, y: real, heading: real)
    requires length <= 5 || shorten > 0
    modifies c`objects
    ensures c.objects == old(c.objects) + Lines(comp, Tree(comp, length, shorten, spread, x, y, heading))
    decreases length
  {
    if length > 5 {
      AddLine(c, comp, x, y, heading, length as real);
      var d := Components(comp, heading, length as real);
      var px, py := x + d.0, y + d.1;
      DrawTree(c, comp, length - shorten, shorten, spread, px, py, heading + spread);
      DrawTree(c, comp, length - shorten, shorten, spread, px, py, heading - spread);
      AddLine(c, comp, px, py, heading + 180.0, length as real);
      TreeRecorded(comp, length, shorten, spread, x, y, heading, px, py, old(c.objects), c.objects);
    } else {
      assert Tree(comp, length, shorten, spread, x, y, heading) == [];
    }
  }

  // -------------------------------------------------------------- Dragon

  /** The segments of a dragon curve of `order`: two sub-curves of size / 1.414,
      the first always with sign 1, the second turned by 45 * sign degrees and
      with sign -1. */
  function Dragon(comp: Polar, order: nat, size: real, x: real, y: real, angle: real, sign: int): seq<Segment>
  {
    if order == 0 then [Segment(x, y, angle, size)]
    else
      var sub := size / 1.414;
      var d := Components(comp, angle, sub);
      Dragon(comp, order - 1, sub, x, y, angle, 1)
      + Dragon(comp, order - 1, sub, x + d.0, y + d.1, angle + 45.0 * sign as real, -1)
  }

  /** A dragon curve of order n draws 2^n segments. */
  lemma {:induction false} DragonCount(comp: Polar, order: nat, size: real, x: real, y: real, angle: real, sign: int)
    ensures |Dragon(comp, order, size, x, y, angle, sign)| == Pow(2, order)
  {
    if order > 0 {
      var sub := size / 1.414;
      var d := Components(comp, angle, sub);
      DragonCount(comp, order - 1, sub, x, y, angle, 1);
      DragonCount(comp, order - 1, sub, x + d.0, y + d.1, angle + 45.0 * sign as real, -1);
    }
  }

  /** Every segment of a dragon curve of order n has length size / 1.414^n. */
  lemma {:induction false} DragonLeafLength(comp: Polar, order: nat, size: real, x: real, y: real, angle: real, sign: int)
    ensures AllOfLength(Dragon(comp, order, size, x, y, angle, sign), size / RPow(1.414, order))
  {
    if order > 0 {
      var sub := size / 1.414;
      var d := Components(comp, angle, sub);
      var len := size / RPow(1.414, order);
      assert sub / RPow(1.414, order - 1) == len by { DivideTwice(size, 1.414, order); }
      DragonLeafLength(comp, order - 1, sub, x, y, angle, 1);
      DragonLeafLength(comp, order - 1, sub, x + d.0, y + d.1, angle + 45.0 * sign as real, -1);
      AllOfLengthAppend(Dragon(comp, order - 1, sub, x, y, angle, 1),
                        Dragon(comp, order - 1, sub, x + d.0, y + d.1, angle + 45.0 * sign as real, -1), len);
    }
  }

  /** Only the top-level sign matters, and only for the second half: every
      nested first half is drawn with sign 1, whatever sign its caller had. */
  lemma DragonFirstHalfIgnoresSign(comp: Polar, order: nat, size: real, x: real, y: real, angle: real, s1: int, s2: int)
    requires order > 0
    ensures |Dragon(comp, order, size, x, y, angle, s1)| == |Dragon(comp, order, size, x, y, angle, s2)| == Pow(2, order)
    ensures Dragon(comp, order, size, x, y, angle, s1)[..Pow(2, order - 1)]
         == Dragon(comp, order, size, x, y, angle, s2)[..Pow(2, order - 1)]
  {
    var sub := size / 1.414;
    var first := Dragon(comp, order - 1, sub, x, y, angle, 1);
    DragonCount(comp, order, size, x, y, angle, s1);
    DragonCount(comp, order, size, x, y, angle, s2);
    DragonCount(comp, order - 1, sub, x, y, angle, 1);
    assert Dragon(comp, order, size, x, y, angle, s1)[..|first|] == first;
    assert Dragon(comp, order, size, x, y, angle, s2)[..|first|] == first;
  }

  /** The records `draw_dragon` appends for a dragon curve. */
  function DragonRecords(comp: Polar, order: nat, size: real, x: real, y: real, angle: real, sign: int): seq<Record>
  {
    if order == 0 then LineOf(comp, Segment(x, y, angle, size))
    else
      var sub := size / 1.414;
      var d := Components(comp, angle, sub);
      DragonRecords(comp, order - 1, sub, x, y, angle, 1)
      + DragonRecords(comp, order - 1, sub, x + d.0, y + d.1, angle + 45.0 * sign as real, -1)
  }

  /** The records are those of the curve's segments, in order. */
  lemma {:induction false} DragonRecordsAreLines(comp: Polar, order: nat, size: real, x: real, y: real, angle: real, sign: int)
    ensures DragonRecords(comp, order, size, x, y, angle, sign) == Lines(comp, Dragon(comp, order, size, x, y, angle, sign))
    decreases order
  {
    if order == 0 {
      LineIsLines(comp, Segment(x, y, angle, size));
    } else {
      var sub := size / 1.414;
      var d := Components(comp, angle, sub);
      var x2, y2, turned := x + d.0, y + d.1, angle + 45.0 * sign as real;
      var a := Dragon(comp, order - 1, sub, x, y, angle, 1);
      var b := Dragon(comp, order - 1, sub, x2, y2, turned, -1);
      DragonRecordsAreLines(comp, order - 1, sub, x, y, angle, 1);
      DragonRecordsAreLines(comp, order - 1, sub, x2, y2, turned, -1);
      LinesAppend(comp, a, b);
    }
  }

  /** The two sub-curves, recorded one after the other, are the records of
      the whole curve. */
  lemma DragonRecorded(comp: Polar, order: nat, size: real, x: real, y: real, angle: real, sign: int,
                       px: real, py: real, before: seq<Record>, after: seq<Record>)
    requires order > 0
    requires px == x + Components(comp, angle, size / 1.414).0
    requires py == y + Components(comp, angle, size / 1.414).1
    requires after == before + DragonRecords(comp, order - 1, size / 1.414, x, y, angle, 1)
                      + DragonRecords(comp, order - 1, size / 1.414, px, py, angle + 45.0 * sign as real, -1)
    ensures after == before + DragonRecords(comp, order, size, x, y, angle, sign)
  {
    AppendThree(before, DragonRecords(comp, order - 1, size / 1.414, x, y, angle, 1),
                DragonRecords(comp, order - 1, size / 1.414, px, py, angle + 45.0 * sign as real, -1));
  }

  /** `draw_dragon`: records the dragon curve of `order`. The final turn of the
      heading is made after both sub-curves and has no effect. */
  method DrawDragon(c: Camera, comp: Polar, order: nat, size: real, x: real, y: real, angle: real, sign: int)
    modifies c`objects
    ensures c.objects == old(c.objects) + DragonRecords(comp, order, size, x, y, angle, sign)
  {
    if order == 0 {
      AddLine(c, comp, x, y, angle, size);
    } else {
      var px, py, heading := x, y, angle;
      DrawDragon(c, comp, order - 1, size / 1.414, px, py, heading, 1);
      var d := Components(comp, heading, size / 1.414);
      px, py := px + d.0, py + d.1;
      DrawDragon(c, comp, order - 1, size / 1.414, px, py, heading + 45.0 * sign as real, -1);
      heading := heading - 45.0 * sign as real;
      DragonRecorded(comp, order, size, x, y, angle, sign, px, py, old(c.objects), c.objects);
    }
  }

  // ------------------------------------------------------------ add_line

  /** `add_line`: records pen down, a goto to the segment's end, pen up. */
  method AddLine(c: Camera, comp: Polar, x: real, y: real, angle: real, distance: real)
    modifies c`objects
    ensures c.objects == old(c.objects) + LineOf(comp, Segment(x, y, angle, distance))
  {
    var (dx, dy) := Components(comp, angle, distance);
    c.Add(PenDown, [], map[]);
    c.Add(Goto, [x + dx, y + dy], map[]);
    c.Add(PenUp, [], map[]);
  }
}
