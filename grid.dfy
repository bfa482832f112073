/** Enumeration of the grid lines and axis ticks drawn over the viewport.

    Along one axis, with the offset `offset` and a visible span of
    `size / scale` logical units, lines are drawn at every multiple of Step
    from the last multiple at or before the offset up to the far edge of the
    window. */
module Grid {

  /** Logical distance between two grid lines. */
  const Step: real := 50.0

  /** Index of the first line: the offset divided by Step, rounded down. */
  function FirstLineIndex(offset: real): int
  {
    (offset / Step).Floor
  }

  /** Logical coordinate of the `i`-th line drawn from `offset` on. */
  function LineAt(offset: real, i: int): real
  {
    (FirstLineIndex(offset) + i) as real * Step
  }

  /** Logical coordinate of the far edge of the visible window. */
  function WindowEnd(offset: real, size: real, scale: real): real
    requires 0.0 < scale
  {
    offset + size / scale
  }

  /** `lines` is the complete list of lines from `offset` to `end`: the
      consecutive multiples of Step starting with the first line, each at most
      `end`, and the next one past `end`. */
  ghost predicate Enumerates(lines: seq<real>, offset: real, end: real)
  {
    && (forall i :: 0 <= i < |lines| ==> lines[i] == LineAt(offset, i) && lines[i] <= end)
    && end < LineAt(offset, |lines|)
  }

  /** The first line is at or before the offset and less than one Step before
      it, so no gap opens at the near edge. */
  lemma FirstLineBracketsOffset(offset: real)
    ensures LineAt(offset, 0) <= offset < LineAt(offset, 0) + Step
  {
    var k := FirstLineIndex(offset);
    assert k as real <= offset / Step < k as real + 1.0;
    assert k as real * Step <= (offset / Step) * Step == offset;
    assert offset == (offset / Step) * Step < (k as real + 1.0) * Step;
  }

  /** The lines of one axis, walking `x += Step` from the first line while
      `x` is inside the window. */
  method GridLines(offset: real, size: real, scale: real) returns (lines: seq<real>)
    requires 0.0 < scale
    ensures Enumerates(lines, offset, WindowEnd(offset, size, scale))
  {
    var start := FirstLineIndex(offset) as real * Step;
    var end := offset + size / scale;
    lines := [];
    var x := start;
    while x <= end
      invariant x == LineAt(offset, |lines|)
      invariant forall i :: 0 <= i < |lines| ==> lines[i] == LineAt(offset, i) && lines[i] <= end
      decreases (end - x).Floor
    {
      lines := lines + [x];
      x := x + Step;
    }
  }

  /** Every logical coordinate from the first line to the far edge of the
      window lies within one Step after some drawn line. */
  lemma GridCoversWindow(lines: seq<real>, offset: real, end: real, x: real)
    requires Enumerates(lines, offset, end)
    requires LineAt(offset, 0) <= x <= end
    ensures exists i :: 0 <= i < |lines| && lines[i] <= x < lines[i] + Step
  {
    var k := ((x - LineAt(offset, 0)) / Step).Floor;
    var start := LineAt(offset, 0);
    assert 0 <= k by {
      assert 0.0 <= (x - start) / Step;
    }
    assert k as real <= (x - start) / Step < k as real + 1.0;
    assert start + k as real * Step <= x < start + (k as real + 1.0) * Step by {
      assert (x - start) / Step * Step == x - start;
    }
    assert LineAt(offset, k) == start + k as real * Step;
    assert k < |lines| by {
      assert LineAt(offset, k) <= end < LineAt(offset, |lines|);
    }
    assert lines[k] <= x < lines[k] + Step;
  }

  /** A tick of an axis: where it is and the number printed beside it. */
  datatype Tick = Tick(at: real, number: int)

  /** Rounding to the nearest integer, halves upwards. */
  function Round(x: real): int
  {
    (x + 0.5).Floor
  }

  /** The ticks of one axis: the grid lines of that axis, each labelled with
      its logical coordinate rounded to an integer. */
  method AxisTicks(offset: real, size: real, scale: real) returns (ticks: seq<Tick>)
    requires 0.0 < scale
    ensures forall i :: 0 <= i < |ticks| ==> ticks[i].at == LineAt(offset, i) && ticks[i].number as real == ticks[i].at
    ensures forall i :: 0 <= i < |ticks| ==> ticks[i].at <= WindowEnd(offset, size, scale)
    ensures WindowEnd(offset, size, scale) < LineAt(offset, |ticks|)
  {
    var lines := GridLines(offset, size, scale);
    ticks := [];
    var i := 0;
    while i < |lines|
      invariant 0 <= i <= |lines| && |ticks| == i
      invariant forall j :: 0 <= j < i ==> ticks[j] == Tick(lines[j], Round(lines[j]))
    {
      ticks := ticks + [Tick(lines[i], Round(lines[i]))];
      i := i + 1;
    }
    forall j | 0 <= j < |ticks|
      ensures ticks[j].number as real == ticks[j].at
    {
      LabelIsExact(offset, j);
    }
  }

  /** Every line sits on a whole logical unit, so its rounded label is exact. */
  lemma LabelIsExact(offset: real, i: int)
    ensures Round(LineAt(offset, i)) as real == LineAt(offset, i)
  {
    var n := (FirstLineIndex(offset) + i) * 50;
    assert LineAt(offset, i) == n as real;
    assert (n as real + 0.5).Floor == n;
  }
}
