/** The line-number gutter beside the editor (src/line_number_area.cpp).
    The editor's block count, font height and scroll position and the
    gutter's height are parameters; a paint is the list of numbers drawn
    with the y coordinate of each. */
module LineNumbers {
  import opened CInts

  /** The gutter's width in pixels, fixed by the constructor. */
  const FixedWidth := 40

  /** One drawText call: the line number and the top of its row. */
  datatype Label = Label(number: int, y: int)

  /** How many times the paint loop runs: it stops at the first i that is
      past the visible rows or past the last block. */
  function LabelCount(visible: int, first: int, blockCount: int): (n: nat)
    ensures n == 0 || (n - 1 < visible && first + n - 1 < blockCount)
    ensures !(n < visible && first + n < blockCount)
  {
    if visible <= 0 || blockCount - first <= 0 then 0
    else if visible <= blockCount - first then visible
    else blockCount - first
  }

  /** Rows numbered from first + 1, each lineHeight below the previous. */
  function LabelRows(first: int, lineHeight: int, n: nat): (r: seq<Label>)
    ensures |r| == n
  {
    seq(n, k requires 0 <= k < n => Label(first + k + 1, k * lineHeight))
  }

  /** What one paint draws. */
  function Painted(blockCount: int, lineHeight: int, height: int, scroll: int): seq<Label>
    requires lineHeight > 0
  {
    var first := TruncDiv(scroll, lineHeight);
    LabelRows(first, lineHeight, LabelCount(TruncDiv(height, lineHeight), first, blockCount))
  }

  /** The numbers drawn are consecutive from the first visible line, never
      past the last block, and each row lies inside the gutter; the paint
      stops only at the last block or at the bottom of the gutter. */
  lemma PaintedMeaning(blockCount: int, lineHeight: int, height: int, scroll: int)
    requires lineHeight > 0
    ensures var labels := Painted(blockCount, lineHeight, height, scroll);
      var first := TruncDiv(scroll, lineHeight);
      && (|labels| > 0 ==> labels[0].number == first + 1)
      && (forall i :: 0 <= i < |labels| - 1 ==> labels[i + 1].number == labels[i].number + 1)
      && (forall i :: 0 <= i < |labels| ==> first + 1 <= labels[i].number <= blockCount)
      && (forall i :: 0 <= i < |labels| ==> 0 <= labels[i].y && labels[i].y + lineHeight <= height)
      && (first + |labels| >= blockCount || |labels| >= TruncDiv(height, lineHeight))
  {
    var visible := TruncDiv(height, lineHeight);
    var first := TruncDiv(scroll, lineHeight);
    var labels := Painted(blockCount, lineHeight, height, scroll);
    if |labels| > 0 {
      assert height >= 0;
      TruncDivOfNonNegative(height, lineHeight);
      forall i | 0 <= i < |labels|
        ensures 0 <= labels[i].y && labels[i].y + lineHeight <= height
      {
        RowInside(i, lineHeight, visible, height);
      }
    }
  }

  /** Row i of visible rows = height / lineHeight ends inside the gutter. */
  lemma RowInside(i: int, lineHeight: int, visible: int, height: int)
    requires 0 <= i < visible && lineHeight > 0 && height >= 0 && visible == height / lineHeight
    ensures 0 <= i * lineHeight && i * lineHeight + lineHeight <= height
  {
    assert (i + 1) * lineHeight <= visible * lineHeight <= height;
  }

  class LineNumberArea {
    var width: int

    /** The constructor's setFixedWidth holds. */
    ghost predicate Valid()
      reads this
    {
      width == FixedWidth
    }

    constructor ()
      ensures Valid()
    {
      width := FixedWidth;
    }

    /** sizeHint: the fixed width, and no preferred height. */
    function SizeHint(): (r: (int, int))
      reads this
      ensures Valid() ==> r == (width, 0)
    {
      (FixedWidth, 0)
    }

    /** paintEvent: visibleLines and firstVisibleLine by integer division,
        then one label per row until either runs out. */
    method PaintEvent(blockCount: int, lineHeight: int, height: int, scroll: int) returns (labels: seq<Label>)
      requires lineHeight > 0
      ensures labels == Painted(blockCount, lineHeight, height, scroll)
    {
      var visibleLines := TruncDiv(height, lineHeight);
      var firstVisibleLine := TruncDiv(scroll, lineHeight);
      ghost var n := LabelCount(visibleLines, firstVisibleLine, blockCount);
      labels := [];
      var i := 0;
      while i < visibleLines && firstVisibleLine + i < blockCount
        invariant 0 <= i <= n
        invariant labels == LabelRows(firstVisibleLine, lineHeight, i)
      {
        var lineNumber := firstVisibleLine + i + 1;
        var y := i * lineHeight;
        assert LabelRows(firstVisibleLine, lineHeight, i + 1)
          == LabelRows(firstVisibleLine, lineHeight, i) + [Label(lineNumber, y)];
        labels := labels + [Label(lineNumber, y)];
        i := i + 1;
      }
    }
  }
}
