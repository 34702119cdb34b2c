/**
 * The QR scanner widget's state: the frame state shown around the viewfinder (with a
 * perimeter animation while processing), the processing-time estimate, the UR progress bar,
 * the one-shot decode latch, the error banner, and the gate that lets captured frames reach
 * the scan thread. The camera, the scan thread's queue and the UR decoder are left out; the
 * decoder's answers, the camera permission and the number of cameras are inputs.
 */
module ScanWidget {
  import opened JsonRpc

  datatype FrameState = Idle | Recognized | Validated | Processing | Progress | Error

  /**
   * What the UR decoder reports: whether it is complete, whether it succeeded, the UR type it
   * expects once known, the decoded payload bytes (already unwrapped from CBOR), and its
   * completion estimate as the progress bar receives it (`estimated_percent_complete() * 100`
   * truncated to an integer).
   */
  datatype Decoder = Decoder(complete: bool, success: bool, expectedType: Option<string>, payload: string,
                             percentComplete: int)

  /** A freshly constructed decoder. */
  const NewDecoder: Decoder := Decoder(false, false, None, "", 0)

  /** The decoder's answer to one scanned part: rejected, or accepted with its new state. */
  datatype PartOutcome = Rejected | Accepted(decoder: Decoder)

  /** A captured camera frame; `isNull` when it does not convert to an image. */
  datatype Frame = Frame(id: int, isNull: bool)

  /** What `checkPermission` answers for the camera. */
  datatype Permission = Undetermined | Denied | Granted

  /** The `m_camera` pointer: null until a camera is selected, then a camera running or stopped. */
  datatype CameraSlot = NoCamera | Camera(active: bool)

  const NoPermissionMessage: string := "No permission to start camera."
  const NoCameraMessage: string := "No cameras found. Attach a camera and press 'Refresh'."

  // ---------------------------------------------------------------------------
  // Geometry of the processing animation

  datatype Point = Point(x: int, y: int)

  /** A `QRect` by its top-left corner and its size. */
  datatype Rect = Rect(left: int, top: int, width: int, height: int)
  {
    /** `QRect::right()` and `QRect::bottom()` lie one pixel inside the size. */
    function Right(): int { left + width - 1 }
    function Bottom(): int { top + height - 1 }
  }

  datatype Line = Line(from: Point, to: Point)

  /** One animation tick: progress advances by 1 and wraps from 99 to 0. */
  function NextAnimationProgress(p: int): (r: int)
    ensures 0 <= p < 100 ==> 0 <= r < 100
    ensures p < 99 ==> r == p + 1
    ensures p >= 99 ==> r == 0
  {
    if p + 1 >= 100 then 0 else p + 1
  }

  /**
   * The length of the perimeter still to draw, with C++ integer division: it is zero exactly
   * when the perimeter is, has the perimeter's sign and never exceeds it in magnitude, and it
   * is the whole perimeter at progress 0.
   */
  function CurrentLength(progress: int, width: int, height: int): (r: int)
    requires 0 <= progress < 100
    ensures var total := (width + height) * 2;
            (r == 0 <==> total == 0)
            && (total >= 0 ==> 0 <= r <= total)
            && (total < 0 ==> total <= r < 0)
    ensures progress == 0 ==> r == (width + height) * 2
  {
    var totalLength := (width + height) * 2;
    ScaledBounds(progress, totalLength);
    totalLength - TruncDiv(progress * totalLength, 100)
  }

  /** A share below 100 percent of a length lies between zero and 99 percent of it. */
  lemma ScaledBounds(progress: int, total: int)
    requires 0 <= progress < 100
    ensures total >= 0 ==> 0 <= progress * total <= 99 * total
    ensures total < 0 ==> 99 * total <= progress * total <= 0
  {
    assert 99 * total - progress * total == (99 - progress) * total;
  }

  /** The side the line starts on (0 top, 1 right, 2 bottom, 3 left): a quarter of progress per side. */
  function StartSide(progress: int): (r: int)
    requires 0 <= progress < 100
    ensures 0 <= r <= 3
    ensures r * 25 <= progress < (r + 1) * 25
  {
    (progress * 4) / 100
  }

  /** Top and bottom have the rectangle's width, right and left its height. */
  function SideLength(side: int, width: int, height: int): int
  {
    if side == 0 || side == 2 then width else height
  }

  /** The corner a side's line starts from: top right, bottom right, bottom left, top left. */
  function StartCorner(side: int, rect: Rect): Point
  {
    if side == 0 then Point(rect.Right(), rect.top)
    else if side == 1 then Point(rect.Right(), rect.Bottom())
    else if side == 2 then Point(rect.left, rect.Bottom())
    else Point(rect.left, rect.top)
  }

  /** The end of a line that covers a whole side: one coordinate moves to the rectangle's edge. */
  function WholeSideEnd(side: int, start: Point, rect: Rect): Point
  {
    if side == 0 then start.(x := rect.left)
    else if side == 1 then start.(y := rect.top)
    else if side == 2 then start.(x := rect.Right())
    else start.(y := rect.Bottom())
  }

  /** The end of the last, partial line: `remaining` pixels left, up, right or down. */
  function PartialEnd(side: int, start: Point, remaining: int): Point
  {
    if side == 0 then start.(x := start.x - remaining)
    else if side == 1 then start.(y := start.y - remaining)
    else if side == 2 then start.(x := start.x + remaining)
    else start.(y := start.y + remaining)
  }

  /**
   * The side the loop's iteration `k` works on: the code counts up from the start side; the
   * reversed order counts down, which is counterclockwise like each line's own direction.
   */
  function SideAt(startSide: int, reversed: bool, k: int): (r: int)
    ensures 0 <= r <= 3
  {
    if reversed then (startSide + 4 - k) % 4 else (startSide + k) % 4
  }

  /**
   * The lines the animation loop draws from its iteration `side` on, starting at `start`
   * with `remaining` length left.
   */
  function Walk(rect: Rect, startSide: int, reversed: bool, side: int, start: Point, remaining: int): seq<Line>
    requires 0 <= side <= 4
    decreases 4 - side
  {
    if side == 4 then []
    else
      var currentSide := SideAt(startSide, reversed, side);
      var sideLength := SideLength(currentSide, rect.width, rect.height);
      if remaining > sideLength then
        var end := WholeSideEnd(currentSide, start, rect);
        [Line(start, end)] + Walk(rect, startSide, reversed, side + 1, end, remaining - sideLength)
      else
        [Line(start, PartialEnd(currentSide, start, remaining))]
  }

  /**
   * Every line the processing animation draws for a current length and a start side (see
   * `CurrentLength` and `StartSide`), the sides taken in the given order.
   */
  function DrawnLines(currentLength: int, startSide: int, rect: Rect, reversed: bool): seq<Line>
  {
    if currentLength == 0 then []
    else Walk(rect, startSide, reversed, 0, StartCorner(startSide, rect), currentLength)
  }

  /** The lengths of the sides the walk visits in iterations `lo` up to `hi`. */
  function SidesLength(startSide: int, reversed: bool, lo: int, hi: int, width: int, height: int): int
    requires 0 <= lo <= hi
    decreases hi - lo
  {
    if lo == hi then 0
    else SideLength(SideAt(startSide, reversed, lo), width, height) + SidesLength(startSide, reversed, lo + 1, hi, width, height)
  }

  /** Four consecutive sides, in either order, are two tops or bottoms and two lefts or rights: the perimeter. */
  lemma FourSidesArePerimeter(startSide: int, reversed: bool, width: int, height: int)
    ensures SidesLength(startSide, reversed, 0, 4, width, height) == (width + height) * 2
  {
    var s0, s1 := SideAt(startSide, reversed, 0), SideAt(startSide, reversed, 1);
    var s2, s3 := SideAt(startSide, reversed, 2), SideAt(startSide, reversed, 3);
    var step := if reversed then 3 else 1;
    NextSide(startSide, reversed, 0);
    NextSide(startSide, reversed, 1);
    NextSide(startSide, reversed, 2);
    assert s1 == (s0 + step) % 4 && s2 == (s1 + step) % 4 && s3 == (s2 + step) % 4;
    SidesLengthSplit(startSide, reversed, 0, 4, width, height);
    SidesLengthSplit(startSide, reversed, 1, 4, width, height);
    SidesLengthSplit(startSide, reversed, 2, 4, width, height);
    SidesLengthSplit(startSide, reversed, 3, 4, width, height);
    assert SidesLength(startSide, reversed, 0, 4, width, height)
        == SideLength(s0, width, height) + SideLength(s1, width, height)
           + SideLength(s2, width, height) + SideLength(s3, width, height);
  }

  /** Each iteration moves one side on: clockwise in the code's order, counterclockwise reversed. */
  lemma NextSide(startSide: int, reversed: bool, k: int)
    ensures SideAt(startSide, reversed, k + 1) == (SideAt(startSide, reversed, k) + if reversed then 3 else 1) % 4
  {
  }

  /** Peeling the first side off a run of sides. */
  lemma SidesLengthSplit(startSide: int, reversed: bool, lo: int, hi: int, width: int, height: int)
    requires 0 <= lo < hi
    ensures SidesLength(startSide, reversed, lo, hi, width, height)
            == SideLength(SideAt(startSide, reversed, lo), width, height) + SidesLength(startSide, reversed, lo + 1, hi, width, height)
  {
  }

  /**
   * From iteration `side` on, the walk draws connected lines, at most one per remaining side,
   * beginning at `start`; every line but the last covers a whole side, and the last one is
   * reached once the remaining length no longer exceeds the sides walked.
   */
  lemma {:induction false} WalkShape(rect: Rect, startSide: int, reversed: bool, side: int, start: Point, remaining: int)
    requires 0 <= side <= 4 && remaining > 0
    ensures var lines := Walk(rect, startSide, reversed, side, start, remaining);
            |lines| <= 4 - side && (side < 4 ==> lines != [])
            && (lines != [] ==> lines[0].from == start)
            && (forall i :: 0 <= i < |lines| - 1 ==> lines[i].to == lines[i + 1].from)
            && (lines != [] ==>
                  remaining > SidesLength(startSide, reversed, side, side + |lines| - 1, rect.width, rect.height))
            && (lines != [] && remaining <= SidesLength(startSide, reversed, side, 4, rect.width, rect.height) ==>
                  remaining <= SidesLength(startSide, reversed, side, side + |lines|, rect.width, rect.height))
  {
    WalkLinks(rect, startSide, reversed, side, start, remaining);
    WalkCount(rect, startSide, reversed, side, start, remaining);
    CountBelow(startSide, reversed, side, remaining, rect.width, rect.height);
    CountReaches(startSide, reversed, side, remaining, rect.width, rect.height);
  }

  /** The walk's lines: at most one per remaining side, one at least, connected, beginning at `start`. */
  lemma {:induction false} WalkLinks(rect: Rect, startSide: int, reversed: bool, side: int, start: Point, remaining: int)
    requires 0 <= side <= 4
    ensures var lines := Walk(rect, startSide, reversed, side, start, remaining);
            |lines| <= 4 - side && (side < 4 ==> lines != [])
            && (lines != [] ==> lines[0].from == start)
            && (forall i :: 0 <= i < |lines| - 1 ==> lines[i].to == lines[i + 1].from)
    decreases 4 - side
  {
    if side < 4 {
      var currentSide := SideAt(startSide, reversed, side);
      var sideLength := SideLength(currentSide, rect.width, rect.height);
      if remaining > sideLength {
        var end := WholeSideEnd(currentSide, start, rect);
        var rest := Walk(rect, startSide, reversed, side + 1, end, remaining - sideLength);
        WalkLinks(rect, startSide, reversed, side + 1, end, remaining - sideLength);
        var lines := [Line(start, end)] + rest;
        assert lines == Walk(rect, startSide, reversed, side, start, remaining);
        forall i | 0 <= i < |lines| - 1 ensures lines[i].to == lines[i + 1].from {
          if i > 0 {
            assert lines[i] == rest[i - 1] && lines[i + 1] == rest[i];
          }
        }
      }
    }
  }

  /** How many lines the walk draws from iteration `side` on: it depends on the lengths alone. */
  function LineCount(startSide: int, reversed: bool, side: int, remaining: int, width: int, height: int): nat
    requires 0 <= side <= 4
    decreases 4 - side
  {
    if side == 4 then 0
    else if remaining > SideLength(SideAt(startSide, reversed, side), width, height) then
      1 + LineCount(startSide, reversed, side + 1, remaining - SideLength(SideAt(startSide, reversed, side), width, height),
                    width, height)
    else 1
  }

  lemma {:induction false} WalkCount(rect: Rect, startSide: int, reversed: bool, side: int, start: Point, remaining: int)
    requires 0 <= side <= 4
    ensures |Walk(rect, startSide, reversed, side, start, remaining)|
            == LineCount(startSide, reversed, side, remaining, rect.width, rect.height)
    decreases 4 - side
  {
    if side < 4 {
      var currentSide := SideAt(startSide, reversed, side);
      var sideLength := SideLength(currentSide, rect.width, rect.height);
      if remaining > sideLength {
        WalkCount(rect, startSide, reversed, side + 1, WholeSideEnd(currentSide, start, rect), remaining - sideLength);
      }
    }
  }

  /** The walk draws at most one line per remaining side, and at least one while a side remains. */
  lemma {:induction false} CountBounds(startSide: int, reversed: bool, side: int, remaining: int, width: int, height: int)
    requires 0 <= side <= 4
    ensures var n := LineCount(startSide, reversed, side, remaining, width, height);
            n <= 4 - side && (side < 4 ==> n >= 1)
    decreases 4 - side
  {
    if side < 4 {
      var sideLength := SideLength(SideAt(startSide, reversed, side), width, height);
      if remaining > sideLength {
        CountBounds(startSide, reversed, side + 1, remaining - sideLength, width, height);
      }
    }
  }

  /** The sides before the last line are shorter in total than the remaining length. */
  lemma {:induction false} CountBelow(startSide: int, reversed: bool, side: int, remaining: int, width: int, height: int)
    requires 0 <= side <= 4 && remaining > 0
    ensures var n := LineCount(startSide, reversed, side, remaining, width, height);
            n >= 1 ==> remaining > SidesLength(startSide, reversed, side, side + n - 1, width, height)
    decreases 4 - side
  {
    if side < 4 {
      var sideLength := SideLength(SideAt(startSide, reversed, side), width, height);
      if remaining > sideLength {
        var m := LineCount(startSide, reversed, side + 1, remaining - sideLength, width, height);
        CountBounds(startSide, reversed, side + 1, remaining - sideLength, width, height);
        if m >= 1 {
          CountBelow(startSide, reversed, side + 1, remaining - sideLength, width, height);
          SidesLengthSplit(startSide, reversed, side, side + m, width, height);
        }
      }
    }
  }

  /** When the length fits in the remaining sides, the sides up to the last line reach it. */
  lemma {:induction false} CountReaches(startSide: int, reversed: bool, side: int, remaining: int, width: int, height: int)
    requires 0 <= side <= 4
    ensures var n := LineCount(startSide, reversed, side, remaining, width, height);
            remaining <= SidesLength(startSide, reversed, side, 4, width, height) ==>
              remaining <= SidesLength(startSide, reversed, side, side + n, width, height)
    decreases 4 - side
  {
    if side < 4 {
      var sideLength := SideLength(SideAt(startSide, reversed, side), width, height);
      SidesLengthSplit(startSide, reversed, side, 4, width, height);
      CountBounds(startSide, reversed, side, remaining, width, height);
      if remaining > sideLength {
        var m := LineCount(startSide, reversed, side + 1, remaining - sideLength, width, height);
        CountReaches(startSide, reversed, side + 1, remaining - sideLength, width, height);
        SidesLengthSplit(startSide, reversed, side, side + m + 1, width, height);
      } else {
        SidesLengthSplit(startSide, reversed, side, side + 1, width, height);
      }
    }
  }

  /**
   * For a rectangle without negative sides, any length up to the perimeter and either order,
   * the animation draws nothing exactly when the length is zero; otherwise it draws at most
   * four connected lines from the start corner, one per side the length reaches into: the
   * sides before the last line are shorter in total than the length, and the sides up to and
   * including it are not.
   */
  lemma DrawnLinesShape(currentLength: int, startSide: int, rect: Rect, reversed: bool)
    requires rect.width >= 0 && rect.height >= 0 && 0 <= currentLength <= (rect.width + rect.height) * 2
    ensures var lines := DrawnLines(currentLength, startSide, rect, reversed);
            |lines| <= 4 && (lines == [] <==> currentLength == 0)
            && (forall i :: 0 <= i < |lines| - 1 ==> lines[i].to == lines[i + 1].from)
            && (lines != [] ==>
                  lines[0].from == StartCorner(startSide, rect)
                  && SidesLength(startSide, reversed, 0, |lines| - 1, rect.width, rect.height) < currentLength
                  && currentLength <= SidesLength(startSide, reversed, 0, |lines|, rect.width, rect.height))
  {
    if currentLength != 0 {
      FourSidesArePerimeter(startSide, reversed, rect.width, rect.height);
      WalkShape(rect, startSide, reversed, 0, StartCorner(startSide, rect), currentLength);
    }
  }

  /** Whether a line runs along the given side of the rectangle. */
  predicate OnSide(line: Line, side: int, rect: Rect) {
    if side == 0 then line.from.y == rect.top && line.to.y == rect.top
    else if side == 1 then line.from.x == rect.Right() && line.to.x == rect.Right()
    else if side == 2 then line.from.y == rect.Bottom() && line.to.y == rect.Bottom()
    else line.from.x == rect.left && line.to.x == rect.left
  }

  /**
   * Going counterclockwise, a side's line runs along that side whether it covers the whole
   * side or a part of it, and a whole side ends at the start corner of the side before it.
   */
  lemma CornerStep(currentSide: int, rect: Rect, remaining: int)
    requires 0 <= currentSide <= 3
    ensures var start := StartCorner(currentSide, rect);
            var end := WholeSideEnd(currentSide, start, rect);
            end == StartCorner((currentSide + 3) % 4, rect)
            && OnSide(Line(start, end), currentSide, rect)
            && OnSide(Line(start, PartialEnd(currentSide, start, remaining)), currentSide, rect)
  {
  }

  /** Whether a line starts at the corner where the side begins and runs along that side. */
  predicate FollowsSide(line: Line, side: int, rect: Rect) {
    line.from == StartCorner(side, rect) && OnSide(line, side, rect)
  }

  /**
   * Whether each line, from the first on, follows its own side, the sides taken in reversed
   * order from iteration `side` on.
   */
  predicate FollowSides(lines: seq<Line>, startSide: int, side: int, rect: Rect)
    decreases |lines|
  {
    lines == []
    || (FollowsSide(lines[0], SideAt(startSide, true, side), rect) && FollowSides(lines[1..], startSide, side + 1, rect))
  }

  /** A run of lines following their sides puts the line of iteration `side + i` on that iteration's side. */
  lemma {:induction false} FollowSidesAt(lines: seq<Line>, startSide: int, side: int, rect: Rect, i: int)
    requires FollowSides(lines, startSide, side, rect) && 0 <= i < |lines|
    ensures FollowsSide(lines[i], SideAt(startSide, true, side + i), rect)
    decreases i
  {
    if i > 0 {
      FollowSidesAt(lines[1..], startSide, side + 1, rect, i - 1);
      assert lines[1..][i - 1] == lines[i];
      assert side + 1 + (i - 1) == side + i;
    }
  }

  /**
   * Walking the sides in reversed order from a side's start corner, every line starts at the
   * start corner of its own side and runs along that side.
   */
  lemma {:induction false} ReversedWalkFollowsSides(rect: Rect, startSide: int, side: int, start: Point, remaining: int)
    requires 0 <= side <= 4 && start == StartCorner(SideAt(startSide, true, side), rect)
    ensures FollowSides(Walk(rect, startSide, true, side, start, remaining), startSide, side, rect)
    decreases 4 - side
  {
    if side < 4 {
      var currentSide := SideAt(startSide, true, side);
      var sideLength := SideLength(currentSide, rect.width, rect.height);
      CornerStep(currentSide, rect, remaining);
      var lines := Walk(rect, startSide, true, side, start, remaining);
      if remaining > sideLength {
        var end := WholeSideEnd(currentSide, start, rect);
        var nextSide := SideAt(startSide, true, side + 1);
        NextSide(startSide, true, side);
        assert end == StartCorner(nextSide, rect);
        var rest := Walk(rect, startSide, true, side + 1, end, remaining - sideLength);
        assert lines == [Line(start, end)] + rest;
        assert lines[1..] == rest;
        assert FollowsSide(lines[0], currentSide, rect);
        ReversedWalkFollowsSides(rect, startSide, side + 1, end, remaining - sideLength);
      } else {
        assert lines == [Line(start, PartialEnd(currentSide, start, remaining))];
        assert FollowsSide(lines[0], currentSide, rect);
      }
    }
  }

  /**
   * With the sides walked in reversed order, every line the animation draws starts at the
   * corner where its side begins and runs along that side.
   */
  lemma ReversedAnimationFollowsSides(currentLength: int, startSide: int, rect: Rect)
    requires 0 <= startSide <= 3
    ensures var lines := DrawnLines(currentLength, startSide, rect, true);
            forall i :: 0 <= i < |lines| ==> FollowsSide(lines[i], SideAt(startSide, true, i), rect)
  {
    if currentLength != 0 {
      var start := StartCorner(SideAt(startSide, true, 0), rect);
      assert StartCorner(startSide, rect) == start;
      var lines := Walk(rect, startSide, true, 0, start, currentLength);
      ReversedWalkFollowsSides(rect, startSide, 0, start, currentLength);
      forall i | 0 <= i < |lines|
        ensures FollowsSide(lines[i], SideAt(startSide, true, i), rect)
      {
        FollowSidesAt(lines, startSide, 0, rect, i);
        assert 0 + i == i;
      }
    }
  }

  /**
   * As written, the animation leaves the frame's sides. At progress 0 on any rectangle wider
   * and taller than one pixel, the line drawn for the right side is the single point at the top
   * left corner, and the line drawn for the bottom runs back along the top. On a 100 by 50
   * rectangle these are the point (0, 0) and the segment from (0, 0) to (99, 0).
   */
  lemma AnimationLeavesSides(rect: Rect)
    requires rect.width > 1 && rect.height > 1
    ensures var lines := DrawnLines(CurrentLength(0, rect.width, rect.height), StartSide(0), rect, false);
            var topRight := Point(rect.Right(), rect.top);
            var topLeft := Point(rect.left, rect.top);
            |lines| == 4
            && lines[0] == Line(topRight, topLeft) && lines[1] == Line(topLeft, topLeft)
            && lines[2] == Line(topLeft, topRight) && lines[3] == Line(topRight, Point(rect.Right(), rect.top + rect.height))
            && !OnSide(lines[1], SideAt(0, false, 1), rect) && !OnSide(lines[2], SideAt(0, false, 2), rect)
  {
    var w, h := rect.width, rect.height;
    assert CurrentLength(0, w, h) == (w + h) * 2;
    assert StartSide(0) == 0;
    assert SideAt(0, false, 0) == 0 && SideAt(0, false, 1) == 1 && SideAt(0, false, 2) == 2 && SideAt(0, false, 3) == 3;
    var topRight := Point(rect.Right(), rect.top);
    var topLeft := Point(rect.left, rect.top);
    var w3 := Walk(rect, 0, false, 3, topRight, h);
    assert w3 == [Line(topRight, Point(rect.Right(), rect.top + h))];
    var w2 := Walk(rect, 0, false, 2, topLeft, w + h);
    assert w2 == [Line(topLeft, topRight)] + w3;
    var w1 := Walk(rect, 0, false, 1, topLeft, w + 2 * h);
    assert w1 == [Line(topLeft, topLeft)] + w2;
    var w0 := Walk(rect, 0, false, 0, topRight, (w + h) * 2);
    assert w0 == [Line(topRight, topLeft)] + w1;
    assert DrawnLines((w + h) * 2, 0, rect, false) == w0;
    assert w0[1] == w1[0];
    assert w0[2] == w1[1] == w2[0];
    assert w0[3] == w1[2] == w2[1] == w3[0];
  }

  lemma AppendAssociates<T>(a: seq<T>, b: seq<T>, c: seq<T>)
    ensures a + (b + c) == (a + b) + c
  {
  }

  /**
   * The processing animation as the code draws it: nothing when the length to draw is zero,
   * otherwise the side walk from the start corner of the start side.
   */
  method DrawProcessingAnimation(progress: int, rect: Rect) returns (lines: seq<Line>)
    requires 0 <= progress < 100
    ensures lines == DrawnLines(CurrentLength(progress, rect.width, rect.height), StartSide(progress), rect, false)
  {
    var currentLength := CurrentLength(progress, rect.width, rect.height);
    if currentLength == 0 {
      return [];
    }
    var startSide := (progress * 4) / 100;
    assert startSide == StartSide(progress);
    lines := DrawSides(rect, startSide, currentLength);
  }

  /**
   * One iteration of the animation loop: a whole side while the remaining length exceeds it,
   * otherwise the final partial line; it is the first step of `Walk`.
   */
  method DrawSide(rect: Rect, startSide: int, side: int, start: Point, remaining: int)
    returns (line: Line, end: Point, left: int, last: bool)
    requires 0 <= side < 4
    ensures line.from == start && line.to == end
    ensures Walk(rect, startSide, false, side, start, remaining)
            == if last then [line] else [line] + Walk(rect, startSide, false, side + 1, end, left)
  {
    var currentSide := SideAt(startSide, false, side);
    var sideLength := SideLength(currentSide, rect.width, rect.height);
    if remaining > sideLength {
      end := WholeSideEnd(currentSide, start, rect);
      left, last := remaining - sideLength, false;
    } else {
      end := PartialEnd(currentSide, start, remaining);
      left, last := remaining, true;
    }
    line := Line(start, end);
  }

  /**
   * The loop of the processing animation: from the start corner, sides are taken in
   * increasing order, whole sides are drawn while the remaining length exceeds them, and the
   * walk ends with a partial line.
   */
  method DrawSides(rect: Rect, startSide: int, currentLength: int) returns (lines: seq<Line>)
    ensures lines == Walk(rect, startSide, false, 0, StartCorner(startSide, rect), currentLength)
  {
    var start := StartCorner(startSide, rect);
    var remainingLength := currentLength;
    ghost var total := Walk(rect, startSide, false, 0, start, currentLength);
    lines := [];
    for side := 0 to 4
      invariant lines + Walk(rect, startSide, false, side, start, remainingLength) == total
    {
      var line, end, left, last := DrawSide(rect, startSide, side, start, remainingLength);
      if last {
        lines := lines + [line];
        return;
      }
      AppendAssociates(lines, [line], Walk(rect, startSide, false, side + 1, end, left));
      lines := lines + [line];
      start, remainingLength := end, left;
    }
  }

  // ---------------------------------------------------------------------------
  // Processing-time estimate

  /** The estimate after `onFrameStateProcessing(n)`: restarted on entering Processing, accumulated while in it. */
  function EstimateAfterProcessing(state: FrameState, estimate: int, n: int): (r: int)
    ensures state != Processing ==> r == n
    ensures state == Processing ==> r == estimate + n
  {
    if state != Processing then n else estimate + n
  }

  /** `QProgressBar::setValue` on the bar's 0 to 100 range: a value outside the range is ignored. */
  function BarValue(current: int, value: int): int
  {
    if 0 <= value <= 100 then value else current
  }

  // ---------------------------------------------------------------------------
  // The widget

  /** Every field of the widget at one moment. */
  datatype WidgetState = WidgetState(
    frameState: FrameState, timerActive: bool, animationProgress: int, estimatedMicroSeconds: int,
    progress: int, scanUr: bool, urProgress: int, urProgressVisible: bool, errorBanner: Option<string>,
    decoder: Decoder, decodedString: string, done: bool, handleFrames: bool, threadRunning: bool,
    finished: seq<bool>, queued: seq<Frame>, camera: CameraSlot)

  /**
   * The widget after `onDecoded` receives one scan: nothing changes once a result was delivered
   * or when the UR decoder rejects the part; plain QR text finishes the scan; an accepted UR
   * part shows Recognized, moves the UR bar and finishes once the decoder completes.
   */
  function AfterDecoded(s: WidgetState, data: string, outcome: PartOutcome): WidgetState
  {
    if s.done || (s.scanUr && outcome.Rejected?) then s
    else if s.scanUr then
      var d := outcome.decoder;
      var shown := s.(decoder := d, frameState := Recognized, timerActive := false,
                      urProgress := BarValue(s.urProgress, d.percentComplete));
      if d.complete then shown.(done := true, threadRunning := false, finished := s.finished + [d.success])
      else shown
    else
      s.(decodedString := data, done := true, threadRunning := false, finished := s.finished + [true])
  }

  /** The widget after a run of scans, in order. */
  function AfterScans(s: WidgetState, scans: seq<(string, PartOutcome)>): WidgetState
    decreases |scans|
  {
    if scans == [] then s else AfterScans(AfterDecoded(s, scans[0].0, scans[0].1), scans[1..])
  }

  /** Once a result was delivered, further scans change nothing. */
  lemma {:induction false} DoneIsFinal(s: WidgetState, scans: seq<(string, PartOutcome)>)
    requires s.done
    ensures AfterScans(s, scans) == s
    decreases |scans|
  {
    if scans != [] {
      DoneIsFinal(AfterDecoded(s, scans[0].0, scans[0].1), scans[1..]);
    }
  }

  /**
   * However many scans arrive, `finished` is emitted at most once: either nothing was emitted
   * and no result was delivered, or exactly one value was appended and the scan is done.
   */
  lemma {:induction false} FinishedAtMostOnce(s: WidgetState, scans: seq<(string, PartOutcome)>)
    requires !s.done
    ensures var r := AfterScans(s, scans);
            (r.finished == s.finished && !r.done)
            || (r.done && |r.finished| == |s.finished| + 1 && r.finished[..|s.finished|] == s.finished)
    decreases |scans|
  {
    if scans != [] {
      var next := AfterDecoded(s, scans[0].0, scans[0].1);
      if next.done {
        DoneIsFinal(next, scans[1..]);
      } else {
        FinishedAtMostOnce(next, scans[1..]);
      }
    }
  }

  /**
   * The widget after `startCapture`: the mode is recorded, the UR bar shown only in UR mode
   * and the frame Idle. A pending permission request changes nothing more; a refusal or an
   * empty camera list shows its banner; otherwise the first camera is selected and the thread
   * runs. `listedCount` is the number of entries in the camera combo box, filled at the last
   * `refreshCameraList`; `liveCount` is the number of video inputs attached now.
   */
  function AfterStartCapture(s: WidgetState, scanUr: bool, permission: Permission, listedCount: int, liveCount: int): WidgetState
  {
    var idle := StartedIdle(s, scanUr);
    match permission
    case Undetermined => idle
    case Denied => idle.(errorBanner := Some(NoPermissionMessage))
    case Granted => AfterStartCamera(idle, listedCount, liveCount)
  }

  /** The first steps of `startCapture`: the mode, the UR bar's visibility, and the Idle frame. */
  function StartedIdle(s: WidgetState, scanUr: bool): WidgetState
  {
    s.(scanUr := scanUr, urProgressVisible := scanUr, frameState := Idle, timerActive := false)
  }

  /**
   * With permission granted: an empty combo box shows the no-camera banner; otherwise camera 0
   * is selected among the live video inputs, which does nothing when none is attached any more,
   * and the thread runs either way.
   */
  function AfterStartCamera(s: WidgetState, listedCount: int, liveCount: int): WidgetState
  {
    if listedCount < 1 then s.(errorBanner := Some(NoCameraMessage))
    else AfterCameraSwitched(s, 0, liveCount).(threadRunning := true)
  }

  /**
   * `onCameraSwitched(index)` among `liveCount` attached video inputs: an index out of range
   * changes nothing; otherwise a new camera replaces the old one and runs, and the banner is hidden.
   */
  function AfterCameraSwitched(s: WidgetState, index: int, liveCount: int): WidgetState
  {
    if 0 <= index < liveCount then s.(errorBanner := None, camera := Camera(true)) else s
  }

  /**
   * After a capture starts, the scan thread runs exactly when it already ran or the capture got
   * past its checks (permission granted and a non-empty combo box). A new running camera exists
   * exactly when, besides, a video input is still attached; otherwise the camera is the one
   * before. The banner is hidden exactly when a camera was selected, or when a pending request or a
   * camera detached since the last refresh left an already hidden banner alone.
   */
  lemma CaptureOutcome(s: WidgetState, scanUr: bool, permission: Permission, listedCount: int, liveCount: int)
    ensures var r := AfterStartCapture(s, scanUr, permission, listedCount, liveCount);
            var started := permission == Granted && listedCount >= 1;
            var selected := started && liveCount >= 1;
            (r.threadRunning <==> s.threadRunning || started)
            && r.camera == (if selected then Camera(true) else s.camera)
            && (r.errorBanner == None <==> selected || ((permission == Undetermined || (started && !selected)) && s.errorBanner == None))
            && r.frameState == Idle && r.scanUr == scanUr && r.urProgressVisible == scanUr
  {
  }

  /**
   * A widget with no camera yet still has none after a capture that was refused, is waiting for
   * permission, found an empty combo box, or found every listed camera detached since the last
   * refresh, so `stop` as written dereferences a null camera there. In the last case the scan
   * thread runs all the same.
   */
  lemma StopFindsNoCamera(s: WidgetState, scanUr: bool, permission: Permission, listedCount: int, liveCount: int)
    requires s.camera == NoCamera
    ensures AfterStartCapture(s, scanUr, permission, listedCount, liveCount).camera == NoCamera
            <==> permission != Granted || listedCount < 1 || liveCount < 1
    ensures permission == Granted && listedCount >= 1 && liveCount < 1
            ==> AfterStartCapture(s, scanUr, permission, listedCount, liveCount).threadRunning
  {
  }

  class QrCodeScanWidget {
    var frameState: FrameState
    /** Whether the 50 ms animation timer runs. */
    var timerActive: bool
    var animationProgress: int
    var estimatedMicroSeconds: int
    var progress: int
    /** Whether scanned strings are parts of a multi-part UR. */
    var scanUr: bool
    /** The UR progress bar's value and visibility. */
    var urProgress: int
    var urProgressVisible: bool
    /** The error banner's text while it is shown. */
    var errorBanner: Option<string>
    var decoder: Decoder
    var decodedString: string
    /** The one-shot latch: set by the first complete decode. */
    var done: bool
    var handleFrames: bool
    var threadRunning: bool
    /** The `finished(success)` signals emitted so far. */
    var finished: seq<bool>
    /** Frames handed to the scan thread so far. */
    var queued: seq<Frame>
    var camera: CameraSlot

    function State(): WidgetState
      reads this
    {
      WidgetState(frameState, timerActive, animationProgress, estimatedMicroSeconds, progress, scanUr,
                  urProgress, urProgressVisible, errorBanner, decoder, decodedString, done, handleFrames,
                  threadRunning, finished, queued, camera)
    }

    /** The animation stays within one turn, and its timer runs exactly while processing. */
    predicate Valid()
      reads this
    {
      0 <= animationProgress < 100 && (timerActive <==> frameState == Processing)
    }

    /** The UR bar's initial value comes from the form file, which is not part of this model. */
    constructor ()
      ensures frameState == Idle && !timerActive && animationProgress == 0 && Valid()
      ensures estimatedMicroSeconds == 0 && progress == 0 && !scanUr && decoder == NewDecoder
      ensures errorBanner == None && urProgressVisible
      ensures decodedString == "" && !done && handleFrames && !threadRunning && finished == [] && queued == []
      ensures camera == NoCamera
    {
      frameState := Idle;
      timerActive := false;
      animationProgress := 0;
      estimatedMicroSeconds := 0;
      progress := 0;
      scanUr := false;
      urProgressVisible := true;
      errorBanner := None;
      decoder := NewDecoder;
      decodedString := "";
      done := false;
      handleFrames := true;
      threadRunning := false;
      finished := [];
      queued := [];
      camera := NoCamera;
    }

    /**
     * Sets the frame state; entering Processing restarts the animation and its timer, any other
     * state stops the timer. The slots for Idle, Recognized, Validated, Progress and Error do
     * only this.
     */
    method UpdateFrameState(s: FrameState)
      requires Valid()
      modifies this
      ensures Valid()
      ensures State() == old(State()).(frameState := s, timerActive := s == Processing,
                                       animationProgress := if s == Processing then 0 else old(animationProgress))
    {
      frameState := s;
      if s == Processing {
        animationProgress := 0;
        timerActive := true;
      } else {
        timerActive := false;
      }
    }

    /** One animation timer tick. */
    method AnimateProcessing()
      requires Valid()
      modifies this
      ensures Valid()
      ensures State() == old(State()).(animationProgress := NextAnimationProgress(old(animationProgress)))
    {
      animationProgress := animationProgress + 1;
      if animationProgress >= 100 {
        animationProgress := 0;
      }
    }

    /** Enters Processing and raises the estimate to at least 5000 µs. */
    method OnFrameStateProcessing()
      requires Valid()
      modifies this
      ensures Valid() && estimatedMicroSeconds >= 5000
      ensures State() == old(State()).(frameState := Processing, timerActive := true, animationProgress := 0,
                                       estimatedMicroSeconds := if old(estimatedMicroSeconds) < 5000 then 5000
                                                                else old(estimatedMicroSeconds))
    {
      UpdateFrameState(Processing);
      if estimatedMicroSeconds < 5000 {
        estimatedMicroSeconds := 5000;
      }
    }

    method OnProcessingTimeEstimate(estimate: int)
      requires Valid()
      modifies this
      ensures Valid()
      ensures State() == old(State()).(estimatedMicroSeconds := estimate)
    {
      estimatedMicroSeconds := estimate;
    }

    /** Entering Processing sets the estimate; while already processing, the estimate accumulates. */
    method OnFrameStateProcessingFor(estimate: int)
      requires Valid()
      modifies this
      ensures Valid()
      ensures State() == old(State()).(frameState := Processing, timerActive := true,
                                       animationProgress := if old(frameState) == Processing then old(animationProgress) else 0,
                                       estimatedMicroSeconds := EstimateAfterProcessing(old(frameState), old(estimatedMicroSeconds), estimate))
    {
      if frameState != Processing {
        UpdateFrameState(Processing);
        estimatedMicroSeconds := estimate;
      } else {
        estimatedMicroSeconds := estimatedMicroSeconds + estimate;
      }
    }

    method OnProgressUpdate(percent: int)
      requires Valid()
      modifies this
      ensures Valid()
      ensures State() == old(State()).(progress := percent)
    {
      progress := percent;
    }

    /** Enters Progress (unless already there) and records the percentage. */
    method OnFrameStateProgressPercent(percent: int)
      requires Valid()
      modifies this
      ensures Valid()
      ensures State() == old(State()).(frameState := Progress, timerActive := false, progress := percent)
    {
      if frameState != Progress {
        UpdateFrameState(Progress);
      }
      progress := percent;
    }

    /**
     * Starts a capture: records the mode, shows the UR bar only in UR mode and goes Idle. Then a
     * pending permission request stops here (its answer calls `startCapture` again); a refusal or
     * an empty combo box shows its banner; otherwise camera 0 among the live video inputs is
     * selected, which hides the banner, and the scan thread is started if it was not running.
     */
    method StartCapture(scanUr: bool, permission: Permission, listedCount: int, liveCount: int)
      requires Valid()
      modifies this
      ensures Valid()
      ensures State() == AfterStartCapture(old(State()), scanUr, permission, listedCount, liveCount)
    {
      this.scanUr := scanUr;
      urProgressVisible := scanUr;
      UpdateFrameState(Idle);
      match permission {
        case Undetermined =>
        case Denied =>
          ShowError(NoPermissionMessage);
        case Granted =>
          StartCamera(listedCount, liveCount);
      }
    }

    /**
     * The rest of `startCapture` once permission is granted: with an empty combo box the banner
     * says so; otherwise camera 0 among the live video inputs is selected and the scan thread
     * started if it was not running.
     */
    method StartCamera(listedCount: int, liveCount: int)
      requires Valid()
      modifies this
      ensures Valid()
      ensures State() == AfterStartCamera(old(State()), listedCount, liveCount)
    {
      if listedCount < 1 {
        ShowError(NoCameraMessage);
        return;
      }
      OnCameraSwitched(0, liveCount);
      if !threadRunning {
        threadRunning := true;
      }
    }

    /** Sets the error banner's text and shows it. */
    method ShowError(message: string)
      requires Valid()
      modifies this
      ensures Valid()
      ensures State() == old(State()).(errorBanner := Some(message))
    {
      errorBanner := Some(message);
    }

    /**
     * Selects camera `index` among the `liveCount` video inputs attached now: an index out of
     * range is ignored; otherwise the previous camera, if any, is stopped and replaced by a new
     * one, which starts, and the error banner is hidden.
     */
    method OnCameraSwitched(index: int, liveCount: int)
      requires Valid()
      modifies this
      ensures Valid()
      ensures State() == AfterCameraSwitched(old(State()), index, liveCount)
    {
      if index < 0 {
        return;
      }
      if index >= liveCount {
        return;
      }
      if camera.Camera? {
        camera := camera.(active := false);
      }
      errorBanner := None;
      camera := Camera(true);
    }

    /**
     * A decoded string from the scan thread. Once the latch is set nothing changes. In plain
     * mode the string is the result: it is stored, the latch set, the thread stopped and
     * `finished(true)` emitted. In UR mode a rejected part changes nothing; an accepted one
     * shows Recognized and the decoder's estimate on the UR bar, and when the decoder is
     * complete the latch is set, the thread stopped and `finished` carries the decoder's success.
     */
    method OnDecoded(data: string, outcome: PartOutcome)
      requires Valid()
      modifies this
      ensures Valid()
      ensures State() == AfterDecoded(old(State()), data, outcome)
    {
      if done || (scanUr && outcome.Rejected?) {
        return;
      }
      if scanUr {
        AcceptPart(data, outcome.decoder);
        return;
      }
      decodedString := data;
      Finish(true);
    }

    /**
     * The UR branch of `onDecoded` once the decoder has taken a part: Recognized, the estimate
     * on the UR bar, and on completion the latch, the thread stopped and `finished`.
     */
    method AcceptPart(data: string, d: Decoder)
      requires Valid() && !done && scanUr
      modifies this
      ensures Valid()
      ensures State() == AfterDecoded(old(State()), data, Accepted(d))
    {
      decoder := d;
      UpdateFrameState(Recognized);
      urProgress := BarValue(urProgress, d.percentComplete);
      if d.complete {
        Finish(d.success);
      }
    }

    /** Sets the one-shot latch, stops the scan thread and emits `finished(success)`. */
    method Finish(success: bool)
      requires Valid()
      modifies this
      ensures Valid()
      ensures State() == old(State()).(done := true, threadRunning := false, finished := old(finished) + [success])
    {
      done := true;
      threadRunning := false;
      finished := finished + [success];
    }

    /** Clears the result, the latch and the UR bar, starts a new decoder and the thread, and accepts frames again. */
    method Reset()
      requires Valid()
      modifies this
      ensures Valid()
      ensures State() == old(State()).(decodedString := "", done := false, urProgress := 0, decoder := NewDecoder,
                                       threadRunning := true, handleFrames := true)
    {
      decodedString, done, urProgress := "", false, BarValue(urProgress, 0);
      RestartScan();
    }

    /** The rest of `reset`: a fresh UR decoder, and the scan thread started and accepting frames. */
    method RestartScan()
      requires Valid()
      modifies this
      ensures Valid()
      ensures State() == old(State()).(decoder := NewDecoder, threadRunning := true, handleFrames := true)
    {
      decoder := NewDecoder;
      threadRunning := true;
      handleFrames := true;
    }

    /**
     * Stops the camera and the scan thread, as written: the camera is stopped without a null
     * check, so a camera must already exist (see `StopChecked`).
     */
    method Stop()
      requires Valid() && camera.Camera?
      modifies this
      ensures Valid()
      ensures State() == old(State()).(camera := Camera(false), threadRunning := false)
    {
      camera := camera.(active := false);
      threadRunning := false;
    }

    /**
     * `stop` with the null check that the exposure handlers and `onCameraSwitched` make: it can
     * be called in every state, stops the scan thread, and stops the camera when there is one.
     */
    method StopChecked()
      requires Valid()
      modifies this
      ensures Valid()
      ensures State() == old(State()).(camera := if old(camera).Camera? then Camera(false) else NoCamera,
                                       threadRunning := false)
      ensures !threadRunning && !(camera.Camera? && camera.active)
    {
      if camera.Camera? {
        camera := camera.(active := false);
      }
      threadRunning := false;
    }

    method Pause()
      requires Valid()
      modifies this
      ensures Valid()
      ensures State() == old(State()).(handleFrames := false)
    {
      handleFrames := false;
    }

    /** A captured frame reaches the scan thread only while frames are handled, the thread runs and the frame converts. */
    method HandleFrameCaptured(frame: Frame)
      requires Valid()
      modifies this
      ensures Valid()
      ensures State() == old(State()).(queued := old(queued) + (if handleFrames && threadRunning && !frame.isNull
                                                                then [frame] else []))
    {
      if !handleFrames {
        return;
      }
      if !threadRunning {
        return;
      }
      if !frame.isNull {
        queued := queued + [frame];
      }
    }

    /** The UR type, only after a successful decode; empty otherwise or when the decoder knows no type. */
    function GetURType(): (t: string)
      reads this
      ensures !decoder.success ==> t == ""
      ensures decoder.success && decoder.expectedType.Some? ==> t == decoder.expectedType.value
    {
      if !decoder.success then "" else if decoder.expectedType.Some? then decoder.expectedType.value else ""
    }

    /** The decoded payload, only after a successful decode. */
    function GetURData(): (d: string)
      reads this
      ensures !decoder.success ==> d == ""
      ensures decoder.success ==> d == decoder.payload
    {
      if !decoder.success then "" else decoder.payload
    }
  }
}
