/**
 * Placement of the service labels around the chart: which side of its anchor
 * point a label's text hangs from, the shared width and the per-label height
 * of the background boxes, where each box goes, and the vertical offsets of
 * the text lines inside a box. Text measurements (getBBox) are inputs.
 */
module LabelLayout {

  datatype Anchor = Start | Middle | End

  /** Degrees either side of the vertical axis within which a label is centred on its point. */
  const Tolerance: real := 5.0

  /** Line pitch of a multi-line label, in multiples of the font size (1.2em). */
  const LineHeightFactor: real := 1.2

  // ---------------------------------------------------------------------
  // Text anchor
  // ---------------------------------------------------------------------

  /**
   * The text-anchor of a label whose wedge has mid angle `midAngle` (degrees
   * clockwise from the top). Labels on the right half start at their point,
   * labels on the left half end at it, and labels near the top or the bottom
   * are centred on it.
   */
  function TextAnchor(midAngle: real): (a: Anchor)
    ensures a == Start ==> Tolerance < midAngle < 180.0 - Tolerance
    ensures a == End ==> 180.0 + Tolerance < midAngle < 360.0 - Tolerance
    // within a turn: centred exactly when near the vertical axis, otherwise
    // starting on the right half and ending on the left
    ensures 0.0 <= midAngle <= 360.0 ==> (a == Middle <==> AxisDistance(midAngle) <= Tolerance)
    ensures 0.0 <= midAngle <= 360.0 ==> (a == Start <==> midAngle < 180.0 && Tolerance < AxisDistance(midAngle))
    ensures 0.0 <= midAngle <= 360.0 ==> (a == End <==> 180.0 < midAngle && Tolerance < AxisDistance(midAngle))
  {
    if Tolerance < midAngle < 180.0 - Tolerance then Start
    else if 180.0 + Tolerance < midAngle < 360.0 - Tolerance then End
    else Middle
  }

  /** How far the angle is from the vertical axis: from 0, 180 or 360 degrees, whichever is nearest. */
  function AxisDistance(angle: real): (d: real)
    ensures d >= 0.0
  {
    var top := if angle <= 0.0 then -angle else angle;
    var bottom := if angle <= 180.0 then 180.0 - angle else angle - 180.0;
    var topAgain := if angle <= 360.0 then 360.0 - angle else angle - 360.0;
    if top <= bottom && top <= topAgain then top else if bottom <= topAgain then bottom else topAgain
  }

  function Mirror(a: Anchor): Anchor {
    match a
    case Start => End
    case End => Start
    case Middle => Middle
  }

  /** Reflecting a wedge in the vertical axis swaps start and end anchors. */
  lemma AnchorMirror(midAngle: real)
    requires 0.0 <= midAngle <= 360.0
    ensures TextAnchor(360.0 - midAngle) == Mirror(TextAnchor(midAngle))
  {
  }

  // ---------------------------------------------------------------------
  // Box sizes
  // ---------------------------------------------------------------------

  /**
   * The widest measured line over all labels (maxWidth after the first pass),
   * starting from 0; `lineWidths[i]` holds the measured widths of label i's lines.
   */
  method WidestLine(lineWidths: seq<seq<real>>) returns (maxWidth: real)
    ensures maxWidth >= 0.0
    ensures forall i, j :: 0 <= i < |lineWidths| && 0 <= j < |lineWidths[i]| ==> lineWidths[i][j] <= maxWidth
    ensures maxWidth == 0.0 || exists i, j :: 0 <= i < |lineWidths| && 0 <= j < |lineWidths[i]| && maxWidth == lineWidths[i][j]
  {
    maxWidth := 0.0;
    for i := 0 to |lineWidths|
      invariant maxWidth >= 0.0
      invariant forall i', j :: 0 <= i' < i && 0 <= j < |lineWidths[i']| ==> lineWidths[i'][j] <= maxWidth
      invariant maxWidth == 0.0 || exists i', j :: 0 <= i' < i && 0 <= j < |lineWidths[i']| && maxWidth == lineWidths[i'][j]
    {
      var currentMaxLineWidth := 0.0;
      for j := 0 to |lineWidths[i]|
        invariant currentMaxLineWidth >= 0.0
        invariant forall j' :: 0 <= j' < j ==> lineWidths[i][j'] <= currentMaxLineWidth
        invariant currentMaxLineWidth == 0.0 || exists j' :: 0 <= j' < j && currentMaxLineWidth == lineWidths[i][j']
      {
        currentMaxLineWidth := Max(currentMaxLineWidth, lineWidths[i][j]);
      }
      maxWidth := Max(maxWidth, currentMaxLineWidth);
    }
  }

  function Max(a: real, b: real): (m: real)
    ensures m >= a && m >= b && (m == a || m == b)
  {
    if a >= b then a else b
  }

  /**
   * The width every label box shares: the widest line plus padding on both
   * sides, but never more than the configured maximum box width.
   */
  function BoxWidth(maxLineWidth: real, maxBoxWidth: real, padding: real): (w: real)
    ensures w <= maxBoxWidth && w <= maxLineWidth + 2.0 * padding
    ensures w == maxBoxWidth || w == maxLineWidth + 2.0 * padding
  {
    if maxBoxWidth <= maxLineWidth + 2.0 * padding then maxBoxWidth else maxLineWidth + 2.0 * padding
  }

  /** The single-line height of a label: the first line's measured height, or 0 without lines. */
  function SingleLineHeight(numLines: nat, firstLineHeight: real): real {
    if numLines > 0 then firstLineHeight else 0.0
  }

  /** A box's height: its lines at a pitch of 1.2 line heights, plus padding above and below. */
  function BoxHeight(numLines: nat, lineHeight: real, padding: real): real {
    numLines as real * lineHeight * LineHeightFactor + 2.0 * padding
  }

  /** Every further line adds the same pitch, so a box without lines is just its padding. */
  lemma BoxHeightStep(numLines: nat, lineHeight: real, padding: real)
    ensures BoxHeight(0, SingleLineHeight(0, lineHeight), padding) == 2.0 * padding
    ensures BoxHeight(numLines + 1, lineHeight, padding)
            == BoxHeight(numLines, lineHeight, padding) + lineHeight * LineHeightFactor
  {
    assert (numLines + 1) as real * lineHeight == numLines as real * lineHeight + lineHeight;
  }

  /** With a positive line height, a label with more lines gets a strictly taller box. */
  lemma {:induction false} BoxHeightIncreasing(m: nat, n: nat, lineHeight: real, padding: real)
    requires m < n && lineHeight > 0.0
    ensures BoxHeight(m, lineHeight, padding) < BoxHeight(n, lineHeight, padding)
    decreases n - m
  {
    BoxHeightStep(n - 1, lineHeight, padding);
    if m < n - 1 {
      BoxHeightIncreasing(m, n - 1, lineHeight, padding);
    }
  }

  // ---------------------------------------------------------------------
  // Box position
  // ---------------------------------------------------------------------

  /** A label's background box: its top-left corner and its size. */
  datatype Box = Box(x: real, y: real, width: real, height: real)

  function CentreX(b: Box): real { b.x + b.width / 2.0 }

  function CentreY(b: Box): real { b.y + b.height / 2.0 }

  /**
   * The box of a label anchored at (`labelX`, `labelY`): it starts at the
   * point for a start anchor, ends at it for an end anchor, is centred on it
   * for a middle anchor, and is always centred on it vertically.
   */
  function PlaceBox(anchor: Anchor, labelX: real, labelY: real, width: real, height: real): (b: Box)
    ensures b.width == width && b.height == height
    ensures CentreY(b) == labelY
    ensures anchor == Middle ==> CentreX(b) == labelX
    ensures anchor == Start ==> CentreX(b) == labelX + width / 2.0
    ensures anchor == End ==> CentreX(b) == labelX - width / 2.0
  {
    var x := match anchor
      case Middle => labelX - width / 2.0
      case Start => labelX
      case End => labelX - width;
    Box(x, labelY - height / 2.0, width, height)
  }

  /** A box of non-negative size touches its label point: the point lies on its horizontal span and its vertical span. */
  lemma BoxHoldsPoint(anchor: Anchor, labelX: real, labelY: real, width: real, height: real)
    requires width >= 0.0 && height >= 0.0
    ensures var b := PlaceBox(anchor, labelX, labelY, width, height);
            b.x <= labelX <= b.x + b.width && b.y <= labelY <= b.y + b.height
    ensures var b := PlaceBox(anchor, labelX, labelY, width, height);
            (anchor == Start ==> labelX <= b.x) && (anchor == End ==> b.x + b.width <= labelX)
  {
  }

  // ---------------------------------------------------------------------
  // Line offsets inside a box
  // ---------------------------------------------------------------------

  /** A tspan's dy attribute: the literal "0", or a number of em. */
  datatype Dy = Zero | Em(value: real)

  function EmOf(d: Dy): real {
    match d
    case Zero => 0.0
    case Em(v) => v
  }

  /**
   * The dy of line `lineIndex` of a label with `numLines` lines: the first
   * line moves up by half the block's height measured in line pitches, the
   * others each move one pitch down from the previous one.
   */
  function LineDy(lineIndex: nat, numLines: nat): Dy {
    if lineIndex == 0 then
      if numLines > 1 then Em(-((numLines - 1) as real / 2.0) * LineHeightFactor) else Zero
    else Em(LineHeightFactor)
  }

  function LineDys(numLines: nat): (dys: seq<Dy>)
    ensures |dys| == numLines
    ensures forall k :: 0 <= k < numLines ==> dys[k] == LineDy(k, numLines)
  {
    seq(numLines, k requires 0 <= k => LineDy(k, numLines))
  }

  /** The baseline of line k relative to the box centre, in em: the dy values of lines 0..k summed. */
  function Baseline(dys: seq<Dy>, k: nat): real
    requires k < |dys|
  {
    if k == 0 then EmOf(dys[0]) else Baseline(dys, k - 1) + EmOf(dys[k])
  }

  /** The lines of a label sit one pitch apart, centred on the box's middle. */
  lemma {:induction false} LinesCentred(numLines: nat, k: nat)
    requires k < numLines
    ensures Baseline(LineDys(numLines), k) == (k as real - (numLines - 1) as real / 2.0) * LineHeightFactor
  {
    if k > 0 {
      LinesCentred(numLines, k - 1);
    }
  }

  /** The first and the last line are equally far above and below the centre. */
  lemma LinesSymmetric(numLines: nat)
    requires numLines > 0
    ensures Baseline(LineDys(numLines), 0) == -Baseline(LineDys(numLines), numLines - 1)
  {
    LinesCentred(numLines, 0);
    LinesCentred(numLines, numLines - 1);
  }
}
