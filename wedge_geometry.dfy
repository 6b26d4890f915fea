/**
 * The angles and radii of the chart's wedges. Wedge i of n spans an equal
 * share of the circle (angles in degrees, clockwise from the top), painted a
 * little wider so that neighbours overlap; its outer radius is the inner
 * radius plus its length factor times the free radial space. Points and SVG
 * path strings built from these numbers with sine and cosine are not part of
 * this module.
 */
module WedgeGeometry {

  /** Extra degrees added to every wedge's end angle against anti-aliasing gaps. */
  const Overlap: real := 0.05

  function AnglePerWedge(n: nat): (a: real)
    requires n > 0
    ensures a > 0.0 && a * n as real == 360.0
  {
    360.0 / n as real
  }

  function StartAngle(i: nat, n: nat): real
    requires n > 0
  {
    i as real * AnglePerWedge(n)
  }

  function EndAngle(i: nat, n: nat): real
    requires n > 0
  {
    StartAngle(i, n) + AnglePerWedge(n) + Overlap
  }

  /** The angle a wedge's label is placed at: the middle of its share, without the overlap. */
  function MidAngle(i: nat, n: nat): real
    requires n > 0
  {
    StartAngle(i, n) + AnglePerWedge(n) / 2.0
  }

  /** The angle of a wedge's marker: `offsetFactor` of the way through its share. */
  function MarkerAngle(i: nat, n: nat, offsetFactor: real): real
    requires n > 0
  {
    StartAngle(i, n) + AnglePerWedge(n) * offsetFactor
  }

  /** The wedges tile the circle: each begins one share after the previous and overlaps the next by `Overlap`. */
  lemma WedgesTile(i: nat, n: nat)
    requires n > 0
    ensures StartAngle(0, n) == 0.0 && StartAngle(n, n) == 360.0
    ensures StartAngle(i + 1, n) == StartAngle(i, n) + AnglePerWedge(n)
    ensures EndAngle(i, n) == StartAngle(i + 1, n) + Overlap
  {
    assert (i + 1) as real * AnglePerWedge(n) == i as real * AnglePerWedge(n) + AnglePerWedge(n);
  }

  /** Every wedge's label angle and marker angle lie inside the wedge and inside the circle. */
  lemma AnglesInsideWedge(i: nat, n: nat, offsetFactor: real)
    requires i < n
    requires 0.0 <= offsetFactor <= 1.0
    ensures StartAngle(i, n) < MidAngle(i, n) < EndAngle(i, n)
    ensures StartAngle(i, n) <= MarkerAngle(i, n, offsetFactor) < EndAngle(i, n)
    ensures 0.0 <= StartAngle(i, n) && EndAngle(i, n) <= 360.0 + Overlap
    ensures 0.0 < MidAngle(i, n) < 360.0
  {
    var a := AnglePerWedge(n);
    assert a * offsetFactor <= a;
    WedgesTile(i, n);
    assert StartAngle(i + 1, n) <= StartAngle(n, n) by {
      assert (i + 1) as real <= n as real;
    }
  }

  // ---------------------------------------------------------------------
  // Large-arc flag of a wedge's outer arc
  // ---------------------------------------------------------------------

  /** The SVG large-arc flag: "1" exactly when the arc spans more than half the circle. */
  function LargeArcFlag(startAngle: real, endAngle: real): string {
    if endAngle - startAngle <= 180.0 then "0" else "1"
  }

  /**
   * A wedge's arc is drawn the long way round exactly for charts of one or
   * two services; the overlap makes each half of a two-service chart just
   * over 180 degrees.
   */
  lemma LargeArcOnlyForFewWedges(i: nat, n: nat)
    requires n > 0
    ensures LargeArcFlag(StartAngle(i, n), EndAngle(i, n)) == "1" <==> n <= 2
  {
    var a := AnglePerWedge(n);
    assert EndAngle(i, n) - StartAngle(i, n) == a + Overlap;
    if n == 1 {
      assert a == 360.0;
    } else if n == 2 {
      assert a == 180.0;
    } else {
      assert a <= 120.0;
    }
  }

  // ---------------------------------------------------------------------
  // Radii
  // ---------------------------------------------------------------------

  /** The outer radius of a wedge with length factor `factor`. */
  function OuterRadius(innerRadius: real, radialSpace: real, factor: real): real {
    innerRadius + radialSpace * factor
  }

  /** The radius every inactive wedge shrinks to while another is hovered. */
  function ShrunkRadius(innerRadius: real, radialSpace: real, minLengthFactor: real, shrinkScale: real): real {
    innerRadius + radialSpace * minLengthFactor * shrinkScale
  }

  /** The radius of the hovered wedge. */
  function HoverRadius(innerRadius: real, radialSpace: real, hoverMaxLengthFactor: real): real {
    innerRadius + radialSpace * hoverMaxLengthFactor
  }

  /** The radius of the label anchor points: past the longest possible wedge by the label offset. */
  function LabelRadius(innerRadius: real, radialSpace: real, labelOffset: real): real {
    innerRadius + radialSpace * 1.0 + labelOffset
  }

  /**
   * With free radial space, a shrink scale below 1, a hover factor above the
   * largest length factor and a positive label offset, every wedge whose
   * factor lies in [minLengthFactor, maxLengthFactor] is longer than the
   * shrunk wedges, shorter than the hovered one, and inside the label ring.
   */
  lemma RadiiOrdered(innerRadius: real, radialSpace: real, minLengthFactor: real, maxLengthFactor: real,
                     factor: real, shrinkScale: real, hoverMaxLengthFactor: real, labelOffset: real)
    requires radialSpace > 0.0
    requires 0.0 < minLengthFactor <= factor <= maxLengthFactor <= 1.0
    requires 0.0 <= shrinkScale < 1.0 && maxLengthFactor < hoverMaxLengthFactor && labelOffset > 0.0
    ensures ShrunkRadius(innerRadius, radialSpace, minLengthFactor, shrinkScale) < OuterRadius(innerRadius, radialSpace, factor)
    ensures OuterRadius(innerRadius, radialSpace, factor) < HoverRadius(innerRadius, radialSpace, hoverMaxLengthFactor)
    ensures OuterRadius(innerRadius, radialSpace, factor) < LabelRadius(innerRadius, radialSpace, labelOffset)
  {
    var scaledMin := minLengthFactor * shrinkScale;
    assert scaledMin < minLengthFactor;
    var shrunk, atMin, atFactor, atHover := radialSpace * scaledMin, radialSpace * minLengthFactor,
                                           radialSpace * factor, radialSpace * hoverMaxLengthFactor;
    assert shrunk < atMin;
    assert atMin <= atFactor;
    assert atFactor < atHover;
    assert atFactor <= radialSpace;
    assert ShrunkRadius(innerRadius, radialSpace, minLengthFactor, shrinkScale) == innerRadius + shrunk;
  }
}
