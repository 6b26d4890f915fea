/**
 * The chart's hover behaviour as a state machine over animation targets.
 * Entering a wedge raises it to the hover radius and shrinks every other
 * wedge to one common radius; leaving it sends every wedge back to the path
 * and marker it was first drawn with. The description panel beside the chart
 * is shown on enter and faded out on leave; hiding it completely waits for a
 * timer that a new show cancels.
 *
 * Only the values each transition animates towards are modelled. A path is
 * represented by the arguments calculatePathData draws it from and a point by
 * the arguments polarToCartesian computes it from, so two targets are the
 * same drawing exactly when they are equal.
 */
module Hover {
  import G = WedgeGeometry
  import L = LabelLayout

  type Colour = string

  /** One entry of the service list: its name and the text the panel shows. */
  datatype Service = Service(name: string, description: string)

  const NoDescription: string := "No description available."

  /**
   * getServiceDescription: the first service with this name, or a record
   * with the name and a placeholder description when there is none.
   */
  function FindService(services: seq<Service>, name: string): (s: Service)
    ensures s.name == name
    ensures (exists k :: 0 <= k < |services| && services[k].name == name) ==>
              exists k :: 0 <= k < |services| && services[k] == s
                          && forall j :: 0 <= j < k ==> services[j].name != name
    ensures (forall k :: 0 <= k < |services| ==> services[k].name != name) ==> s == Service(name, NoDescription)
  {
    if services == [] then Service(name, NoDescription)
    else if services[0].name == name then services[0]
    else
      var s := FindService(services[1..], name);
      assert forall k :: 1 <= k < |services| ==> services[k] == services[1..][k - 1];
      s
  }

  ghost predicate DistinctNames(services: seq<Service>) {
    forall j, k :: 0 <= j < k < |services| ==> services[j].name != services[k].name
  }

  /** With distinct names, the panel shows the hovered wedge's own service. */
  lemma {:induction false} FindOwnService(services: seq<Service>, i: nat)
    requires DistinctNames(services) && i < |services|
    ensures FindService(services, services[i].name) == services[i]
  {
    var s := FindService(services, services[i].name);
    var k :| 0 <= k < |services| && services[k] == s
             && forall j :: 0 <= j < k ==> services[j].name != services[i].name;
    assert !(i < k);
    assert !(k < i);
  }

  // ---------------------------------------------------------------------
  // Animation targets
  // ---------------------------------------------------------------------

  /** The outline calculatePathData(radius, startAngle, endAngle) draws. */
  datatype Path = Path(radius: real, startAngle: real, endAngle: real)

  /** The point polarToCartesian(center, center, radius, angle) gives. */
  datatype Point = Polar(radius: real, angle: real)

  /** What a wedge group stores about itself when it is created. */
  datatype Wedge = Wedge(startAngle: real, endAngle: real, markerAngle: real, originalRadius: real)

  /**
   * Where the animations of one wedge head: its outline, its marker (the
   * label line is redrawn from the marker to the box centre), the line's
   * opacity, and the scale and opacity of its label box and text.
   */
  datatype Target = Target(path: Path, marker: Point, lineOpacity: real, labelScale: real, labelOpacity: real)

  /** Wedge i of n as the first pass creates it. */
  function WedgeAt(i: nat, n: nat, innerRadius: real, radialSpace: real, markerOffsetFactor: real, factor: real): Wedge
    requires n > 0
  {
    Wedge(G.StartAngle(i, n), G.EndAngle(i, n), G.MarkerAngle(i, n, markerOffsetFactor),
          G.OuterRadius(innerRadius, radialSpace, factor))
  }

  /** A wedge at rest: its original outline and marker, its line and label fully shown at scale 1. */
  function Resting(w: Wedge): Target {
    Target(Path(w.originalRadius, w.startAngle, w.endAngle), Polar(w.originalRadius, w.markerAngle), 1.0, 1.0, 1.0)
  }

  /** The hovered wedge: drawn out to `hoverRadius`, its label grown to `labelScale`. */
  function Raised(w: Wedge, hoverRadius: real, labelScale: real): Target {
    Target(Path(hoverRadius, w.startAngle, w.endAngle), Polar(hoverRadius, w.markerAngle), 1.0, labelScale, 1.0)
  }

  /** A wedge beside the hovered one: drawn in to `shrunkRadius`, its line and label faded out. */
  function Lowered(w: Wedge, shrunkRadius: real, labelScale: real): Target {
    Target(Path(shrunkRadius, w.startAngle, w.endAngle), Polar(shrunkRadius, w.markerAngle), 0.0, labelScale, 0.0)
  }

  // ---------------------------------------------------------------------
  // Description panel
  // ---------------------------------------------------------------------

  /** Which side of the chart the description panel is put on. */
  datatype Side = LeftOfChart | RightOfChart

  /** A wedge on the right half of the chart gets the panel on the left, and the other way round. */
  function PanelSide(wedgeAngle: real): Side {
    if wedgeAngle < 180.0 then LeftOfChart else RightOfChart
  }

  /** The angle the panel side is decided from: the middle of the drawn wedge, overlap included. */
  function PanelAngle(w: Wedge): real {
    w.startAngle + (w.endAngle - w.startAngle) / 2.0
  }

  /**
   * The panel opens on the side away from the hovered wedge's label: a label
   * hanging to the right of its point has the panel on the left, a label
   * hanging to the left has it on the right.
   */
  lemma PanelFacesAwayFromLabel(i: nat, n: nat, innerRadius: real, radialSpace: real, markerOffsetFactor: real, factor: real)
    requires i < n
    ensures var w := WedgeAt(i, n, innerRadius, radialSpace, markerOffsetFactor, factor);
            L.TextAnchor(G.MidAngle(i, n)) == L.Start ==> PanelSide(PanelAngle(w)) == LeftOfChart
    ensures var w := WedgeAt(i, n, innerRadius, radialSpace, markerOffsetFactor, factor);
            L.TextAnchor(G.MidAngle(i, n)) == L.End ==> PanelSide(PanelAngle(w)) == RightOfChart
  {
    var w := WedgeAt(i, n, innerRadius, radialSpace, markerOffsetFactor, factor);
    assert PanelAngle(w) == G.MidAngle(i, n) + G.Overlap / 2.0;
  }

  class RadialChart {
    const services: seq<Service>
    /** The colour assigned to each wedge. */
    const colours: seq<Colour>
    const wedges: seq<Wedge>
    const hoverRadius: real
    const shrunkRadius: real
    const labelHoverScale: real
    const textShrinkScale: real

    /** The current animation target of every wedge. */
    var targets: seq<Target>

    // The description panel: its content, its accent colour and its side.
    var shown: Service
    var accent: Colour
    var side: Side
    /** Shown at full opacity ("1") rather than fading or faded out ("0"). */
    var visible: bool
    /** Laid out and visible (display "block") rather than removed (display "none"). */
    var displayed: bool
    /** A hide timer is scheduled (descriptionHideTimeout is set). */
    var hidePending: bool

    ghost predicate Valid()
      reads this
    {
      && |colours| == |services| && |wedges| == |services| && |targets| == |wedges|
      && (hidePending ==> !visible)
      && (visible ==> displayed)
    }

    ghost function RestingTargets(): (ts: seq<Target>)
      reads this
      ensures |ts| == |wedges| && forall k :: 0 <= k < |wedges| ==> ts[k] == Resting(wedges[k])
    {
      seq(|wedges|, k requires 0 <= k < |wedges| reads this => Resting(wedges[k]))
    }

    /**
     * The chart after the first pass: one wedge per service with the angles
     * of its share and the radius of its length factor, every wedge at rest,
     * and the panel hidden.
     */
    constructor (services: seq<Service>, lengthFactors: seq<real>, colours: seq<Colour>,
                 innerRadius: real, radialSpace: real, markerOffsetFactor: real,
                 minLengthFactor: real, shrinkScale: real, hoverMaxLengthFactor: real,
                 labelHoverScale: real, textShrinkScale: real)
      requires |lengthFactors| == |services| && |colours| == |services|
      ensures Valid()
      ensures this.services == services && this.colours == colours
      ensures forall i :: 0 <= i < |services| ==>
                wedges[i] == WedgeAt(i, |services|, innerRadius, radialSpace, markerOffsetFactor, lengthFactors[i])
      ensures hoverRadius == G.HoverRadius(innerRadius, radialSpace, hoverMaxLengthFactor)
      ensures shrunkRadius == G.ShrunkRadius(innerRadius, radialSpace, minLengthFactor, shrinkScale)
      ensures this.labelHoverScale == labelHoverScale && this.textShrinkScale == textShrinkScale
      ensures targets == RestingTargets()
      ensures !visible && !displayed && !hidePending
    {
      var n := |services|;
      var ws: seq<Wedge> := [];
      for i := 0 to n
        invariant |ws| == i
        invariant forall k :: 0 <= k < i ==>
                    ws[k] == WedgeAt(k, n, innerRadius, radialSpace, markerOffsetFactor, lengthFactors[k])
      {
        ws := ws + [WedgeAt(i, n, innerRadius, radialSpace, markerOffsetFactor, lengthFactors[i])];
      }
      var ts: seq<Target> := [];
      for i := 0 to n
        invariant |ts| == i
        invariant forall k :: 0 <= k < i ==> ts[k] == Resting(ws[k])
      {
        ts := ts + [Resting(ws[i])];
      }
      this.services := services;
      this.colours := colours;
      wedges := ws;
      hoverRadius := G.HoverRadius(innerRadius, radialSpace, hoverMaxLengthFactor);
      shrunkRadius := G.ShrunkRadius(innerRadius, radialSpace, minLengthFactor, shrinkScale);
      this.labelHoverScale := labelHoverScale;
      this.textShrinkScale := textShrinkScale;
      targets := ts;
      shown := Service("", "");
      accent := "";
      side := LeftOfChart;
      visible := false;
      displayed := false;
      hidePending := false;
    }

    /** showServiceDescription: cancel a pending hide, fill in the panel and show it on the side away from the wedge. */
    method ShowDescription(service: Service, colour: Colour, wedgeAngle: real)
      requires Valid()
      modifies this
      ensures Valid()
      ensures shown == service && accent == colour && side == PanelSide(wedgeAngle)
      ensures visible && displayed && !hidePending
      ensures targets == old(targets)
    {
      hidePending := false;
      shown := service;
      accent := colour;
      displayed := true;
      side := PanelSide(wedgeAngle);
      visible := true;
    }

    /** hideServiceDescription: fade the panel out and (re)schedule the timer that removes it. */
    method HideDescription()
      requires Valid()
      modifies this
      ensures Valid()
      ensures !visible && hidePending
      ensures displayed == old(displayed) && shown == old(shown) && accent == old(accent) && side == old(side)
      ensures targets == old(targets)
    {
      visible := false;
      hidePending := true;
    }

    /**
     * The hide timer's deadline passing. A scheduled timer removes the panel
     * (its opacity is still "0", since any show in between cancelled the
     * timer) and clears itself; a cancelled one does nothing.
     */
    method FireHideTimer()
      requires Valid()
      modifies this
      ensures Valid()
      ensures !hidePending
      ensures old(hidePending) ==> !displayed && !visible
      ensures !old(hidePending) ==> displayed == old(displayed) && visible == old(visible)
      ensures shown == old(shown) && accent == old(accent) && side == old(side)
      ensures targets == old(targets)
    {
      if hidePending {
        if !visible {
          displayed := false;
        }
        hidePending := false;
      }
    }

    /**
     * handleMouseEnter on wedge i: show its description, raise it, and shrink
     * every other wedge to the common shrunk radius with its line and label
     * faded out.
     */
    method MouseEnter(i: nat)
      requires Valid() && i < |wedges|
      modifies this
      ensures Valid()
      ensures targets[i] == Raised(wedges[i], hoverRadius, labelHoverScale)
      ensures forall k :: 0 <= k < |wedges| && k != i ==> targets[k] == Lowered(wedges[k], shrunkRadius, textShrinkScale)
      ensures shown == FindService(services, services[i].name) && accent == colours[i]
      ensures side == PanelSide(PanelAngle(wedges[i]))
      ensures visible && displayed && !hidePending
    {
      var w := wedges[i];
      ShowDescription(FindService(services, services[i].name), colours[i], PanelAngle(w));
      var ts := targets[i := targets[i].(path := Path(hoverRadius, w.startAngle, w.endAngle),
                                         marker := Polar(hoverRadius, w.markerAngle),
                                         lineOpacity := 1.0)];
      for k := 0 to |ts|
        invariant |ts| == |wedges|
        invariant forall k' :: 0 <= k' < k && k' != i ==> ts[k'] == Lowered(wedges[k'], shrunkRadius, textShrinkScale)
        invariant i < k ==> ts[i] == Raised(w, hoverRadius, labelHoverScale)
        invariant k <= i ==> ts[i].path == Path(hoverRadius, w.startAngle, w.endAngle)
                             && ts[i].marker == Polar(hoverRadius, w.markerAngle)
                             && ts[i].lineOpacity == 1.0
      {
        if k == i {
          ts := ts[k := ts[k].(labelScale := labelHoverScale, labelOpacity := 1.0)];
        } else {
          ts := ts[k := Lowered(wedges[k], shrunkRadius, textShrinkScale)];
        }
      }
      targets := ts;
    }

    /**
     * handleMouseLeave on wedge i: fade the description out and send every
     * wedge, marker, line and label back to how it was first drawn.
     */
    method MouseLeave(i: nat)
      requires Valid() && i < |wedges|
      modifies this
      ensures Valid()
      ensures targets == RestingTargets()
      ensures !visible && hidePending
      ensures displayed == old(displayed) && shown == old(shown) && accent == old(accent) && side == old(side)
    {
      HideDescription();
      var w := wedges[i];
      var ts := targets[i := targets[i].(path := Path(w.originalRadius, w.startAngle, w.endAngle),
                                         marker := Polar(w.originalRadius, w.markerAngle),
                                         lineOpacity := 1.0)];
      for k := 0 to |ts|
        invariant |ts| == |wedges|
        invariant forall k' :: 0 <= k' < k ==> ts[k'] == Resting(wedges[k'])
      {
        ts := ts[k := Resting(wedges[k])];
      }
      targets := ts;
    }

    /** Hovering any wedge and leaving any wedge puts a resting chart back exactly as it was. */
    method EnterThenLeave(i: nat, j: nat)
      requires Valid() && i < |wedges| && j < |wedges|
      requires targets == RestingTargets()
      modifies this
      ensures Valid()
      ensures targets == old(targets)
      ensures !visible && displayed && hidePending
    {
      MouseEnter(i);
      MouseLeave(j);
    }

    /** Leaving a wedge and tripping the timer removes the panel, unless a new hover cancelled it first. */
    method LeaveThenTimer(i: nat)
      requires Valid() && i < |wedges|
      modifies this
      ensures Valid()
      ensures !displayed && !visible && !hidePending
      ensures targets == RestingTargets()
    {
      MouseLeave(i);
      FireHideTimer();
    }

    /** A hover that comes before the timer fires keeps the panel on screen. */
    method LeaveEnterTimer(i: nat, j: nat)
      requires Valid() && i < |wedges| && j < |wedges|
      modifies this
      ensures Valid()
      ensures displayed && visible && !hidePending
      ensures shown == FindService(services, services[j].name)
    {
      MouseLeave(i);
      MouseEnter(j);
      FireHideTimer();
    }
  }
}
