/** The geometry builder: from a parameter record it computes the supports,
    the retention and auxiliary anchors and every cable of the barrier.
    `sin`, `cos` and `tan` are numpy's, passed in as an uninterpreted `Trig`
    record; nothing here depends on their values. */
module Geometry {
  import opened Wrappers
  import opened Decimal
  import opened Barrier

  /** numpy's `np.pi`. */
  const Pi: real := 3.141592653589793

  /** The trigonometric functions the builder calls, on radians. */
  datatype Trig = Trig(sin: real -> real, cos: real -> real, tan: real -> real)

  function DegToRad(degrees: real): (r: real)
    ensures degrees == 180.0 ==> r == Pi
    ensures r == 0.0 <==> degrees == 0.0
    ensures r < 0.0 <==> degrees < 0.0
  {
    degrees * Pi / 180.0
  }

  /** The parameter set a new configuration starts from. */
  function DefaultParams(): (p: Params)
    ensures p.numSupports == 4 && !p.hasDelta1 && !p.hasDelta2
    ensures 0.0 < p.a && 0.0 < p.b && 0.0 < p.d && 0.0 < p.h && 0.0 < p.f && 0.0 < p.L
  {
    Params(4, 8.0, 2.0, 10.0, 2.0, 0.5, 5.0, 30.0, 45.0, 0.0, 0.0, 10.0, 20.0, 15.0, false, false)
  }

  /** Height of the inclined terrain at distance `x` across the barrier line. */
  function TerrainHeight(trig: Trig, phi: real, x: real): (z: real)
    ensures x == 0.0 ==> z == 0.0
  {
    x * trig.tan(phi)
  }

  // ---------------------------------------------------------------- ids

  function SupportId(k: nat): string { "s" + NatToString(k) }
  function RetentionAnchorId(k: nat): string { "v" + NatToString(k) }
  function RetentionCableId(k: nat): string { "rhs" + NatToString(k) }
  function CatchingCableId(k: nat): string { "faS" + NatToString(k) }

  const Tso1Anchor: string := "tso1_anchor"
  const Tso2Anchor: string := "tso2_anchor"
  const Tsu1Anchor: string := "tsu1_anchor"
  const Tsu2Anchor: string := "tsu2_anchor"
  const Sa1Anchor: string := "sa1_anchor"
  const Sa2Anchor: string := "sa2_anchor"

  const AuxiliaryAnchorIds: set<string> :=
    {Tso1Anchor, Tso2Anchor, Tsu1Anchor, Tsu2Anchor, Sa1Anchor, Sa2Anchor}

  /** The fixed cable ids; the far-end support cables are keyed `tsoS4` and
      `tsuS4` whatever the number of supports. */
  const FixedCableIds: set<string> := {"tsoS1", "tsoS4", "tsuS1", "tsuS4", "sa1", "sa2"}

  // ------------------------------------------------------------ supports

  function TotalLength(p: Params): real {
    (p.numSupports - 1) as real * p.d
  }

  /** The support built in iteration `i` (0-based) of the support loop. */
  function SupportAt(p: Params, trig: Trig, i: nat): Support {
    var phi := DegToRad(p.phi);
    var epsilon := DegToRad(p.epsilon);
    var x := 0.0;
    var y := i as real * p.d;
    var z := TerrainHeight(trig, phi, x);
    Support(
      Point(x, y, z),
      Point(x - p.L * trig.sin(phi) * trig.cos(epsilon) + p.L * trig.cos(phi) * trig.sin(epsilon),
            y,
            z + p.L * trig.cos(phi) * trig.cos(epsilon) + p.L * trig.sin(phi) * trig.sin(epsilon)),
      p.L,
      "S" + NatToString(i + 1))
  }

  /** The support dictionary after `k` iterations of the support loop. */
  function SupportsUpTo(p: Params, trig: Trig, k: nat): map<string, Support> {
    if k == 0 then map[] else SupportsUpTo(p, trig, k - 1)[SupportId(k) := SupportAt(p, trig, k - 1)]
  }

  // ------------------------------------------------------------- anchors

  /** The retention anchor built in iteration `i` (0-based) of the anchor loop. */
  function RetentionAnchorAt(p: Params, trig: Trig, i: nat): Anchor {
    var x := p.a / 2.0;
    var y := if i == 0 then -p.b
             else if i == p.numSupports then TotalLength(p) + p.b
             else (i - 1) as real * p.d;
    var z := TerrainHeight(trig, DegToRad(p.phi), x);
    Anchor(Point(x, y, z + p.h), "V" + NatToString(i + 1))
  }

  /** The anchor dictionary after `k` iterations of the anchor loop. */
  function RetentionAnchorsUpTo(p: Params, trig: Trig, k: nat): map<string, Anchor> {
    if k == 0 then map[]
    else RetentionAnchorsUpTo(p, trig, k - 1)[RetentionAnchorId(k) := RetentionAnchorAt(p, trig, k - 1)]
  }

  /** y of the auxiliary anchors: before the first support or beyond the last one. */
  function EndY(p: Params, far: bool): real {
    if far then TotalLength(p) + p.b else -p.b
  }

  function UpperAnchorPosition(p: Params, trig: Trig, far: bool): Point {
    Point(p.b, EndY(p, far), TerrainHeight(trig, DegToRad(p.phi), p.b))
  }

  function LowerAnchorPosition(p: Params, trig: Trig, far: bool): Point {
    Point(-p.b, EndY(p, far), TerrainHeight(trig, DegToRad(p.phi), -p.b))
  }

  function LateralAnchorPosition(p: Params, trig: Trig, far: bool): Point {
    Point(0.0, EndY(p, far), TerrainHeight(trig, DegToRad(p.phi), 0.0) - p.h / 2.0)
  }

  /** The complete anchor dictionary. */
  function Anchors(p: Params, trig: Trig): map<string, Anchor>
    requires 1 <= p.numSupports
  {
    RetentionAnchorsUpTo(p, trig, p.numSupports + 1)
      [Tso1Anchor := Anchor(UpperAnchorPosition(p, trig, false), "Tso1 Anchor")]
      [Tso2Anchor := Anchor(UpperAnchorPosition(p, trig, true), "Tso2 Anchor")]
      [Tsu1Anchor := Anchor(LowerAnchorPosition(p, trig, false), "Tsu1 Anchor")]
      [Tsu2Anchor := Anchor(LowerAnchorPosition(p, trig, true), "Tsu2 Anchor")]
      [Sa1Anchor := Anchor(LateralAnchorPosition(p, trig, false), "Sa1 Anchor")]
      [Sa2Anchor := Anchor(LateralAnchorPosition(p, trig, true), "Sa2 Anchor")]
  }

  // -------------------------------------------------------------- cables

  /** A freshly built cable: no force entered yet and a load cell assumed. */
  function NewCable(start: string, end: string, kind: string, name: string, color: string,
                    startCoords: Point, endCoords: Point): Cable
  {
    Cable(start, end, kind, name, 0.0, Some(true), color, startCoords, endCoords, None)
  }

  /** Retention cable `rhsk`: for `k <= N` it ties support `sk` to anchor `vk`,
      for `k > N` support `s(k-N)` to anchor `v(k-N+1)`. */
  function RetentionCable(p: Params, trig: Trig, k: nat): Cable
    requires 1 <= k <= 2 * p.numSupports
  {
    var s: nat := if k <= p.numSupports then k else k - p.numSupports;
    var v: nat := if k <= p.numSupports then k else k - p.numSupports + 1;
    NewCable(SupportId(s), RetentionAnchorId(v), "rhs", "Rhs " + NatToString(k), "green",
             SupportAt(p, trig, s - 1).top, RetentionAnchorAt(p, trig, v - 1).position)
  }

  /** The cable dictionary after `k` retention cables. */
  function RetentionCablesUpTo(p: Params, trig: Trig, k: nat): map<string, Cable>
    requires k <= 2 * p.numSupports
  {
    if k == 0 then map[]
    else RetentionCablesUpTo(p, trig, k - 1)[RetentionCableId(k) := RetentionCable(p, trig, k)]
  }

  /** The cable dictionary after the retention cables and the four support cables. */
  function SupportCables(p: Params, trig: Trig): map<string, Cable>
    requires 1 <= p.numSupports
  {
    var n := p.numSupports;
    var first := SupportAt(p, trig, 0).top;
    var last := SupportAt(p, trig, n - 1).top;
    RetentionCablesUpTo(p, trig, 2 * n)
      ["tsoS1" := NewCable(SupportId(1), Tso1Anchor, "tso", "Tso S1", "red",
                           first, UpperAnchorPosition(p, trig, false))]
      ["tsoS4" := NewCable(SupportId(n), Tso2Anchor, "tso", "Tso S" + NatToString(n), "red",
                           last, UpperAnchorPosition(p, trig, true))]
      ["tsuS1" := NewCable(SupportId(1), Tsu1Anchor, "tsu", "Tsu S1", "red",
                           first, LowerAnchorPosition(p, trig, false))]
      ["tsuS4" := NewCable(SupportId(n), Tsu2Anchor, "tsu", "Tsu S" + NatToString(n), "red",
                           last, LowerAnchorPosition(p, trig, true))]
  }

  /** Catching cable `faSk` chains the tops of supports `sk` and `s(k+1)`. */
  function CatchingCable(p: Params, trig: Trig, k: nat): Cable
    requires 1 <= k < p.numSupports
  {
    NewCable(SupportId(k), SupportId(k + 1), "zw", "Zw S" + NatToString(k), "gold",
             SupportAt(p, trig, k - 1).top, SupportAt(p, trig, k).top)
  }

  /** The cable dictionary after `k` catching cables. */
  function CatchingCablesUpTo(p: Params, trig: Trig, k: nat): map<string, Cable>
    requires 1 <= p.numSupports && k < p.numSupports
  {
    if k == 0 then SupportCables(p, trig)
    else CatchingCablesUpTo(p, trig, k - 1)[CatchingCableId(k) := CatchingCable(p, trig, k)]
  }

  /** The complete cable dictionary. */
  function Cables(p: Params, trig: Trig): map<string, Cable>
    requires 1 <= p.numSupports
  {
    var n := p.numSupports;
    CatchingCablesUpTo(p, trig, n - 1)
      ["sa1" := NewCable(SupportId(1), Sa1Anchor, "sa", "Sa 1", "blue",
                         SupportAt(p, trig, 0).top, LateralAnchorPosition(p, trig, false))]
      ["sa2" := NewCable(SupportId(n), Sa2Anchor, "sa", "Sa 2", "blue",
                         SupportAt(p, trig, n - 1).top, LateralAnchorPosition(p, trig, true))]
  }

  /** The configuration the builder returns for `p`. */
  function Coordinates(p: Params, trig: Trig): BarrierConfig
    requires 1 <= p.numSupports
  {
    BarrierConfig(SupportsUpTo(p, trig, p.numSupports), Anchors(p, trig), Cables(p, trig), p)
  }

  // ------------------------------------------------------- lookup lemmas

  lemma {:induction false} SupportsUpToContents(p: Params, trig: Trig, k: nat)
    ensures SupportsUpTo(p, trig, k).Keys == Numbered("s", k)
  {
    if k == 0 {
      assert Numbered("s", 0) == {};
    } else {
      SupportsUpToContents(p, trig, k - 1);
      NumberedStep("s", k);
    }
  }

  /** Support `sj` is the one built in iteration `j - 1`, and later
      iterations leave it alone. */
  lemma {:induction false} SupportsUpToLookup(p: Params, trig: Trig, k: nat, j: nat)
    requires 1 <= j <= k
    ensures SupportId(j) in SupportsUpTo(p, trig, k)
    ensures SupportsUpTo(p, trig, k)[SupportId(j)] == SupportAt(p, trig, j - 1)
  {
    if j < k {
      SupportsUpToLookup(p, trig, k - 1, j);
      PrefixedInjective("s", j, k);
    }
  }

  lemma {:induction false} RetentionAnchorsUpToContents(p: Params, trig: Trig, k: nat)
    ensures RetentionAnchorsUpTo(p, trig, k).Keys == Numbered("v", k)
  {
    if k == 0 {
      assert Numbered("v", 0) == {};
    } else {
      RetentionAnchorsUpToContents(p, trig, k - 1);
      NumberedStep("v", k);
    }
  }

  lemma {:induction false} RetentionAnchorsUpToLookup(p: Params, trig: Trig, k: nat, j: nat)
    requires 1 <= j <= k
    ensures RetentionAnchorId(j) in RetentionAnchorsUpTo(p, trig, k)
    ensures RetentionAnchorsUpTo(p, trig, k)[RetentionAnchorId(j)] == RetentionAnchorAt(p, trig, j - 1)
  {
    if j < k {
      RetentionAnchorsUpToLookup(p, trig, k - 1, j);
      PrefixedInjective("v", j, k);
    }
  }

  /** No auxiliary anchor id has the shape `v<digits>`. */
  lemma AuxiliaryAnchorIdsNotRetention(k: nat)
    ensures AuxiliaryAnchorIds !! Numbered("v", k)
  {
    forall id | id in Numbered("v", k) ensures id !in AuxiliaryAnchorIds {
      NumberedShape("v", k, id);
      assert id[0] == 'v';
    }
  }

  lemma AnchorsKeys(p: Params, trig: Trig)
    requires 1 <= p.numSupports
    ensures Anchors(p, trig).Keys == Numbered("v", p.numSupports + 1) + AuxiliaryAnchorIds
  {
    RetentionAnchorsUpToContents(p, trig, p.numSupports + 1);
  }

  /** Anchor `vk` of the complete dictionary is the retention anchor of iteration `k - 1`. */
  lemma RetentionAnchorLookup(p: Params, trig: Trig, k: nat)
    requires 1 <= p.numSupports && 1 <= k <= p.numSupports + 1
    ensures RetentionAnchorId(k) in Anchors(p, trig)
    ensures Anchors(p, trig)[RetentionAnchorId(k)] == RetentionAnchorAt(p, trig, k - 1)
  {
    RetentionAnchorsUpToLookup(p, trig, p.numSupports + 1, k);
    assert RetentionAnchorId(k)[0] == 'v';
  }

  // ------------------------------------------------------------- builder
  // The builder fills its three dictionaries in the order below; each phase
  // is a method proved equal to the function that specifies its result.
  // The per-iteration methods (`SupportOf`, `RetentionAnchor`, ...) and
  // `BuildAnchors` compute with the source's own statements and are kept
  // apart from their loops so that each loop's proof stays small.

  /** One iteration of the support loop: the support's foot on the terrain
      and its top, tilted by `phi` across and `epsilon` along the line. */
  method SupportOf(p: Params, trig: Trig, i: nat) returns (support: Support)
    ensures support == SupportAt(p, trig, i)
  {
    var phi := DegToRad(p.phi);
    var epsilon := DegToRad(p.epsilon);
    var x := 0.0;
    var y := i as real * p.d;
    var z := TerrainHeight(trig, phi, x);
    var topX := x - p.L * trig.sin(phi) * trig.cos(epsilon) + p.L * trig.cos(phi) * trig.sin(epsilon);
    var topZ := z + p.L * trig.cos(phi) * trig.cos(epsilon) + p.L * trig.sin(phi) * trig.sin(epsilon);
    support := Support(Point(x, y, z), Point(topX, y, topZ), p.L, "S" + NatToString(i + 1));
  }

  /** The support loop. */
  method BuildSupports(p: Params, trig: Trig) returns (supports: map<string, Support>)
    requires 1 <= p.numSupports
    ensures supports == SupportsUpTo(p, trig, p.numSupports)
  {
    supports := map[];
    for i := 0 to p.numSupports
      invariant supports == SupportsUpTo(p, trig, i)
    {
      var support := SupportOf(p, trig, i);
      supports := supports[SupportId(i + 1) := support];
    }
  }

  /** One iteration of the retention-anchor loop: the first and the last
      anchor lie `b` beyond the end supports, the others beside a support. */
  method RetentionAnchor(p: Params, trig: Trig, i: nat) returns (anchor: Anchor)
    requires i <= p.numSupports
    ensures anchor == RetentionAnchorAt(p, trig, i)
  {
    var n := p.numSupports;
    var totalLength := (n - 1) as real * p.d;
    var x, y;
    if i == 0 {
      x, y := p.a / 2.0, -p.b;
    } else if i == n {
      x, y := p.a / 2.0, totalLength + p.b;
    } else {
      x, y := p.a / 2.0, (i - 1) as real * p.d;
    }
    var z := TerrainHeight(trig, DegToRad(p.phi), x);
    anchor := Anchor(Point(x, y, z + p.h), "V" + NatToString(i + 1));
  }

  /** The retention-anchor loop: anchors `v1 .. v(N+1)`. */
  method BuildRetentionAnchors(p: Params, trig: Trig) returns (anchors: map<string, Anchor>)
    requires 1 <= p.numSupports
    ensures anchors == RetentionAnchorsUpTo(p, trig, p.numSupports + 1)
  {
    anchors := map[];
    for i := 0 to p.numSupports + 1
      invariant anchors == RetentionAnchorsUpTo(p, trig, i)
    {
      var anchor := RetentionAnchor(p, trig, i);
      anchors := anchors[RetentionAnchorId(i + 1) := anchor];
    }
  }

  /** The retention anchors followed by the six auxiliary anchors. */
  method BuildAnchors(p: Params, trig: Trig) returns (anchors: map<string, Anchor>)
    requires 1 <= p.numSupports
    ensures anchors == Anchors(p, trig)
  {
    var phi := DegToRad(p.phi);
    var totalLength := (p.numSupports - 1) as real * p.d;
    anchors := BuildRetentionAnchors(p, trig);
    assert TotalLength(p) == totalLength && EndY(p, true) == totalLength + p.b && EndY(p, false) == -p.b;
    anchors := anchors[Tso1Anchor := Anchor(Point(p.b, -p.b, TerrainHeight(trig, phi, p.b)), "Tso1 Anchor")];
    anchors := anchors[Tso2Anchor := Anchor(Point(p.b, totalLength + p.b, TerrainHeight(trig, phi, p.b)), "Tso2 Anchor")];
    anchors := anchors[Tsu1Anchor := Anchor(Point(-p.b, -p.b, TerrainHeight(trig, phi, -p.b)), "Tsu1 Anchor")];
    anchors := anchors[Tsu2Anchor := Anchor(Point(-p.b, totalLength + p.b, TerrainHeight(trig, phi, -p.b)), "Tsu2 Anchor")];
    anchors := anchors[Sa1Anchor := Anchor(Point(0.0, -p.b, TerrainHeight(trig, phi, 0.0) - p.h / 2.0), "Sa1 Anchor")];
    anchors := anchors[Sa2Anchor := Anchor(Point(0.0, totalLength + p.b, TerrainHeight(trig, phi, 0.0) - p.h / 2.0), "Sa2 Anchor")];
  }

  /** The first retention-cable loop: `rhs(i+1)` from `s(i+1)` to `v(i+1)`. */
  method BuildNearRetentionCables(p: Params, trig: Trig, supports: map<string, Support>, anchors: map<string, Anchor>)
    returns (cables: map<string, Cable>)
    requires 1 <= p.numSupports
    requires supports == SupportsUpTo(p, trig, p.numSupports) && anchors == Anchors(p, trig)
    ensures cables == RetentionCablesUpTo(p, trig, p.numSupports)
  {
    var n := p.numSupports;
    assert RetentionAnchorId(1) == "v1";
    cables := map[];
    for i := 0 to n
      invariant cables == RetentionCablesUpTo(p, trig, i)
    {
      var supportId := SupportId(i + 1);
      var anchorId := if i == 0 then "v1" else RetentionAnchorId(i + 1);
      assert anchorId == RetentionAnchorId(i + 1);
      SupportsUpToLookup(p, trig, n, i + 1);
      RetentionAnchorLookup(p, trig, i + 1);
      var cable := Cable(supportId, anchorId, "rhs", "Rhs " + NatToString(i + 1), 0.0, Some(true), "green",
                         supports[supportId].top, anchors[anchorId].position, None);
      assert cable == RetentionCable(p, trig, i + 1);
      cables := cables[RetentionCableId(i + 1) := cable];
    }
  }

  /** One iteration of the second retention-cable loop: the cable from
      `s(i+1)` to the next anchor `v(i+2)`. */
  method FarRetentionCable(p: Params, trig: Trig, supports: map<string, Support>, anchors: map<string, Anchor>, i: nat)
    returns (cable: Cable)
    requires i < p.numSupports
    requires supports == SupportsUpTo(p, trig, p.numSupports) && anchors == Anchors(p, trig)
    ensures cable == RetentionCable(p, trig, p.numSupports + i + 1)
  {
    var n := p.numSupports;
    var supportId := SupportId(i + 1);
    var anchorId := if i == n - 1 then RetentionAnchorId(n + 1) else RetentionAnchorId(i + 2);
    SupportsUpToLookup(p, trig, n, i + 1);
    RetentionAnchorLookup(p, trig, i + 2);
    cable := Cable(supportId, anchorId, "rhs", "Rhs " + NatToString(n + i + 1), 0.0, Some(true), "green",
                   supports[supportId].top, anchors[anchorId].position, None);
  }

  /** The second retention-cable loop: `rhs(N+i+1)` from `s(i+1)` to `v(i+2)`. */
  method BuildFarRetentionCables(p: Params, trig: Trig, supports: map<string, Support>, anchors: map<string, Anchor>,
                                 near: map<string, Cable>)
    returns (cables: map<string, Cable>)
    requires 1 <= p.numSupports
    requires supports == SupportsUpTo(p, trig, p.numSupports) && anchors == Anchors(p, trig)
    requires near == RetentionCablesUpTo(p, trig, p.numSupports)
    ensures cables == RetentionCablesUpTo(p, trig, 2 * p.numSupports)
  {
    var n := p.numSupports;
    cables := near;
    for i := 0 to n
      invariant cables == RetentionCablesUpTo(p, trig, n + i)
    {
      var cable := FarRetentionCable(p, trig, supports, anchors, i);
      cables := cables[RetentionCableId(n + i + 1) := cable];
    }
  }

  /** The upper (`tso`) and lower (`tsu`) support cables at both ends. */
  method AddSupportCables(p: Params, trig: Trig, supports: map<string, Support>, anchors: map<string, Anchor>,
                          retention: map<string, Cable>)
    returns (cables: map<string, Cable>)
    requires 1 <= p.numSupports
    requires supports == SupportsUpTo(p, trig, p.numSupports) && anchors == Anchors(p, trig)
    requires retention == RetentionCablesUpTo(p, trig, 2 * p.numSupports)
    ensures cables == SupportCables(p, trig)
  {
    var n := p.numSupports;
    SupportsUpToLookup(p, trig, n, 1);
    SupportsUpToLookup(p, trig, n, n);
    var first, last := SupportId(1), SupportId(n);
    cables := retention;
    cables := cables["tsoS1" := Cable(first, Tso1Anchor, "tso", "Tso S1", 0.0, Some(true), "red",
                                     supports[first].top, anchors[Tso1Anchor].position, None)];
    cables := cables["tsoS4" := Cable(last, Tso2Anchor, "tso", "Tso S" + NatToString(n), 0.0, Some(true), "red",
                                     supports[last].top, anchors[Tso2Anchor].position, None)];
    cables := cables["tsuS1" := Cable(first, Tsu1Anchor, "tsu", "Tsu S1", 0.0, Some(true), "red",
                                     supports[first].top, anchors[Tsu1Anchor].position, None)];
    cables := cables["tsuS4" := Cable(last, Tsu2Anchor, "tsu", "Tsu S" + NatToString(n), 0.0, Some(true), "red",
                                     supports[last].top, anchors[Tsu2Anchor].position, None)];
  }

  /** One iteration of the catching-cable loop: the `zw` cable between the
      tops of supports `s(i+1)` and `s(i+2)`. */
  method CatchingCableOf(p: Params, trig: Trig, supports: map<string, Support>, i: nat) returns (cable: Cable)
    requires i + 1 < p.numSupports
    requires supports == SupportsUpTo(p, trig, p.numSupports)
    ensures cable == CatchingCable(p, trig, i + 1)
  {
    var startId, endId := SupportId(i + 1), SupportId(i + 2);
    SupportsUpToLookup(p, trig, p.numSupports, i + 1);
    SupportsUpToLookup(p, trig, p.numSupports, i + 2);
    cable := Cable(startId, endId, "zw", "Zw S" + NatToString(i + 1), 0.0, Some(true), "gold",
                   supports[startId].top, supports[endId].top, None);
  }

  /** The catching-cable loop: `faS(i+1)` from `s(i+1)` to `s(i+2)`. */
  method AddCatchingCables(p: Params, trig: Trig, supports: map<string, Support>, supportCables: map<string, Cable>)
    returns (cables: map<string, Cable>)
    requires 1 <= p.numSupports
    requires supports == SupportsUpTo(p, trig, p.numSupports)
    requires supportCables == SupportCables(p, trig)
    ensures cables == CatchingCablesUpTo(p, trig, p.numSupports - 1)
  {
    cables := supportCables;
    for i := 0 to p.numSupports - 1
      invariant cables == CatchingCablesUpTo(p, trig, i)
    {
      var cable := CatchingCableOf(p, trig, supports, i);
      cables := cables[CatchingCableId(i + 1) := cable];
    }
  }

  /** The two lateral bracing cables, from the end supports to the lateral anchors. */
  method AddLateralCables(p: Params, trig: Trig, supports: map<string, Support>,
                          anchors: map<string, Anchor>, catching: map<string, Cable>)
    returns (cables: map<string, Cable>)
    requires 1 <= p.numSupports
    requires supports == SupportsUpTo(p, trig, p.numSupports) && anchors == Anchors(p, trig)
    requires catching == CatchingCablesUpTo(p, trig, p.numSupports - 1)
    ensures cables == Cables(p, trig)
  {
    var n := p.numSupports;
    SupportsUpToLookup(p, trig, n, 1);
    SupportsUpToLookup(p, trig, n, n);
    var first, last := SupportId(1), SupportId(n);
    cables := catching;
    cables := cables["sa1" := Cable(first, Sa1Anchor, "sa", "Sa 1", 0.0, Some(true), "blue",
                                   supports[first].top, anchors[Sa1Anchor].position, None)];
    cables := cables["sa2" := Cable(last, Sa2Anchor, "sa", "Sa 2", 0.0, Some(true), "blue",
                                   supports[last].top, anchors[Sa2Anchor].position, None)];
  }

  /** Builds the configuration as the source does; the result is exactly
      `Coordinates(p, trig)`, whose properties are proved in `GeometryProperties`.
      The intermediate-cable flags `hasDelta1`/`hasDelta2` add nothing, and
      `p` itself is stored unchanged. */
  method Calculate3dCoordinates(p: Params, trig: Trig) returns (config: BarrierConfig)
    requires 1 <= p.numSupports
    ensures config == Coordinates(p, trig)
  {
    var supports := BuildSupports(p, trig);
    var anchors := BuildAnchors(p, trig);
    var cables := BuildNearRetentionCables(p, trig, supports, anchors);
    cables := BuildFarRetentionCables(p, trig, supports, anchors, cables);
    cables := AddSupportCables(p, trig, supports, anchors, cables);
    cables := AddCatchingCables(p, trig, supports, cables);
    cables := AddLateralCables(p, trig, supports, anchors, cables);
    config := BarrierConfig(supports, anchors, cables, p);
  }
}
