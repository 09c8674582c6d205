/** What the classification pass and the rebuild guarantee, alone and
    together with the geometry builder and the force aggregator. */
module AnalyzerProperties {
  import opened Wrappers
  import opened Sums
  import opened Barrier
  import opened Geometry
  import opened GeometryProperties
  import opened Forces
  import opened ForcesProperties
  import opened Analyzer

  /** Two cable entries that differ at most in their load-cell flags. */
  predicate SameExceptFlags(a: Cable, b: Cable) {
    a.(canHaveLoadCell := None, hasLoadCell := None) == b.(canHaveLoadCell := None, hasLoadCell := None)
  }

  /** The pass adds or removes no cable, touches neither supports, anchors
      nor parameters, and changes no cable field but the two flags. */
  lemma ClassifyKeepsTopology(config: BarrierConfig)
    ensures Classify(config).supports == config.supports
    ensures Classify(config).anchors == config.anchors
    ensures Classify(config).params == config.params
    ensures Classify(config).cables.Keys == config.cables.Keys
    ensures forall id :: id in config.cables ==> SameExceptFlags(Classify(config).cables[id], config.cables[id])
  {
  }

  /** An anchor-connected cable may carry a load cell and keeps its flag and
      force; any other cable is marked as unable to carry one and loses it. */
  lemma ClassifiedFlags(config: BarrierConfig, id: string)
    requires id in config.cables
    ensures AnchorConnected(config, config.cables[id]) ==>
      Classify(config).cables[id].canHaveLoadCell == Some(true) &&
      Classify(config).cables[id].hasLoadCell == config.cables[id].hasLoadCell &&
      Classify(config).cables[id].force == config.cables[id].force
    ensures !AnchorConnected(config, config.cables[id]) ==>
      Classify(config).cables[id].canHaveLoadCell == Some(false) &&
      Classify(config).cables[id].hasLoadCell == Some(false)
  {
  }

  /** Classifying twice is classifying once. */
  lemma ClassifyIdempotent(config: BarrierConfig)
    ensures Classify(Classify(config)) == Classify(config)
  {
    var once := Classify(config);
    forall id | id in once.cables ensures Classify(once).cables[id] == once.cables[id] {
      assert AnchorConnected(once, once.cables[id]) == AnchorConnected(config, config.cables[id]);
    }
  }

  /** After the pass a cable without an anchor end is not counted by the
      aggregator, so removing it changes no force. */
  lemma UnanchoredCableCarriesNoForce(config: BarrierConfig, id: string)
    requires id in config.cables && !AnchorConnected(config, config.cables[id])
    ensures !Counted(Classify(config).cables[id])
    ensures ForcesOf(Classify(config).(cables := Classify(config).cables - {id})) == ForcesOf(Classify(config))
  {
    InertCableIgnored(Classify(config), id);
  }

  // ------------------------------------------------- on a built barrier

  /** A built barrier is connected: its cables start at supports, no id is
      both a support and an anchor, and no support is named like a total. */
  lemma BuiltBarrierConnected(p: Params, trig: Trig)
    requires 1 <= p.numSupports
    ensures Connected(Coordinates(p, trig))
  {
    SupportsAnchorsDisjoint(p, trig);
    SupportsUpToContents(p, trig, p.numSupports);
    NotNumbered("s", p.numSupports, TotalAnchorForceKey);
    CablesWired(p, trig);
  }

  /** Classification keeps a configuration connected. */
  lemma ClassifyKeepsConnected(config: BarrierConfig)
    requires Connected(config)
    ensures Connected(Classify(config))
  {
    ClassifyKeepsTopology(config);
  }

  /** In a built barrier a cable has an anchor end exactly when it is not a
      catching (`zw`) cable. */
  lemma BuiltCableAnchoredIffNotCatching(p: Params, trig: Trig, id: string)
    requires 1 <= p.numSupports && id in Cables(p, trig)
    ensures AnchorConnected(Coordinates(p, trig), Cables(p, trig)[id]) <==> Cables(p, trig)[id].kind != "zw"
  {
    CableWired(p, trig, id);
    SupportsAnchorsDisjoint(p, trig);
  }

  /** On a built barrier the page offers every non-catching cable, under its
      own type, and never a catching cable. */
  lemma OfferedOnBuiltBarrier(p: Params, trig: Trig, id: string, kind: string)
    requires 1 <= p.numSupports
    ensures Offered(Coordinates(p, trig), id, kind) <==>
      id in Cables(p, trig) && Cables(p, trig)[id].kind == kind && kind in GroupKinds && kind != "zw"
  {
    if id in Cables(p, trig) {
      BuiltCableAnchoredIffNotCatching(p, trig, id);
    }
  }

  /** Catching cable `faSk` never counts once the pass has run. */
  lemma CatchingCableExcluded(p: Params, trig: Trig, k: nat)
    requires 1 <= k < p.numSupports
    ensures CatchingCableId(k) in Classify(Coordinates(p, trig)).cables
    ensures !Counted(Classify(Coordinates(p, trig)).cables[CatchingCableId(k)])
  {
    CatchingCableLookup(p, trig, k);
    CatchingCableEnds(p, trig, k);
    BuiltCableAnchoredIffNotCatching(p, trig, CatchingCableId(k));
  }

  /** A freshly built barrier: every cable has force `0.0` and a load cell,
      and the aggregator reports zero everywhere. */
  lemma FreshBarrierHasNoForces(p: Params, trig: Trig)
    requires 1 <= p.numSupports
    ensures forall id :: id in Cables(p, trig) ==>
      Cables(p, trig)[id].force == 0.0 && Cables(p, trig)[id].hasLoadCell == Some(true)
    ensures forall k :: k in ForcesOf(Coordinates(p, trig)) ==> ForcesOf(Coordinates(p, trig))[k] == 0.0
  {
    CablesWired(p, trig);
    NoCountedCableNoForce(Coordinates(p, trig));
  }

  /** After a parameter edit the session holds the build of the new
      parameters: whatever forces had been entered are gone. */
  lemma ParameterChangeResetsForces(session: AnalyzerSession, updated: Params, trig: Trig)
    requires 1 <= updated.numSupports && session.config == Coordinates(updated, trig)
    ensures forall id :: id in session.config.cables ==>
      session.config.cables[id].force == 0.0 && session.config.cables[id].hasLoadCell == Some(true)
    ensures forall k :: k in ForcesOf(session.config) ==> ForcesOf(session.config)[k] == 0.0
  {
    FreshBarrierHasNoForces(updated, trig);
  }

  /** Once forces are entered on a classified built barrier, the support
      total is the sum of the forces of the counted cables. */
  lemma ClassifiedBarrierSupportTotal(p: Params, trig: Trig, config: BarrierConfig)
    requires 1 <= p.numSupports
    requires config.supports == Coordinates(p, trig).supports && config.anchors == Coordinates(p, trig).anchors
    requires config.cables.Keys == Cables(p, trig).Keys
    requires forall id :: id in config.cables ==> config.cables[id].start == Cables(p, trig)[id].start
    ensures ForcesOf(Classify(config))[TotalSupportForceKey] ==
            SetSum(config.cables.Keys, CountedForce(Classify(config)))
  {
    BuiltBarrierConnected(p, trig);
    assert Connected(config);
    ClassifyKeepsConnected(config);
    TotalSupportForce(Classify(config));
    ClassifyKeepsTopology(config);
  }
}
