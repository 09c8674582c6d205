/** What the force aggregator guarantees: which keys it returns, which
    cables it ignores, and what the two totals add up. */
module ForcesProperties {
  import opened Wrappers
  import opened Sums
  import opened Barrier
  import opened Forces

  /** The result has one entry per anchor and per support, and the two totals. */
  lemma ForcesKeys(config: BarrierConfig)
    ensures ForcesOf(config).Keys ==
      config.anchors.Keys + config.supports.Keys + {TotalAnchorForceKey, TotalSupportForceKey}
  {
  }

  /** A cable that adds nothing: it is not counted, or neither of its ends
      is an anchor or a support. */
  predicate Inert(config: BarrierConfig, cable: Cable) {
    !Counted(cable) || (AnchorEnd(config, cable) == None && SupportEnd(config, cable) == None)
  }

  lemma InertReceivesNothing(config: BarrierConfig, id: string, k: string)
    requires id in config.cables && Inert(config, config.cables[id])
    ensures Indicator(AnchorTarget(config), Force(config), k)(id) == 0.0
    ensures Indicator(SupportTarget(config), Force(config), k)(id) == 0.0
  {
  }

  /** The other cables aim and weigh the same once one cable is removed. */
  lemma IndicatorWithout(config: BarrierConfig, id: string, k: string, c: string)
    requires c != id
    ensures Indicator(AnchorTarget(config), Force(config), k)(c) ==
            Indicator(AnchorTarget(config.(cables := config.cables - {id})), Force(config.(cables := config.cables - {id})), k)(c)
    ensures Indicator(SupportTarget(config), Force(config), k)(c) ==
            Indicator(SupportTarget(config.(cables := config.cables - {id})), Force(config.(cables := config.cables - {id})), k)(c)
  {
  }

  /** Without one cable, every node receives what it received from the others. */
  lemma ReceivedWithout(config: BarrierConfig, id: string, k: string)
    requires id in config.cables && Inert(config, config.cables[id])
    ensures Received(config.(cables := config.cables - {id}), config.cables.Keys - {id}, k) ==
            Received(config, config.cables.Keys, k)
  {
    var rest := config.(cables := config.cables - {id});
    var others := config.cables.Keys - {id};
    var anchorShare, supportShare := Indicator(AnchorTarget(config), Force(config), k), Indicator(SupportTarget(config), Force(config), k);
    var anchorShare', supportShare' := Indicator(AnchorTarget(rest), Force(rest), k), Indicator(SupportTarget(rest), Force(rest), k);
    InertReceivesNothing(config, id, k);
    SetSumRemove(config.cables.Keys, anchorShare, id);
    SetSumRemove(config.cables.Keys, supportShare, id);
    forall c | c in others ensures anchorShare(c) == anchorShare'(c) && supportShare(c) == supportShare'(c) {
      IndicatorWithout(config, id, k, c);
    }
    SetSumCongruence(others, anchorShare, anchorShare');
    SetSumCongruence(others, supportShare, supportShare');
  }

  /** Removing a skipped cable, or one whose ends are neither anchors nor
      supports, changes nothing in the result. */
  lemma InertCableIgnored(config: BarrierConfig, id: string)
    requires id in config.cables && Inert(config, config.cables[id])
    ensures ForcesOf(config.(cables := config.cables - {id})) == ForcesOf(config)
  {
    var rest := config.(cables := config.cables - {id});
    assert rest.cables.Keys == config.cables.Keys - {id};
    forall k | k in Buckets(config) ensures Buckets(rest)[k] == Buckets(config)[k] {
      ReceivedWithout(config, id, k);
    }
    assert Buckets(rest) == Buckets(config);
    assert RetentionAnchorIds(rest) == RetentionAnchorIds(config);
  }

  /** With no counted cable, every anchor, every support and both totals are zero. */
  lemma NoCountedCableNoForce(config: BarrierConfig)
    requires forall id :: id in config.cables ==> !Counted(config.cables[id])
    ensures forall k :: k in ForcesOf(config) ==> ForcesOf(config)[k] == 0.0
  {
    var buckets := Buckets(config);
    forall k | k in buckets ensures buckets[k] == 0.0 {
      SetSumZero(config.cables.Keys, Indicator(AnchorTarget(config), Force(config), k));
      SetSumZero(config.cables.Keys, Indicator(SupportTarget(config), Force(config), k));
    }
    SetSumZero(RetentionAnchorIds(config), ValueOr(buckets));
    var withAnchorTotal := buckets[TotalAnchorForceKey := SetSum(RetentionAnchorIds(config), ValueOr(buckets))];
    SetSumZero(config.supports.Keys, ValueOr(withAnchorTotal));
  }

  /** The bucket of an anchor holds only anchor shares when no id is both
      an anchor and a support. */
  lemma AnchorBucket(config: BarrierConfig, k: string)
    requires config.anchors.Keys !! config.supports.Keys && k in config.anchors
    ensures ValueOr(Buckets(config))(k) == Column(config.cables.Keys, AnchorTarget(config), Force(config))(k)
  {
    SetSumZero(config.cables.Keys, Indicator(SupportTarget(config), Force(config), k));
  }

  lemma SupportBucket(config: BarrierConfig, k: string)
    requires config.anchors.Keys !! config.supports.Keys && k in config.supports
    ensures ValueOr(Buckets(config))(k) == Column(config.cables.Keys, SupportTarget(config), Force(config))(k)
  {
    SetSumZero(config.cables.Keys, Indicator(AnchorTarget(config), Force(config), k));
  }

  /** Each counted cable loads at most one anchor: the buckets of any set of
      anchors hold together the forces of the counted cables aimed into it. */
  lemma AnchorBucketsSum(config: BarrierConfig, keys: set<string>)
    requires config.anchors.Keys !! config.supports.Keys && keys <= config.anchors.Keys
    ensures SetSum(keys, ValueOr(Buckets(config))) ==
            SetSum(config.cables.Keys, Hits(keys, AnchorTarget(config), Force(config)))
  {
    forall k | k in keys
      ensures ValueOr(Buckets(config))(k) == Column(config.cables.Keys, AnchorTarget(config), Force(config))(k)
    {
      AnchorBucket(config, k);
    }
    SetSumCongruence(keys, ValueOr(Buckets(config)), Column(config.cables.Keys, AnchorTarget(config), Force(config)));
    Exchange(config.cables.Keys, keys, AnchorTarget(config), Force(config));
  }

  /** Each counted cable loads at most one support, in the same sense. */
  lemma SupportBucketsSum(config: BarrierConfig, keys: set<string>)
    requires config.anchors.Keys !! config.supports.Keys && keys <= config.supports.Keys
    ensures SetSum(keys, ValueOr(Buckets(config))) ==
            SetSum(config.cables.Keys, Hits(keys, SupportTarget(config), Force(config)))
  {
    forall k | k in keys
      ensures ValueOr(Buckets(config))(k) == Column(config.cables.Keys, SupportTarget(config), Force(config))(k)
    {
      SupportBucket(config, k);
    }
    SetSumCongruence(keys, ValueOr(Buckets(config)), Column(config.cables.Keys, SupportTarget(config), Force(config)));
    Exchange(config.cables.Keys, keys, SupportTarget(config), Force(config));
  }

  /** The anchor total is the force of the counted cables whose loaded
      anchor has an id starting with `v`; auxiliary anchors are left out. */
  lemma TotalAnchorForce(config: BarrierConfig)
    requires config.anchors.Keys !! config.supports.Keys
    ensures ForcesOf(config)[TotalAnchorForceKey] ==
            SetSum(config.cables.Keys, Hits(RetentionAnchorIds(config), AnchorTarget(config), Force(config)))
  {
    AnchorBucketsSum(config, RetentionAnchorIds(config));
  }

  /** A configuration whose cables all start at a support, where no id is
      both an anchor and a support, and no support is named like the anchor total. */
  predicate Connected(config: BarrierConfig) {
    && config.anchors.Keys !! config.supports.Keys
    && TotalAnchorForceKey !in config.supports
    && forall id :: id in config.cables ==> config.cables[id].start in config.supports
  }

  /** On a connected configuration every counted cable loads its start support. */
  lemma SupportHitIsCounted(config: BarrierConfig, c: string)
    requires Connected(config)
    ensures Hits(config.supports.Keys, SupportTarget(config), Force(config))(c) == CountedForce(config)(c)
  {
  }

  /** The support total sums the support buckets, unless a support is named
      like the anchor total. */
  lemma SupportTotalOfBuckets(config: BarrierConfig)
    requires TotalAnchorForceKey !in config.supports
    ensures ForcesOf(config)[TotalSupportForceKey] == SetSum(config.supports.Keys, ValueOr(Buckets(config)))
  {
    var buckets := Buckets(config);
    var withAnchorTotal := buckets[TotalAnchorForceKey := SetSum(RetentionAnchorIds(config), ValueOr(buckets))];
    forall s | s in config.supports.Keys ensures ValueOr(withAnchorTotal)(s) == ValueOr(buckets)(s) {
    }
    SetSumCongruence(config.supports.Keys, ValueOr(withAnchorTotal), ValueOr(buckets));
  }

  /** On a connected configuration the support total is the sum of the
      forces of all counted cables. */
  lemma TotalSupportForce(config: BarrierConfig)
    requires Connected(config)
    ensures ForcesOf(config)[TotalSupportForceKey] == SetSum(config.cables.Keys, CountedForce(config))
  {
    var supports := config.supports.Keys;
    SupportTotalOfBuckets(config);
    SupportBucketsSum(config, supports);
    forall c | c in config.cables.Keys
      ensures Hits(supports, SupportTarget(config), Force(config))(c) == CountedForce(config)(c)
    {
      SupportHitIsCounted(config, c);
    }
    SetSumCongruence(config.cables.Keys, Hits(supports, SupportTarget(config), Force(config)), CountedForce(config));
  }

  /** Outside the two totals, the result holds each node's bucket. */
  lemma ForcesOfNode(config: BarrierConfig, k: string)
    requires k in config.anchors.Keys + config.supports.Keys && k !in {TotalAnchorForceKey, TotalSupportForceKey}
    ensures k in ForcesOf(config) && ForcesOf(config)[k] == Received(config, config.cables.Keys, k)
  {
  }

  /** What a node receives from a single counted cable: its force if the
      node is the cable's anchor end or its support end. */
  lemma SingleCableReceived(config: BarrierConfig, id: string, k: string)
    requires config.cables.Keys == {id} && Counted(config.cables[id])
    ensures Received(config, config.cables.Keys, k) ==
      Share(AnchorEnd(config, config.cables[id]), config.cables[id].force, k) +
      Share(SupportEnd(config, config.cables[id]), config.cables[id].force, k)
  {
    SetSumSingleton(id, Indicator(AnchorTarget(config), Force(config), k));
    SetSumSingleton(id, Indicator(SupportTarget(config), Force(config), k));
  }

  /** The support total for a single counted cable. */
  lemma SingleCableSupportTotal(config: BarrierConfig, id: string)
    requires config.cables.Keys == {id} && Counted(config.cables[id]) && Connected(config)
    ensures ForcesOf(config)[TotalSupportForceKey] == config.cables[id].force
  {
    TotalSupportForce(config);
    SetSumSingleton(id, CountedForce(config));
  }

  /** The anchor total for a single counted cable ending at an anchor. */
  lemma SingleCableAnchorTotal(config: BarrierConfig, id: string)
    requires config.cables.Keys == {id} && Counted(config.cables[id]) && Connected(config)
    requires config.cables[id].end in config.anchors
    ensures ForcesOf(config)[TotalAnchorForceKey] ==
            if IsRetentionAnchorId(config.cables[id].end) then config.cables[id].force else 0.0
  {
    var cable := config.cables[id];
    var hits := Hits(RetentionAnchorIds(config), AnchorTarget(config), Force(config));
    TotalAnchorForce(config);
    SetSumSingleton(id, hits);
    assert AnchorTarget(config)(id) == Some(cable.end);
    assert cable.end in RetentionAnchorIds(config) <==> IsRetentionAnchorId(cable.end);
  }

  /** A single counted cable from a support to an anchor: the support, the
      anchor and the support total each receive its force, and the anchor
      total does when the anchor is a `v` anchor. */
  lemma SingleCountedCable(config: BarrierConfig, id: string)
    requires config.cables.Keys == {id} && Counted(config.cables[id])
    requires Connected(config) && config.cables[id].end in config.anchors
    requires config.cables[id].start != TotalSupportForceKey
    requires config.cables[id].end !in {TotalAnchorForceKey, TotalSupportForceKey}
    ensures ForcesOf(config)[config.cables[id].start] == config.cables[id].force
    ensures ForcesOf(config)[config.cables[id].end] == config.cables[id].force
    ensures ForcesOf(config)[TotalSupportForceKey] == config.cables[id].force
    ensures ForcesOf(config)[TotalAnchorForceKey] ==
            if IsRetentionAnchorId(config.cables[id].end) then config.cables[id].force else 0.0
  {
    var cable := config.cables[id];
    assert AnchorEnd(config, cable) == Some(cable.end);
    assert SupportEnd(config, cable) == Some(cable.start);
    ForcesOfNode(config, cable.start);
    SingleCableReceived(config, id, cable.start);
    ForcesOfNode(config, cable.end);
    SingleCableReceived(config, id, cable.end);
    SingleCableSupportTotal(config, id);
    SingleCableAnchorTotal(config, id);
  }
}
