/** What the geometry builder guarantees about every configuration it
    returns: which ids exist and how many, where the supports and anchors
    are, which cable joins which endpoints, and what a fresh cable holds. */
module GeometryProperties {
  import opened Wrappers
  import opened Decimal
  import opened Barrier
  import opened Geometry

  // ------------------------------------------------------------ id shapes

  /** An id whose first character differs from the prefix's is not numbered by it. */
  lemma NotNumbered(prefix: string, k: nat, id: string)
    requires prefix != [] && (id == [] || id[0] != prefix[0])
    ensures id !in Numbered(prefix, k)
  {
    if id in Numbered(prefix, k) {
      NumberedShape(prefix, k, id);
    }
  }

  lemma FixedCableIdsCount()
    ensures |FixedCableIds| == 6
  {
    assert "tsoS1" != "tsoS4" && "tsuS1" != "tsuS4" && "sa1" != "sa2";
  }

  lemma AuxiliaryAnchorIdsCount()
    ensures |AuxiliaryAnchorIds| == 6
  {
    assert Tso1Anchor[2] != Tsu1Anchor[2] && Tso1Anchor[3] != Tso2Anchor[3];
    assert Tsu1Anchor[3] != Tsu2Anchor[3] && Sa1Anchor[2] != Sa2Anchor[2];
  }

  // ------------------------------------------------------ cable contents

  lemma {:induction false} RetentionCablesUpToKeys(p: Params, trig: Trig, k: nat)
    requires k <= 2 * p.numSupports
    ensures RetentionCablesUpTo(p, trig, k).Keys == Numbered("rhs", k)
  {
    if k == 0 {
      assert Numbered("rhs", 0) == {};
    } else {
      RetentionCablesUpToKeys(p, trig, k - 1);
      NumberedStep("rhs", k);
    }
  }

  lemma {:induction false} RetentionCablesUpToLookup(p: Params, trig: Trig, k: nat, j: nat)
    requires 1 <= j <= k <= 2 * p.numSupports
    ensures RetentionCableId(j) in RetentionCablesUpTo(p, trig, k)
    ensures RetentionCablesUpTo(p, trig, k)[RetentionCableId(j)] == RetentionCable(p, trig, j)
  {
    if j < k {
      RetentionCablesUpToLookup(p, trig, k - 1, j);
      PrefixedInjective("rhs", j, k);
    }
  }

  lemma {:induction false} CatchingCablesUpToKeys(p: Params, trig: Trig, k: nat)
    requires 1 <= p.numSupports && k < p.numSupports
    ensures CatchingCablesUpTo(p, trig, k).Keys == SupportCables(p, trig).Keys + Numbered("faS", k)
  {
    if k == 0 {
      assert Numbered("faS", 0) == {};
    } else {
      CatchingCablesUpToKeys(p, trig, k - 1);
      NumberedStep("faS", k);
    }
  }

  /** The catching-cable loop leaves every cable not named `f...` alone. */
  lemma {:induction false} CatchingCablesUpToKeeps(p: Params, trig: Trig, k: nat, id: string)
    requires 1 <= p.numSupports && k < p.numSupports
    requires id in SupportCables(p, trig) && id != [] && id[0] != 'f'
    ensures id in CatchingCablesUpTo(p, trig, k) && CatchingCablesUpTo(p, trig, k)[id] == SupportCables(p, trig)[id]
  {
    if k > 0 {
      CatchingCablesUpToKeeps(p, trig, k - 1, id);
      assert CatchingCableId(k)[0] == 'f';
    }
  }

  lemma {:induction false} CatchingCablesUpToLookup(p: Params, trig: Trig, k: nat, j: nat)
    requires 1 <= p.numSupports && k < p.numSupports && 1 <= j <= k
    ensures CatchingCableId(j) in CatchingCablesUpTo(p, trig, k)
    ensures CatchingCablesUpTo(p, trig, k)[CatchingCableId(j)] == CatchingCable(p, trig, j)
  {
    if j < k {
      CatchingCablesUpToLookup(p, trig, k - 1, j);
      PrefixedInjective("faS", j, k);
    }
  }

  /** The ids of the built cable dictionary: `2N` retention cables, `N-1`
      catching cables and six fixed ids. */
  lemma CablesKeys(p: Params, trig: Trig)
    requires 1 <= p.numSupports
    ensures Cables(p, trig).Keys ==
      Numbered("rhs", 2 * p.numSupports) + Numbered("faS", p.numSupports - 1) + FixedCableIds
  {
    RetentionCablesUpToKeys(p, trig, 2 * p.numSupports);
    CatchingCablesUpToKeys(p, trig, p.numSupports - 1);
  }

  lemma RetentionCableLookup(p: Params, trig: Trig, j: nat)
    requires 1 <= j <= 2 * p.numSupports
    ensures RetentionCableId(j) in Cables(p, trig)
    ensures Cables(p, trig)[RetentionCableId(j)] == RetentionCable(p, trig, j)
  {
    var id := RetentionCableId(j);
    RetentionCablesUpToLookup(p, trig, 2 * p.numSupports, j);
    assert id[0] == 'r';
    CatchingCablesUpToKeeps(p, trig, p.numSupports - 1, id);
  }

  lemma CatchingCableLookup(p: Params, trig: Trig, j: nat)
    requires 1 <= j < p.numSupports
    ensures CatchingCableId(j) in Cables(p, trig)
    ensures Cables(p, trig)[CatchingCableId(j)] == CatchingCable(p, trig, j)
  {
    CatchingCablesUpToLookup(p, trig, p.numSupports - 1, j);
    assert CatchingCableId(j)[0] == 'f';
  }

  /** The upper support cables leave the first support `s1` and the last
      support `sN` for the upper auxiliary anchors; the far one is keyed
      `tsoS4` whatever `N` is. */
  lemma UpperCablesLookup(p: Params, trig: Trig)
    requires 1 <= p.numSupports
    ensures "tsoS1" in Cables(p, trig) && "tsoS4" in Cables(p, trig)
    ensures Cables(p, trig)["tsoS1"] == NewCable(SupportId(1), Tso1Anchor, "tso", "Tso S1", "red",
      SupportAt(p, trig, 0).top, UpperAnchorPosition(p, trig, false))
    ensures Cables(p, trig)["tsoS4"] == NewCable(SupportId(p.numSupports), Tso2Anchor, "tso",
      "Tso S" + NatToString(p.numSupports), "red",
      SupportAt(p, trig, p.numSupports - 1).top, UpperAnchorPosition(p, trig, true))
  {
    CatchingCablesUpToKeeps(p, trig, p.numSupports - 1, "tsoS1");
    CatchingCablesUpToKeeps(p, trig, p.numSupports - 1, "tsoS4");
  }

  /** The lower support cables, symmetric to the upper ones. */
  lemma LowerCablesLookup(p: Params, trig: Trig)
    requires 1 <= p.numSupports
    ensures "tsuS1" in Cables(p, trig) && "tsuS4" in Cables(p, trig)
    ensures Cables(p, trig)["tsuS1"] == NewCable(SupportId(1), Tsu1Anchor, "tsu", "Tsu S1", "red",
      SupportAt(p, trig, 0).top, LowerAnchorPosition(p, trig, false))
    ensures Cables(p, trig)["tsuS4"] == NewCable(SupportId(p.numSupports), Tsu2Anchor, "tsu",
      "Tsu S" + NatToString(p.numSupports), "red",
      SupportAt(p, trig, p.numSupports - 1).top, LowerAnchorPosition(p, trig, true))
  {
    CatchingCablesUpToKeeps(p, trig, p.numSupports - 1, "tsuS1");
    CatchingCablesUpToKeeps(p, trig, p.numSupports - 1, "tsuS4");
  }

  /** The lateral bracing cables leave `s1` and `sN` for the lateral anchors. */
  lemma LateralCablesLookup(p: Params, trig: Trig)
    requires 1 <= p.numSupports
    ensures "sa1" in Cables(p, trig) && "sa2" in Cables(p, trig)
    ensures Cables(p, trig)["sa1"] == NewCable(SupportId(1), Sa1Anchor, "sa", "Sa 1", "blue",
      SupportAt(p, trig, 0).top, LateralAnchorPosition(p, trig, false))
    ensures Cables(p, trig)["sa2"] == NewCable(SupportId(p.numSupports), Sa2Anchor, "sa", "Sa 2", "blue",
      SupportAt(p, trig, p.numSupports - 1).top, LateralAnchorPosition(p, trig, true))
  {
  }

  // ------------------------------------------------------------ supports

  /** Exactly `N` supports `s1..sN`. */
  lemma SupportCount(p: Params, trig: Trig)
    requires 0 <= p.numSupports
    ensures SupportsUpTo(p, trig, p.numSupports).Keys == Numbered("s", p.numSupports)
    ensures |SupportsUpTo(p, trig, p.numSupports)| == p.numSupports
  {
    SupportsUpToContents(p, trig, p.numSupports);
    NumberedCardinality("s", p.numSupports);
    MapSize(SupportsUpTo(p, trig, p.numSupports));
  }

  /** The support of iteration `i` (support `s(i+1)`) stands on the barrier
      line at `y = i·d` with its foot at ground level; its top is straight
      across from its base, and its length is `L`. */
  lemma SupportAtPlacement(p: Params, trig: Trig, i: nat)
    ensures SupportAt(p, trig, i).base == Point(0.0, i as real * p.d, 0.0)
    ensures SupportAt(p, trig, i).top.y == SupportAt(p, trig, i).base.y
    ensures SupportAt(p, trig, i).length == p.L
  {
  }

  // ------------------------------------------------------------- anchors

  /** The retention anchor of iteration `i` (anchor `v(i+1)`) stands at
      `x = a/2`, `h` above the terrain; the first lies `b` before the first
      support, the last `b` beyond the last support, and every other one is
      level with the support of iteration `i - 1`. */
  lemma RetentionAnchorAtPlacement(p: Params, trig: Trig, i: nat)
    requires 1 <= p.numSupports && i <= p.numSupports
    ensures RetentionAnchorAt(p, trig, i).position.x == p.a / 2.0
    ensures RetentionAnchorAt(p, trig, i).position.z == TerrainHeight(trig, DegToRad(p.phi), p.a / 2.0) + p.h
    ensures i == 0 ==> RetentionAnchorAt(p, trig, i).position.y == -p.b
    ensures i == p.numSupports ==>
      RetentionAnchorAt(p, trig, i).position.y == (p.numSupports - 1) as real * p.d + p.b
    ensures 0 < i < p.numSupports ==>
      RetentionAnchorAt(p, trig, i).position.y == (i - 1) as real * p.d == SupportAt(p, trig, i - 1).base.y
  {
  }

  /** The six auxiliary anchors: the upper ones at `x = b`, the lower ones at
      `x = -b`, the lateral ones on the barrier line `h/2` below ground; the
      `1` anchors `b` before the first support, the `2` anchors `b` beyond
      the last. */
  lemma AuxiliaryAnchorsPlacement(p: Params, trig: Trig)
    requires 1 <= p.numSupports
    ensures AuxiliaryAnchorIds <= Anchors(p, trig).Keys
    ensures Anchors(p, trig)[Tso1Anchor].position ==
      Point(p.b, -p.b, TerrainHeight(trig, DegToRad(p.phi), p.b))
    ensures Anchors(p, trig)[Tso2Anchor].position ==
      Point(p.b, (p.numSupports - 1) as real * p.d + p.b, TerrainHeight(trig, DegToRad(p.phi), p.b))
    ensures Anchors(p, trig)[Tsu1Anchor].position ==
      Point(-p.b, -p.b, TerrainHeight(trig, DegToRad(p.phi), -p.b))
    ensures Anchors(p, trig)[Tsu2Anchor].position ==
      Point(-p.b, (p.numSupports - 1) as real * p.d + p.b, TerrainHeight(trig, DegToRad(p.phi), -p.b))
    ensures Anchors(p, trig)[Sa1Anchor].position == Point(0.0, -p.b, -p.h / 2.0)
    ensures Anchors(p, trig)[Sa2Anchor].position == Point(0.0, (p.numSupports - 1) as real * p.d + p.b, -p.h / 2.0)
  {
  }

  /** `N+1` retention anchors plus six auxiliary ones, all distinct. */
  lemma AnchorCount(p: Params, trig: Trig)
    requires 1 <= p.numSupports
    ensures |Anchors(p, trig)| == p.numSupports + 7
  {
    AnchorsKeys(p, trig);
    AnchorMapSize(Anchors(p, trig), p.numSupports);
  }

  lemma AnchorMapSize(anchors: map<string, Anchor>, n: nat)
    requires anchors.Keys == Numbered("v", n + 1) + AuxiliaryAnchorIds
    ensures |anchors| == n + 7
  {
    AnchorIdsCount(n + 1);
    MapSize(anchors);
  }

  lemma MapSize<K, V>(m: map<K, V>)
    ensures |m| == |m.Keys|
  {
  }

  lemma AnchorIdsCount(k: nat)
    ensures |Numbered("v", k) + AuxiliaryAnchorIds| == k + 6
  {
    AuxiliaryAnchorIdsNotRetention(k);
    NumberedCardinality("v", k);
    AuxiliaryAnchorIdsCount();
    DisjointUnionCardinality(Numbered("v", k), AuxiliaryAnchorIds);
  }

  lemma DisjointUnionCardinality<T>(a: set<T>, b: set<T>)
    requires a !! b
    ensures |a + b| == |a| + |b|
  {
  }

  /** No id names both a support and an anchor. */
  lemma SupportsAnchorsDisjoint(p: Params, trig: Trig)
    requires 1 <= p.numSupports
    ensures SupportsUpTo(p, trig, p.numSupports).Keys !! Anchors(p, trig).Keys
  {
    SupportsUpToContents(p, trig, p.numSupports);
    AnchorsKeys(p, trig);
    SupportIdsNotAnchorIds(p.numSupports);
  }

  lemma SupportIdsNotAnchorIds(n: nat)
    ensures Numbered("s", n) !! Numbered("v", n + 1) + AuxiliaryAnchorIds
  {
    NumberedDisjoint("s", n, "v", n + 1);
    forall id | id in Numbered("s", n) ensures id !in AuxiliaryAnchorIds {
      NumberedShape("s", n, id);
      assert IsDigit(id[1]);
    }
  }

  // -------------------------------------------------------------- cables

  /** `2N` retention, `N-1` catching and six fixed cables, all distinct: `3N+5`. */
  lemma CableCount(p: Params, trig: Trig)
    requires 1 <= p.numSupports
    ensures |Cables(p, trig)| == 3 * p.numSupports + 5
  {
    var n := p.numSupports;
    CablesKeys(p, trig);
    CableIdsCount(n);
    MapSize(Cables(p, trig));
  }

  lemma CableIdsCount(n: nat)
    requires 1 <= n
    ensures |Numbered("rhs", 2 * n) + Numbered("faS", n - 1) + FixedCableIds| == 3 * n + 5
  {
    var rhs, fas := Numbered("rhs", 2 * n), Numbered("faS", n - 1);
    NumberedDisjoint("rhs", 2 * n, "faS", n - 1);
    NumberedAvoids("rhs", 2 * n, FixedCableIds);
    NumberedAvoids("faS", n - 1, FixedCableIds);
    NumberedCardinality("rhs", 2 * n);
    NumberedCardinality("faS", n - 1);
    FixedCableIdsCount();
    DisjointUnionCardinality(rhs, fas);
    DisjointUnionCardinality(rhs + fas, FixedCableIds);
  }

  /** Numbered ids with prefixes that start differently never meet. */
  lemma NumberedDisjoint(prefix1: string, k1: nat, prefix2: string, k2: nat)
    requires prefix1 != [] && prefix2 != [] && prefix1[0] != prefix2[0]
    ensures Numbered(prefix1, k1) !! Numbered(prefix2, k2)
  {
    forall id | id in Numbered(prefix1, k1) ensures id !in Numbered(prefix2, k2) {
      NumberedShape(prefix1, k1, id);
      NotNumbered(prefix2, k2, id);
    }
  }

  /** Numbered ids avoid every id that starts with another letter. */
  lemma NumberedAvoids(prefix: string, k: nat, ids: set<string>)
    requires prefix != []
    requires forall id :: id in ids ==> id != [] && id[0] != prefix[0]
    ensures Numbered(prefix, k) !! ids
  {
    forall id | id in Numbered(prefix, k) ensures id !in ids {
      NumberedShape(prefix, k, id);
    }
  }

  /** Retention cable `rhsk` leaves support `sk` for anchor `vk` when `k <= N`,
      and support `s(k-N)` for anchor `v(k-N+1)` otherwise. */
  lemma RetentionCableEnds(p: Params, trig: Trig, k: nat)
    requires 1 <= k <= 2 * p.numSupports
    ensures RetentionCable(p, trig, k).kind == "rhs"
    ensures k <= p.numSupports ==>
      RetentionCable(p, trig, k).start == SupportId(k) && RetentionCable(p, trig, k).end == RetentionAnchorId(k)
    ensures p.numSupports < k ==>
      RetentionCable(p, trig, k).start == SupportId(k - p.numSupports) &&
      RetentionCable(p, trig, k).end == RetentionAnchorId(k - p.numSupports + 1)
  {
  }

  /** Catching cable `faSk` is of type `zw` and chains support `sk` to `s(k+1)`. */
  lemma CatchingCableEnds(p: Params, trig: Trig, k: nat)
    requires 1 <= k < p.numSupports
    ensures CatchingCable(p, trig, k).kind == "zw"
    ensures CatchingCable(p, trig, k).start == SupportId(k) && CatchingCable(p, trig, k).end == SupportId(k + 1)
  {
  }

  /** The retention cables of support `si` end exactly at the consecutive
      anchors `vi` and `v(i+1)`. */
  lemma SupportRetainedByConsecutiveAnchors(p: Params, trig: Trig, i: nat)
    requires 1 <= i <= p.numSupports
    ensures (set id | id in Cables(p, trig) && Cables(p, trig)[id].kind == "rhs" &&
                      Cables(p, trig)[id].start == SupportId(i) :: Cables(p, trig)[id].end)
            == {RetentionAnchorId(i), RetentionAnchorId(i + 1)}
  {
    var n := p.numSupports;
    var cables := Cables(p, trig);
    RetentionCableLookup(p, trig, i);
    RetentionCableEnds(p, trig, i);
    RetentionCableLookup(p, trig, n + i);
    RetentionCableEnds(p, trig, n + i);
    forall id | id in cables && cables[id].kind == "rhs" && cables[id].start == SupportId(i)
      ensures cables[id].end in {RetentionAnchorId(i), RetentionAnchorId(i + 1)}
    {
      RetentionCableAt(p, trig, i, id);
    }
  }

  /** A retention cable leaving support `si` ends at `vi` or `v(i+1)`. */
  lemma RetentionCableAt(p: Params, trig: Trig, i: nat, id: string)
    requires 1 <= i <= p.numSupports
    requires id in Cables(p, trig) && Cables(p, trig)[id].kind == "rhs" && Cables(p, trig)[id].start == SupportId(i)
    ensures Cables(p, trig)[id].end in {RetentionAnchorId(i), RetentionAnchorId(i + 1)}
  {
    var n := p.numSupports;
    var j := RetentionIndex(p, trig, id);
    RetentionCableEnds(p, trig, j);
    if j <= n {
      PrefixedInjective("s", j, i);
    } else {
      PrefixedInjective("s", j - n, i);
    }
  }

  /** A cable of type `rhs` in the built dictionary is one of the `2N` retention cables. */
  lemma RetentionIndex(p: Params, trig: Trig, id: string) returns (j: nat)
    requires 1 <= p.numSupports
    requires id in Cables(p, trig) && Cables(p, trig)[id].kind == "rhs"
    ensures 1 <= j <= 2 * p.numSupports && id == RetentionCableId(j)
    ensures Cables(p, trig)[id] == RetentionCable(p, trig, j)
  {
    var n := p.numSupports;
    CablesKeys(p, trig);
    if id in Numbered("faS", n - 1) {
      var k := NumberedIndex("faS", n - 1, id);
      CatchingCableLookup(p, trig, k);
      assert false;
    } else if id in FixedCableIds {
      UpperCablesLookup(p, trig);
      LowerCablesLookup(p, trig);
      assert false;
    }
    j := NumberedIndex("rhs", 2 * n, id);
    RetentionCableLookup(p, trig, j);
  }

  // ------------------------------------------------------------- wiring

  /** A cable of `config` as the builder leaves it: it starts at a support
      and its start coordinates copy that support's top; a catching (`zw`)
      cable ends at a support and copies its top, any other cable ends at
      an anchor and copies its position; no force is entered yet, a load
      cell is assumed and eligibility is not yet decided. */
  predicate Wired(config: BarrierConfig, cable: Cable) {
    && cable.start in config.supports
    && cable.startCoords == config.supports[cable.start].top
    && (if cable.kind == "zw"
        then cable.end in config.supports && cable.endCoords == config.supports[cable.end].top
        else cable.end in config.anchors && cable.endCoords == config.anchors[cable.end].position)
    && cable.force == 0.0
    && cable.hasLoadCell == Some(true)
    && cable.canHaveLoadCell == None
  }

  lemma RetentionCableWired(p: Params, trig: Trig, k: nat)
    requires 1 <= p.numSupports && 1 <= k <= 2 * p.numSupports
    ensures Wired(Coordinates(p, trig), RetentionCable(p, trig, k))
  {
    var n := p.numSupports;
    var s: nat := if k <= n then k else k - n;
    var v: nat := if k <= n then k else k - n + 1;
    SupportsUpToLookup(p, trig, n, s);
    RetentionAnchorLookup(p, trig, v);
    assert "rhs" != "zw";
  }

  lemma CatchingCableWired(p: Params, trig: Trig, k: nat)
    requires 1 <= k < p.numSupports
    ensures Wired(Coordinates(p, trig), CatchingCable(p, trig, k))
  {
    SupportsUpToLookup(p, trig, p.numSupports, k);
    SupportsUpToLookup(p, trig, p.numSupports, k + 1);
  }

  /** The auxiliary anchors of the dictionary, by the function that places them. */
  lemma AuxiliaryAnchorLookup(p: Params, trig: Trig)
    requires 1 <= p.numSupports
    ensures AuxiliaryAnchorIds <= Anchors(p, trig).Keys
    ensures Anchors(p, trig)[Tso1Anchor].position == UpperAnchorPosition(p, trig, false)
    ensures Anchors(p, trig)[Tso2Anchor].position == UpperAnchorPosition(p, trig, true)
    ensures Anchors(p, trig)[Tsu1Anchor].position == LowerAnchorPosition(p, trig, false)
    ensures Anchors(p, trig)[Tsu2Anchor].position == LowerAnchorPosition(p, trig, true)
    ensures Anchors(p, trig)[Sa1Anchor].position == LateralAnchorPosition(p, trig, false)
    ensures Anchors(p, trig)[Sa2Anchor].position == LateralAnchorPosition(p, trig, true)
  {
  }

  /** The end supports of the dictionary. */
  lemma EndSupportsLookup(p: Params, trig: Trig)
    requires 1 <= p.numSupports
    ensures SupportId(1) in SupportsUpTo(p, trig, p.numSupports)
    ensures SupportId(p.numSupports) in SupportsUpTo(p, trig, p.numSupports)
    ensures SupportsUpTo(p, trig, p.numSupports)[SupportId(1)] == SupportAt(p, trig, 0)
    ensures SupportsUpTo(p, trig, p.numSupports)[SupportId(p.numSupports)] == SupportAt(p, trig, p.numSupports - 1)
  {
    SupportsUpToLookup(p, trig, p.numSupports, 1);
    SupportsUpToLookup(p, trig, p.numSupports, p.numSupports);
  }

  lemma UpperCablesWired(p: Params, trig: Trig)
    requires 1 <= p.numSupports
    ensures "tsoS1" in Cables(p, trig) && Wired(Coordinates(p, trig), Cables(p, trig)["tsoS1"])
    ensures "tsoS4" in Cables(p, trig) && Wired(Coordinates(p, trig), Cables(p, trig)["tsoS4"])
  {
    EndSupportsLookup(p, trig);
    AuxiliaryAnchorLookup(p, trig);
    UpperCablesLookup(p, trig);
    assert "tso" != "zw";
  }

  lemma LowerCablesWired(p: Params, trig: Trig)
    requires 1 <= p.numSupports
    ensures "tsuS1" in Cables(p, trig) && Wired(Coordinates(p, trig), Cables(p, trig)["tsuS1"])
    ensures "tsuS4" in Cables(p, trig) && Wired(Coordinates(p, trig), Cables(p, trig)["tsuS4"])
  {
    EndSupportsLookup(p, trig);
    AuxiliaryAnchorLookup(p, trig);
    LowerCablesLookup(p, trig);
    assert "tsu" != "zw";
  }

  lemma LateralCablesWired(p: Params, trig: Trig)
    requires 1 <= p.numSupports
    ensures "sa1" in Cables(p, trig) && Wired(Coordinates(p, trig), Cables(p, trig)["sa1"])
    ensures "sa2" in Cables(p, trig) && Wired(Coordinates(p, trig), Cables(p, trig)["sa2"])
  {
    EndSupportsLookup(p, trig);
    AuxiliaryAnchorLookup(p, trig);
    LateralCablesLookup(p, trig);
    assert "sa" != "zw";
  }

  lemma CableWired(p: Params, trig: Trig, id: string)
    requires 1 <= p.numSupports && id in Cables(p, trig)
    ensures Wired(Coordinates(p, trig), Cables(p, trig)[id])
  {
    var n := p.numSupports;
    CablesKeys(p, trig);
    if id in Numbered("rhs", 2 * n) {
      var j := NumberedIndex("rhs", 2 * n, id);
      RetentionCableLookup(p, trig, j);
      RetentionCableWired(p, trig, j);
    } else if id in Numbered("faS", n - 1) {
      var j := NumberedIndex("faS", n - 1, id);
      CatchingCableLookup(p, trig, j);
      CatchingCableWired(p, trig, j);
    } else {
      UpperCablesWired(p, trig);
      LowerCablesWired(p, trig);
      LateralCablesWired(p, trig);
    }
  }

  /** No dangling references: every built cable starts at a support, ends at
      an existing support or anchor, copies their coordinates, and is fresh. */
  lemma CablesWired(p: Params, trig: Trig)
    requires 1 <= p.numSupports
    ensures forall id :: id in Cables(p, trig) ==> Wired(Coordinates(p, trig), Cables(p, trig)[id])
  {
    forall id | id in Cables(p, trig) ensures Wired(Coordinates(p, trig), Cables(p, trig)[id]) {
      CableWired(p, trig, id);
    }
  }

  // ---------------------------------------------------- what is ignored

  /** `p` and `q` agree on every parameter the builder reads: the number of
      supports, `a`, `b`, `d`, `h`, `L`, `epsilon` and `phi`. */
  predicate SameGeometry(p: Params, q: Params) {
    && p.numSupports == q.numSupports
    && p.a == q.a && p.b == q.b && p.d == q.d && p.h == q.h && p.L == q.L
    && p.epsilon == q.epsilon && p.phi == q.phi
  }

  lemma SupportAtGeometry(p: Params, q: Params, trig: Trig, i: nat)
    requires SameGeometry(p, q)
    ensures SupportAt(p, trig, i) == SupportAt(q, trig, i)
  {
  }

  lemma {:induction false} SupportsUpToGeometry(p: Params, q: Params, trig: Trig, k: nat)
    requires SameGeometry(p, q)
    ensures SupportsUpTo(p, trig, k) == SupportsUpTo(q, trig, k)
  {
    if k > 0 {
      SupportsUpToGeometry(p, q, trig, k - 1);
      SupportAtGeometry(p, q, trig, k - 1);
    }
  }

  lemma RetentionAnchorAtGeometry(p: Params, q: Params, trig: Trig, i: nat)
    requires SameGeometry(p, q)
    ensures RetentionAnchorAt(p, trig, i) == RetentionAnchorAt(q, trig, i)
  {
    assert TotalLength(p) == TotalLength(q);
  }

  lemma {:induction false} RetentionAnchorsUpToGeometry(p: Params, q: Params, trig: Trig, k: nat)
    requires SameGeometry(p, q)
    ensures RetentionAnchorsUpTo(p, trig, k) == RetentionAnchorsUpTo(q, trig, k)
  {
    if k > 0 {
      RetentionAnchorsUpToGeometry(p, q, trig, k - 1);
      RetentionAnchorAtGeometry(p, q, trig, k - 1);
    }
  }

  lemma AuxiliaryPositionsGeometry(p: Params, q: Params, trig: Trig, far: bool)
    requires SameGeometry(p, q)
    ensures UpperAnchorPosition(p, trig, far) == UpperAnchorPosition(q, trig, far)
    ensures LowerAnchorPosition(p, trig, far) == LowerAnchorPosition(q, trig, far)
    ensures LateralAnchorPosition(p, trig, far) == LateralAnchorPosition(q, trig, far)
  {
    assert EndY(p, far) == EndY(q, far) by {
      assert TotalLength(p) == TotalLength(q);
    }
  }

  lemma RetentionCableGeometry(p: Params, q: Params, trig: Trig, k: nat)
    requires SameGeometry(p, q) && 1 <= k <= 2 * p.numSupports
    ensures RetentionCable(p, trig, k) == RetentionCable(q, trig, k)
  {
    var n := p.numSupports;
    var s: nat := if k <= n then k else k - n;
    var v: nat := if k <= n then k else k - n + 1;
    SupportAtGeometry(p, q, trig, s - 1);
    RetentionAnchorAtGeometry(p, q, trig, v - 1);
  }

  lemma {:induction false} RetentionCablesUpToGeometry(p: Params, q: Params, trig: Trig, k: nat)
    requires SameGeometry(p, q) && k <= 2 * p.numSupports
    ensures RetentionCablesUpTo(p, trig, k) == RetentionCablesUpTo(q, trig, k)
  {
    if k > 0 {
      RetentionCablesUpToGeometry(p, q, trig, k - 1);
      RetentionCableGeometry(p, q, trig, k);
    }
  }

  lemma SupportCablesGeometry(p: Params, q: Params, trig: Trig)
    requires SameGeometry(p, q) && 1 <= p.numSupports
    ensures SupportCables(p, trig) == SupportCables(q, trig)
  {
    RetentionCablesUpToGeometry(p, q, trig, 2 * p.numSupports);
    SupportAtGeometry(p, q, trig, 0);
    SupportAtGeometry(p, q, trig, p.numSupports - 1);
    AuxiliaryPositionsGeometry(p, q, trig, false);
    AuxiliaryPositionsGeometry(p, q, trig, true);
  }

  lemma CatchingCableGeometry(p: Params, q: Params, trig: Trig, k: nat)
    requires SameGeometry(p, q) && 1 <= k < p.numSupports
    ensures CatchingCable(p, trig, k) == CatchingCable(q, trig, k)
  {
    SupportAtGeometry(p, q, trig, k - 1);
    SupportAtGeometry(p, q, trig, k);
  }

  lemma {:induction false} CatchingCablesUpToGeometry(p: Params, q: Params, trig: Trig, k: nat)
    requires SameGeometry(p, q) && 1 <= p.numSupports && k < p.numSupports
    ensures CatchingCablesUpTo(p, trig, k) == CatchingCablesUpTo(q, trig, k)
  {
    if k == 0 {
      SupportCablesGeometry(p, q, trig);
    } else {
      CatchingCablesUpToGeometry(p, q, trig, k - 1);
      CatchingCableGeometry(p, q, trig, k);
    }
  }

  /** The builder reads only the geometric parameters: `f`, `theta`,
      `delta`, `delta1`, `delta2`, `tau` and the intermediate-cable flags
      `hasDelta1`/`hasDelta2` add, remove and move nothing, and the
      parameter record is returned as given. */
  lemma CoordinatesDependOnlyOnGeometry(p: Params, q: Params, trig: Trig)
    requires 1 <= p.numSupports && SameGeometry(p, q)
    ensures Coordinates(p, trig).supports == Coordinates(q, trig).supports
    ensures Coordinates(p, trig).anchors == Coordinates(q, trig).anchors
    ensures Coordinates(p, trig).cables == Coordinates(q, trig).cables
    ensures Coordinates(q, trig).params == q
  {
    SupportsUpToGeometry(p, q, trig, p.numSupports);
    RetentionAnchorsUpToGeometry(p, q, trig, p.numSupports + 1);
    AuxiliaryPositionsGeometry(p, q, trig, false);
    AuxiliaryPositionsGeometry(p, q, trig, true);
    CatchingCablesUpToGeometry(p, q, trig, p.numSupports - 1);
    SupportAtGeometry(p, q, trig, 0);
    SupportAtGeometry(p, q, trig, p.numSupports - 1);
  }

  /** The default parameters build four supports, eleven anchors and seventeen cables. */
  lemma DefaultBarrier(trig: Trig)
    ensures |Coordinates(DefaultParams(), trig).supports| == 4
    ensures |Coordinates(DefaultParams(), trig).anchors| == 11
    ensures |Coordinates(DefaultParams(), trig).cables| == 17
  {
    var p := DefaultParams();
    SupportCount(p, trig);
    AnchorCount(p, trig);
    CableCount(p, trig);
  }
}
