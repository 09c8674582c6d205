/** The force aggregator: from the forces measured on the cables it computes
    the load on every anchor and every support and two totals. */
module Forces {
  import opened Wrappers
  import opened Sums
  import opened Barrier

  const TotalAnchorForceKey: string := "total_anchor_force"
  const TotalSupportForceKey: string := "total_support_force"

  /** A cable is counted when it has a load cell (a missing flag reads as
      false) and a non-zero force. */
  predicate Counted(cable: Cable) {
    cable.hasLoadCell == Some(true) && cable.force != 0.0
  }

  /** The anchor a counted cable loads: its start if that is an anchor,
      otherwise its end if that is one. */
  function AnchorEnd(config: BarrierConfig, cable: Cable): Option<string> {
    if cable.start in config.anchors then Some(cable.start)
    else if cable.end in config.anchors then Some(cable.end)
    else None
  }

  /** The support a counted cable loads, with the same preference for the start. */
  function SupportEnd(config: BarrierConfig, cable: Cable): Option<string> {
    if cable.start in config.supports then Some(cable.start)
    else if cable.end in config.supports then Some(cable.end)
    else None
  }

  /** For each cable id, the anchor bucket it adds to, if any. */
  function AnchorTarget(config: BarrierConfig): string -> Option<string> {
    id => if id in config.cables && Counted(config.cables[id]) then AnchorEnd(config, config.cables[id]) else None
  }

  /** For each cable id, the support bucket it adds to, if any. */
  function SupportTarget(config: BarrierConfig): string -> Option<string> {
    id => if id in config.cables && Counted(config.cables[id]) then SupportEnd(config, config.cables[id]) else None
  }

  /** The force recorded on each cable id. */
  function Force(config: BarrierConfig): string -> real {
    id => if id in config.cables then config.cables[id].force else 0.0
  }

  /** The force of each cable id if it is counted, nothing otherwise. */
  function CountedForce(config: BarrierConfig): string -> real {
    id => if id in config.cables && Counted(config.cables[id]) then config.cables[id].force else 0.0
  }

  /** What node `k` receives from the cables `done`: their anchor share
      plus their support share. */
  ghost function Received(config: BarrierConfig, done: set<string>, k: string): real {
    SetSum(done, Indicator(AnchorTarget(config), Force(config), k)) +
    SetSum(done, Indicator(SupportTarget(config), Force(config), k))
  }

  /** `results.get(k, 0)`. */
  function ValueOr(results: map<string, real>): string -> real {
    k => if k in results then results[k] else 0.0
  }

  predicate IsRetentionAnchorId(id: string) {
    |id| > 0 && id[0] == 'v'
  }

  /** The anchors whose id starts with `v`; the auxiliary anchors are not among them. */
  function RetentionAnchorIds(config: BarrierConfig): set<string> {
    set a | a in config.anchors && IsRetentionAnchorId(a)
  }

  /** Every anchor and support id with everything the cables deliver to it. */
  ghost function Buckets(config: BarrierConfig): map<string, real> {
    map k | k in config.anchors.Keys + config.supports.Keys :: Received(config, config.cables.Keys, k)
  }

  /** The result of the aggregator: the buckets, then the total over the
      `v` anchors, then the total over the supports. */
  ghost function ForcesOf(config: BarrierConfig): map<string, real> {
    var buckets := Buckets(config);
    var withAnchorTotal := buckets[TotalAnchorForceKey := SetSum(RetentionAnchorIds(config), ValueOr(buckets))];
    withAnchorTotal[TotalSupportForceKey := SetSum(config.supports.Keys, ValueOr(withAnchorTotal))]
  }

  // ------------------------------------------------------------- methods

  /** Sets every id of `ids` to `0.0`, leaving the other entries alone. */
  method ZeroFill(results: map<string, real>, ids: set<string>) returns (filled: map<string, real>)
    ensures filled.Keys == results.Keys + ids
    ensures forall k :: k in filled ==> filled[k] == if k in ids then 0.0 else results[k]
  {
    filled := results;
    var todo := ids;
    while todo != {}
      invariant todo <= ids
      invariant filled.Keys == results.Keys + (ids - todo)
      invariant forall k :: k in filled ==> filled[k] == if k in ids - todo then 0.0 else results[k]
      decreases todo
    {
      var id :| id in todo;
      filled := filled[id := 0.0];
      todo := todo - {id};
    }
  }

  /** What a cable aimed at `target` with force `f` gives to node `k`. */
  function Share(target: Option<string>, f: real, k: string): real {
    if target == Some(k) then f else 0.0
  }

  /** A cable's anchor and support shares, as the cable loop adds them. */
  lemma CableShares(config: BarrierConfig, id: string, k: string)
    requires id in config.cables
    ensures Indicator(AnchorTarget(config), Force(config), k)(id) ==
      if Counted(config.cables[id]) then Share(AnchorEnd(config, config.cables[id]), config.cables[id].force, k) else 0.0
    ensures Indicator(SupportTarget(config), Force(config), k)(id) ==
      if Counted(config.cables[id]) then Share(SupportEnd(config, config.cables[id]), config.cables[id].force, k) else 0.0
  {
  }

  /** `results[node] += f`. */
  method AddTo(results: map<string, real>, node: string, f: real) returns (updated: map<string, real>)
    requires node in results
    ensures updated.Keys == results.Keys
    ensures forall k :: k in updated ==> updated[k] == results[k] + Share(Some(node), f, k)
  {
    updated := results[node := results[node] + f];
  }

  /** One iteration of the cable loop: a counted cable adds its force to one
      anchor and to one support, preferring its start. */
  method AddCable(config: BarrierConfig, results: map<string, real>, cable: Cable) returns (updated: map<string, real>)
    requires config.anchors.Keys + config.supports.Keys <= results.Keys
    ensures updated.Keys == results.Keys
    ensures forall k :: k in updated ==>
      updated[k] == results[k] + if Counted(cable)
                                 then Share(AnchorEnd(config, cable), cable.force, k) +
                                      Share(SupportEnd(config, cable), cable.force, k)
                                 else 0.0
  {
    updated := results;
    if cable.hasLoadCell != Some(true) || cable.force == 0.0 {
      return;
    }
    var start, end := cable.start, cable.end;
    if start in config.anchors {
      updated := AddTo(updated, start, cable.force);
    } else if end in config.anchors {
      updated := AddTo(updated, end, cable.force);
    }
    ghost var anchored := updated;
    if start in config.supports {
      updated := AddTo(updated, start, cable.force);
    } else if end in config.supports {
      updated := AddTo(updated, end, cable.force);
    }
    assert forall k :: k in updated ==> updated[k] == anchored[k] + Share(SupportEnd(config, cable), cable.force, k);
  }

  /** `sum(results.get(k, 0) for k in ids)`. */
  method SumOver(results: map<string, real>, ids: set<string>) returns (total: real)
    ensures total == SetSum(ids, ValueOr(results))
  {
    total := 0.0;
    var todo := ids;
    while todo != {}
      invariant todo <= ids
      invariant total == SetSum(ids - todo, ValueOr(results))
      decreases todo
    {
      var id :| id in todo;
      SetSumInsert(ids - todo, ValueOr(results), id);
      assert ids - (todo - {id}) == (ids - todo) + {id};
      total := total + ValueOr(results)(id);
      todo := todo - {id};
    }
    assert ids - todo == ids;
  }

  /** Adding cable `id` to the cables already summed adds its two shares. */
  lemma ReceivedStep(config: BarrierConfig, done: set<string>, id: string, k: string)
    requires id in config.cables && id !in done
    ensures Received(config, done + {id}, k) == Received(config, done, k) +
      if Counted(config.cables[id])
      then Share(AnchorEnd(config, config.cables[id]), config.cables[id].force, k) +
           Share(SupportEnd(config, config.cables[id]), config.cables[id].force, k)
      else 0.0
  {
    CableShares(config, id, k);
    SetSumInsert(done, Indicator(AnchorTarget(config), Force(config), k), id);
    SetSumInsert(done, Indicator(SupportTarget(config), Force(config), k), id);
  }

  lemma ReceivedNothing(config: BarrierConfig, k: string)
    ensures Received(config, {}, k) == 0.0
  {
  }

  /** A map over the anchor and support ids holding what each received from all cables is the buckets. */
  lemma BucketsExt(config: BarrierConfig, results: map<string, real>)
    requires results.Keys == config.anchors.Keys + config.supports.Keys
    requires forall k :: k in results ==> results[k] == Received(config, config.cables.Keys, k)
    ensures results == Buckets(config)
  {
  }

  /** One iteration of the cable loop, in terms of what the buckets hold. */
  method AccumulateCable(config: BarrierConfig, results: map<string, real>, ghost done: set<string>, id: string)
    returns (updated: map<string, real>)
    requires id in config.cables && id !in done
    requires results.Keys == config.anchors.Keys + config.supports.Keys
    requires forall k :: k in results ==> results[k] == Received(config, done, k)
    ensures updated.Keys == results.Keys
    ensures forall k :: k in updated ==> updated[k] == Received(config, done + {id}, k)
  {
    updated := AddCable(config, results, config.cables[id]);
    forall k | k in updated
      ensures updated[k] == Received(config, done + {id}, k)
    {
      ReceivedStep(config, done, id, k);
    }
  }

  /** The cable loop: every anchor and support bucket, starting from zero,
      ends up with everything the cables deliver to it. */
  method AccumulateCables(config: BarrierConfig, zeroed: map<string, real>) returns (results: map<string, real>)
    requires zeroed.Keys == config.anchors.Keys + config.supports.Keys
    requires forall k :: k in zeroed ==> zeroed[k] == 0.0
    ensures results == Buckets(config)
  {
    results := zeroed;
    var cables := config.cables.Keys;
    var todo := cables;
    forall k | k in results ensures results[k] == Received(config, cables - todo, k) {
      assert cables - todo == {};
      ReceivedNothing(config, k);
    }
    while todo != {}
      invariant todo <= cables
      invariant results.Keys == zeroed.Keys
      invariant forall k :: k in results ==> results[k] == Received(config, cables - todo, k)
      decreases todo
    {
      var id :| id in todo;
      results := AccumulateCable(config, results, cables - todo, id);
      assert cables - (todo - {id}) == (cables - todo) + {id};
      todo := todo - {id};
    }
    assert cables - todo == cables;
    BucketsExt(config, results);
  }

  /** The aggregator: zero every anchor and support, run the cable loop,
      then add the two totals. The configuration is a value and is only read. */
  method CalculateForces(config: BarrierConfig) returns (results: map<string, real>)
    ensures results == ForcesOf(config)
  {
    results := ZeroFill(map[], config.anchors.Keys);
    results := ZeroFill(results, config.supports.Keys);
    results := AccumulateCables(config, results);
    var anchorTotal := SumOver(results, RetentionAnchorIds(config));
    results := results[TotalAnchorForceKey := anchorTotal];
    var supportTotal := SumOver(results, config.supports.Keys);
    results := results[TotalSupportForceKey := supportTotal];
  }
}
