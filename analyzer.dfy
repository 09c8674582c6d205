/** The analyzer page's work on the stored configuration: before forces are
    entered, every cable is classified as able to carry a load cell or not,
    and the anchor-connected ones are grouped by cable type; a parameter
    edit replaces the configuration with a fresh build. */
module Analyzer {
  import opened Wrappers
  import opened Barrier
  import opened Geometry

  /** The cable types the page offers force entry for, in display order. */
  const GroupKinds: set<string> := {"rhs", "tso", "tsu", "fa", "sa", "zw"}

  predicate AnchorConnected(config: BarrierConfig, cable: Cable) {
    cable.start in config.anchors || cable.end in config.anchors
  }

  /** A cable after classification: an anchor-connected cable may carry a
      load cell and keeps its flag and force; any other loses its load cell. */
  function Classified(config: BarrierConfig, cable: Cable): Cable {
    if AnchorConnected(config, cable) then cable.(canHaveLoadCell := Some(true))
    else cable.(canHaveLoadCell := Some(false), hasLoadCell := Some(false))
  }

  /** The configuration after the classification pass. */
  function Classify(config: BarrierConfig): BarrierConfig {
    config.(cables := map id | id in config.cables :: Classified(config, config.cables[id]))
  }

  /** Cable `id` is listed in group `kind` for force entry. */
  predicate Offered(config: BarrierConfig, id: string, kind: string) {
    id in config.cables && AnchorConnected(config, config.cables[id]) &&
    config.cables[id].kind == kind && kind in GroupKinds
  }

  predicate Distinct(ids: seq<string>) {
    forall i, j :: 0 <= i < j < |ids| ==> ids[i] != ids[j]
  }

  class AnalyzerSession {
    var config: BarrierConfig

    constructor(config: BarrierConfig)
      ensures this.config == config
    {
      this.config := config;
    }

    /** One iteration of the classification loop: cable `id` gets its flags
        and, when anchor-connected and of a known type, joins its group. */
    method ClassifyCable(groups: map<string, seq<string>>, id: string) returns (grouped: map<string, seq<string>>)
      requires id in config.cables
      modifies this
      ensures config == old(config).(cables := old(config).cables[id := Classified(old(config), old(config).cables[id])])
      ensures grouped.Keys == groups.Keys
      ensures forall kind :: kind in grouped ==>
        grouped[kind] == groups[kind] + if Offered(old(config), id, kind) then [id] else []
    {
      var cable := config.cables[id];
      var kind := cable.kind;
      grouped := groups;
      if cable.start in config.anchors || cable.end in config.anchors {
        if kind in GroupKinds && kind in grouped {
          grouped := grouped[kind := grouped[kind] + [id]];
        }
        config := config.(cables := config.cables[id := cable.(canHaveLoadCell := Some(true))]);
      } else {
        config := config.(cables := config.cables[id := cable.(canHaveLoadCell := Some(false))]);
        config := config.(cables := config.cables[id := config.cables[id].(hasLoadCell := Some(false))]);
      }
    }

    /** The classification loop over all cables. Each cable is classified
        once; the groups list, without repetition, exactly the cables
        offered for force entry. */
    method GroupCables() returns (groups: map<string, seq<string>>)
      modifies this
      ensures config == Classify(old(config))
      ensures groups.Keys == GroupKinds
      ensures forall kind :: kind in groups ==>
        Distinct(groups[kind]) && forall id :: id in groups[kind] <==> Offered(old(config), id, kind)
    {
      groups := map["rhs" := [], "tso" := [], "tsu" := [], "fa" := [], "sa" := [], "zw" := []];
      ghost var original := config;
      var ids := config.cables.Keys;
      var todo := ids;
      GroupedNone(original, groups);
      while todo != {}
        invariant todo <= ids
        invariant ClassifiedExcept(original, config, todo)
        invariant GroupedExcept(original, groups, todo)
        decreases todo
      {
        var id :| id in todo;
        ghost var before, beforeGroups := config, groups;
        groups := ClassifyCable(groups, id);
        ClassifiedStep(original, before, config, todo, id);
        GroupedStep(original, beforeGroups, groups, todo, id);
        todo := todo - {id};
      }
      ClassifiedAll(original, config);
      GroupedAll(original, groups);
    }

    /** A parameter edit: the configuration is replaced by a fresh build from
        the updated parameters (which the parameter solver supplies). */
    method HandleParameterChange(updated: Params, trig: Trig)
      requires 1 <= updated.numSupports
      modifies this
      ensures config == Coordinates(updated, trig)
    {
      config := config.(params := updated);
      config := Calculate3dCoordinates(updated, trig);
    }
  }

  /** `config` is `original` with every cable outside `todo` classified. */
  ghost predicate ClassifiedExcept(original: BarrierConfig, config: BarrierConfig, todo: set<string>) {
    && config.anchors == original.anchors && config.supports == original.supports
    && config.params == original.params && config.cables.Keys == original.cables.Keys
    && forall id :: id in config.cables ==>
         config.cables[id] == if id in todo then original.cables[id] else Classified(original, original.cables[id])
  }

  /** `groups` lists, once each, the offered cables outside `todo`. */
  ghost predicate GroupedExcept(original: BarrierConfig, groups: map<string, seq<string>>, todo: set<string>) {
    && groups.Keys == GroupKinds
    && forall kind :: kind in groups ==>
         Distinct(groups[kind]) && forall id :: id in groups[kind] <==> id !in todo && Offered(original, id, kind)
  }

  lemma ClassifiedStep(original: BarrierConfig, before: BarrierConfig, after: BarrierConfig, todo: set<string>, id: string)
    requires ClassifiedExcept(original, before, todo) && id in todo && id in before.cables
    requires after == before.(cables := before.cables[id := Classified(before, before.cables[id])])
    ensures ClassifiedExcept(original, after, todo - {id})
  {
  }

  lemma GroupedStep(original: BarrierConfig, before: map<string, seq<string>>, after: map<string, seq<string>>,
                    todo: set<string>, id: string)
    requires GroupedExcept(original, before, todo) && id in todo
    requires after.Keys == before.Keys
    requires forall kind :: kind in after ==>
      after[kind] == before[kind] + if Offered(original, id, kind) then [id] else []
    ensures GroupedExcept(original, after, todo - {id})
  {
    forall kind | kind in after
      ensures Distinct(after[kind])
    {
      if Offered(original, id, kind) {
        assert id !in before[kind];
      }
    }
  }

  lemma ClassifiedAll(original: BarrierConfig, config: BarrierConfig)
    requires ClassifiedExcept(original, config, {})
    ensures config == Classify(original)
  {
  }

  lemma GroupedNone(original: BarrierConfig, groups: map<string, seq<string>>)
    requires groups.Keys == GroupKinds && forall kind :: kind in groups ==> groups[kind] == []
    ensures GroupedExcept(original, groups, original.cables.Keys)
  {
  }

  lemma GroupedAll(original: BarrierConfig, groups: map<string, seq<string>>)
    requires GroupedExcept(original, groups, {})
    ensures groups.Keys == GroupKinds
    ensures forall kind :: kind in groups ==>
      Distinct(groups[kind]) && forall id :: id in groups[kind] <==> Offered(original, id, kind)
  {
  }
}
