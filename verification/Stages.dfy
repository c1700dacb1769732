/** packages/fixture-replay/src/stages.ts: which adapters back which stage of
    the cockpit. */
module Stages {
  import opened Sorting

  datatype StageId = Planning | Beads | Swarm | Hardening

  const STAGE_IDS := [Planning, Beads, Swarm, Hardening]

  function StageAdapters(stage: StageId): seq<string> {
    match stage
    case Planning => ["oracle", "agent_mail"]
    case Beads => ["br", "bv"]
    case Swarm => ["ntm", "caam", "agent_mail"]
    case Hardening => ["ubs", "health"]
  }

  function BackedBy(adapter: string): StageId -> bool {
    stage => adapter in StageAdapters(stage)
  }

  function StagesOf(adapter: string): seq<StageId> {
    Filtered(STAGE_IDS, BackedBy(adapter))
  }

  lemma StagesOfMeans(adapter: string)
    ensures forall stage :: stage in StagesOf(adapter) <==> adapter in StageAdapters(stage)
  {
    FilteredMembers(STAGE_IDS, BackedBy(adapter));
    forall stage
      ensures stage in STAGE_IDS
    {
      match stage
      case Planning => assert STAGE_IDS[0] == stage;
      case Beads => assert STAGE_IDS[1] == stage;
      case Swarm => assert STAGE_IDS[2] == stage;
      case Hardening => assert STAGE_IDS[3] == stage;
    }
  }

  method StageForAdapter(adapter: string) returns (stages: seq<StageId>)
    ensures stages == StagesOf(adapter)
    ensures forall stage :: stage in stages <==> adapter in StageAdapters(stage)
  {
    hide StageAdapters;
    stages := [];
    for i := 0 to |STAGE_IDS|
      invariant stages == Filtered(STAGE_IDS[..i], BackedBy(adapter))
    {
      assert STAGE_IDS[..i + 1] == STAGE_IDS[..i] + [STAGE_IDS[i]];
      FilteredAppend(STAGE_IDS[..i], [STAGE_IDS[i]], BackedBy(adapter));
      FilteredOne(STAGE_IDS[i], BackedBy(adapter));
      if adapter in StageAdapters(STAGE_IDS[i]) {
        stages := stages + [STAGE_IDS[i]];
      }
    }
    assert STAGE_IDS[..|STAGE_IDS|] == STAGE_IDS;
    StagesOfMeans(adapter);
  }

  /** The stages of every adapter that has one. */
  lemma StageTable(adapter: string)
    ensures adapter == "oracle" ==> StagesOf(adapter) == [Planning]
    ensures adapter == "agent_mail" ==> StagesOf(adapter) == [Planning, Swarm]
    ensures adapter == "br" || adapter == "bv" ==> StagesOf(adapter) == [Beads]
    ensures adapter == "ntm" || adapter == "caam" ==> StagesOf(adapter) == [Swarm]
    ensures adapter == "ubs" || adapter == "health" ==> StagesOf(adapter) == [Hardening]
    ensures adapter !in ["oracle", "agent_mail", "br", "bv", "ntm", "caam", "ubs", "health"] ==> StagesOf(adapter) == []
  {
    FourStages(adapter);
    StageLists(adapter);
    hide StageAdapters, StagesOf;
  }

  lemma FourStages(adapter: string)
    ensures StagesOf(adapter)
         == (if adapter in StageAdapters(Planning) then [Planning] else [])
            + ((if adapter in StageAdapters(Beads) then [Beads] else [])
            + ((if adapter in StageAdapters(Swarm) then [Swarm] else [])
            + (if adapter in StageAdapters(Hardening) then [Hardening] else [])))
  {
    hide StageAdapters, Filtered;
    assert STAGE_IDS == [Planning] + ([Beads] + ([Swarm] + [Hardening]));
    FilteredFour(Planning, Beads, Swarm, Hardening, BackedBy(adapter));
  }

  lemma FilteredFour(a: StageId, b: StageId, c: StageId, d: StageId, p: StageId -> bool)
    ensures Filtered([a] + ([b] + ([c] + [d])), p)
         == (if p(a) then [a] else []) + ((if p(b) then [b] else [])
            + ((if p(c) then [c] else []) + (if p(d) then [d] else [])))
  {
    hide *;
    FilteredAppend([a], [b] + ([c] + [d]), p);
    FilteredAppend([b], [c] + [d], p);
    FilteredAppend([c], [d], p);
    FilteredOne(a, p);
    FilteredOne(b, p);
    FilteredOne(c, p);
    FilteredOne(d, p);
  }

  lemma StageLists(adapter: string)
    ensures adapter in StageAdapters(Planning) <==> adapter == "oracle" || adapter == "agent_mail"
    ensures adapter in StageAdapters(Beads) <==> adapter == "br" || adapter == "bv"
    ensures adapter in StageAdapters(Swarm) <==> adapter == "ntm" || adapter == "caam" || adapter == "agent_mail"
    ensures adapter in StageAdapters(Hardening) <==> adapter == "ubs" || adapter == "health"
    ensures |"oracle"| == 6 && |"agent_mail"| == 10
  {
  }
}
