/**
 * `assemble_pipeline`: link the caller's steps into a linear pipeline document. Each step gets
 * a record with a fresh identifier; each record but the last names its successor through a
 * single-next-step rule, back-patched once the successor's identifier is known.
 *
 * The identifier generator is injected: `ids` lists the identifiers it hands out, in the order
 * the assembler asks for them. For step k it asks for the step's own identifier and then, unless
 * the step is the last, for a placeholder successor identifier that the next iteration
 * overwrites. So record k's identifier is ids[2k] and its placeholder ids[2k + 1].
 */
module Assembly {
  import opened Wrappers
  import opened Text

  /** The successor rule of a record. */
  datatype NextStepsRule = NextStepsRule(ruleType: string, nextStep: string, possibleNextSteps: seq<string>)

  /** One record of the pipeline; it does not hold the step's configuration. */
  datatype PipelineStep = PipelineStep(
    pipelineStepId: string,
    stepId: string,
    stepVersionId: string,
    version: string,
    stepType: string,
    attributeOverrides: map<string, string>,
    nextStepsRule: Option<NextStepsRule>)

  /** The pipeline document. */
  datatype Orchestration = Orchestration(
    firstPipelineStepId: Option<string>,
    enableSchedule: bool,
    hoursInterval: int,
    cronError: Option<string>,
    steps: seq<PipelineStep>)

  /** A rule that hands control to exactly `target`. */
  function SingleNext(target: string): NextStepsRule {
    NextStepsRule("singleNextStep", target, [target])
  }

  /** No identifier is handed out twice. */
  predicate Distinct(ids: seq<string>) {
    forall i, j :: 0 <= i < j < |ids| ==> ids[i] != ids[j]
  }

  /** How many identifiers assembling `n` steps asks for: one per step and one placeholder per link. */
  function IdsConsumed(n: nat): nat {
    if n == 0 then 0 else 2 * n - 1
  }

  // ---------------------------------------------------------------------------------------
  // The pipeline document the assembler is meant to build, and its invariant.
  // ---------------------------------------------------------------------------------------

  /** Record k of an n-step pipeline once linked. */
  function LinkedRecord(k: nat, n: nat, ids: seq<string>): PipelineStep
    requires k < n && IdsConsumed(n) <= |ids|
  {
    PipelineStep(
      ids[2 * k], NatToString(k + 1), NatToString(1000 + k), "1", "task", map[],
      if k + 1 < n then Some(SingleNext(ids[2 * k + 2])) else None)
  }

  /** Record k as it stands before its successor exists: linked to its placeholder. */
  function PendingRecord(k: nat, n: nat, ids: seq<string>): PipelineStep
    requires k < n && IdsConsumed(n) <= |ids|
  {
    LinkedRecord(k, n, ids).(nextStepsRule := if k + 1 < n then Some(SingleNext(ids[2 * k + 1])) else None)
  }

  /** The linked chain of n records. */
  function LinkedChain(n: nat, ids: seq<string>): (c: seq<PipelineStep>)
    requires IdsConsumed(n) <= |ids|
    ensures |c| == n
    ensures forall k :: 0 <= k < n ==> c[k] == LinkedRecord(k, n, ids)
  {
    seq(n, k requires 0 <= k < n => LinkedRecord(k, n, ids))
  }

  /** Every record but the last hands control to exactly the next record; the last to none. */
  predicate ChainLinks(s: seq<PipelineStep>) {
    && (forall k :: 0 <= k < |s| - 1 ==> s[k].nextStepsRule == Some(SingleNext(s[k + 1].pipelineStepId)))
    && (s != [] ==> s[|s| - 1].nextStepsRule == None)
  }

  /** No two records share an identifier. */
  predicate UniqueIds(s: seq<PipelineStep>) {
    forall i, j :: 0 <= i < j < |s| ==> s[i].pipelineStepId != s[j].pipelineStepId
  }

  /** The document invariant: first identifier, successor links, terminal step, distinct identifiers. */
  predicate WellLinked(doc: Orchestration) {
    && (doc.steps == [] ==> doc.firstPipelineStepId == None)
    && (doc.steps != [] ==> doc.firstPipelineStepId == Some(doc.steps[0].pipelineStepId))
    && ChainLinks(doc.steps)
    && UniqueIds(doc.steps)
  }

  // ---------------------------------------------------------------------------------------
  // The assembler.
  // ---------------------------------------------------------------------------------------

  /**
   * The assembling loop: a record per step, the previous record's rule back-patched to the
   * new identifier. An empty step list gives an empty document with no first step.
   */
  method AssemblePipeline<T>(steps: seq<T>, ids: seq<string>) returns (doc: Orchestration)
    requires IdsConsumed(|steps|) <= |ids| && Distinct(ids)
    ensures doc.steps == LinkedChain(|steps|, ids)
    ensures doc.firstPipelineStepId == if steps == [] then None else Some(ids[0])
    ensures !doc.enableSchedule && doc.hoursInterval == 24 && doc.cronError == None
    ensures WellLinked(doc)
  {
    var n := |steps|;
    var pipelineSteps: seq<PipelineStep> := [];
    var firstStepId: Option<string> := None;
    var next := 0;  // how many identifiers the generator has handed out
    for idx := 0 to n
      invariant next == if idx == n then IdsConsumed(n) else 2 * idx
      invariant Built(pipelineSteps, idx, n, ids)
      invariant firstStepId == if idx == 0 then None else Some(ids[0])
    {
      var stepId := ids[next];
      next := next + 1;
      if idx == 0 {
        firstStepId := Some(stepId);
      }
      var record := PipelineStep(stepId, NatToString(idx + 1), NatToString(1000 + idx), "1", "task", map[], None);
      if idx < n - 1 {
        var placeholder := ids[next];
        next := next + 1;
        record := record.(nextStepsRule := Some(NextStepsRule("singleNextStep", placeholder, [placeholder])));
      }
      ghost var before := pipelineSteps;
      if idx > 0 {
        var last := pipelineSteps[idx - 1];
        var rule := last.nextStepsRule.value;
        rule := rule.(nextStep := stepId).(possibleNextSteps := [stepId]);
        BackPatchLinks(idx - 1, n, ids);
        pipelineSteps := pipelineSteps[idx - 1 := last.(nextStepsRule := Some(rule))];
      }
      pipelineSteps := pipelineSteps + [record];
      BuiltGrows(before, idx, n, ids);
    }
    BuiltComplete(pipelineSteps, n, ids);
    doc := Orchestration(firstStepId, false, 24, None, pipelineSteps);
    ChainWellLinked(doc, n, ids);
  }

  /** The loop invariant: records 0..idx-2 linked, record idx-1 still pointing at its placeholder. */
  ghost predicate Built(ps: seq<PipelineStep>, idx: nat, n: nat, ids: seq<string>)
  {
    && idx <= n && IdsConsumed(n) <= |ids| && |ps| == idx
    && (forall k :: 0 <= k < idx - 1 ==> ps[k] == LinkedRecord(k, n, ids))
    && (0 < idx ==> ps[idx - 1] == PendingRecord(idx - 1, n, ids))
  }

  /** One iteration: back-patch the pending record, then append the new one, still pending. */
  lemma BuiltGrows(ps: seq<PipelineStep>, idx: nat, n: nat, ids: seq<string>)
    requires Built(ps, idx, n, ids) && idx < n
    ensures var patched := if idx == 0 then ps else ps[idx - 1 := LinkedRecord(idx - 1, n, ids)];
      Built(patched + [PendingRecord(idx, n, ids)], idx + 1, n, ids)
  {
  }

  /** After the last iteration the records are exactly the linked chain. */
  lemma BuiltComplete(ps: seq<PipelineStep>, n: nat, ids: seq<string>)
    requires Built(ps, n, n, ids)
    ensures ps == LinkedChain(n, ids)
  {
    if n > 0 {
      assert ps[n - 1] == LinkedRecord(n - 1, n, ids);
    }
  }

  /** Overwriting a pending record's placeholder with its successor's identifier links it. */
  lemma BackPatchLinks(k: nat, n: nat, ids: seq<string>)
    requires k + 1 < n && IdsConsumed(n) <= |ids|
    ensures var pending := PendingRecord(k, n, ids);
      && pending.nextStepsRule.Some?
      && pending.(nextStepsRule := Some(pending.nextStepsRule.value.(nextStep := ids[2 * k + 2]).(possibleNextSteps := [ids[2 * k + 2]])))
         == LinkedRecord(k, n, ids)
  {
  }

  // ---------------------------------------------------------------------------------------
  // What the linked chain promises.
  // ---------------------------------------------------------------------------------------

  /** With distinct identifiers, the chain satisfies the document invariant. */
  lemma ChainWellLinked(doc: Orchestration, n: nat, ids: seq<string>)
    requires IdsConsumed(n) <= |ids| && Distinct(ids)
    requires doc.steps == LinkedChain(n, ids)
    requires doc.firstPipelineStepId == if n == 0 then None else Some(ids[0])
    ensures WellLinked(doc)
  {
    var c := doc.steps;
    forall k | 0 <= k < n - 1
      ensures c[k].nextStepsRule == Some(SingleNext(c[k + 1].pipelineStepId))
    {
      assert c[k] == LinkedRecord(k, n, ids);
      assert c[k + 1] == LinkedRecord(k + 1, n, ids);
    }
    forall i, j | 0 <= i < j < n
      ensures c[i].pipelineStepId != c[j].pipelineStepId
    {
      assert c[i] == LinkedRecord(i, n, ids);
      assert c[j] == LinkedRecord(j, n, ids);
    }
    if n > 0 {
      assert c[0] == LinkedRecord(0, n, ids);
      assert c[n - 1] == LinkedRecord(n - 1, n, ids);
    }
  }

  /** No placeholder survives: every link and every record identifier is a step's own identifier. */
  lemma NoPlaceholderSurvives(n: nat, ids: seq<string>, k: nat, p: nat)
    requires IdsConsumed(n) <= |ids| && Distinct(ids)
    requires k < n && p + 1 < n
    ensures LinkedChain(n, ids)[k].pipelineStepId != ids[2 * p + 1]
    ensures LinkedChain(n, ids)[k].nextStepsRule != None ==>
              LinkedChain(n, ids)[k].nextStepsRule.value.nextStep != ids[2 * p + 1] &&
              ids[2 * p + 1] !in LinkedChain(n, ids)[k].nextStepsRule.value.possibleNextSteps
  {
  }

  /** The sequential step and version numbers: "1", "2", ... and "1000", "1001", ..., none repeated. */
  lemma StepNumbersDistinct(n: nat, ids: seq<string>, i: nat, j: nat)
    requires IdsConsumed(n) <= |ids| && i < j < n
    ensures LinkedChain(n, ids)[i].stepId != LinkedChain(n, ids)[j].stepId
    ensures LinkedChain(n, ids)[i].stepVersionId != LinkedChain(n, ids)[j].stepVersionId
  {
    if NatToString(i + 1) == NatToString(j + 1) {
      NatToStringInjective(i + 1, j + 1);
    }
    if NatToString(1000 + i) == NatToString(1000 + j) {
      NatToStringInjective(1000 + i, 1000 + j);
    }
  }

  // ---------------------------------------------------------------------------------------
  // Following the links.
  // ---------------------------------------------------------------------------------------

  /** The position of the first record with identifier `id`. */
  function IndexOfId(s: seq<PipelineStep>, id: string): (r: Option<nat>)
    ensures r != None ==> r.value < |s| && s[r.value].pipelineStepId == id
    ensures r != None ==> forall i :: 0 <= i < r.value ==> s[i].pipelineStepId != id
    ensures r == None ==> forall i :: 0 <= i < |s| ==> s[i].pipelineStepId != id
  {
    if s == [] then None
    else if s[0].pipelineStepId == id then Some(0)
    else match IndexOfId(s[1..], id)
      case None => None
      case Some(i) => Some(i + 1)
  }

  /**
   * The identifiers a runner visits starting at `id`, taking at most `fuel` steps: it looks up
   * the record, then follows its rule, and stops at a record without one.
   */
  function Walk(s: seq<PipelineStep>, id: string, fuel: nat): seq<string>
    decreases fuel
  {
    if fuel == 0 then []
    else match IndexOfId(s, id)
      case None => []
      case Some(k) =>
        [id] + match s[k].nextStepsRule
          case None => []
          case Some(rule) => Walk(s, rule.nextStep, fuel - 1)
  }

  /** The identifiers of the records, in order. */
  function IdsOf(s: seq<PipelineStep>): (r: seq<string>)
    ensures |r| == |s| && forall k :: 0 <= k < |s| ==> r[k] == s[k].pipelineStepId
  {
    seq(|s|, k requires 0 <= k < |s| => s[k].pipelineStepId)
  }

  /** With distinct identifiers, looking up record k's identifier finds record k. */
  lemma IndexOfDistinct(s: seq<PipelineStep>, k: nat)
    requires k < |s| && UniqueIds(s)
    ensures IndexOfId(s, s[k].pipelineStepId) == Some(k)
  {
  }

  /** One step of a walk from record k: visit it, then follow its rule, if any. */
  lemma WalkStep(s: seq<PipelineStep>, k: nat, fuel: nat)
    requires k < |s| && UniqueIds(s) && 0 < fuel
    ensures s[k].nextStepsRule == None ==> Walk(s, s[k].pipelineStepId, fuel) == [s[k].pipelineStepId]
    ensures s[k].nextStepsRule != None ==>
      Walk(s, s[k].pipelineStepId, fuel) == [s[k].pipelineStepId] + Walk(s, s[k].nextStepsRule.value.nextStep, fuel - 1)
  {
    IndexOfDistinct(s, k);
  }

  /** From record k of a linked chain, any walk long enough visits records k, k+1, ... and stops. */
  lemma {:induction false} WalkFrom(s: seq<PipelineStep>, k: nat, fuel: nat)
    requires ChainLinks(s) && UniqueIds(s) && k < |s| && |s| - k <= fuel
    ensures Walk(s, s[k].pipelineStepId, fuel) == IdsOf(s)[k..]
    decreases |s| - k
  {
    var ids := IdsOf(s);
    assert ids[k..] == [ids[k]] + ids[k + 1..];
    WalkStep(s, k, fuel);
    if k + 1 < |s| {
      assert s[k].nextStepsRule == Some(SingleNext(s[k + 1].pipelineStepId));
      WalkFrom(s, k + 1, fuel - 1);
    } else {
      assert s[k].nextStepsRule == None;
    }
  }

  /**
   * Following the links from the first identifier visits every record exactly once, in order,
   * and ends at the last record, which has no successor.
   */
  lemma WalkVisitsEveryStepOnce(doc: Orchestration, fuel: nat)
    requires WellLinked(doc) && doc.steps != [] && |doc.steps| <= fuel
    ensures Walk(doc.steps, doc.firstPipelineStepId.value, fuel) == IdsOf(doc.steps)
    ensures forall i, j :: 0 <= i < j < |doc.steps| ==> IdsOf(doc.steps)[i] != IdsOf(doc.steps)[j]
    ensures doc.steps[|doc.steps| - 1].nextStepsRule == None
  {
    WalkFrom(doc.steps, 0, fuel);
    assert IdsOf(doc.steps)[0..] == IdsOf(doc.steps);
  }
}
