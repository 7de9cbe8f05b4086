/**
 * `preview`: the pipeline diagram, kept as the ordered list of sections the renderer appends
 * (not the box-drawing text), and the step count shown beside it.
 */
module PipelinePreview {
  import opened Wrappers

  /** The sections the diagram is built from. InputExtract draws two boxes side by side. */
  datatype Section = Banner | InputExtract | NormalizeBox | AuditBox | PublishBox

  /** The pipeline stages the boxes stand for. */
  datatype Stage = Input | Extract | Normalize | Audit | Publish

  /** Where a section may stand: the renderer appends sections in this order. */
  function Rank(s: Section): nat {
    match s
    case Banner => 0
    case InputExtract => 1
    case NormalizeBox => 2
    case AuditBox => 3
    case PublishBox => 4
  }

  /** The stages one section draws. */
  function Boxes(s: Section): seq<Stage> {
    match s
    case Banner => []
    case InputExtract => [Input, Extract]
    case NormalizeBox => [Normalize]
    case AuditBox => [Audit]
    case PublishBox => [Publish]
  }

  /** The stages drawn by a list of sections, in order. */
  function StagesOf(d: seq<Section>): seq<Stage> {
    if d == [] then [] else Boxes(d[0]) + StagesOf(d[1..])
  }

  /** The renderer: banner, input and extract, the optional normalize and audit sections, publish last. */
  method GenerateDiagram(includeNormalize: bool, includeAudit: bool) returns (d: seq<Section>)
    ensures |d| >= 3 && d[0] == Banner && d[1] == InputExtract && d[|d| - 1] == PublishBox
    ensures NormalizeBox in d <==> includeNormalize
    ensures AuditBox in d <==> includeAudit
    ensures forall i, j :: 0 <= i < j < |d| ==> Rank(d[i]) < Rank(d[j])
    ensures |StagesOf(d)| == 3 + (if includeNormalize then 1 else 0) + (if includeAudit then 1 else 0)
  {
    d := [Banner];
    assert StagesOf(d) == [] by {
      assert d[1..] == [];
    }
    d := Append(d, InputExtract);
    if includeNormalize {
      d := Append(d, NormalizeBox);
    }
    if includeAudit {
      d := Append(d, AuditBox);
    }
    d := Append(d, PublishBox);
    DiagramShape(includeNormalize, includeAudit, d);
  }

  /** The section layouts the renderer can produce, in order. */
  lemma DiagramShape(n: bool, a: bool, d: seq<Section>)
    requires d == [Banner, InputExtract] + (if n then [NormalizeBox] else []) + (if a then [AuditBox] else []) + [PublishBox]
    ensures |d| >= 3 && d[0] == Banner && d[1] == InputExtract && d[|d| - 1] == PublishBox
    ensures NormalizeBox in d <==> n
    ensures AuditBox in d <==> a
    ensures forall i, j :: 0 <= i < j < |d| ==> Rank(d[i]) < Rank(d[j])
  {
    if n && a {
      assert d == [Banner, InputExtract, NormalizeBox, AuditBox, PublishBox];
    } else if n {
      assert d == [Banner, InputExtract, NormalizeBox, PublishBox];
    } else if a {
      assert d == [Banner, InputExtract, AuditBox, PublishBox];
    } else {
      assert d == [Banner, InputExtract, PublishBox];
    }
  }

  /** The renderer's `diagram +=`: one more section, drawing its stages after the others. */
  method Append(d: seq<Section>, s: Section) returns (e: seq<Section>)
    ensures e == d + [s]
    ensures StagesOf(e) == StagesOf(d) + Boxes(s)
    ensures |StagesOf(e)| == |StagesOf(d)| + |Boxes(s)|
  {
    e := d + [s];
    StagesOfAppend(d, [s]);
    assert StagesOf([s]) == Boxes(s) by {
      assert [s][1..] == [];
    }
  }

  /** The stages of appended sections are the stages of each part, appended. */
  lemma {:induction false} StagesOfAppend(d: seq<Section>, e: seq<Section>)
    ensures StagesOf(d + e) == StagesOf(d) + StagesOf(e)
  {
    if d == [] {
      assert d + e == e;
    } else {
      assert (d + e)[1..] == d[1..] + e;
      StagesOfAppend(d[1..], e);
    }
  }

  datatype PreviewArgs = PreviewArgs(
    description: string,
    attributeName: string,
    includeNormalize: Option<bool>,
    includeAudit: Option<bool>)

  /** What the preview reports: the step total and the diagram. */
  datatype PreviewOutcome = PreviewOutcome(stepCount: nat, diagram: seq<Section>)

  /** The `preview` tool: the step total is three plus one per optional stage, the number of boxes drawn. */
  method Preview(args: PreviewArgs) returns (r: PreviewOutcome)
    ensures var n, a := args.includeNormalize.GetOr(false), args.includeAudit.GetOr(false);
      && 3 <= r.stepCount <= 5
      && r.stepCount == 3 + (if n then 1 else 0) + (if a then 1 else 0)
      && (NormalizeBox in r.diagram <==> n)
      && (AuditBox in r.diagram <==> a)
    ensures r.stepCount == |StagesOf(r.diagram)|
    ensures forall i, j :: 0 <= i < j < |r.diagram| ==> Rank(r.diagram[i]) < Rank(r.diagram[j])
  {
    var includeNormalize := args.includeNormalize.GetOr(false);
    var includeAudit := args.includeAudit.GetOr(false);
    var diagram := GenerateDiagram(includeNormalize, includeAudit);
    var stepCount := 2;
    if includeNormalize {
      stepCount := stepCount + 1;
    }
    if includeAudit {
      stepCount := stepCount + 1;
    }
    stepCount := stepCount + 1;
    r := PreviewOutcome(stepCount, diagram);
  }
}
