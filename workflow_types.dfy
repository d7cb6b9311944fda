/**
 * The `WorkflowType` enum and the workflow presets built from it. The enum
 * values are those of `WorkflowType` in src/services/workflow-factory.ts.
 */
module WorkflowTypes {
  import WorkflowDashboard

  const WeixinArticle: string := "weixin-article-workflow"
  const WeixinAIBench: string := "weixin-aibench-workflow"
  const WeixinHelloGithub: string := "weixin-hellogithub-workflow"

  /** The values of the enum, in declaration order. */
  const WorkflowTypeValues: seq<string> := [WeixinArticle, WeixinAIBench, WeixinHelloGithub]

  /** `WORKFLOW_PRESETS`, one entry per enum value in the same order. */
  const Presets: seq<WorkflowDashboard.Preset> := WorkflowDashboard.WorkflowPresets(WeixinArticle, WeixinAIBench, WeixinHelloGithub)

  /** The presets have the enum's values as ids, so no two presets share an id. */
  lemma PresetIdsDistinct()
    ensures |Presets| == |WorkflowTypeValues|
    ensures forall i :: 0 <= i < |Presets| ==> Presets[i].id == WorkflowTypeValues[i]
    ensures forall i, j :: 0 <= i < j < |Presets| ==> Presets[i].id != Presets[j].id
  {
  }
}
