/** The tool names the server lists and how a call's name selects a tool; any other name is an error. */
module Tools {
  import opened Wrappers

  datatype Tool =
    | HelloCamp | Preview | Input | Extract | SuggestPatterns | Normalize | Publish
    | AssemblePipeline | Models | ExplainModes | StepTypes

  /** The listed tool names, in listing order. */
  const ListedTools: seq<string> := [
    "hello_camp", "preview", "input", "extract", "suggest_patterns", "normalize", "publish",
    "assemble_pipeline", "models", "explain_modes", "step_types"
  ]

  /** The name under which a tool is listed. */
  function ToolName(t: Tool): (name: string)
    ensures name in ListedTools
  {
    match t
    case HelloCamp => "hello_camp"
    case Preview => "preview"
    case Input => "input"
    case Extract => "extract"
    case SuggestPatterns => "suggest_patterns"
    case Normalize => "normalize"
    case Publish => "publish"
    case AssemblePipeline => "assemble_pipeline"
    case Models => "models"
    case ExplainModes => "explain_modes"
    case StepTypes => "step_types"
  }

  /** The dispatch on a call's name: a listed name selects its tool, any other is "Unknown tool". */
  function ToolNamed(name: string): (r: Result<Tool, string>)
    ensures r.Success? <==> name in ListedTools
    ensures r.Success? ==> ToolName(r.value) == name
    ensures r.Failure? ==> r.error == "Unknown tool: " + name
  {
    if name == "hello_camp" then Success(HelloCamp)
    else if name == "preview" then Success(Preview)
    else if name == "input" then Success(Input)
    else if name == "extract" then Success(Extract)
    else if name == "suggest_patterns" then Success(SuggestPatterns)
    else if name == "normalize" then Success(Normalize)
    else if name == "publish" then Success(Publish)
    else if name == "assemble_pipeline" then Success(AssemblePipeline)
    else if name == "models" then Success(Models)
    else if name == "explain_modes" then Success(ExplainModes)
    else if name == "step_types" then Success(StepTypes)
    else Failure("Unknown tool: " + name)
  }

  /** Every listed tool is reachable by its own name. */
  lemma DispatchRoundTrip(t: Tool)
    ensures ToolNamed(ToolName(t)) == Success(t)
  {
  }
}
