/**
 * The reference catalog: the constant tables of models, step types, operation modes and
 * default tables, and the two read-only queries over them (the `models` listing and the
 * `explain_modes` lookup).
 */
module Catalog {
  import opened Wrappers

  /** One available extraction model: its name, the number of pipelines using it, and a blurb. */
  datatype ModelEntry = ModelEntry(name: string, usage: nat, description: string)

  /** The model table, in authoring order. */
  const AvailableModels: seq<ModelEntry> := [
    ModelEntry("gpt-4o", 38, "Most popular - General purpose, good quality"),
    ModelEntry("gpt-5", 19, "Advanced model, higher quality"),
    ModelEntry("gpt-5-mini", 12, "Faster, cost-effective"),
    ModelEntry("gpt-4.1", 9, "Stable version"),
    ModelEntry("o3", 8, "Reasoning model"),
    ModelEntry("gpt-4.1-2025-04-14", 19, "GPT-4.1 dated version"),
    ModelEntry("gpt-5-2025-08-07", 7, "GPT-5 dated version"),
    ModelEntry("gemini-2.0-flash-finetuned-ave-1.0", 3, "Fine-tuned Gemini"),
    ModelEntry("gpt-5.2", 3, "GPT-5.2 advanced"),
    ModelEntry("gpt-4.1-mini", 2, "Smaller GPT-4.1"),
    ModelEntry("gpt-4o-mini", 2, "Smaller GPT-4o"),
    ModelEntry("gemini-2.5-pro", 2, "Latest Gemini pro"),
    ModelEntry("gemini-2.0-flash-001", 1, "Gemini flash"),
    ModelEntry("o4-mini-2025-04-16", 1, "O4 mini"),
    ModelEntry("claude-sonnet-4", 1, "Anthropic Claude"),
    ModelEntry("gpt-5-nano", 1, "Smallest GPT-5")
  ]

  /** The step-type table, in authoring order: type name and description. */
  const StepTypes: seq<(string, string)> := [
    ("SnowflakeQueryInput", "INPUT - Query Snowflake for product data"),
    ("LLMPromptTemplate", "EXTRACTION_MODEL - Use LLM to extract attributes"),
    ("Regex", "NORMALIZATION - Apply regex transformations"),
    ("PublishToSnowflake", "PUBLISH - Write results back to catalog"),
    ("QAS", "AUDIT - Quality assurance step"),
    ("DataBridge", "API_SERVICE - Call external APIs")
  ]

  /** The operation-mode table. */
  const OperationModes: map<string, string> := map[
    "sync" := "Synchronous execution - Processes immediately, good for testing",
    "batch" := "Batch execution - Queues for later processing, cost-efficient for production",
    "null" := "No mode specified - Uses pipeline-level default"
  ]

  /** The product table, the default source of the input step. */
  const ProductTable: string := "catalog.external_interfaces.current_flattened_ml_products_view"

  /** The default-table table. */
  const DefaultTables: map<string, string> := map[
    "product" := ProductTable,
    "retailer" := "catalog.catalog.retailer_view",
    "store" := "catalog.catalog.store_view"
  ]

  /** The text `explain_modes` gives for a mode the table does not know. */
  const UnknownMode: string := "Unknown mode"

  /** The fixed usage statistics `explain_modes` reports for "all": a label and a pipeline count. */
  const ModeUsage: seq<(string, nat)> := [
    ("null/null", 59),
    ("sync/sync", 38),
    ("batch/sync", 20),
    ("batch/batch", 10)
  ]

  // ---------------------------------------------------------------------------------------
  // The `models` listing: Python's stable `sorted(..., key=usage, reverse=True)`.
  // ---------------------------------------------------------------------------------------

  /** Usage never increases from left to right. */
  predicate NonIncreasing(s: seq<ModelEntry>) {
    forall i, j :: 0 <= i < j < |s| ==> s[i].usage >= s[j].usage
  }

  /** The entries of `s` whose usage is `u`, in their order in `s`. */
  function WithUsage(s: seq<ModelEntry>, u: nat): seq<ModelEntry> {
    if s == [] then []
    else (if s[0].usage == u then [s[0]] else []) + WithUsage(s[1..], u)
  }

  /**
   * Insert `x` into a listing ordered by non-increasing usage, in front of every entry with
   * the same usage: `x` stands earlier in the input than all of them.
   */
  function InsertByUsage(x: ModelEntry, s: seq<ModelEntry>): (r: seq<ModelEntry>)
    requires NonIncreasing(s)
    ensures NonIncreasing(r)
    ensures multiset(r) == multiset(s) + multiset{x}
    ensures forall e :: e in r ==> e == x || e in s
  {
    if s == [] || x.usage >= s[0].usage then [x] + s
    else
      var rest := InsertByUsage(x, s[1..]);
      assert s == [s[0]] + s[1..];
      PrependKeepsOrder(x, s, rest);
      [s[0]] + rest
  }

  /** The head of a listing goes in front of the insertion into its tail without breaking the order. */
  lemma PrependKeepsOrder(x: ModelEntry, s: seq<ModelEntry>, rest: seq<ModelEntry>)
    requires NonIncreasing(s) && s != [] && x.usage < s[0].usage
    requires NonIncreasing(rest) && forall e :: e in rest ==> e == x || e in s[1..]
    ensures NonIncreasing([s[0]] + rest)
  {
    forall e | e in rest
      ensures e.usage <= s[0].usage
    {
      if e != x {
        var k :| 0 <= k < |s[1..]| && s[1..][k] == e;
        assert s[k + 1] == e;
      }
    }
    var r := [s[0]] + rest;
    forall i, j | 0 <= i < j < |r|
      ensures r[i].usage >= r[j].usage
    {
      assert r[j] == rest[j - 1] && rest[j - 1] in rest;
      if 0 < i {
        assert r[i] == rest[i - 1];
      }
    }
  }

  /** Python's stable descending sort on usage, as an insertion sort. */
  function SortByUsageDesc(s: seq<ModelEntry>): (r: seq<ModelEntry>)
    ensures NonIncreasing(r)
    ensures multiset(r) == multiset(s)
  {
    if s == [] then []
    else
      assert s == [s[0]] + s[1..];
      InsertByUsage(s[0], SortByUsageDesc(s[1..]))
  }

  lemma {:induction false} WithUsageCons(x: ModelEntry, s: seq<ModelEntry>, u: nat)
    ensures WithUsage([x] + s, u) == (if x.usage == u then [x] else []) + WithUsage(s, u)
  {
    assert ([x] + s)[1..] == s;
  }

  /** Inserting keeps, among entries of one usage, `x` first and the rest in their order. */
  lemma {:induction false} InsertKeepsTies(x: ModelEntry, s: seq<ModelEntry>, u: nat)
    requires NonIncreasing(s)
    ensures WithUsage(InsertByUsage(x, s), u) == (if x.usage == u then [x] else []) + WithUsage(s, u)
  {
    if s == [] || x.usage >= s[0].usage {
      WithUsageCons(x, s, u);
    } else {
      var rest := InsertByUsage(x, s[1..]);
      WithUsageCons(s[0], rest, u);
      InsertKeepsTies(x, s[1..], u);
      WithUsageCons(s[0], s[1..], u);
      assert [s[0]] + s[1..] == s;
    }
  }

  /** The sort is stable: entries of equal usage keep their input order. */
  lemma {:induction false} SortIsStable(s: seq<ModelEntry>, u: nat)
    ensures WithUsage(SortByUsageDesc(s), u) == WithUsage(s, u)
  {
    if s != [] {
      SortIsStable(s[1..], u);
      InsertKeepsTies(s[0], SortByUsageDesc(s[1..]), u);
      WithUsageCons(s[0], s[1..], u);
      assert [s[0]] + s[1..] == s;
    }
  }

  /** The `models` listing: every catalog entry once, by non-increasing usage. */
  function ModelsListing(): (r: seq<ModelEntry>)
    ensures NonIncreasing(r)
    ensures multiset(r) == multiset(AvailableModels)
  {
    SortByUsageDesc(AvailableModels)
  }

  /** Ties in the listing (gpt-5 and gpt-4.1-2025-04-14 at 19, ...) keep the catalog's order. */
  lemma ModelsListingStable(u: nat)
    ensures WithUsage(ModelsListing(), u) == WithUsage(AvailableModels, u)
  {
    SortIsStable(AvailableModels, u);
  }

  /**
   * Any listing of `s` by non-increasing usage (the sort's result in particular) starts with
   * the entry, wherever it stands in `s`, whose usage no other entry reaches.
   */
  lemma UniqueMaximumListedFirst(s: seq<ModelEntry>, r: seq<ModelEntry>, m: nat)
    requires m < |s|
    requires forall e :: e in s && e != s[m] ==> e.usage < s[m].usage
    requires NonIncreasing(r) && multiset(r) == multiset(s)
    ensures r != [] && r[0] == s[m]
  {
    assert s[m] in multiset(s);
    assert s[m] in multiset(r);
    var j :| 0 <= j < |r| && r[j] == s[m];
    assert r[0] in multiset(s);
  }

  /** gpt-4o, the catalog's first entry, is used more than any other model. */
  lemma CatalogMostUsed()
    ensures AvailableModels[0].name == "gpt-4o"
    ensures forall e :: e in AvailableModels && e != AvailableModels[0] ==> e.usage < AvailableModels[0].usage
  {
  }

  /** So gpt-4o heads the `models` listing. */
  lemma CatalogMostUsedIsFirst(r: seq<ModelEntry>)
    requires NonIncreasing(r) && multiset(r) == multiset(AvailableModels)
    ensures r != [] && r[0].name == "gpt-4o"
  {
    CatalogMostUsed();
    UniqueMaximumListedFirst(AvailableModels, r, 0);
  }

  /** The `models` listing starts with gpt-4o. */
  lemma ModelsListingHead()
    ensures ModelsListing() != [] && ModelsListing()[0].name == "gpt-4o"
  {
    CatalogMostUsedIsFirst(ModelsListing());
  }

  // ---------------------------------------------------------------------------------------
  // The `explain_modes` lookup.
  // ---------------------------------------------------------------------------------------

  /** What `explain_modes` reports: every mode with its statistics, or one mode's description. */
  datatype ModesReport =
    | AllModes(descriptions: seq<(string, string)>, usage: seq<(string, nat)>)
    | OneMode(mode: string, description: string)

  /** `explain_modes`: `mode` defaults to "all"; an unknown mode reads "Unknown mode". */
  function ExplainModes(mode: Option<string>): (r: ModesReport)
    ensures r.AllModes? <==> mode.GetOr("all") == "all"
    ensures r.AllModes? ==> |r.descriptions| == |OperationModes| && r.usage == ModeUsage
    ensures r.AllModes? ==> (set i | 0 <= i < |r.descriptions| :: r.descriptions[i].0) == OperationModes.Keys
    ensures r.AllModes? ==> r.descriptions[0].0 == "sync" && r.descriptions[1].0 == "batch" && r.descriptions[2].0 == "null"
    ensures r.AllModes? ==> forall i :: 0 <= i < |r.descriptions| ==>
              r.descriptions[i].0 in OperationModes && r.descriptions[i].1 == OperationModes[r.descriptions[i].0]
    ensures r.OneMode? ==> r.mode == mode.GetOr("all")
    ensures r.OneMode? ==> (r.description == UnknownMode <==> r.mode !in OperationModes)
    ensures r.OneMode? && r.mode in OperationModes ==> r.description == OperationModes[r.mode]
  {
    var m := mode.GetOr("all");
    if m == "all" then
      var descriptions :=
        [("sync", OperationModes["sync"]), ("batch", OperationModes["batch"]), ("null", OperationModes["null"])];
      assert OperationModes.Keys == {"sync", "batch", "null"};
      assert (set i | 0 <= i < |descriptions| :: descriptions[i].0) == {"sync", "batch", "null"} by {
        assert descriptions[0].0 == "sync" && descriptions[1].0 == "batch" && descriptions[2].0 == "null";
      }
      AllModes(descriptions, ModeUsage)
    else
      OneMode(m, if m in OperationModes then OperationModes[m] else UnknownMode)
  }
}
