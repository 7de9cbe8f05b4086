/**
 * The four step generators: `input`, `extract`, `normalize` and `publish`. Each builds one
 * step-configuration record from the caller's arguments, filling absent arguments with the
 * tool's defaults, and reports the count its confirmation line mentions.
 */
module Generators {
  import opened Wrappers
  import opened Json
  import Catalog

  // ---------------------------------------------------------------------------------------
  // input
  // ---------------------------------------------------------------------------------------

  /** Arguments of `input`; `None` is an absent key. */
  datatype InputArgs = InputArgs(
    attributeName: string,
    table: Option<string>,
    idColumn: Option<string>,
    limit: Option<int>,
    useDeduplication: Option<bool>)

  datatype InputConfig = InputConfig(
    query: string,
    limit: int,
    useDeduplication: bool,
    deduplicationFields: seq<string>,
    rankingField: string,
    useRanking: bool)

  /** The step record with the table and id column its confirmation line names. */
  datatype InputOutcome = InputOutcome(config: InputConfig, table: string, idColumn: string)

  const DefaultIdColumn: string := "PRODUCT_ID"
  const DefaultLimit: int := 1000

  /** The query's opening, up to the quote before the attribute name. */
  function QueryHead(idColumn: string): string {
    "SELECT\n    " + idColumn + " AS entity_id,\n    '"
  }

  /**
   * The query template: it selects the id column as `entity_id`, then the attribute name between
   * quotes as `entity_type`, then every column, from the table, which ends the text.
   */
  function QueryText(idColumn: string, attributeName: string, table: string): (q: string)
    ensures QueryHead(idColumn) <= q
    ensures var h := |QueryHead(idColumn)|;
      |q| > h + |attributeName| && q[h..h + |attributeName|] == attributeName && q[h + |attributeName|] == '\''
    ensures |q| >= |table| + 5 && q[|q| - |table| - 5..] == "FROM " + table
  {
    QueryHead(idColumn) + attributeName + "' AS entity_type,\n    *\nFROM " + table
  }

  /** The `input` tool. No argument is validated: any limit passes through. */
  function Input(args: InputArgs): (r: InputOutcome)
    ensures r.table == args.table.GetOr(Catalog.ProductTable)
    ensures r.idColumn == args.idColumn.GetOr(DefaultIdColumn)
    ensures r.config.query == QueryText(r.idColumn, args.attributeName, r.table)
    ensures r.config.limit == args.limit.GetOr(DefaultLimit)
    ensures r.config.useDeduplication == args.useDeduplication.GetOr(true)
    ensures r.config.useDeduplication ==> r.config.deduplicationFields == [r.idColumn]
    ensures !r.config.useDeduplication <==> r.config.deduplicationFields == []
    ensures !r.config.useRanking && r.config.rankingField == ""
  {
    var table := args.table.GetOr(Catalog.ProductTable);
    var idColumn := args.idColumn.GetOr(DefaultIdColumn);
    var dedup := args.useDeduplication.GetOr(true);
    InputOutcome(
      InputConfig(
        QueryText(idColumn, args.attributeName, table),
        args.limit.GetOr(DefaultLimit),
        dedup,
        if dedup then [idColumn] else [],
        "",
        false),
      table,
      idColumn)
  }

  /** With only the attribute name given: the product view keyed by PRODUCT_ID, 1000 rows, deduplicated on the key. */
  lemma InputDefaults(attributeName: string)
    ensures var r := Input(InputArgs(attributeName, None, None, None, None));
      && r.table == Catalog.DefaultTables["product"]
      && r.idColumn == "PRODUCT_ID"
      && r.config.limit == 1000
      && r.config.useDeduplication
      && r.config.deduplicationFields == ["PRODUCT_ID"]
  {
  }

  // ---------------------------------------------------------------------------------------
  // extract
  // ---------------------------------------------------------------------------------------

  /** Arguments of `extract`; `None` is an absent key. The properties are opaque JSON objects. */
  datatype ExtractArgs = ExtractArgs(
    attributeName: string,
    prompt: string,
    model: Option<string>,
    properties: Option<seq<Json>>,
    productionMode: Option<string>,
    testMode: Option<string>)

  datatype ExtractConfig = ExtractConfig(
    model: string,
    prompt: string,
    properties: seq<Json>,
    costAttributionSourceId: string,
    flattenOutput: bool,
    productionOperationModel: Option<string>,
    testOperationModel: string,
    outputPrefix: string,
    usePrefix: bool)

  /** The step record with the number of fields its confirmation line reports. */
  datatype ExtractOutcome = ExtractOutcome(config: ExtractConfig, fieldCount: nat)

  const DefaultModel: string := "gpt-5-mini"

  /** The production mode as stored: the text "null" means no mode. */
  function ProductionModeOf(mode: string): (m: Option<string>)
    ensures m == None <==> mode == "null"
    ensures m != None ==> m.value == mode
  {
    if mode != "null" then Some(mode) else None
  }

  /** The test mode as stored: the text "null" falls back to "sync". */
  function TestModeOf(mode: string): (m: string)
    ensures m != "null"
    ensures mode != "null" ==> m == mode
    ensures mode == "null" ==> m == "sync"
  {
    if mode != "null" then mode else "sync"
  }

  /** The `extract` tool. Neither the model nor the properties are validated. */
  function Extract(args: ExtractArgs): (r: ExtractOutcome)
    ensures r.config.model == args.model.GetOr(DefaultModel)
    ensures r.config.prompt == args.prompt
    ensures r.config.properties == args.properties.GetOr([])
    ensures r.fieldCount == |r.config.properties|
    ensures r.config.productionOperationModel == None <==> args.productionMode == Some("null")
    ensures r.config.productionOperationModel != None ==>
              r.config.productionOperationModel.value == args.productionMode.GetOr("batch")
    ensures r.config.testOperationModel == (if args.testMode == Some("null") then "sync" else args.testMode.GetOr("sync"))
    ensures r.config.productionOperationModel != Some("null") && r.config.testOperationModel != "null"
    ensures r.config.costAttributionSourceId == "catalog-ops" && r.config.flattenOutput
    ensures r.config.outputPrefix == "" && !r.config.usePrefix
  {
    var properties := args.properties.GetOr([]);
    ExtractOutcome(
      ExtractConfig(
        args.model.GetOr(DefaultModel),
        args.prompt,
        properties,
        "catalog-ops",
        true,
        ProductionModeOf(args.productionMode.GetOr("batch")),
        TestModeOf(args.testMode.GetOr("sync")),
        "",
        false),
      |properties|)
  }

  /** With only the attribute name and prompt: gpt-5-mini, no properties, batch in production, sync in test. */
  lemma ExtractDefaults(attributeName: string, prompt: string)
    ensures var r := Extract(ExtractArgs(attributeName, prompt, None, None, None, None));
      && r.config.model == "gpt-5-mini"
      && r.config.properties == [] && r.fieldCount == 0
      && r.config.productionOperationModel == Some("batch")
      && r.config.testOperationModel == "sync"
  {
  }

  /** The default model is in the catalog, but it is not the most used one (gpt-4o is). */
  lemma DefaultModelIsCataloguedButNotMostUsed()
    ensures exists e :: e in Catalog.AvailableModels && e.name == DefaultModel
    ensures forall e :: e in Catalog.AvailableModels && e.name == DefaultModel ==>
              e.usage < Catalog.AvailableModels[0].usage
  {
    assert Catalog.AvailableModels[2].name == DefaultModel;
  }

  // ---------------------------------------------------------------------------------------
  // normalize
  // ---------------------------------------------------------------------------------------

  /** One caller pattern: its `match` and `replace` texts and an optional `isDefault`; other keys are ignored. */
  datatype PatternArg = PatternArg(pattern: string, replacement: string, isDefault: Option<bool>)

  /** One rule of a mutation, in the platform's format. */
  datatype Rule = Rule(pattern: string, replacement: string, isDefault: bool)

  /** A mutation: the rules applied in order, reading one field and writing another. */
  datatype Mutation = Mutation(inputField: string, outputField: string, rules: seq<Rule>)

  datatype NormalizeConfig = NormalizeConfig(mutations: seq<Mutation>)

  /** The step record with the number of rules its confirmation line reports. */
  datatype NormalizeOutcome = NormalizeOutcome(config: NormalizeConfig, ruleCount: nat)

  /** A caller pattern as a rule: the texts copied, `isDefault` false unless given. */
  function ToRule(p: PatternArg): (r: Rule)
    ensures r.pattern == p.pattern && r.replacement == p.replacement
    ensures r.isDefault <==> p.isDefault == Some(true)
  {
    Rule(p.pattern, p.replacement, p.isDefault.GetOr(false))
  }

  /** The conversion loop: one rule per pattern, in the patterns' order. */
  method ConvertPatterns(patterns: seq<PatternArg>) returns (rules: seq<Rule>)
    ensures |rules| == |patterns|
    ensures forall i :: 0 <= i < |patterns| ==> rules[i] == ToRule(patterns[i])
  {
    rules := [];
    for i := 0 to |patterns|
      invariant |rules| == i
      invariant forall k :: 0 <= k < i ==> rules[k] == ToRule(patterns[k])
    {
      rules := rules + [ToRule(patterns[i])];
    }
  }

  /** The `normalize` tool: a single mutation from `value` to `normalized_value`. */
  method Normalize(attributeName: string, patterns: seq<PatternArg>) returns (r: NormalizeOutcome)
    ensures |r.config.mutations| == 1
    ensures r.config.mutations[0].inputField == "value"
    ensures r.config.mutations[0].outputField == "normalized_value"
    ensures |r.config.mutations[0].rules| == |patterns| == r.ruleCount
    ensures forall i :: 0 <= i < |patterns| ==> r.config.mutations[0].rules[i] == ToRule(patterns[i])
  {
    var rules := ConvertPatterns(patterns);
    r := NormalizeOutcome(NormalizeConfig([Mutation("value", "normalized_value", rules)]), |rules|);
  }

  // ---------------------------------------------------------------------------------------
  // publish
  // ---------------------------------------------------------------------------------------

  /** One published field: the catalog attribute, the pipeline field it takes, and whether it is required. */
  datatype Mapping = Mapping(attributeName: string, campField: string, required: bool)

  datatype PublishConfig = PublishConfig(
    data: seq<Mapping>,
    productIdField: string,
    retailerIdField: string,
    localeField: string,
    useRetailerId: bool,
    useLocale: bool)

  /** The step record with the number of fields its confirmation line reports. */
  datatype PublishOutcome = PublishOutcome(config: PublishConfig, fieldCount: nat)

  /** The three mappings used when the caller gives none. */
  function DefaultMappings(attributeName: string): (m: seq<Mapping>)
    ensures |m| == 3
    ensures m[0].attributeName == attributeName && m[0].campField == "normalized_value"
    ensures forall i :: 0 <= i < |m| ==> !m[i].required
  {
    [
      Mapping(attributeName, "normalized_value", false),
      Mapping("camp_ai_reasoning", "reasoning", false),
      Mapping("camp_ai_value", "value", false)
    ]
  }

  /** The `publish` tool: the caller's mappings, or the defaults when they are absent or empty. */
  function Publish(attributeName: string, mappings: Option<seq<Mapping>>): (r: PublishOutcome)
    ensures mappings.GetOr([]) != [] ==> r.config.data == mappings.value
    ensures mappings.GetOr([]) == [] ==> r.config.data == DefaultMappings(attributeName)
    ensures r.config.data != [] && r.fieldCount == |r.config.data|
    ensures r.config.productIdField == "entity_id"
    ensures r.config.retailerIdField == "" && r.config.localeField == ""
    ensures !r.config.useRetailerId && !r.config.useLocale
  {
    var given := mappings.GetOr([]);
    var data := if given == [] then DefaultMappings(attributeName) else given;
    PublishOutcome(PublishConfig(data, "entity_id", "", "", false, false), |data|)
  }

  /** Publishing the mappings of a publish step again gives the same mappings. */
  lemma PublishIdempotent(attributeName: string, mappings: Option<seq<Mapping>>)
    ensures var first := Publish(attributeName, mappings);
      Publish(attributeName, Some(first.config.data)) == first
  {
  }
}
