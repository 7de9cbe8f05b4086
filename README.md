# CAMP pipeline builder: a Dafny model of the tool logic

The CAMP pipeline builder is an MCP server. An assistant calls its tools, one at a time, to design a
pipeline for the CAMP orchestration platform. The pipeline runs a query input, an LLM extraction, an
optional regex normalization, an optional audit, and a publish back to the catalog. This project models
the deterministic logic behind the tools in `server.py`:

- the constant reference tables;
- the `models` listing, sorted by descending usage, and the `explain_modes` lookup;
- the `preview` diagram and its step count;
- the four step generators (`input`, `extract`, `normalize`, `publish`), with their defaulting rules;
- the `suggest_patterns` rule selection;
- the `assemble_pipeline` linker, which gives every step a fresh identifier and links each record to the next one by back-patching it in place;
- the dispatch on a tool's name.

Modules:

- `Wrappers`: `Option` and `Result`. An absent dictionary key or a Python `None` is `None`.
- `Json`: opaque JSON values that the tools pass through unexamined (the extraction `properties`).
- `Text`: Python's `str(int)` for naturals and `str.lower()`.
- `Catalog`: the tables; `models` as a stable insertion sort; `explain_modes`.
- `Generators`: `input`, `extract`, `normalize` and `publish`. `normalize` is a method with the source's appending loop.
- `Patterns`: `suggest_patterns`.
- `PipelinePreview`: the diagram, kept as the list of sections the renderer appends, and the preview step count.
- `Assembly`: the linker, the document invariant, and the walk along the successor links.
- `Tools`: the tool names and the dispatch on them.

The identifier generator (`uuid.uuid4()`) is injected as a sequence `ids` of distinct identifiers. Ids are
drawn in the order the source calls `uuid4()`. Step k first takes its own identifier, `ids[2k]`. Unless it
is the last step, it then takes a placeholder successor, `ids[2k+1]`. The next iteration overwrites that
placeholder. In total, `n >= 1` steps draw `2n-1` identifiers, and an empty step list draws none.

What the code does, where a reader might expect otherwise:

- The default extraction model is the literal `gpt-5-mini`, not the most used model (`gpt-4o`).
- No generator validates anything. Empty attribute names, non-positive limits, unknown models and empty lists all pass through.
- An unknown pattern tag gets the two whitespace rules, not an empty list.
- An empty step list assembles into an empty document with no first step, not an error.
- The step records do not embed the step configurations.
- The preview takes two booleans, not a list of stages, so it cannot be empty.
- The `step_types` listing is the table in authoring order; it is not grouped by category.

## Model

| member | source | states |
|---|---|---|
| `Text.NatToString` | server.py:625-626 | `str(n)` of a natural is a non-empty digit string, one character long exactly when `n < 10` |
| `Text.NatToStringDigits` | server.py:625-626 | every character of `str(n)` is a decimal digit, and the last one is the units digit |
| `Text.NatToStringNoLeadingZero` | server.py:625-626 | the numeral of a positive number does not start with '0'; with the round trip, `str(n)` is the canonical decimal spelling of `n` |
| `Text.NatToStringValue` | server.py:625-626 | read back as a decimal numeral, `str(n)` is `n`: the step numbers are the decimal spellings of k+1 and 1000+k |
| `Text.NatToStringInjective` | server.py:625-626 | different naturals print differently (a consequence of the round trip), which is why sequential `stepId`/`stepVersionId` strings never repeat |
| `Text.ToLower` | server.py:476 | lower-casing keeps the length and maps each character through ASCII lower-casing |
| `Text.ToLowerIdempotent` | server.py:476 | lower-casing an already lower-cased tag changes nothing |
| `Catalog.InsertByUsage` | server.py:693 | inserting into a listing ordered by non-increasing usage keeps it ordered and adds exactly that entry |
| `Catalog.SortByUsageDesc` | server.py:693 | the result is ordered by non-increasing usage and is a permutation (same multiset) of the input |
| `Catalog.InsertKeepsTies` | server.py:693 | among entries of one usage, insertion puts the new entry first and keeps the others in order |
| `Catalog.SortIsStable` | server.py:693 | the sort is stable: for every usage value, the entries with that usage keep their input order |
| `Catalog.ModelsListing` | server.py:691-697 | `models` lists every catalog entry exactly once (a permutation), by non-increasing usage |
| `Catalog.ModelsListingStable` | server.py:693 | tied models in the listing keep the catalog's authoring order |
| `Catalog.UniqueMaximumListedFirst` | server.py:693 | in any listing of a sequence by non-increasing usage that is a permutation of it (the sort's result in particular), the first entry is the one, wherever it stands, whose usage no other entry reaches |
| `Catalog.CatalogMostUsed` | server.py:16-33 | the model table's first entry, gpt-4o, is used strictly more than every other model |
| `Catalog.CatalogMostUsedIsFirst` | server.py:16-33 | every ordered permutation of the model table starts with gpt-4o |
| `Catalog.ModelsListingHead` | server.py:691-697 | the `models` listing starts with gpt-4o |
| `Catalog.ExplainModes` | server.py:699-715 | `mode` defaults to "all", which reports the table description of each of sync, batch and null, once each and in that order, and the fixed usage statistics; any other mode gets its table description, and "Unknown mode" exactly when the table lacks it |
| `Generators.QueryText` | server.py:409-413 | the query starts by selecting the id column as `entity_id`, then has the attribute name between quotes, and ends with `FROM` and the table |
| `Generators.Input` | server.py:401-422 | the table, id column, limit and dedup flag default to the product view, PRODUCT_ID, 1000 and true; the dedup fields are empty exactly when dedup is off, and otherwise exactly the id column; ranking is off with an empty field |
| `Generators.InputDefaults` | server.py:403-406 | with only an attribute name, the step reads the product table keyed by PRODUCT_ID, 1000 rows, deduplicated on PRODUCT_ID |
| `Generators.ProductionModeOf` | server.py:450 | the stored production mode is None exactly when the given mode is "null", and otherwise the given mode |
| `Generators.TestModeOf` | server.py:451 | the stored test mode is never "null": "null" becomes "sync", and any other mode is kept |
| `Generators.Extract` | server.py:436-454 | the model defaults to gpt-5-mini and the properties to [] without validation; production defaults to batch and test to sync; neither stored mode is "null"; the reported field count is the number of properties |
| `Generators.ExtractDefaults` | server.py:439-442 | with no options: gpt-5-mini, no properties, batch in production, sync in test |
| `Generators.DefaultModelIsCataloguedButNotMostUsed` | server.py:439 | the default model is in the catalog, but gpt-4o is used more |
| `Generators.ToRule` | server.py:535-539 | a rule copies the pattern's match and replace texts; `isDefault` holds exactly when the pattern sets it to true |
| `Generators.ConvertPatterns` | server.py:533-539 | one rule per pattern, in the patterns' order |
| `Generators.Normalize` | server.py:528-554 | the config holds exactly one mutation, from `value` to `normalized_value`; its rules are the converted patterns in order, and the reported count is their number |
| `Generators.DefaultMappings` | server.py:568-585 | the defaults are three optional mappings; the first publishes `normalized_value` under the given attribute name |
| `Generators.Publish` | server.py:563-599 | non-empty mappings are kept unchanged; absent or empty ones become the three defaults, so the published data is never empty; the id field is entity_id, and retailer and locale are off |
| `Generators.PublishIdempotent` | server.py:565-585 | publishing a publish step's mappings again gives the same step |
| `Patterns.FamilyOf` | server.py:476-499 | a tag selects the boolean, percentage or numeric family exactly when its lower-cased form is in that alias list |
| `Patterns.RulesOf` | server.py:477-503 | the boolean family has 8 rules, percentage 3, numeric 3 and whitespace 2 |
| `Patterns.SuggestPatterns` | server.py:468-503 | a boolean, percentage or numeric alias gets that family's rules in their listed order, and any other tag the two whitespace rules; so the list is never empty, has 8 rules exactly for the boolean aliases and 2 exactly for tags in no alias list |
| `Patterns.SuggestIgnoresCase` | server.py:476 | tags that agree after lower-casing get the same suggestions |
| `Patterns.SuggestOfLowered` | server.py:476 | a lower-cased tag gets the same suggestions as the tag itself |
| `Patterns.AliasListsDisjoint` | server.py:476-493 | no tag is in two alias lists, so each tag selects exactly one family |
| `Patterns.BooleanRulesCanonical` | server.py:477-486 | every boolean rule replaces with "True" or "False", and four of them with "True" |
| `PipelinePreview.StagesOfAppend` | server.py:67-109 | the stages drawn by appended sections are the two parts' stages, appended |
| `PipelinePreview.GenerateDiagram` | server.py:56-111 | the banner comes first, then input and extract; normalize appears exactly when requested, and so does audit; publish is last; sections strictly follow the order banner, input/extract, normalize, audit, publish; the diagram draws 3 + [normalize] + [audit] stage boxes |
| `PipelinePreview.Preview` | server.py:364-379 | the step count is 3 + [normalize] + [audit], with both options off by default, and it equals the number of stage boxes in the diagram |
| `Assembly.LinkedChain` | server.py:618-647 | the linked chain has one record per step, and record k is the linked record for position k |
| `Assembly.AssemblePipeline` | server.py:608-657 | the loop builds exactly the linked chain: record k has identifier ids[2k], stepId str(k+1), stepVersionId str(1000+k), version "1", type "task", no overrides, and links to record k+1; the first id is ids[0] (None for no steps); the schedule is off, every 24 hours, with no cron error; the document is well linked |
| `Assembly.BackPatchLinks` | server.py:644-647 | overwriting a record's placeholder with the next step's identifier turns the pending record into the linked one |
| `Assembly.ChainWellLinked` | server.py:615-656 | with distinct ids the chain is well linked: the first id is record 0's, every non-last record's single successor is the next record, the last has none, and identifiers are pairwise distinct |
| `Assembly.NoPlaceholderSurvives` | server.py:634-647 | no record identifier, link target or possible-next entry is a placeholder identifier |
| `Assembly.StepNumbersDistinct` | server.py:625-626 | no two records share a stepId or a stepVersionId |
| `Assembly.IndexOfId` | server.py:636-647 | the lookup finds the first record carrying an identifier, or reports that none does |
| `Assembly.IdsOf` | server.py:624 | the identifiers of the records, position by position |
| `Assembly.WalkFrom` | server.py:634-647 | from record k of a well-linked document, a long enough walk visits records k, k+1, ..., then stops |
| `Assembly.WalkVisitsEveryStepOnce` | server.py:634-656 | from the first id, the walk visits every record exactly once, in order, and ends at the last record, which has no successor |
| `Tools.ToolName` | server.py:113-343 | every tool has a listed name |
| `Tools.ToolNamed` | server.py:345-725 | a name selects a tool exactly when it is listed, and that tool carries the name; any other name gives "Unknown tool: <name>" |
| `Tools.DispatchRoundTrip` | server.py:349-725 | every listed tool is reached by its own name |

## Left out

- The MCP plumbing: the server object, the tool schemas (apart from the tool names), the async dispatch, and the stdio/asyncio entry point.
- `hello_camp`: it returns fixed text only.
- The Markdown/emoji response text: diagram box drawing, confirmation lines, thousands separators, numbered suggestion lists, the echoed step configurations. Only the payload records and the counts the text reports are modelled.
- JSON serialisation with `json.dumps`.
- The pipeline name and description given to `assemble_pipeline`: they appear only in the response text.
- The `step_types` listing: it prints the step-type table in its order; the table is the constant `Catalog.StepTypes`.
- The assembler's `prev_step_id` variable: it is assigned and never read.
- Identifier randomness: `uuid.uuid4()` is an injected sequence of distinct identifiers. Freshness across two assemblies is a property of that sequence, not of the assembler.
- Regular-expression semantics of the suggested patterns: the tools never apply them, so they are opaque strings.
- Dynamic typing: arguments are typed records. A missing required key (a `KeyError`) and a present-but-null optional value are not modelled. A `None` field means the key is absent.
- Text.ToLower: lower-cases the ASCII letters only; Python's `str.lower()` also folds non-ASCII letters.
- Assembly.AssemblePipeline: requires at least 2n-1 distinct identifiers, a stand-in for `uuid4()` never repeating.
