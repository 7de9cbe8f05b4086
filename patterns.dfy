/**
 * `suggest_patterns`: from a value-type tag, a fixed ordered list of match/replace rules with
 * a description each. The rules are opaque texts here: nothing applies them.
 */
module Patterns {
  import opened Text

  datatype Suggestion = Suggestion(pattern: string, replacement: string, description: string)

  /** The rule families the tag selects from. */
  datatype Family = Boolean | Percentage | Numeric | Whitespace

  const BooleanTags: seq<string> := ["boolean", "bool", "true/false"]
  const PercentageTags: seq<string> := ["percentage", "percent", "%"]
  const NumericTags: seq<string> := ["number", "numeric", "integer", "float"]

  /** The family a tag selects, compared lower-cased; any other tag falls through to whitespace. */
  function FamilyOf(attributeType: string): (f: Family)
    ensures f == Boolean <==> ToLower(attributeType) in BooleanTags
    ensures f == Percentage <==> ToLower(attributeType) in PercentageTags
    ensures f == Numeric <==> ToLower(attributeType) in NumericTags
  {
    var tag := ToLower(attributeType);
    if tag in BooleanTags then Boolean
    else if tag in PercentageTags then Percentage
    else if tag in NumericTags then Numeric
    else Whitespace
  }

  const BooleanRules: seq<Suggestion> := [
    Suggestion("^1$", "True", "Convert 1 to True"),
    Suggestion("^0$", "False", "Convert 0 to False"),
    Suggestion("(?i)^yes$", "True", "Convert yes to True"),
    Suggestion("(?i)^no$", "False", "Convert no to False"),
    Suggestion("(?i)^true$", "True", "Standardize true"),
    Suggestion("(?i)^false$", "False", "Standardize false"),
    Suggestion("(?i)^y$", "True", "Convert y to True"),
    Suggestion("(?i)^n$", "False", "Convert n to False")
  ]

  const PercentageRules: seq<Suggestion> := [
    Suggestion(@"(\d+\.?\d*)%", @"$1", "Remove % sign, keep number"),
    Suggestion(@"^(\d+\.?\d*)\s*percent", @"$1", "Remove 'percent' word"),
    Suggestion(@"^(\d+)$", @"$1.0", "Ensure decimal format")
  ]

  const NumericRules: seq<Suggestion> := [
    Suggestion(@"[,\s]", "", "Remove commas/spaces from numbers"),
    Suggestion(@"^(\d+\.?\d*)[^\d]*$", @"$1", "Extract just the number"),
    Suggestion(@"^(\d+)$", @"$1.0", "Normalize to decimal")
  ]

  const WhitespaceRules: seq<Suggestion> := [
    Suggestion(@"^\s+|\s+$", "", "Trim whitespace"),
    Suggestion(@"\s{2,}", " ", "Collapse multiple spaces")
  ]

  /** The rule list of a family. */
  function RulesOf(f: Family): (r: seq<Suggestion>)
    ensures |r| == match f
      case Boolean => 8
      case Percentage => 3
      case Numeric => 3
      case Whitespace => 2
  {
    match f
    case Boolean => BooleanRules
    case Percentage => PercentageRules
    case Numeric => NumericRules
    case Whitespace => WhitespaceRules
  }

  /** The `suggest_patterns` tool: the selected family's rules in their listed order, never empty, whatever the tag. */
  function SuggestPatterns(attributeType: string): (r: seq<Suggestion>)
    ensures 2 <= |r| <= 8
    ensures |r| == 8 <==> ToLower(attributeType) in BooleanTags
    ensures |r| == 2 <==> ToLower(attributeType) !in BooleanTags + PercentageTags + NumericTags
    ensures ToLower(attributeType) in BooleanTags ==> r == BooleanRules
    ensures ToLower(attributeType) in PercentageTags ==> r == PercentageRules
    ensures ToLower(attributeType) in NumericTags ==> r == NumericRules
    ensures ToLower(attributeType) !in BooleanTags + PercentageTags + NumericTags ==> r == WhitespaceRules
  {
    RulesOf(FamilyOf(attributeType))
  }

  /** The tag is matched without regard to ASCII case. */
  lemma SuggestIgnoresCase(a: string, b: string)
    requires ToLower(a) == ToLower(b)
    ensures SuggestPatterns(a) == SuggestPatterns(b)
  {
  }

  /** A lower-cased tag selects what the tag itself selects. */
  lemma SuggestOfLowered(a: string)
    ensures SuggestPatterns(ToLower(a)) == SuggestPatterns(a)
  {
    ToLowerIdempotent(a);
  }

  /** The alias lists are disjoint, so each tag selects one family. */
  lemma AliasListsDisjoint()
    ensures forall t :: t in BooleanTags ==> t !in PercentageTags && t !in NumericTags
    ensures forall t :: t in PercentageTags ==> t !in NumericTags
  {
  }

  /** Every boolean rule canonicalises to "True" or "False", four rules each. */
  lemma BooleanRulesCanonical()
    ensures forall s :: s in BooleanRules ==> s.replacement == "True" || s.replacement == "False"
    ensures |set i | 0 <= i < |BooleanRules| && BooleanRules[i].replacement == "True"| == 4
  {
    var trues := set i | 0 <= i < |BooleanRules| && BooleanRules[i].replacement == "True";
    assert trues == {0, 2, 4, 6};
  }
}
