/**
 * The feature extractor of pkg/analysis/features.go: the constraint
 * keywords a schema node declares, turned into a sorted list of tokens
 * whose space-joined form is the node's fingerprint.
 */
module Features {
  import opened JsonSchema
  import opened Strings

  /** The value the compiled schema holds for a counting keyword that is absent. */
  const UnspecifiedNumber: int := -1

  /** Go's `%s` rendering of an `additionalProperties` value of no known shape; a nil one prints as `%!s(<nil>)`. */
  function RenderUnknown(ap: AdditionalProperties): string
  {
    match ap
    case OtherAdditionalProperties(rendered) => rendered
    case _ => "%!s(<nil>)"
  }

  /** The tokens for the declared types: a count token and, unless there are none, the types themselves. */
  function TypeTokens(types: seq<string>): seq<string>
  {
    if |types| > 1 then ["multiple_types", "type=" + Join(SortStrings(types), ",")]
    else if |types| == 1 then ["single_type", "type=" + types[0]]
    else ["no_type"]
  }

  /**
   * The sub-token of a keyword refined by a shape, chosen by the shape of
   * `additionalProperties`, which is what the source switches on for all
   * three keywords that use this.
   */
  function ShapeSubToken(boolToken: string, objectToken: string, unknownPrefix: string, ap: AdditionalProperties): string
  {
    match ap
    case BoolAdditionalProperties(_) => boolToken
    case SchemaAdditionalProperties => objectToken
    case _ => unknownPrefix + RenderUnknown(ap)
  }

  /** The tokens of a keyword refined by a shape: its name and its sub-token when it is present, nothing otherwise. */
  function ShapeTokens(present: bool, name: string, boolToken: string, objectToken: string, unknownPrefix: string,
                       ap: AdditionalProperties): seq<string>
  {
    if present then [name, ShapeSubToken(boolToken, objectToken, unknownPrefix, ap)] else []
  }

  function Flag(present: bool, token: string): seq<string>
  {
    if present then [token] else []
  }

  /** The tokens for the three shape-refined keywords, appended to `before`. */
  function WithShapeTokens(before: seq<string>, s: SchemaNode): seq<string>
  {
    before
    + ShapeTokens(!s.additionalProperties.NoAdditionalProperties?, "additionalProperties", "additional_properties_boolean",
                  "additional_properties_object", "additional_properties_unknown=", s.additionalProperties)
    + ShapeTokens(s.hasPatternProperties, "patternProperties", "pattern_properties_boolean",
                  "pattern_properties_object", "pattern_properties_unknown=", s.additionalProperties)
    + ShapeTokens(s.hasAdditionalItems, "additionalItems", "additional_items_boolean",
                  "additional_items_object", "additional_items_unknown=", s.additionalProperties)
  }

  /** The tokens for the keywords that contribute one token each, appended to `before`. */
  function WithKeywordTokens(before: seq<string>, s: SchemaNode): seq<string>
  {
    OneOfToWriteOnly(MaximumToNot(ElseToMaxProperties(AllOfToExamples(before, s), s), s), s)
  }

  function AllOfToExamples(before: seq<string>, s: SchemaNode): seq<string>
  {
    before
    + Flag(|s.allOf| > 0, "allOf")
    + Flag(|s.anyOf| > 0, "anyOf")
    + Flag(s.hasConst, "constant")
    + Flag(s.hasContains, "contains")
    + Flag(s.hasDefault, "default")
    + Flag(s.hasDependentRequired, "dependentRequired")
    + Flag(s.deprecated, "deprecated")
    + Flag(s.hasEnum, "enum")
    + Flag(s.hasExamples, "examples")
  }

  function ElseToMaxProperties(before: seq<string>, s: SchemaNode): seq<string>
  {
    before
    + Flag(s.hasElse, "else")
    + Flag(s.hasExclusiveMaximum, "exclusiveMaximum")
    + Flag(s.hasExclusiveMinimum, "exclusiveMinimum")
    + Flag(s.format != "", "format")
    + Flag(s.hasIf, "if")
    + Flag(s.maxContains != UnspecifiedNumber, "maxContains")
    + Flag(s.maxItems != UnspecifiedNumber, "maxItems")
    + Flag(s.maxLength != UnspecifiedNumber, "maxLength")
    + Flag(s.maxProperties != UnspecifiedNumber, "maxProperties")
  }

  function MaximumToNot(before: seq<string>, s: SchemaNode): seq<string>
  {
    before
    + Flag(s.hasMaximum, "maximum")
    + Flag(s.minContains != 1, "minContains")
    + Flag(s.minItems != UnspecifiedNumber, "minItems")
    + Flag(s.minLength != UnspecifiedNumber, "minLength")
    + Flag(s.minProperties != UnspecifiedNumber, "minProperties")
    + Flag(s.hasMinimum, "minimum")
    + Flag(s.hasMultipleOf, "multipleOf")
    + Flag(s.hasNot, "not")
  }

  function OneOfToWriteOnly(before: seq<string>, s: SchemaNode): seq<string>
  {
    before
    + Flag(|s.oneOf| > 0, "oneOf")
    + Flag(s.hasPattern, "pattern")
    + Flag(s.hasPrefixItems, "prefixItems")
    + Flag(|s.required| > 0, "required_properties")
    + Flag(s.readOnly, "readOnly")
    + Flag(s.hasThen, "then")
    + Flag(s.uniqueItems, "uniqueItems")
    + Flag(s.writeOnly, "writeOnly")
  }

  /** The tokens appended before the one-token keywords: those of the types and of the shape-refined keywords. */
  function LeadingTokens(s: SchemaNode): seq<string>
  {
    WithShapeTokens(TypeTokens(s.types), s)
  }

  /** Every token `extractFeatures` appends, in the order it appends them, before the final sort. */
  function Tokens(s: SchemaNode): seq<string>
  {
    WithKeywordTokens(LeadingTokens(s), s)
  }

  /** The sorted token list `extractFeatures` returns. */
  function SortedTokens(s: SchemaNode): seq<string>
  {
    SortStrings(Tokens(s))
  }

  /** The fingerprint under which `Features` files a node. */
  function Fingerprint(s: SchemaNode): string
  {
    Join(SortedTokens(s), " ")
  }

  /** The node after `extractFeatures` ran on it: with several types, `Types` ends up sorted, because the source sorts the node's own slice. */
  function TypesSortedInPlace(s: SchemaNode): SchemaNode
  {
    if |s.types| > 1 then s.(types := SortStrings(s.types)) else s
  }

  /**
   * `extractFeatures`: appends one or two tokens per declared keyword, then
   * sorts. `s'` is the node as it is afterwards: the source sorts the node's
   * own `Types` slice when there are several types.
   */
  method ExtractFeatures(s: SchemaNode) returns (features: seq<string>, s': SchemaNode)
    ensures features == SortedTokens(s)
    ensures s' == TypesSortedInPlace(s)
  {
    features, s' := TypeFeatures(s);
    features := AppendShapeFeatures(features, s);
    features := AppendKeywordFeatures(features, s);
    assert features == Tokens(s);
    features := SortStrings(features);
  }

  /** The `type` part of `extractFeatures`, which also sorts the node's own types when there are several. */
  method TypeFeatures(s: SchemaNode) returns (features: seq<string>, s': SchemaNode)
    ensures features == TypeTokens(s.types)
    ensures s' == TypesSortedInPlace(s)
  {
    features := [];
    s' := s;
    if |s.types| > 1 {
      features := features + ["multiple_types"];
      var types := SortStrings(s.types);
      s' := s.(types := types);
      features := features + ["type=" + Join(types, ",")];
    } else if |s.types| == 1 {
      features := features + ["single_type"];
      features := features + ["type=" + s.types[0]];
    } else if |s.types| == 0 {
      features := features + ["no_type"];
    }
  }

  /**
   * One of the three shape-refined keywords: when present, its name, then a
   * sub-token chosen by the dynamic type of `additionalProperties`.
   */
  method AppendShape(before: seq<string>, present: bool, name: string, boolToken: string, objectToken: string,
                     unknownPrefix: string, ap: AdditionalProperties) returns (features: seq<string>)
    ensures features == before + ShapeTokens(present, name, boolToken, objectToken, unknownPrefix, ap)
  {
    features := before;
    if present {
      features := features + [name];
      match ap {
        case BoolAdditionalProperties(_) =>
          features := features + [boolToken];
        case SchemaAdditionalProperties =>
          features := features + [objectToken];
        case _ =>
          features := features + [unknownPrefix + RenderUnknown(ap)];
      }
    }
  }

  /** The `additionalProperties`, `patternProperties` and `additionalItems` part of `extractFeatures`. */
  method AppendShapeFeatures(before: seq<string>, s: SchemaNode) returns (features: seq<string>)
    ensures features == WithShapeTokens(before, s)
  {
    features := AppendShape(before, !s.additionalProperties.NoAdditionalProperties?, "additionalProperties",
                            "additional_properties_boolean", "additional_properties_object",
                            "additional_properties_unknown=", s.additionalProperties);
    // As in the source, `patternProperties` and `additionalItems` are refined by the type of `additionalProperties`.
    features := AppendShape(features, s.hasPatternProperties, "patternProperties",
                            "pattern_properties_boolean", "pattern_properties_object",
                            "pattern_properties_unknown=", s.additionalProperties);
    features := AppendShape(features, s.hasAdditionalItems, "additionalItems",
                            "additional_items_boolean", "additional_items_object",
                            "additional_items_unknown=", s.additionalProperties);
  }

  /** The part of `extractFeatures` for the keywords that contribute one token each. */
  method AppendKeywordFeatures(before: seq<string>, s: SchemaNode) returns (features: seq<string>)
    ensures features == WithKeywordTokens(before, s)
  {
    features := before;
    ghost var prefix := features;
    features := features + Flag(|s.allOf| > 0, "allOf");
    features := features + Flag(|s.anyOf| > 0, "anyOf");
    features := features + Flag(s.hasConst, "constant");
    features := features + Flag(s.hasContains, "contains");
    features := features + Flag(s.hasDefault, "default");
    features := features + Flag(s.hasDependentRequired, "dependentRequired");
    features := features + Flag(s.deprecated, "deprecated");
    features := features + Flag(s.hasEnum, "enum");
    features := features + Flag(s.hasExamples, "examples");
    assert features == AllOfToExamples(prefix, s);
    prefix := features;
    features := features + Flag(s.hasElse, "else");
    features := features + Flag(s.hasExclusiveMaximum, "exclusiveMaximum");
    features := features + Flag(s.hasExclusiveMinimum, "exclusiveMinimum");
    features := features + Flag(s.format != "", "format");
    features := features + Flag(s.hasIf, "if");
    features := features + Flag(s.maxContains != UnspecifiedNumber, "maxContains");
    features := features + Flag(s.maxItems != UnspecifiedNumber, "maxItems");
    features := features + Flag(s.maxLength != UnspecifiedNumber, "maxLength");
    features := features + Flag(s.maxProperties != UnspecifiedNumber, "maxProperties");
    assert features == ElseToMaxProperties(prefix, s);
    prefix := features;
    features := features + Flag(s.hasMaximum, "maximum");
    features := features + Flag(s.minContains != 1, "minContains");
    features := features + Flag(s.minItems != UnspecifiedNumber, "minItems");
    features := features + Flag(s.minLength != UnspecifiedNumber, "minLength");
    features := features + Flag(s.minProperties != UnspecifiedNumber, "minProperties");
    features := features + Flag(s.hasMinimum, "minimum");
    features := features + Flag(s.hasMultipleOf, "multipleOf");
    features := features + Flag(s.hasNot, "not");
    assert features == MaximumToNot(prefix, s);
    prefix := features;
    features := features + Flag(|s.oneOf| > 0, "oneOf");
    features := features + Flag(s.hasPattern, "pattern");
    features := features + Flag(s.hasPrefixItems, "prefixItems");
    features := features + Flag(|s.required| > 0, "required_properties");
    features := features + Flag(s.readOnly, "readOnly");
    features := features + Flag(s.hasThen, "then");
    features := features + Flag(s.uniqueItems, "uniqueItems");
    features := features + Flag(s.writeOnly, "writeOnly");
    assert features == OneOfToWriteOnly(prefix, s);
    prefix := features;
  }
}
