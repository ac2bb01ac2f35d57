/**
 * Properties of the feature extractor of pkg/analysis/features.go: the
 * token list it returns is sorted and free of duplicates, and each token
 * is present exactly when the node declares what the token names.
 */
module FeatureProperties {
  import opened JsonSchema
  import opened Strings
  import opened Features

  // ---------------------------------------------------------------------
  // Lists built by appending optional tokens
  // ---------------------------------------------------------------------

  /** No duplicates, stated the way a list built by appends is checked: each last element is new. */
  predicate NoRepeats(a: seq<string>)
    decreases |a|
  {
    a == [] || (a[|a| - 1] !in a[..|a| - 1] && NoRepeats(a[..|a| - 1]))
  }

  lemma {:induction false} NoRepeatsDistinct(a: seq<string>)
    requires NoRepeats(a)
    ensures Distinct(a)
    decreases |a|
  {
    if a != [] {
      var init := a[..|a| - 1];
      NoRepeatsDistinct(init);
      assert a == init + [a[|a| - 1]];
    }
  }

  lemma {:induction false} DistinctNoRepeats(a: seq<string>)
    requires Distinct(a)
    ensures NoRepeats(a)
    decreases |a|
  {
    if a != [] {
      DistinctNoRepeats(a[..|a| - 1]);
    }
  }

  lemma InFlag(a: seq<string>, c: bool, t: string, x: string)
    ensures x in a + Flag(c, t) <==> x in a || (c && x == t)
  {
  }

  /** Appending an optional token that is new keeps the list free of duplicates. */
  lemma FlagStep(a: seq<string>, c: bool, t: string)
    requires NoRepeats(a) && (c ==> t !in a)
    ensures NoRepeats(a + Flag(c, t))
    ensures forall x :: x in a + Flag(c, t) <==> x in a || (c && x == t)
  {
    if c {
      assert (a + [t])[..|a|] == a;
      assert (a + [t])[|a|] == t;
    } else {
      assert a + [] == a;
    }
  }

  lemma Fresh2(a: seq<string>, c1: bool, t1: string, c2: bool, t2: string)
    requires NoRepeats(a) && t1 !in a && t2 !in a
    requires t1 != t2
    ensures NoRepeats(a + Flag(c1, t1) + Flag(c2, t2))
    ensures forall x :: x in a + Flag(c1, t1) + Flag(c2, t2) <==> x in a || (c1 && x == t1) || (c2 && x == t2)
  {
    FlagStep(a, c1, t1);
    FlagStep(a + Flag(c1, t1), c2, t2);
  }

  lemma Fresh3(a: seq<string>, c1: bool, t1: string, c2: bool, t2: string, c3: bool, t3: string)
    requires NoRepeats(a) && t1 !in a && t2 !in a && t3 !in a
    requires t1 != t2 && t1 != t3 && t2 != t3
    ensures NoRepeats(a + Flag(c1, t1) + Flag(c2, t2) + Flag(c3, t3))
    ensures forall x :: x in a + Flag(c1, t1) + Flag(c2, t2) + Flag(c3, t3) <==> x in a || (c1 && x == t1) || (c2 && x == t2) || (c3 && x == t3)
  {
    FlagStep(a, c1, t1);
    FlagStep(a + Flag(c1, t1), c2, t2);
    FlagStep(a + Flag(c1, t1) + Flag(c2, t2), c3, t3);
  }

  lemma Fresh8(a: seq<string>, c1: bool, t1: string, c2: bool, t2: string, c3: bool, t3: string, c4: bool, t4: string, c5: bool, t5: string, c6: bool, t6: string, c7: bool, t7: string, c8: bool, t8: string)
    requires NoRepeats(a) && t1 !in a && t2 !in a && t3 !in a && t4 !in a && t5 !in a && t6 !in a && t7 !in a && t8 !in a
    requires t1 != t2 && t1 != t3 && t1 != t4 && t1 != t5 && t1 != t6 && t1 != t7 && t1 != t8 && t2 != t3 && t2 != t4 && t2 != t5 && t2 != t6 && t2 != t7 && t2 != t8 && t3 != t4 && t3 != t5 && t3 != t6 && t3 != t7 && t3 != t8 && t4 != t5 && t4 != t6 && t4 != t7 && t4 != t8 && t5 != t6 && t5 != t7 && t5 != t8 && t6 != t7 && t6 != t8 && t7 != t8
    ensures NoRepeats(a + Flag(c1, t1) + Flag(c2, t2) + Flag(c3, t3) + Flag(c4, t4) + Flag(c5, t5) + Flag(c6, t6) + Flag(c7, t7) + Flag(c8, t8))
  {
    Fresh3(a, c1, t1, c2, t2, c3, t3);
    var p := a + Flag(c1, t1) + Flag(c2, t2) + Flag(c3, t3);
    Fresh3(p, c4, t4, c5, t5, c6, t6);
    p := p + Flag(c4, t4) + Flag(c5, t5) + Flag(c6, t6);
    Fresh2(p, c7, t7, c8, t8);
  }

  lemma Fresh9(a: seq<string>, c1: bool, t1: string, c2: bool, t2: string, c3: bool, t3: string, c4: bool, t4: string, c5: bool, t5: string, c6: bool, t6: string, c7: bool, t7: string, c8: bool, t8: string, c9: bool, t9: string)
    requires NoRepeats(a) && t1 !in a && t2 !in a && t3 !in a && t4 !in a && t5 !in a && t6 !in a && t7 !in a && t8 !in a && t9 !in a
    requires t1 != t2 && t1 != t3 && t1 != t4 && t1 != t5 && t1 != t6 && t1 != t7 && t1 != t8 && t1 != t9 && t2 != t3 && t2 != t4 && t2 != t5 && t2 != t6 && t2 != t7 && t2 != t8 && t2 != t9 && t3 != t4 && t3 != t5 && t3 != t6 && t3 != t7 && t3 != t8 && t3 != t9 && t4 != t5 && t4 != t6 && t4 != t7 && t4 != t8 && t4 != t9 && t5 != t6 && t5 != t7 && t5 != t8 && t5 != t9 && t6 != t7 && t6 != t8 && t6 != t9 && t7 != t8 && t7 != t9 && t8 != t9
    ensures NoRepeats(a + Flag(c1, t1) + Flag(c2, t2) + Flag(c3, t3) + Flag(c4, t4) + Flag(c5, t5) + Flag(c6, t6) + Flag(c7, t7) + Flag(c8, t8) + Flag(c9, t9))
  {
    Fresh3(a, c1, t1, c2, t2, c3, t3);
    var p := a + Flag(c1, t1) + Flag(c2, t2) + Flag(c3, t3);
    Fresh3(p, c4, t4, c5, t5, c6, t6);
    p := p + Flag(c4, t4) + Flag(c5, t5) + Flag(c6, t6);
    Fresh3(p, c7, t7, c8, t8, c9, t9);
  }

  lemma {:induction false} AppendedMembers2(a: seq<string>, c1: bool, t1: string, c2: bool, t2: string, x: string)
    ensures x in a + Flag(c1, t1) + Flag(c2, t2) <==>
      x in a
      || (c1 && x == t1)
      || (c2 && x == t2)
  {
    InFlag(a, c1, t1, x);
    InFlag(a + Flag(c1, t1), c2, t2, x);
  }

  lemma {:induction false} AppendedMembers3(a: seq<string>, c1: bool, t1: string, c2: bool, t2: string, c3: bool, t3: string, x: string)
    ensures x in a + Flag(c1, t1) + Flag(c2, t2) + Flag(c3, t3) <==>
      x in a
      || (c1 && x == t1)
      || (c2 && x == t2)
      || (c3 && x == t3)
  {
    InFlag(a, c1, t1, x);
    InFlag(a + Flag(c1, t1), c2, t2, x);
    InFlag(a + Flag(c1, t1) + Flag(c2, t2), c3, t3, x);
  }

  lemma {:induction false} AppendedMembers8(a: seq<string>, c1: bool, t1: string, c2: bool, t2: string, c3: bool, t3: string, c4: bool, t4: string, c5: bool, t5: string, c6: bool, t6: string, c7: bool, t7: string, c8: bool, t8: string, x: string)
    ensures x in a + Flag(c1, t1) + Flag(c2, t2) + Flag(c3, t3) + Flag(c4, t4) + Flag(c5, t5) + Flag(c6, t6) + Flag(c7, t7) + Flag(c8, t8) <==>
      x in a
      || (c1 && x == t1)
      || (c2 && x == t2)
      || (c3 && x == t3)
      || (c4 && x == t4)
      || (c5 && x == t5)
      || (c6 && x == t6)
      || (c7 && x == t7)
      || (c8 && x == t8)
  {
    AppendedMembers3(a, c1, t1, c2, t2, c3, t3, x);
    AppendedMembers3(a + Flag(c1, t1) + Flag(c2, t2) + Flag(c3, t3), c4, t4, c5, t5, c6, t6, x);
    AppendedMembers2(a + Flag(c1, t1) + Flag(c2, t2) + Flag(c3, t3) + Flag(c4, t4) + Flag(c5, t5) + Flag(c6, t6), c7, t7, c8, t8, x);
  }

  lemma {:induction false} AppendedMembers9(a: seq<string>, c1: bool, t1: string, c2: bool, t2: string, c3: bool, t3: string, c4: bool, t4: string, c5: bool, t5: string, c6: bool, t6: string, c7: bool, t7: string, c8: bool, t8: string, c9: bool, t9: string, x: string)
    ensures x in a + Flag(c1, t1) + Flag(c2, t2) + Flag(c3, t3) + Flag(c4, t4) + Flag(c5, t5) + Flag(c6, t6) + Flag(c7, t7) + Flag(c8, t8) + Flag(c9, t9) <==>
      x in a
      || (c1 && x == t1)
      || (c2 && x == t2)
      || (c3 && x == t3)
      || (c4 && x == t4)
      || (c5 && x == t5)
      || (c6 && x == t6)
      || (c7 && x == t7)
      || (c8 && x == t8)
      || (c9 && x == t9)
  {
    AppendedMembers3(a, c1, t1, c2, t2, c3, t3, x);
    AppendedMembers3(a + Flag(c1, t1) + Flag(c2, t2) + Flag(c3, t3), c4, t4, c5, t5, c6, t6, x);
    AppendedMembers3(a + Flag(c1, t1) + Flag(c2, t2) + Flag(c3, t3) + Flag(c4, t4) + Flag(c5, t5) + Flag(c6, t6), c7, t7, c8, t8, c9, t9, x);
  }

  // ---------------------------------------------------------------------
  // The one-token keywords, group by group
  // ---------------------------------------------------------------------

  /** The length and first character of every one-token keyword's token: enough to tell the type-count tokens from them. */
  predicate KeywordShape(n: int, c: char)
  {
    (n == 2 && c == 'i')
    || (n == 3 && c == 'n')
    || (n == 4 && c == 'e')
    || (n == 4 && c == 't')
    || (n == 5 && c == 'a')
    || (n == 5 && c == 'o')
    || (n == 6 && c == 'f')
    || (n == 7 && c == 'd')
    || (n == 7 && c == 'm')
    || (n == 7 && c == 'p')
    || (n == 8 && c == 'c')
    || (n == 8 && c == 'e')
    || (n == 8 && c == 'm')
    || (n == 8 && c == 'r')
    || (n == 9 && c == 'm')
    || (n == 9 && c == 'w')
    || (n == 10 && c == 'd')
    || (n == 10 && c == 'm')
    || (n == 11 && c == 'm')
    || (n == 11 && c == 'p')
    || (n == 11 && c == 'u')
    || (n == 13 && c == 'm')
    || (n == 16 && c == 'e')
    || (n == 17 && c == 'd')
    || (n == 19 && c == 'r')
  }

  /** AllOfToExamples written out as the appends it is made of. */
  lemma AllOfToExamplesUnfolds(before: seq<string>, s: SchemaNode)
    ensures AllOfToExamples(before, s) == before + Flag(|s.allOf| > 0, "allOf") + Flag(|s.anyOf| > 0, "anyOf") + Flag(s.hasConst, "constant") + Flag(s.hasContains, "contains") + Flag(s.hasDefault, "default") + Flag(s.hasDependentRequired, "dependentRequired") + Flag(s.deprecated, "deprecated") + Flag(s.hasEnum, "enum") + Flag(s.hasExamples, "examples")
  {
  }

  /** The tokens of AllOfToExamples are pairwise different. */
  lemma AllOfToExamplesDiffer()
    ensures "allOf" != "anyOf" && "allOf" != "constant" && "allOf" != "contains" && "allOf" != "default" && "allOf" != "dependentRequired" && "allOf" != "deprecated" && "allOf" != "enum" && "allOf" != "examples" && "anyOf" != "constant" && "anyOf" != "contains" && "anyOf" != "default" && "anyOf" != "dependentRequired" && "anyOf" != "deprecated" && "anyOf" != "enum" && "anyOf" != "examples" && "constant" != "contains" && "constant" != "default" && "constant" != "dependentRequired" && "constant" != "deprecated" && "constant" != "enum" && "constant" != "examples" && "contains" != "default" && "contains" != "dependentRequired" && "contains" != "deprecated" && "contains" != "enum" && "contains" != "examples" && "default" != "dependentRequired" && "default" != "deprecated" && "default" != "enum" && "default" != "examples" && "dependentRequired" != "deprecated" && "dependentRequired" != "enum" && "dependentRequired" != "examples" && "deprecated" != "enum" && "deprecated" != "examples" && "enum" != "examples"
  {
  }

  /** Every token of AllOfToExamples has the length and first character `KeywordShape` lists. */
  lemma AllOfToExamplesShapes(x: string)
    ensures (x == "allOf" || x == "anyOf" || x == "constant" || x == "contains" || x == "default" || x == "dependentRequired" || x == "deprecated" || x == "enum" || x == "examples") ==> |x| > 0 && KeywordShape(|x|, x[0])
  {
  }

  /** A token is in the list after AllOfToExamples iff it was before, or it is one of that group's keywords and the node declares it. */
  lemma {:induction false} AllOfToExamplesMembers(before: seq<string>, s: SchemaNode, x: string)
    ensures x in AllOfToExamples(before, s) <==>
      x in before
      || (|s.allOf| > 0 && x == "allOf")
      || (|s.anyOf| > 0 && x == "anyOf")
      || (s.hasConst && x == "constant")
      || (s.hasContains && x == "contains")
      || (s.hasDefault && x == "default")
      || (s.hasDependentRequired && x == "dependentRequired")
      || (s.deprecated && x == "deprecated")
      || (s.hasEnum && x == "enum")
      || (s.hasExamples && x == "examples")
  {
    AllOfToExamplesUnfolds(before, s);
    AppendedMembers9(before, |s.allOf| > 0, "allOf", |s.anyOf| > 0, "anyOf", s.hasConst, "constant", s.hasContains, "contains", s.hasDefault, "default", s.hasDependentRequired, "dependentRequired", s.deprecated, "deprecated", s.hasEnum, "enum", s.hasExamples, "examples", x);
  }

  /** AllOfToExamples appends no token twice and none already present. */
  lemma AllOfToExamplesNoRepeats(before: seq<string>, s: SchemaNode)
    requires NoRepeats(before)
    requires "allOf" !in before && "anyOf" !in before && "constant" !in before && "contains" !in before && "default" !in before && "dependentRequired" !in before && "deprecated" !in before && "enum" !in before && "examples" !in before
    ensures NoRepeats(AllOfToExamples(before, s))
  {
    AllOfToExamplesUnfolds(before, s);
    Fresh9(before, |s.allOf| > 0, "allOf", |s.anyOf| > 0, "anyOf", s.hasConst, "constant", s.hasContains, "contains", s.hasDefault, "default", s.hasDependentRequired, "dependentRequired", s.deprecated, "deprecated", s.hasEnum, "enum", s.hasExamples, "examples");
  }

  /** ElseToMaxProperties written out as the appends it is made of. */
  lemma ElseToMaxPropertiesUnfolds(before: seq<string>, s: SchemaNode)
    ensures ElseToMaxProperties(before, s) == before + Flag(s.hasElse, "else") + Flag(s.hasExclusiveMaximum, "exclusiveMaximum") + Flag(s.hasExclusiveMinimum, "exclusiveMinimum") + Flag(s.format != "", "format") + Flag(s.hasIf, "if") + Flag(s.maxContains != UnspecifiedNumber, "maxContains") + Flag(s.maxItems != UnspecifiedNumber, "maxItems") + Flag(s.maxLength != UnspecifiedNumber, "maxLength") + Flag(s.maxProperties != UnspecifiedNumber, "maxProperties")
  {
  }

  /** The tokens of ElseToMaxProperties are pairwise different. */
  lemma ElseToMaxPropertiesDiffer()
    ensures "else" != "exclusiveMaximum" && "else" != "exclusiveMinimum" && "else" != "format" && "else" != "if" && "else" != "maxContains" && "else" != "maxItems" && "else" != "maxLength" && "else" != "maxProperties" && "exclusiveMaximum" != "exclusiveMinimum" && "exclusiveMaximum" != "format" && "exclusiveMaximum" != "if" && "exclusiveMaximum" != "maxContains" && "exclusiveMaximum" != "maxItems" && "exclusiveMaximum" != "maxLength" && "exclusiveMaximum" != "maxProperties" && "exclusiveMinimum" != "format" && "exclusiveMinimum" != "if" && "exclusiveMinimum" != "maxContains" && "exclusiveMinimum" != "maxItems" && "exclusiveMinimum" != "maxLength" && "exclusiveMinimum" != "maxProperties" && "format" != "if" && "format" != "maxContains" && "format" != "maxItems" && "format" != "maxLength" && "format" != "maxProperties" && "if" != "maxContains" && "if" != "maxItems" && "if" != "maxLength" && "if" != "maxProperties" && "maxContains" != "maxItems" && "maxContains" != "maxLength" && "maxContains" != "maxProperties" && "maxItems" != "maxLength" && "maxItems" != "maxProperties" && "maxLength" != "maxProperties"
  {
  }

  /** Every token of ElseToMaxProperties has the length and first character `KeywordShape` lists. */
  lemma ElseToMaxPropertiesShapes(x: string)
    ensures (x == "else" || x == "exclusiveMaximum" || x == "exclusiveMinimum" || x == "format" || x == "if" || x == "maxContains" || x == "maxItems" || x == "maxLength" || x == "maxProperties") ==> |x| > 0 && KeywordShape(|x|, x[0])
  {
  }

  /** A token is in the list after ElseToMaxProperties iff it was before, or it is one of that group's keywords and the node declares it. */
  lemma {:induction false} ElseToMaxPropertiesMembers(before: seq<string>, s: SchemaNode, x: string)
    ensures x in ElseToMaxProperties(before, s) <==>
      x in before
      || (s.hasElse && x == "else")
      || (s.hasExclusiveMaximum && x == "exclusiveMaximum")
      || (s.hasExclusiveMinimum && x == "exclusiveMinimum")
      || (s.format != "" && x == "format")
      || (s.hasIf && x == "if")
      || (s.maxContains != UnspecifiedNumber && x == "maxContains")
      || (s.maxItems != UnspecifiedNumber && x == "maxItems")
      || (s.maxLength != UnspecifiedNumber && x == "maxLength")
      || (s.maxProperties != UnspecifiedNumber && x == "maxProperties")
  {
    ElseToMaxPropertiesUnfolds(before, s);
    AppendedMembers9(before, s.hasElse, "else", s.hasExclusiveMaximum, "exclusiveMaximum", s.hasExclusiveMinimum, "exclusiveMinimum", s.format != "", "format", s.hasIf, "if", s.maxContains != UnspecifiedNumber, "maxContains", s.maxItems != UnspecifiedNumber, "maxItems", s.maxLength != UnspecifiedNumber, "maxLength", s.maxProperties != UnspecifiedNumber, "maxProperties", x);
  }

  /** ElseToMaxProperties appends no token twice and none already present. */
  lemma ElseToMaxPropertiesNoRepeats(before: seq<string>, s: SchemaNode)
    requires NoRepeats(before)
    requires "else" !in before && "exclusiveMaximum" !in before && "exclusiveMinimum" !in before && "format" !in before && "if" !in before && "maxContains" !in before && "maxItems" !in before && "maxLength" !in before && "maxProperties" !in before
    ensures NoRepeats(ElseToMaxProperties(before, s))
  {
    ElseToMaxPropertiesUnfolds(before, s);
    Fresh9(before, s.hasElse, "else", s.hasExclusiveMaximum, "exclusiveMaximum", s.hasExclusiveMinimum, "exclusiveMinimum", s.format != "", "format", s.hasIf, "if", s.maxContains != UnspecifiedNumber, "maxContains", s.maxItems != UnspecifiedNumber, "maxItems", s.maxLength != UnspecifiedNumber, "maxLength", s.maxProperties != UnspecifiedNumber, "maxProperties");
  }

  /** MaximumToNot written out as the appends it is made of. */
  lemma MaximumToNotUnfolds(before: seq<string>, s: SchemaNode)
    ensures MaximumToNot(before, s) == before + Flag(s.hasMaximum, "maximum") + Flag(s.minContains != 1, "minContains") + Flag(s.minItems != UnspecifiedNumber, "minItems") + Flag(s.minLength != UnspecifiedNumber, "minLength") + Flag(s.minProperties != UnspecifiedNumber, "minProperties") + Flag(s.hasMinimum, "minimum") + Flag(s.hasMultipleOf, "multipleOf") + Flag(s.hasNot, "not")
  {
  }

  /** The tokens of MaximumToNot are pairwise different. */
  lemma MaximumToNotDiffer()
    ensures "maximum" != "minContains" && "maximum" != "minItems" && "maximum" != "minLength" && "maximum" != "minProperties" && "maximum" != "minimum" && "maximum" != "multipleOf" && "maximum" != "not" && "minContains" != "minItems" && "minContains" != "minLength" && "minContains" != "minProperties" && "minContains" != "minimum" && "minContains" != "multipleOf" && "minContains" != "not" && "minItems" != "minLength" && "minItems" != "minProperties" && "minItems" != "minimum" && "minItems" != "multipleOf" && "minItems" != "not" && "minLength" != "minProperties" && "minLength" != "minimum" && "minLength" != "multipleOf" && "minLength" != "not" && "minProperties" != "minimum" && "minProperties" != "multipleOf" && "minProperties" != "not" && "minimum" != "multipleOf" && "minimum" != "not" && "multipleOf" != "not"
  {
  }

  /** Every token of MaximumToNot has the length and first character `KeywordShape` lists. */
  lemma MaximumToNotShapes(x: string)
    ensures (x == "maximum" || x == "minContains" || x == "minItems" || x == "minLength" || x == "minProperties" || x == "minimum" || x == "multipleOf" || x == "not") ==> |x| > 0 && KeywordShape(|x|, x[0])
  {
  }

  /** A token is in the list after MaximumToNot iff it was before, or it is one of that group's keywords and the node declares it. */
  lemma {:induction false} MaximumToNotMembers(before: seq<string>, s: SchemaNode, x: string)
    ensures x in MaximumToNot(before, s) <==>
      x in before
      || (s.hasMaximum && x == "maximum")
      || (s.minContains != 1 && x == "minContains")
      || (s.minItems != UnspecifiedNumber && x == "minItems")
      || (s.minLength != UnspecifiedNumber && x == "minLength")
      || (s.minProperties != UnspecifiedNumber && x == "minProperties")
      || (s.hasMinimum && x == "minimum")
      || (s.hasMultipleOf && x == "multipleOf")
      || (s.hasNot && x == "not")
  {
    MaximumToNotUnfolds(before, s);
    AppendedMembers8(before, s.hasMaximum, "maximum", s.minContains != 1, "minContains", s.minItems != UnspecifiedNumber, "minItems", s.minLength != UnspecifiedNumber, "minLength", s.minProperties != UnspecifiedNumber, "minProperties", s.hasMinimum, "minimum", s.hasMultipleOf, "multipleOf", s.hasNot, "not", x);
  }

  /** MaximumToNot appends no token twice and none already present. */
  lemma MaximumToNotNoRepeats(before: seq<string>, s: SchemaNode)
    requires NoRepeats(before)
    requires "maximum" !in before && "minContains" !in before && "minItems" !in before && "minLength" !in before && "minProperties" !in before && "minimum" !in before && "multipleOf" !in before && "not" !in before
    ensures NoRepeats(MaximumToNot(before, s))
  {
    MaximumToNotUnfolds(before, s);
    Fresh8(before, s.hasMaximum, "maximum", s.minContains != 1, "minContains", s.minItems != UnspecifiedNumber, "minItems", s.minLength != UnspecifiedNumber, "minLength", s.minProperties != UnspecifiedNumber, "minProperties", s.hasMinimum, "minimum", s.hasMultipleOf, "multipleOf", s.hasNot, "not");
  }

  /** OneOfToWriteOnly written out as the appends it is made of. */
  lemma OneOfToWriteOnlyUnfolds(before: seq<string>, s: SchemaNode)
    ensures OneOfToWriteOnly(before, s) == before + Flag(|s.oneOf| > 0, "oneOf") + Flag(s.hasPattern, "pattern") + Flag(s.hasPrefixItems, "prefixItems") + Flag(|s.required| > 0, "required_properties") + Flag(s.readOnly, "readOnly") + Flag(s.hasThen, "then") + Flag(s.uniqueItems, "uniqueItems") + Flag(s.writeOnly, "writeOnly")
  {
  }

  /** The tokens of OneOfToWriteOnly are pairwise different. */
  lemma OneOfToWriteOnlyDiffer()
    ensures "oneOf" != "pattern" && "oneOf" != "prefixItems" && "oneOf" != "required_properties" && "oneOf" != "readOnly" && "oneOf" != "then" && "oneOf" != "uniqueItems" && "oneOf" != "writeOnly" && "pattern" != "prefixItems" && "pattern" != "required_properties" && "pattern" != "readOnly" && "pattern" != "then" && "pattern" != "uniqueItems" && "pattern" != "writeOnly" && "prefixItems" != "required_properties" && "prefixItems" != "readOnly" && "prefixItems" != "then" && "prefixItems" != "uniqueItems" && "prefixItems" != "writeOnly" && "required_properties" != "readOnly" && "required_properties" != "then" && "required_properties" != "uniqueItems" && "required_properties" != "writeOnly" && "readOnly" != "then" && "readOnly" != "uniqueItems" && "readOnly" != "writeOnly" && "then" != "uniqueItems" && "then" != "writeOnly" && "uniqueItems" != "writeOnly"
  {
  }

  /** Every token of OneOfToWriteOnly has the length and first character `KeywordShape` lists. */
  lemma OneOfToWriteOnlyShapes(x: string)
    ensures (x == "oneOf" || x == "pattern" || x == "prefixItems" || x == "required_properties" || x == "readOnly" || x == "then" || x == "uniqueItems" || x == "writeOnly") ==> |x| > 0 && KeywordShape(|x|, x[0])
  {
  }

  /** A token is in the list after OneOfToWriteOnly iff it was before, or it is one of that group's keywords and the node declares it. */
  lemma {:induction false} OneOfToWriteOnlyMembers(before: seq<string>, s: SchemaNode, x: string)
    ensures x in OneOfToWriteOnly(before, s) <==>
      x in before
      || (|s.oneOf| > 0 && x == "oneOf")
      || (s.hasPattern && x == "pattern")
      || (s.hasPrefixItems && x == "prefixItems")
      || (|s.required| > 0 && x == "required_properties")
      || (s.readOnly && x == "readOnly")
      || (s.hasThen && x == "then")
      || (s.uniqueItems && x == "uniqueItems")
      || (s.writeOnly && x == "writeOnly")
  {
    OneOfToWriteOnlyUnfolds(before, s);
    AppendedMembers8(before, |s.oneOf| > 0, "oneOf", s.hasPattern, "pattern", s.hasPrefixItems, "prefixItems", |s.required| > 0, "required_properties", s.readOnly, "readOnly", s.hasThen, "then", s.uniqueItems, "uniqueItems", s.writeOnly, "writeOnly", x);
  }

  /** OneOfToWriteOnly appends no token twice and none already present. */
  lemma OneOfToWriteOnlyNoRepeats(before: seq<string>, s: SchemaNode)
    requires NoRepeats(before)
    requires "oneOf" !in before && "pattern" !in before && "prefixItems" !in before && "required_properties" !in before && "readOnly" !in before && "then" !in before && "uniqueItems" !in before && "writeOnly" !in before
    ensures NoRepeats(OneOfToWriteOnly(before, s))
  {
    OneOfToWriteOnlyUnfolds(before, s);
    Fresh8(before, |s.oneOf| > 0, "oneOf", s.hasPattern, "pattern", s.hasPrefixItems, "prefixItems", |s.required| > 0, "required_properties", s.readOnly, "readOnly", s.hasThen, "then", s.uniqueItems, "uniqueItems", s.writeOnly, "writeOnly");
  }

  // ---------------------------------------------------------------------
  // The leading tokens: types and shape-refined keywords
  // ---------------------------------------------------------------------

  lemma LeadingMembers(s: SchemaNode, x: string)
    ensures x in LeadingTokens(s) <==>
      || x in TypeTokens(s.types)
      || x in ShapeTokens(!s.additionalProperties.NoAdditionalProperties?, "additionalProperties", "additional_properties_boolean",
                          "additional_properties_object", "additional_properties_unknown=", s.additionalProperties)
      || x in ShapeTokens(s.hasPatternProperties, "patternProperties", "pattern_properties_boolean",
                          "pattern_properties_object", "pattern_properties_unknown=", s.additionalProperties)
      || x in ShapeTokens(s.hasAdditionalItems, "additionalItems", "additional_items_boolean",
                          "additional_items_object", "additional_items_unknown=", s.additionalProperties)
  {
  }

  /** A string that starts with `prefix` differs from any string that differs from `prefix` at some position of it. */
  lemma PrefixedDiffers(prefix: string, rest: string, t: string, i: nat)
    requires i < |prefix| && i < |t| && prefix[i] != t[i]
    ensures prefix + rest != t
  {
    assert (prefix + rest)[i] == prefix[i];
  }

  /** A token that is not a type count token, and cannot start with `type=`, is not among the type tokens. */
  lemma NotInTypeTokens(types: seq<string>, t: string)
    requires t != "multiple_types" && t != "single_type" && t != "no_type"
    requires |t| < 5 || t[0] != 't'
    ensures t !in TypeTokens(types)
  {
    if |types| > 1 && |t| >= 5 {
      PrefixedDiffers("type=", Join(SortStrings(types), ","), t, 0);
    } else if |types| == 1 && |t| >= 5 {
      PrefixedDiffers("type=", types[0], t, 0);
    }
  }

  lemma TypeTokensNoRepeats(types: seq<string>)
    ensures NoRepeats(TypeTokens(types))
  {
    if |types| > 1 {
      PrefixedDiffers("type=", Join(SortStrings(types), ","), "multiple_types", 0);
    } else if |types| == 1 {
      PrefixedDiffers("type=", types[0], "single_type", 0);
    }
    DistinctNoRepeats(TypeTokens(types));
  }

  /** A token that is none of a shape-refined keyword's literal tokens, and shorter than its unknown-shape prefix, is not among its tokens. */
  lemma NotInShapeTokens(present: bool, name: string, boolToken: string, objectToken: string, unknownPrefix: string,
                         ap: AdditionalProperties, t: string)
    requires t != name && t != boolToken && t != objectToken && |t| < |unknownPrefix|
    ensures t !in ShapeTokens(present, name, boolToken, objectToken, unknownPrefix, ap)
  {
  }

  /** Appending a shape-refined keyword's tokens keeps a list free of duplicates when they are new. */
  lemma ShapeStep(a: seq<string>, present: bool, name: string, boolToken: string, objectToken: string, unknownPrefix: string,
                  ap: AdditionalProperties)
    requires NoRepeats(a)
    requires name !in a && ShapeSubToken(boolToken, objectToken, unknownPrefix, ap) !in a
    requires name != ShapeSubToken(boolToken, objectToken, unknownPrefix, ap)
    ensures NoRepeats(a + ShapeTokens(present, name, boolToken, objectToken, unknownPrefix, ap))
  {
    if present {
      PairStep(a, name, ShapeSubToken(boolToken, objectToken, unknownPrefix, ap));
    } else {
      assert a + [] == a;
    }
  }

  /** Appending two new, different tokens keeps a list free of duplicates. */
  lemma PairStep(a: seq<string>, x: string, y: string)
    requires NoRepeats(a) && x !in a && y !in a && x != y
    ensures NoRepeats(a + [x, y])
  {
    var b := a + [x];
    assert b[..|a|] == a;
    assert (a + [x, y])[..|b|] == b;
    assert y !in b;
  }

  /** The three shape-refined keywords never share a sub-token. */
  lemma SubTokensDiffer(ap: AdditionalProperties)
    ensures ShapeSubToken("additional_properties_boolean", "additional_properties_object", "additional_properties_unknown=", ap)
         != ShapeSubToken("pattern_properties_boolean", "pattern_properties_object", "pattern_properties_unknown=", ap)
    ensures ShapeSubToken("additional_properties_boolean", "additional_properties_object", "additional_properties_unknown=", ap)
         != ShapeSubToken("additional_items_boolean", "additional_items_object", "additional_items_unknown=", ap)
    ensures ShapeSubToken("pattern_properties_boolean", "pattern_properties_object", "pattern_properties_unknown=", ap)
         != ShapeSubToken("additional_items_boolean", "additional_items_object", "additional_items_unknown=", ap)
  {
    if !ap.BoolAdditionalProperties? && !ap.SchemaAdditionalProperties? {
      var r := RenderUnknown(ap);
      PrefixedDiffers("pattern_properties_unknown=", r, "additional_properties_unknown=" + r, 0);
      PrefixedDiffers("additional_items_unknown=", r, "additional_properties_unknown=" + r, 11);
      PrefixedDiffers("additional_items_unknown=", r, "pattern_properties_unknown=" + r, 0);
    }
  }

  lemma TypesThenAdditionalProperties(s: SchemaNode)
    ensures NoRepeats(TypeTokens(s.types) + ShapeTokens(!s.additionalProperties.NoAdditionalProperties?, "additionalProperties", "additional_properties_boolean",
                         "additional_properties_object", "additional_properties_unknown=", s.additionalProperties))
  {
    var ap := s.additionalProperties;
    TypeTokensNoRepeats(s.types);
    NotInTypeTokens(s.types, "additionalProperties");
    NotInTypeTokens(s.types, ShapeSubToken("additional_properties_boolean", "additional_properties_object", "additional_properties_unknown=", ap));
    ShapeStep(TypeTokens(s.types), !ap.NoAdditionalProperties?, "additionalProperties", "additional_properties_boolean",
              "additional_properties_object", "additional_properties_unknown=", ap);
  }

  lemma ThenPatternProperties(s: SchemaNode)
    ensures NoRepeats(TypeTokens(s.types) + ShapeTokens(!s.additionalProperties.NoAdditionalProperties?, "additionalProperties", "additional_properties_boolean",
                         "additional_properties_object", "additional_properties_unknown=", s.additionalProperties)
                      + ShapeTokens(s.hasPatternProperties, "patternProperties", "pattern_properties_boolean",
                         "pattern_properties_object", "pattern_properties_unknown=", s.additionalProperties))
  {
    var ap := s.additionalProperties;
    TypesThenAdditionalProperties(s);
    SubTokensDiffer(ap);
    NotInTypeTokens(s.types, "patternProperties");
    NotInTypeTokens(s.types, ShapeSubToken("pattern_properties_boolean", "pattern_properties_object", "pattern_properties_unknown=", ap));
    ShapeStep(TypeTokens(s.types) + ShapeTokens(!s.additionalProperties.NoAdditionalProperties?, "additionalProperties", "additional_properties_boolean",
                         "additional_properties_object", "additional_properties_unknown=", s.additionalProperties),
              s.hasPatternProperties, "patternProperties", "pattern_properties_boolean",
              "pattern_properties_object", "pattern_properties_unknown=", ap);
  }

  /** Neither of the `additionalItems` tokens occurs among the type, `additionalProperties` and `patternProperties` tokens. */
  lemma AdditionalItemsNew(s: SchemaNode)
    ensures var sub := ShapeSubToken("additional_items_boolean", "additional_items_object", "additional_items_unknown=", s.additionalProperties);
      && "additionalItems" !in TypeTokens(s.types) + ShapeTokens(!s.additionalProperties.NoAdditionalProperties?, "additionalProperties", "additional_properties_boolean",
                         "additional_properties_object", "additional_properties_unknown=", s.additionalProperties)
              + ShapeTokens(s.hasPatternProperties, "patternProperties", "pattern_properties_boolean",
                         "pattern_properties_object", "pattern_properties_unknown=", s.additionalProperties)
      && sub !in TypeTokens(s.types) + ShapeTokens(!s.additionalProperties.NoAdditionalProperties?, "additionalProperties", "additional_properties_boolean",
                         "additional_properties_object", "additional_properties_unknown=", s.additionalProperties)
              + ShapeTokens(s.hasPatternProperties, "patternProperties", "pattern_properties_boolean",
                         "pattern_properties_object", "pattern_properties_unknown=", s.additionalProperties)
      && "additionalItems" != sub
  {
    var ap := s.additionalProperties;
    var sub := ShapeSubToken("additional_items_boolean", "additional_items_object", "additional_items_unknown=", ap);
    SubTokensDiffer(ap);
    NotInTypeTokens(s.types, "additionalItems");
    NotInTypeTokens(s.types, sub);
    NotInShapeTokens(!ap.NoAdditionalProperties?, "additionalProperties", "additional_properties_boolean",
                     "additional_properties_object", "additional_properties_unknown=", ap, "additionalItems");
    NotInShapeTokens(s.hasPatternProperties, "patternProperties", "pattern_properties_boolean",
                     "pattern_properties_object", "pattern_properties_unknown=", ap, "additionalItems");
    if !ap.BoolAdditionalProperties? && !ap.SchemaAdditionalProperties? {
      PrefixedDiffers("additional_items_unknown=", RenderUnknown(ap), "additionalProperties", 10);
      PrefixedDiffers("additional_items_unknown=", RenderUnknown(ap), "patternProperties", 0);
      PrefixedDiffers("additional_items_unknown=", RenderUnknown(ap), "additionalItems", 10);
    }
  }

  /** The type and shape tokens are free of duplicates. */
  lemma LeadingNoRepeats(s: SchemaNode)
    ensures NoRepeats(LeadingTokens(s))
  {
    ThenPatternProperties(s);
    AdditionalItemsNew(s);
    ShapeStep(TypeTokens(s.types) + ShapeTokens(!s.additionalProperties.NoAdditionalProperties?, "additionalProperties", "additional_properties_boolean",
                         "additional_properties_object", "additional_properties_unknown=", s.additionalProperties)
              + ShapeTokens(s.hasPatternProperties, "patternProperties", "pattern_properties_boolean",
                         "pattern_properties_object", "pattern_properties_unknown=", s.additionalProperties),
              s.hasAdditionalItems, "additionalItems", "additional_items_boolean",
              "additional_items_object", "additional_items_unknown=", s.additionalProperties);
  }

  /** A token the keyword groups use is not among the leading tokens. */
  lemma NotLeading(s: SchemaNode, t: string)
    requires t != "multiple_types" && t != "single_type" && t != "no_type" && (|t| < 5 || t[0] != 't')
    requires t != "additionalProperties" && t != "additional_properties_boolean" && t != "additional_properties_object"
    requires t != "patternProperties" && t != "pattern_properties_boolean" && t != "pattern_properties_object"
    requires t != "additionalItems" && t != "additional_items_boolean" && t != "additional_items_object"
    requires |t| < 20
    ensures t !in LeadingTokens(s)
  {
    NotInTypeTokens(s.types, t);
    NotInShapeTokens(!s.additionalProperties.NoAdditionalProperties?, "additionalProperties", "additional_properties_boolean",
                     "additional_properties_object", "additional_properties_unknown=", s.additionalProperties, t);
    NotInShapeTokens(s.hasPatternProperties, "patternProperties", "pattern_properties_boolean",
                     "pattern_properties_object", "pattern_properties_unknown=", s.additionalProperties, t);
    NotInShapeTokens(s.hasAdditionalItems, "additionalItems", "additional_items_boolean",
                     "additional_items_object", "additional_items_unknown=", s.additionalProperties, t);
  }

  lemma LeadingAvoidsAllOfToExamples(s: SchemaNode)
    ensures "allOf" !in LeadingTokens(s) && "anyOf" !in LeadingTokens(s) && "constant" !in LeadingTokens(s) && "contains" !in LeadingTokens(s) && "default" !in LeadingTokens(s) && "dependentRequired" !in LeadingTokens(s) && "deprecated" !in LeadingTokens(s) && "enum" !in LeadingTokens(s) && "examples" !in LeadingTokens(s)
  {
    NotLeading(s, "allOf");
    NotLeading(s, "anyOf");
    NotLeading(s, "constant");
    NotLeading(s, "contains");
    NotLeading(s, "default");
    NotLeading(s, "dependentRequired");
    NotLeading(s, "deprecated");
    NotLeading(s, "enum");
    NotLeading(s, "examples");
  }

  lemma LeadingAvoidsElseToMaxProperties(s: SchemaNode)
    ensures "else" !in LeadingTokens(s) && "exclusiveMaximum" !in LeadingTokens(s) && "exclusiveMinimum" !in LeadingTokens(s) && "format" !in LeadingTokens(s) && "if" !in LeadingTokens(s) && "maxContains" !in LeadingTokens(s) && "maxItems" !in LeadingTokens(s) && "maxLength" !in LeadingTokens(s) && "maxProperties" !in LeadingTokens(s)
  {
    NotLeading(s, "else");
    NotLeading(s, "exclusiveMaximum");
    NotLeading(s, "exclusiveMinimum");
    NotLeading(s, "format");
    NotLeading(s, "if");
    NotLeading(s, "maxContains");
    NotLeading(s, "maxItems");
    NotLeading(s, "maxLength");
    NotLeading(s, "maxProperties");
  }

  lemma LeadingAvoidsMaximumToNot(s: SchemaNode)
    ensures "maximum" !in LeadingTokens(s) && "minContains" !in LeadingTokens(s) && "minItems" !in LeadingTokens(s) && "minLength" !in LeadingTokens(s) && "minProperties" !in LeadingTokens(s) && "minimum" !in LeadingTokens(s) && "multipleOf" !in LeadingTokens(s) && "not" !in LeadingTokens(s)
  {
    NotLeading(s, "maximum");
    NotLeading(s, "minContains");
    NotLeading(s, "minItems");
    NotLeading(s, "minLength");
    NotLeading(s, "minProperties");
    NotLeading(s, "minimum");
    NotLeading(s, "multipleOf");
    NotLeading(s, "not");
  }

  lemma LeadingAvoidsOneOfToWriteOnly(s: SchemaNode)
    ensures "oneOf" !in LeadingTokens(s) && "pattern" !in LeadingTokens(s) && "prefixItems" !in LeadingTokens(s) && "required_properties" !in LeadingTokens(s) && "readOnly" !in LeadingTokens(s) && "then" !in LeadingTokens(s) && "uniqueItems" !in LeadingTokens(s) && "writeOnly" !in LeadingTokens(s)
  {
    NotLeading(s, "oneOf");
    NotLeading(s, "pattern");
    NotLeading(s, "prefixItems");
    NotLeading(s, "required_properties");
    NotLeading(s, "readOnly");
    NotLeading(s, "then");
    NotLeading(s, "uniqueItems");
    NotLeading(s, "writeOnly");
  }

  // ---------------------------------------------------------------------
  // The groups do not add each other's tokens
  // ---------------------------------------------------------------------

  lemma AllOfToExamplesKeepsElseToMaxProperties(before: seq<string>, s: SchemaNode)
    ensures ("else" in AllOfToExamples(before, s) <==> "else" in before)
         && ("exclusiveMaximum" in AllOfToExamples(before, s) <==> "exclusiveMaximum" in before)
         && ("exclusiveMinimum" in AllOfToExamples(before, s) <==> "exclusiveMinimum" in before)
         && ("format" in AllOfToExamples(before, s) <==> "format" in before)
         && ("if" in AllOfToExamples(before, s) <==> "if" in before)
         && ("maxContains" in AllOfToExamples(before, s) <==> "maxContains" in before)
         && ("maxItems" in AllOfToExamples(before, s) <==> "maxItems" in before)
         && ("maxLength" in AllOfToExamples(before, s) <==> "maxLength" in before)
         && ("maxProperties" in AllOfToExamples(before, s) <==> "maxProperties" in before)
  {
    AllOfToExamplesMembers(before, s, "else");
    AllOfToExamplesMembers(before, s, "exclusiveMaximum");
    AllOfToExamplesMembers(before, s, "exclusiveMinimum");
    AllOfToExamplesMembers(before, s, "format");
    AllOfToExamplesMembers(before, s, "if");
    AllOfToExamplesMembers(before, s, "maxContains");
    AllOfToExamplesMembers(before, s, "maxItems");
    AllOfToExamplesMembers(before, s, "maxLength");
    AllOfToExamplesMembers(before, s, "maxProperties");
  }

  lemma AllOfToExamplesKeepsMaximumToNot(before: seq<string>, s: SchemaNode)
    ensures ("maximum" in AllOfToExamples(before, s) <==> "maximum" in before)
         && ("minContains" in AllOfToExamples(before, s) <==> "minContains" in before)
         && ("minItems" in AllOfToExamples(before, s) <==> "minItems" in before)
         && ("minLength" in AllOfToExamples(before, s) <==> "minLength" in before)
         && ("minProperties" in AllOfToExamples(before, s) <==> "minProperties" in before)
         && ("minimum" in AllOfToExamples(before, s) <==> "minimum" in before)
         && ("multipleOf" in AllOfToExamples(before, s) <==> "multipleOf" in before)
         && ("not" in AllOfToExamples(before, s) <==> "not" in before)
  {
    AllOfToExamplesMembers(before, s, "maximum");
    AllOfToExamplesMembers(before, s, "minContains");
    AllOfToExamplesMembers(before, s, "minItems");
    AllOfToExamplesMembers(before, s, "minLength");
    AllOfToExamplesMembers(before, s, "minProperties");
    AllOfToExamplesMembers(before, s, "minimum");
    AllOfToExamplesMembers(before, s, "multipleOf");
    AllOfToExamplesMembers(before, s, "not");
  }

  lemma AllOfToExamplesKeepsOneOfToWriteOnly(before: seq<string>, s: SchemaNode)
    ensures ("oneOf" in AllOfToExamples(before, s) <==> "oneOf" in before)
         && ("pattern" in AllOfToExamples(before, s) <==> "pattern" in before)
         && ("prefixItems" in AllOfToExamples(before, s) <==> "prefixItems" in before)
         && ("required_properties" in AllOfToExamples(before, s) <==> "required_properties" in before)
         && ("readOnly" in AllOfToExamples(before, s) <==> "readOnly" in before)
         && ("then" in AllOfToExamples(before, s) <==> "then" in before)
         && ("uniqueItems" in AllOfToExamples(before, s) <==> "uniqueItems" in before)
         && ("writeOnly" in AllOfToExamples(before, s) <==> "writeOnly" in before)
  {
    AllOfToExamplesMembers(before, s, "oneOf");
    AllOfToExamplesMembers(before, s, "pattern");
    AllOfToExamplesMembers(before, s, "prefixItems");
    AllOfToExamplesMembers(before, s, "required_properties");
    AllOfToExamplesMembers(before, s, "readOnly");
    AllOfToExamplesMembers(before, s, "then");
    AllOfToExamplesMembers(before, s, "uniqueItems");
    AllOfToExamplesMembers(before, s, "writeOnly");
  }

  lemma ElseToMaxPropertiesKeepsAllOfToExamples(before: seq<string>, s: SchemaNode)
    ensures ("allOf" in ElseToMaxProperties(before, s) <==> "allOf" in before)
         && ("anyOf" in ElseToMaxProperties(before, s) <==> "anyOf" in before)
         && ("constant" in ElseToMaxProperties(before, s) <==> "constant" in before)
         && ("contains" in ElseToMaxProperties(before, s) <==> "contains" in before)
         && ("default" in ElseToMaxProperties(before, s) <==> "default" in before)
         && ("dependentRequired" in ElseToMaxProperties(before, s) <==> "dependentRequired" in before)
         && ("deprecated" in ElseToMaxProperties(before, s) <==> "deprecated" in before)
         && ("enum" in ElseToMaxProperties(before, s) <==> "enum" in before)
         && ("examples" in ElseToMaxProperties(before, s) <==> "examples" in before)
  {
    ElseToMaxPropertiesMembers(before, s, "allOf");
    ElseToMaxPropertiesMembers(before, s, "anyOf");
    ElseToMaxPropertiesMembers(before, s, "constant");
    ElseToMaxPropertiesMembers(before, s, "contains");
    ElseToMaxPropertiesMembers(before, s, "default");
    ElseToMaxPropertiesMembers(before, s, "dependentRequired");
    ElseToMaxPropertiesMembers(before, s, "deprecated");
    ElseToMaxPropertiesMembers(before, s, "enum");
    ElseToMaxPropertiesMembers(before, s, "examples");
  }

  lemma ElseToMaxPropertiesKeepsMaximumToNot(before: seq<string>, s: SchemaNode)
    ensures ("maximum" in ElseToMaxProperties(before, s) <==> "maximum" in before)
         && ("minContains" in ElseToMaxProperties(before, s) <==> "minContains" in before)
         && ("minItems" in ElseToMaxProperties(before, s) <==> "minItems" in before)
         && ("minLength" in ElseToMaxProperties(before, s) <==> "minLength" in before)
         && ("minProperties" in ElseToMaxProperties(before, s) <==> "minProperties" in before)
         && ("minimum" in ElseToMaxProperties(before, s) <==> "minimum" in before)
         && ("multipleOf" in ElseToMaxProperties(before, s) <==> "multipleOf" in before)
         && ("not" in ElseToMaxProperties(before, s) <==> "not" in before)
  {
    ElseToMaxPropertiesMembers(before, s, "maximum");
    ElseToMaxPropertiesMembers(before, s, "minContains");
    ElseToMaxPropertiesMembers(before, s, "minItems");
    ElseToMaxPropertiesMembers(before, s, "minLength");
    ElseToMaxPropertiesMembers(before, s, "minProperties");
    ElseToMaxPropertiesMembers(before, s, "minimum");
    ElseToMaxPropertiesMembers(before, s, "multipleOf");
    ElseToMaxPropertiesMembers(before, s, "not");
  }

  lemma ElseToMaxPropertiesKeepsOneOfToWriteOnly(before: seq<string>, s: SchemaNode)
    ensures ("oneOf" in ElseToMaxProperties(before, s) <==> "oneOf" in before)
         && ("pattern" in ElseToMaxProperties(before, s) <==> "pattern" in before)
         && ("prefixItems" in ElseToMaxProperties(before, s) <==> "prefixItems" in before)
         && ("required_properties" in ElseToMaxProperties(before, s) <==> "required_properties" in before)
         && ("readOnly" in ElseToMaxProperties(before, s) <==> "readOnly" in before)
         && ("then" in ElseToMaxProperties(before, s) <==> "then" in before)
         && ("uniqueItems" in ElseToMaxProperties(before, s) <==> "uniqueItems" in before)
         && ("writeOnly" in ElseToMaxProperties(before, s) <==> "writeOnly" in before)
  {
    ElseToMaxPropertiesMembers(before, s, "oneOf");
    ElseToMaxPropertiesMembers(before, s, "pattern");
    ElseToMaxPropertiesMembers(before, s, "prefixItems");
    ElseToMaxPropertiesMembers(before, s, "required_properties");
    ElseToMaxPropertiesMembers(before, s, "readOnly");
    ElseToMaxPropertiesMembers(before, s, "then");
    ElseToMaxPropertiesMembers(before, s, "uniqueItems");
    ElseToMaxPropertiesMembers(before, s, "writeOnly");
  }

  lemma MaximumToNotKeepsAllOfToExamples(before: seq<string>, s: SchemaNode)
    ensures ("allOf" in MaximumToNot(before, s) <==> "allOf" in before)
         && ("anyOf" in MaximumToNot(before, s) <==> "anyOf" in before)
         && ("constant" in MaximumToNot(before, s) <==> "constant" in before)
         && ("contains" in MaximumToNot(before, s) <==> "contains" in before)
         && ("default" in MaximumToNot(before, s) <==> "default" in before)
         && ("dependentRequired" in MaximumToNot(before, s) <==> "dependentRequired" in before)
         && ("deprecated" in MaximumToNot(before, s) <==> "deprecated" in before)
         && ("enum" in MaximumToNot(before, s) <==> "enum" in before)
         && ("examples" in MaximumToNot(before, s) <==> "examples" in before)
  {
    MaximumToNotMembers(before, s, "allOf");
    MaximumToNotMembers(before, s, "anyOf");
    MaximumToNotMembers(before, s, "constant");
    MaximumToNotMembers(before, s, "contains");
    MaximumToNotMembers(before, s, "default");
    MaximumToNotMembers(before, s, "dependentRequired");
    MaximumToNotMembers(before, s, "deprecated");
    MaximumToNotMembers(before, s, "enum");
    MaximumToNotMembers(before, s, "examples");
  }

  lemma MaximumToNotKeepsElseToMaxProperties(before: seq<string>, s: SchemaNode)
    ensures ("else" in MaximumToNot(before, s) <==> "else" in before)
         && ("exclusiveMaximum" in MaximumToNot(before, s) <==> "exclusiveMaximum" in before)
         && ("exclusiveMinimum" in MaximumToNot(before, s) <==> "exclusiveMinimum" in before)
         && ("format" in MaximumToNot(before, s) <==> "format" in before)
         && ("if" in MaximumToNot(before, s) <==> "if" in before)
         && ("maxContains" in MaximumToNot(before, s) <==> "maxContains" in before)
         && ("maxItems" in MaximumToNot(before, s) <==> "maxItems" in before)
         && ("maxLength" in MaximumToNot(before, s) <==> "maxLength" in before)
         && ("maxProperties" in MaximumToNot(before, s) <==> "maxProperties" in before)
  {
    MaximumToNotMembers(before, s, "else");
    MaximumToNotMembers(before, s, "exclusiveMaximum");
    MaximumToNotMembers(before, s, "exclusiveMinimum");
    MaximumToNotMembers(before, s, "format");
    MaximumToNotMembers(before, s, "if");
    MaximumToNotMembers(before, s, "maxContains");
    MaximumToNotMembers(before, s, "maxItems");
    MaximumToNotMembers(before, s, "maxLength");
    MaximumToNotMembers(before, s, "maxProperties");
  }

  lemma MaximumToNotKeepsOneOfToWriteOnly(before: seq<string>, s: SchemaNode)
    ensures ("oneOf" in MaximumToNot(before, s) <==> "oneOf" in before)
         && ("pattern" in MaximumToNot(before, s) <==> "pattern" in before)
         && ("prefixItems" in MaximumToNot(before, s) <==> "prefixItems" in before)
         && ("required_properties" in MaximumToNot(before, s) <==> "required_properties" in before)
         && ("readOnly" in MaximumToNot(before, s) <==> "readOnly" in before)
         && ("then" in MaximumToNot(before, s) <==> "then" in before)
         && ("uniqueItems" in MaximumToNot(before, s) <==> "uniqueItems" in before)
         && ("writeOnly" in MaximumToNot(before, s) <==> "writeOnly" in before)
  {
    MaximumToNotMembers(before, s, "oneOf");
    MaximumToNotMembers(before, s, "pattern");
    MaximumToNotMembers(before, s, "prefixItems");
    MaximumToNotMembers(before, s, "required_properties");
    MaximumToNotMembers(before, s, "readOnly");
    MaximumToNotMembers(before, s, "then");
    MaximumToNotMembers(before, s, "uniqueItems");
    MaximumToNotMembers(before, s, "writeOnly");
  }

  lemma OneOfToWriteOnlyKeepsAllOfToExamples(before: seq<string>, s: SchemaNode)
    ensures ("allOf" in OneOfToWriteOnly(before, s) <==> "allOf" in before)
         && ("anyOf" in OneOfToWriteOnly(before, s) <==> "anyOf" in before)
         && ("constant" in OneOfToWriteOnly(before, s) <==> "constant" in before)
         && ("contains" in OneOfToWriteOnly(before, s) <==> "contains" in before)
         && ("default" in OneOfToWriteOnly(before, s) <==> "default" in before)
         && ("dependentRequired" in OneOfToWriteOnly(before, s) <==> "dependentRequired" in before)
         && ("deprecated" in OneOfToWriteOnly(before, s) <==> "deprecated" in before)
         && ("enum" in OneOfToWriteOnly(before, s) <==> "enum" in before)
         && ("examples" in OneOfToWriteOnly(before, s) <==> "examples" in before)
  {
    OneOfToWriteOnlyMembers(before, s, "allOf");
    OneOfToWriteOnlyMembers(before, s, "anyOf");
    OneOfToWriteOnlyMembers(before, s, "constant");
    OneOfToWriteOnlyMembers(before, s, "contains");
    OneOfToWriteOnlyMembers(before, s, "default");
    OneOfToWriteOnlyMembers(before, s, "dependentRequired");
    OneOfToWriteOnlyMembers(before, s, "deprecated");
    OneOfToWriteOnlyMembers(before, s, "enum");
    OneOfToWriteOnlyMembers(before, s, "examples");
  }

  lemma OneOfToWriteOnlyKeepsElseToMaxProperties(before: seq<string>, s: SchemaNode)
    ensures ("else" in OneOfToWriteOnly(before, s) <==> "else" in before)
         && ("exclusiveMaximum" in OneOfToWriteOnly(before, s) <==> "exclusiveMaximum" in before)
         && ("exclusiveMinimum" in OneOfToWriteOnly(before, s) <==> "exclusiveMinimum" in before)
         && ("format" in OneOfToWriteOnly(before, s) <==> "format" in before)
         && ("if" in OneOfToWriteOnly(before, s) <==> "if" in before)
         && ("maxContains" in OneOfToWriteOnly(before, s) <==> "maxContains" in before)
         && ("maxItems" in OneOfToWriteOnly(before, s) <==> "maxItems" in before)
         && ("maxLength" in OneOfToWriteOnly(before, s) <==> "maxLength" in before)
         && ("maxProperties" in OneOfToWriteOnly(before, s) <==> "maxProperties" in before)
  {
    OneOfToWriteOnlyMembers(before, s, "else");
    OneOfToWriteOnlyMembers(before, s, "exclusiveMaximum");
    OneOfToWriteOnlyMembers(before, s, "exclusiveMinimum");
    OneOfToWriteOnlyMembers(before, s, "format");
    OneOfToWriteOnlyMembers(before, s, "if");
    OneOfToWriteOnlyMembers(before, s, "maxContains");
    OneOfToWriteOnlyMembers(before, s, "maxItems");
    OneOfToWriteOnlyMembers(before, s, "maxLength");
    OneOfToWriteOnlyMembers(before, s, "maxProperties");
  }

  lemma OneOfToWriteOnlyKeepsMaximumToNot(before: seq<string>, s: SchemaNode)
    ensures ("maximum" in OneOfToWriteOnly(before, s) <==> "maximum" in before)
         && ("minContains" in OneOfToWriteOnly(before, s) <==> "minContains" in before)
         && ("minItems" in OneOfToWriteOnly(before, s) <==> "minItems" in before)
         && ("minLength" in OneOfToWriteOnly(before, s) <==> "minLength" in before)
         && ("minProperties" in OneOfToWriteOnly(before, s) <==> "minProperties" in before)
         && ("minimum" in OneOfToWriteOnly(before, s) <==> "minimum" in before)
         && ("multipleOf" in OneOfToWriteOnly(before, s) <==> "multipleOf" in before)
         && ("not" in OneOfToWriteOnly(before, s) <==> "not" in before)
  {
    OneOfToWriteOnlyMembers(before, s, "maximum");
    OneOfToWriteOnlyMembers(before, s, "minContains");
    OneOfToWriteOnlyMembers(before, s, "minItems");
    OneOfToWriteOnlyMembers(before, s, "minLength");
    OneOfToWriteOnlyMembers(before, s, "minProperties");
    OneOfToWriteOnlyMembers(before, s, "minimum");
    OneOfToWriteOnlyMembers(before, s, "multipleOf");
    OneOfToWriteOnlyMembers(before, s, "not");
  }
  // ---------------------------------------------------------------------
  // The whole token list
  // ---------------------------------------------------------------------

  /** Sorting keeps exactly the tokens it was given. */
  lemma SortedTokensMember(s: SchemaNode, x: string)
    ensures x in SortedTokens(s) <==> x in Tokens(s)
  {
    SortKeepsMembers(Tokens(s), x);
  }

  lemma TokensNoRepeats(s: SchemaNode)
    ensures NoRepeats(Tokens(s))
  {
    var p0 := LeadingTokens(s);
    LeadingNoRepeats(s);
    LeadingAvoidsAllOfToExamples(s);
    LeadingAvoidsElseToMaxProperties(s);
    LeadingAvoidsMaximumToNot(s);
    LeadingAvoidsOneOfToWriteOnly(s);
    AllOfToExamplesNoRepeats(p0, s);
    AllOfToExamplesKeepsElseToMaxProperties(p0, s);
    AllOfToExamplesKeepsMaximumToNot(p0, s);
    AllOfToExamplesKeepsOneOfToWriteOnly(p0, s);
    var p1 := AllOfToExamples(p0, s);
    ElseToMaxPropertiesNoRepeats(p1, s);
    ElseToMaxPropertiesKeepsMaximumToNot(p1, s);
    ElseToMaxPropertiesKeepsOneOfToWriteOnly(p1, s);
    var p2 := ElseToMaxProperties(p1, s);
    MaximumToNotNoRepeats(p2, s);
    MaximumToNotKeepsOneOfToWriteOnly(p2, s);
    var p3 := MaximumToNot(p2, s);
    OneOfToWriteOnlyNoRepeats(p3, s);
  }

  /** `extractFeatures` returns its tokens sorted, each at most once. */
  lemma ExtractFeaturesSortedDistinct(s: SchemaNode)
    ensures Sorted(SortedTokens(s))
    ensures Distinct(SortedTokens(s))
    ensures |SortedTokens(s)| == |Tokens(s)|
  {
    TokensNoRepeats(s);
    NoRepeatsDistinct(Tokens(s));
    DistinctPermutation(Tokens(s), SortedTokens(s));
  }

  lemma AllOfToExamplesDeclared(s: SchemaNode)
    ensures ("allOf" in AllOfToExamples(LeadingTokens(s), s) <==> |s.allOf| > 0)
         && ("anyOf" in AllOfToExamples(LeadingTokens(s), s) <==> |s.anyOf| > 0)
         && ("constant" in AllOfToExamples(LeadingTokens(s), s) <==> s.hasConst)
         && ("contains" in AllOfToExamples(LeadingTokens(s), s) <==> s.hasContains)
         && ("default" in AllOfToExamples(LeadingTokens(s), s) <==> s.hasDefault)
         && ("dependentRequired" in AllOfToExamples(LeadingTokens(s), s) <==> s.hasDependentRequired)
         && ("deprecated" in AllOfToExamples(LeadingTokens(s), s) <==> s.deprecated)
         && ("enum" in AllOfToExamples(LeadingTokens(s), s) <==> s.hasEnum)
         && ("examples" in AllOfToExamples(LeadingTokens(s), s) <==> s.hasExamples)
  {
    var p0 := LeadingTokens(s);
    LeadingAvoidsAllOfToExamples(s);
    AllOfToExamplesDiffer();
    AllOfToExamplesMembers(p0, s, "allOf");
    AllOfToExamplesMembers(p0, s, "anyOf");
    AllOfToExamplesMembers(p0, s, "constant");
    AllOfToExamplesMembers(p0, s, "contains");
    AllOfToExamplesMembers(p0, s, "default");
    AllOfToExamplesMembers(p0, s, "dependentRequired");
    AllOfToExamplesMembers(p0, s, "deprecated");
    AllOfToExamplesMembers(p0, s, "enum");
    AllOfToExamplesMembers(p0, s, "examples");
  }

  /** Each keyword of the AllOfToExamples group has its token in the result iff the node declares it. */
  lemma AllOfToExamplesTokens(s: SchemaNode)
    ensures ("allOf" in SortedTokens(s) <==> |s.allOf| > 0)
         && ("anyOf" in SortedTokens(s) <==> |s.anyOf| > 0)
         && ("constant" in SortedTokens(s) <==> s.hasConst)
         && ("contains" in SortedTokens(s) <==> s.hasContains)
         && ("default" in SortedTokens(s) <==> s.hasDefault)
         && ("dependentRequired" in SortedTokens(s) <==> s.hasDependentRequired)
         && ("deprecated" in SortedTokens(s) <==> s.deprecated)
         && ("enum" in SortedTokens(s) <==> s.hasEnum)
         && ("examples" in SortedTokens(s) <==> s.hasExamples)
  {
    var p0 := LeadingTokens(s);
    var p1 := AllOfToExamples(p0, s);
    var p2 := ElseToMaxProperties(p1, s);
    var p3 := MaximumToNot(p2, s);
    AllOfToExamplesDeclared(s);
    ElseToMaxPropertiesKeepsAllOfToExamples(p1, s);
    MaximumToNotKeepsAllOfToExamples(p2, s);
    OneOfToWriteOnlyKeepsAllOfToExamples(p3, s);
    SortedTokensMember(s, "allOf");
    SortedTokensMember(s, "anyOf");
    SortedTokensMember(s, "constant");
    SortedTokensMember(s, "contains");
    SortedTokensMember(s, "default");
    SortedTokensMember(s, "dependentRequired");
    SortedTokensMember(s, "deprecated");
    SortedTokensMember(s, "enum");
    SortedTokensMember(s, "examples");
  }

  lemma ElseToMaxPropertiesDeclared(s: SchemaNode)
    ensures ("else" in ElseToMaxProperties(AllOfToExamples(LeadingTokens(s), s), s) <==> s.hasElse)
         && ("exclusiveMaximum" in ElseToMaxProperties(AllOfToExamples(LeadingTokens(s), s), s) <==> s.hasExclusiveMaximum)
         && ("exclusiveMinimum" in ElseToMaxProperties(AllOfToExamples(LeadingTokens(s), s), s) <==> s.hasExclusiveMinimum)
         && ("format" in ElseToMaxProperties(AllOfToExamples(LeadingTokens(s), s), s) <==> s.format != "")
         && ("if" in ElseToMaxProperties(AllOfToExamples(LeadingTokens(s), s), s) <==> s.hasIf)
         && ("maxContains" in ElseToMaxProperties(AllOfToExamples(LeadingTokens(s), s), s) <==> s.maxContains != UnspecifiedNumber)
         && ("maxItems" in ElseToMaxProperties(AllOfToExamples(LeadingTokens(s), s), s) <==> s.maxItems != UnspecifiedNumber)
         && ("maxLength" in ElseToMaxProperties(AllOfToExamples(LeadingTokens(s), s), s) <==> s.maxLength != UnspecifiedNumber)
         && ("maxProperties" in ElseToMaxProperties(AllOfToExamples(LeadingTokens(s), s), s) <==> s.maxProperties != UnspecifiedNumber)
  {
    var p0 := LeadingTokens(s);
    var p1 := AllOfToExamples(p0, s);
    LeadingAvoidsElseToMaxProperties(s);
    ElseToMaxPropertiesDiffer();
    AllOfToExamplesKeepsElseToMaxProperties(p0, s);
    ElseToMaxPropertiesMembers(p1, s, "else");
    ElseToMaxPropertiesMembers(p1, s, "exclusiveMaximum");
    ElseToMaxPropertiesMembers(p1, s, "exclusiveMinimum");
    ElseToMaxPropertiesMembers(p1, s, "format");
    ElseToMaxPropertiesMembers(p1, s, "if");
    ElseToMaxPropertiesMembers(p1, s, "maxContains");
    ElseToMaxPropertiesMembers(p1, s, "maxItems");
    ElseToMaxPropertiesMembers(p1, s, "maxLength");
    ElseToMaxPropertiesMembers(p1, s, "maxProperties");
  }

  /** Each keyword of the ElseToMaxProperties group has its token in the result iff the node declares it. */
  lemma ElseToMaxPropertiesTokens(s: SchemaNode)
    ensures ("else" in SortedTokens(s) <==> s.hasElse)
         && ("exclusiveMaximum" in SortedTokens(s) <==> s.hasExclusiveMaximum)
         && ("exclusiveMinimum" in SortedTokens(s) <==> s.hasExclusiveMinimum)
         && ("format" in SortedTokens(s) <==> s.format != "")
         && ("if" in SortedTokens(s) <==> s.hasIf)
         && ("maxContains" in SortedTokens(s) <==> s.maxContains != UnspecifiedNumber)
         && ("maxItems" in SortedTokens(s) <==> s.maxItems != UnspecifiedNumber)
         && ("maxLength" in SortedTokens(s) <==> s.maxLength != UnspecifiedNumber)
         && ("maxProperties" in SortedTokens(s) <==> s.maxProperties != UnspecifiedNumber)
  {
    var p0 := LeadingTokens(s);
    var p1 := AllOfToExamples(p0, s);
    var p2 := ElseToMaxProperties(p1, s);
    var p3 := MaximumToNot(p2, s);
    ElseToMaxPropertiesDeclared(s);
    MaximumToNotKeepsElseToMaxProperties(p2, s);
    OneOfToWriteOnlyKeepsElseToMaxProperties(p3, s);
    SortedTokensMember(s, "else");
    SortedTokensMember(s, "exclusiveMaximum");
    SortedTokensMember(s, "exclusiveMinimum");
    SortedTokensMember(s, "format");
    SortedTokensMember(s, "if");
    SortedTokensMember(s, "maxContains");
    SortedTokensMember(s, "maxItems");
    SortedTokensMember(s, "maxLength");
    SortedTokensMember(s, "maxProperties");
  }

  lemma MaximumToNotDeclared(s: SchemaNode)
    ensures ("maximum" in MaximumToNot(ElseToMaxProperties(AllOfToExamples(LeadingTokens(s), s), s), s) <==> s.hasMaximum)
         && ("minContains" in MaximumToNot(ElseToMaxProperties(AllOfToExamples(LeadingTokens(s), s), s), s) <==> s.minContains != 1)
         && ("minItems" in MaximumToNot(ElseToMaxProperties(AllOfToExamples(LeadingTokens(s), s), s), s) <==> s.minItems != UnspecifiedNumber)
         && ("minLength" in MaximumToNot(ElseToMaxProperties(AllOfToExamples(LeadingTokens(s), s), s), s) <==> s.minLength != UnspecifiedNumber)
         && ("minProperties" in MaximumToNot(ElseToMaxProperties(AllOfToExamples(LeadingTokens(s), s), s), s) <==> s.minProperties != UnspecifiedNumber)
         && ("minimum" in MaximumToNot(ElseToMaxProperties(AllOfToExamples(LeadingTokens(s), s), s), s) <==> s.hasMinimum)
         && ("multipleOf" in MaximumToNot(ElseToMaxProperties(AllOfToExamples(LeadingTokens(s), s), s), s) <==> s.hasMultipleOf)
         && ("not" in MaximumToNot(ElseToMaxProperties(AllOfToExamples(LeadingTokens(s), s), s), s) <==> s.hasNot)
  {
    var p0 := LeadingTokens(s);
    var p1 := AllOfToExamples(p0, s);
    var p2 := ElseToMaxProperties(p1, s);
    LeadingAvoidsMaximumToNot(s);
    MaximumToNotDiffer();
    AllOfToExamplesKeepsMaximumToNot(p0, s);
    ElseToMaxPropertiesKeepsMaximumToNot(p1, s);
    MaximumToNotMembers(p2, s, "maximum");
    MaximumToNotMembers(p2, s, "minContains");
    MaximumToNotMembers(p2, s, "minItems");
    MaximumToNotMembers(p2, s, "minLength");
    MaximumToNotMembers(p2, s, "minProperties");
    MaximumToNotMembers(p2, s, "minimum");
    MaximumToNotMembers(p2, s, "multipleOf");
    MaximumToNotMembers(p2, s, "not");
  }

  /** Each keyword of the MaximumToNot group has its token in the result iff the node declares it. */
  lemma MaximumToNotTokens(s: SchemaNode)
    ensures ("maximum" in SortedTokens(s) <==> s.hasMaximum)
         && ("minContains" in SortedTokens(s) <==> s.minContains != 1)
         && ("minItems" in SortedTokens(s) <==> s.minItems != UnspecifiedNumber)
         && ("minLength" in SortedTokens(s) <==> s.minLength != UnspecifiedNumber)
         && ("minProperties" in SortedTokens(s) <==> s.minProperties != UnspecifiedNumber)
         && ("minimum" in SortedTokens(s) <==> s.hasMinimum)
         && ("multipleOf" in SortedTokens(s) <==> s.hasMultipleOf)
         && ("not" in SortedTokens(s) <==> s.hasNot)
  {
    var p0 := LeadingTokens(s);
    var p1 := AllOfToExamples(p0, s);
    var p2 := ElseToMaxProperties(p1, s);
    var p3 := MaximumToNot(p2, s);
    MaximumToNotDeclared(s);
    OneOfToWriteOnlyKeepsMaximumToNot(p3, s);
    SortedTokensMember(s, "maximum");
    SortedTokensMember(s, "minContains");
    SortedTokensMember(s, "minItems");
    SortedTokensMember(s, "minLength");
    SortedTokensMember(s, "minProperties");
    SortedTokensMember(s, "minimum");
    SortedTokensMember(s, "multipleOf");
    SortedTokensMember(s, "not");
  }

  lemma OneOfToWriteOnlyDeclared(s: SchemaNode)
    ensures ("oneOf" in OneOfToWriteOnly(MaximumToNot(ElseToMaxProperties(AllOfToExamples(LeadingTokens(s), s), s), s), s) <==> |s.oneOf| > 0)
         && ("pattern" in OneOfToWriteOnly(MaximumToNot(ElseToMaxProperties(AllOfToExamples(LeadingTokens(s), s), s), s), s) <==> s.hasPattern)
         && ("prefixItems" in OneOfToWriteOnly(MaximumToNot(ElseToMaxProperties(AllOfToExamples(LeadingTokens(s), s), s), s), s) <==> s.hasPrefixItems)
         && ("required_properties" in OneOfToWriteOnly(MaximumToNot(ElseToMaxProperties(AllOfToExamples(LeadingTokens(s), s), s), s), s) <==> |s.required| > 0)
         && ("readOnly" in OneOfToWriteOnly(MaximumToNot(ElseToMaxProperties(AllOfToExamples(LeadingTokens(s), s), s), s), s) <==> s.readOnly)
         && ("then" in OneOfToWriteOnly(MaximumToNot(ElseToMaxProperties(AllOfToExamples(LeadingTokens(s), s), s), s), s) <==> s.hasThen)
         && ("uniqueItems" in OneOfToWriteOnly(MaximumToNot(ElseToMaxProperties(AllOfToExamples(LeadingTokens(s), s), s), s), s) <==> s.uniqueItems)
         && ("writeOnly" in OneOfToWriteOnly(MaximumToNot(ElseToMaxProperties(AllOfToExamples(LeadingTokens(s), s), s), s), s) <==> s.writeOnly)
  {
    var p0 := LeadingTokens(s);
    var p1 := AllOfToExamples(p0, s);
    var p2 := ElseToMaxProperties(p1, s);
    var p3 := MaximumToNot(p2, s);
    LeadingAvoidsOneOfToWriteOnly(s);
    OneOfToWriteOnlyDiffer();
    AllOfToExamplesKeepsOneOfToWriteOnly(p0, s);
    ElseToMaxPropertiesKeepsOneOfToWriteOnly(p1, s);
    MaximumToNotKeepsOneOfToWriteOnly(p2, s);
    OneOfToWriteOnlyMembers(p3, s, "oneOf");
    OneOfToWriteOnlyMembers(p3, s, "pattern");
    OneOfToWriteOnlyMembers(p3, s, "prefixItems");
    OneOfToWriteOnlyMembers(p3, s, "required_properties");
    OneOfToWriteOnlyMembers(p3, s, "readOnly");
    OneOfToWriteOnlyMembers(p3, s, "then");
    OneOfToWriteOnlyMembers(p3, s, "uniqueItems");
    OneOfToWriteOnlyMembers(p3, s, "writeOnly");
  }

  /** Each keyword of the OneOfToWriteOnly group has its token in the result iff the node declares it. */
  lemma OneOfToWriteOnlyTokens(s: SchemaNode)
    ensures ("oneOf" in SortedTokens(s) <==> |s.oneOf| > 0)
         && ("pattern" in SortedTokens(s) <==> s.hasPattern)
         && ("prefixItems" in SortedTokens(s) <==> s.hasPrefixItems)
         && ("required_properties" in SortedTokens(s) <==> |s.required| > 0)
         && ("readOnly" in SortedTokens(s) <==> s.readOnly)
         && ("then" in SortedTokens(s) <==> s.hasThen)
         && ("uniqueItems" in SortedTokens(s) <==> s.uniqueItems)
         && ("writeOnly" in SortedTokens(s) <==> s.writeOnly)
  {
    var p0 := LeadingTokens(s);
    var p1 := AllOfToExamples(p0, s);
    var p2 := ElseToMaxProperties(p1, s);
    var p3 := MaximumToNot(p2, s);
    OneOfToWriteOnlyDeclared(s);
    SortedTokensMember(s, "oneOf");
    SortedTokensMember(s, "pattern");
    SortedTokensMember(s, "prefixItems");
    SortedTokensMember(s, "required_properties");
    SortedTokensMember(s, "readOnly");
    SortedTokensMember(s, "then");
    SortedTokensMember(s, "uniqueItems");
    SortedTokensMember(s, "writeOnly");
  }
  /** A token is in the result iff it is a type or shape token, or the token of a one-token keyword the node declares. */
  lemma TokensMembers(s: SchemaNode, x: string)
    ensures x in SortedTokens(s) <==>
      x in LeadingTokens(s)
      || (|s.allOf| > 0 && x == "allOf")
      || (|s.anyOf| > 0 && x == "anyOf")
      || (s.hasConst && x == "constant")
      || (s.hasContains && x == "contains")
      || (s.hasDefault && x == "default")
      || (s.hasDependentRequired && x == "dependentRequired")
      || (s.deprecated && x == "deprecated")
      || (s.hasEnum && x == "enum")
      || (s.hasExamples && x == "examples")
      || (s.hasElse && x == "else")
      || (s.hasExclusiveMaximum && x == "exclusiveMaximum")
      || (s.hasExclusiveMinimum && x == "exclusiveMinimum")
      || (s.format != "" && x == "format")
      || (s.hasIf && x == "if")
      || (s.maxContains != UnspecifiedNumber && x == "maxContains")
      || (s.maxItems != UnspecifiedNumber && x == "maxItems")
      || (s.maxLength != UnspecifiedNumber && x == "maxLength")
      || (s.maxProperties != UnspecifiedNumber && x == "maxProperties")
      || (s.hasMaximum && x == "maximum")
      || (s.minContains != 1 && x == "minContains")
      || (s.minItems != UnspecifiedNumber && x == "minItems")
      || (s.minLength != UnspecifiedNumber && x == "minLength")
      || (s.minProperties != UnspecifiedNumber && x == "minProperties")
      || (s.hasMinimum && x == "minimum")
      || (s.hasMultipleOf && x == "multipleOf")
      || (s.hasNot && x == "not")
      || (|s.oneOf| > 0 && x == "oneOf")
      || (s.hasPattern && x == "pattern")
      || (s.hasPrefixItems && x == "prefixItems")
      || (|s.required| > 0 && x == "required_properties")
      || (s.readOnly && x == "readOnly")
      || (s.hasThen && x == "then")
      || (s.uniqueItems && x == "uniqueItems")
      || (s.writeOnly && x == "writeOnly")
  {
    var p0 := LeadingTokens(s);
    var p1 := AllOfToExamples(p0, s);
    var p2 := ElseToMaxProperties(p1, s);
    var p3 := MaximumToNot(p2, s);
    AllOfToExamplesMembers(p0, s, x);
    ElseToMaxPropertiesMembers(p1, s, x);
    MaximumToNotMembers(p2, s, x);
    OneOfToWriteOnlyMembers(p3, s, x);
    SortKeepsMembers(Tokens(s), x);
  }

  /**
   * The counting keywords: each token is present iff the value is not the
   * "unspecified" sentinel, which is -1 for all of them except
   * `minContains`, whose sentinel is its default 1.
   */
  lemma CountSentinelTokens(s: SchemaNode)
    ensures ("maxContains" in SortedTokens(s) <==> s.maxContains != UnspecifiedNumber)
         && ("maxItems" in SortedTokens(s) <==> s.maxItems != UnspecifiedNumber)
         && ("maxLength" in SortedTokens(s) <==> s.maxLength != UnspecifiedNumber)
         && ("maxProperties" in SortedTokens(s) <==> s.maxProperties != UnspecifiedNumber)
         && ("minContains" in SortedTokens(s) <==> s.minContains != 1)
         && ("minItems" in SortedTokens(s) <==> s.minItems != UnspecifiedNumber)
         && ("minLength" in SortedTokens(s) <==> s.minLength != UnspecifiedNumber)
         && ("minProperties" in SortedTokens(s) <==> s.minProperties != UnspecifiedNumber)
  {
    ElseToMaxPropertiesTokens(s);
    MaximumToNotTokens(s);
  }

  /** The boolean keywords have their token iff the flag is set; the list keywords iff the list is not empty. */
  lemma BooleanAndListTokens(s: SchemaNode)
    ensures ("deprecated" in SortedTokens(s) <==> s.deprecated)
         && ("readOnly" in SortedTokens(s) <==> s.readOnly)
         && ("uniqueItems" in SortedTokens(s) <==> s.uniqueItems)
         && ("writeOnly" in SortedTokens(s) <==> s.writeOnly)
         && ("allOf" in SortedTokens(s) <==> |s.allOf| > 0)
         && ("anyOf" in SortedTokens(s) <==> |s.anyOf| > 0)
         && ("oneOf" in SortedTokens(s) <==> |s.oneOf| > 0)
         && ("required_properties" in SortedTokens(s) <==> |s.required| > 0)
  {
    AllOfToExamplesTokens(s);
    OneOfToWriteOnlyTokens(s);
  }

  // ---------------------------------------------------------------------
  // The type and shape tokens
  // ---------------------------------------------------------------------

  /** A token whose length and first character no keyword token has is in the result iff it is a type or shape token. */
  lemma NonKeywordTokenMembers(s: SchemaNode, x: string)
    requires |x| > 0 && !KeywordShape(|x|, x[0])
    ensures x in SortedTokens(s) <==> x in LeadingTokens(s)
  {
    AllOfToExamplesShapes(x);
    ElseToMaxPropertiesShapes(x);
    MaximumToNotShapes(x);
    OneOfToWriteOnlyShapes(x);
    TokensMembers(s, x);
  }

  /** Every type or shape token is in the result: the one-token keywords only append. */
  lemma LeadingTokenKept(s: SchemaNode, x: string)
    requires x in LeadingTokens(s)
    ensures x in SortedTokens(s)
  {
    var p0 := LeadingTokens(s);
    var p1 := AllOfToExamples(p0, s);
    var p2 := ElseToMaxProperties(p1, s);
    var p3 := MaximumToNot(p2, s);
    AllOfToExamplesMembers(p0, s, x);
    ElseToMaxPropertiesMembers(p1, s, x);
    MaximumToNotMembers(p2, s, x);
    OneOfToWriteOnlyMembers(p3, s, x);
    SortKeepsMembers(Tokens(s), x);
  }

  /** A string that starts with `prefix` is none of the tokens of a shape-refined keyword that all differ from `prefix` at position `i`. */
  lemma PrefixedNotInShapeTokens(present: bool, name: string, boolToken: string, objectToken: string, unknownPrefix: string,
                                 ap: AdditionalProperties, prefix: string, rest: string, i: nat)
    requires i < |prefix| && i < |name| && i < |boolToken| && i < |objectToken| && i < |unknownPrefix|
    requires prefix[i] != name[i] && prefix[i] != boolToken[i] && prefix[i] != objectToken[i] && prefix[i] != unknownPrefix[i]
    ensures prefix + rest !in ShapeTokens(present, name, boolToken, objectToken, unknownPrefix, ap)
  {
    PrefixedDiffers(prefix, rest, name, i);
    PrefixedDiffers(prefix, rest, boolToken, i);
    PrefixedDiffers(prefix, rest, objectToken, i);
    PrefixedDiffers(prefix, rest, unknownPrefix + RenderUnknown(ap), i);
  }

  /** A token shorter than every shape token is among the leading tokens iff it is a type token. */
  lemma ShortTypeToken(s: SchemaNode, x: string)
    requires |x| < 15
    ensures x in LeadingTokens(s) <==> x in TypeTokens(s.types)
  {
    LeadingMembers(s, x);
    NotInShapeTokens(!s.additionalProperties.NoAdditionalProperties?, "additionalProperties", "additional_properties_boolean",
                     "additional_properties_object", "additional_properties_unknown=", s.additionalProperties, x);
    NotInShapeTokens(s.hasPatternProperties, "patternProperties", "pattern_properties_boolean",
                     "pattern_properties_object", "pattern_properties_unknown=", s.additionalProperties, x);
    NotInShapeTokens(s.hasAdditionalItems, "additionalItems", "additional_items_boolean",
                     "additional_items_object", "additional_items_unknown=", s.additionalProperties, x);
  }

  /** A type token without `=` at position 4 is the count token: the other one starts with `type=`. */
  lemma CountTokenFirst(types: seq<string>, x: string)
    requires 5 <= |x| && x[4] != '='
    ensures x in TypeTokens(types) <==> x == TypeTokens(types)[0]
  {
    if |types| > 1 {
      assert ("type=" + Join(SortStrings(types), ","))[4] == '=';
    } else if |types| == 1 {
      assert ("type=" + types[0])[4] == '=';
    }
  }

  /** A short token that no keyword's token resembles and that has no `=` where `type=` has one is in the result iff it is the count token. */
  lemma CountTokenMembers(s: SchemaNode, x: string)
    requires 5 <= |x| < 15 && x[4] != '=' && !KeywordShape(|x|, x[0])
    ensures x in SortedTokens(s) <==> x == TypeTokens(s.types)[0]
  {
    NonKeywordTokenMembers(s, x);
    ShortTypeToken(s, x);
    CountTokenFirst(s.types, x);
  }

  /** The count token names how many types there are. */
  lemma CountTokenOf(types: seq<string>)
    ensures "multiple_types" == TypeTokens(types)[0] <==> |types| > 1
    ensures "single_type" == TypeTokens(types)[0] <==> |types| == 1
    ensures "no_type" == TypeTokens(types)[0] <==> |types| == 0
  {
  }

  lemma MultipleTypesToken(s: SchemaNode)
    ensures "multiple_types" in SortedTokens(s) <==> |s.types| > 1
  {
    CountTokenMembers(s, "multiple_types");
    CountTokenOf(s.types);
  }

  lemma SingleTypeToken(s: SchemaNode)
    ensures "single_type" in SortedTokens(s) <==> |s.types| == 1
  {
    CountTokenMembers(s, "single_type");
    CountTokenOf(s.types);
  }

  lemma NoTypeToken(s: SchemaNode)
    ensures "no_type" in SortedTokens(s) <==> |s.types| == 0
  {
    CountTokenMembers(s, "no_type");
    CountTokenOf(s.types);
  }

  /**
   * Exactly one of `multiple_types`, `single_type` and `no_type` is present,
   * chosen by the number of declared types.
   */
  lemma TypeCountTokens(s: SchemaNode)
    ensures "multiple_types" in SortedTokens(s) <==> |s.types| > 1
    ensures "single_type" in SortedTokens(s) <==> |s.types| == 1
    ensures "no_type" in SortedTokens(s) <==> |s.types| == 0
  {
    MultipleTypesToken(s);
    SingleTypeToken(s);
    NoTypeToken(s);
  }

  /**
   * With several types the `type=` token lists them sorted and comma-joined,
   * whatever order the schema declares them in; with one it names that one.
   */
  lemma TypeListToken(s: SchemaNode)
    ensures |s.types| > 1 ==> "type=" + Join(SortStrings(s.types), ",") in SortedTokens(s)
    ensures |s.types| == 1 ==> "type=" + s.types[0] in SortedTokens(s)
  {
    if |s.types| > 1 {
      var x := "type=" + Join(SortStrings(s.types), ",");
      LeadingMembers(s, x);
      LeadingTokenKept(s, x);
    } else if |s.types| == 1 {
      var x := "type=" + s.types[0];
      LeadingMembers(s, x);
      LeadingTokenKept(s, x);
    }
  }
  // ---------------------------------------------------------------------
  // The shape-refined keywords
  // ---------------------------------------------------------------------

  lemma AdditionalPropertiesNameLeading(s: SchemaNode)
    ensures "additionalProperties" in LeadingTokens(s) <==> !s.additionalProperties.NoAdditionalProperties?
  {
    var x := "additionalProperties";
    LeadingMembers(s, x);
    NotInTypeTokens(s.types, x);
    PrefixedDiffers("additional_properties_unknown=", RenderUnknown(s.additionalProperties), x, 10);
    PrefixedDiffers("pattern_properties_unknown=", RenderUnknown(s.additionalProperties), x, 0);
    PrefixedDiffers("additional_items_unknown=", RenderUnknown(s.additionalProperties), x, 10);
  }

  lemma AdditionalPropertiesNameToken(s: SchemaNode)
    ensures "additionalProperties" in SortedTokens(s) <==> !s.additionalProperties.NoAdditionalProperties?
  {
    NonKeywordTokenMembers(s, "additionalProperties");
    AdditionalPropertiesNameLeading(s);
  }

  lemma AdditionalPropertiesBooleanLeading(s: SchemaNode)
    ensures "additional_properties_boolean" in LeadingTokens(s) <==> !s.additionalProperties.NoAdditionalProperties? && s.additionalProperties.BoolAdditionalProperties?
  {
    var x := "additional_properties_boolean";
    LeadingMembers(s, x);
    NotInTypeTokens(s.types, x);
    PrefixedDiffers("additional_properties_unknown=", RenderUnknown(s.additionalProperties), x, 22);
    PrefixedDiffers("pattern_properties_unknown=", RenderUnknown(s.additionalProperties), x, 0);
    PrefixedDiffers("additional_items_unknown=", RenderUnknown(s.additionalProperties), x, 11);
  }

  lemma AdditionalPropertiesBooleanToken(s: SchemaNode)
    ensures "additional_properties_boolean" in SortedTokens(s) <==> !s.additionalProperties.NoAdditionalProperties? && s.additionalProperties.BoolAdditionalProperties?
  {
    NonKeywordTokenMembers(s, "additional_properties_boolean");
    AdditionalPropertiesBooleanLeading(s);
  }

  lemma AdditionalPropertiesObjectLeading(s: SchemaNode)
    ensures "additional_properties_object" in LeadingTokens(s) <==> !s.additionalProperties.NoAdditionalProperties? && s.additionalProperties.SchemaAdditionalProperties?
  {
    var x := "additional_properties_object";
    LeadingMembers(s, x);
    NotInTypeTokens(s.types, x);
    PrefixedDiffers("additional_properties_unknown=", RenderUnknown(s.additionalProperties), x, 22);
    PrefixedDiffers("pattern_properties_unknown=", RenderUnknown(s.additionalProperties), x, 0);
    PrefixedDiffers("additional_items_unknown=", RenderUnknown(s.additionalProperties), x, 11);
  }

  lemma AdditionalPropertiesObjectToken(s: SchemaNode)
    ensures "additional_properties_object" in SortedTokens(s) <==> !s.additionalProperties.NoAdditionalProperties? && s.additionalProperties.SchemaAdditionalProperties?
  {
    NonKeywordTokenMembers(s, "additional_properties_object");
    AdditionalPropertiesObjectLeading(s);
  }

  /**
   * The `additionalProperties` token is present iff the keyword is, and its sub-token is
   * chosen by the shape of `additionalProperties`: `_boolean` for a
   * boolean, `_object` for a schema, `_unknown=` followed by the rendered
   * value otherwise.
   */
  lemma AdditionalPropertiesTokens(s: SchemaNode)
    ensures "additionalProperties" in SortedTokens(s) <==> !s.additionalProperties.NoAdditionalProperties?
    ensures "additional_properties_boolean" in SortedTokens(s) <==> !s.additionalProperties.NoAdditionalProperties? && s.additionalProperties.BoolAdditionalProperties?
    ensures "additional_properties_object" in SortedTokens(s) <==> !s.additionalProperties.NoAdditionalProperties? && s.additionalProperties.SchemaAdditionalProperties?
    ensures !s.additionalProperties.NoAdditionalProperties? && !s.additionalProperties.BoolAdditionalProperties? && !s.additionalProperties.SchemaAdditionalProperties?
            ==> "additional_properties_unknown=" + RenderUnknown(s.additionalProperties) in SortedTokens(s)
  {
    AdditionalPropertiesNameToken(s);
    AdditionalPropertiesBooleanToken(s);
    AdditionalPropertiesObjectToken(s);
    if !s.additionalProperties.NoAdditionalProperties? && !s.additionalProperties.BoolAdditionalProperties? && !s.additionalProperties.SchemaAdditionalProperties? {
      var x := "additional_properties_unknown=" + RenderUnknown(s.additionalProperties);
      LeadingMembers(s, x);
      LeadingTokenKept(s, x);
    }
  }

  lemma PatternPropertiesNameLeading(s: SchemaNode)
    ensures "patternProperties" in LeadingTokens(s) <==> s.hasPatternProperties
  {
    var x := "patternProperties";
    LeadingMembers(s, x);
    NotInTypeTokens(s.types, x);
    PrefixedDiffers("additional_properties_unknown=", RenderUnknown(s.additionalProperties), x, 0);
    PrefixedDiffers("pattern_properties_unknown=", RenderUnknown(s.additionalProperties), x, 7);
    PrefixedDiffers("additional_items_unknown=", RenderUnknown(s.additionalProperties), x, 0);
  }

  lemma PatternPropertiesNameToken(s: SchemaNode)
    ensures "patternProperties" in SortedTokens(s) <==> s.hasPatternProperties
  {
    NonKeywordTokenMembers(s, "patternProperties");
    PatternPropertiesNameLeading(s);
  }

  lemma PatternPropertiesBooleanLeading(s: SchemaNode)
    ensures "pattern_properties_boolean" in LeadingTokens(s) <==> s.hasPatternProperties && s.additionalProperties.BoolAdditionalProperties?
  {
    var x := "pattern_properties_boolean";
    LeadingMembers(s, x);
    NotInTypeTokens(s.types, x);
    PrefixedDiffers("additional_properties_unknown=", RenderUnknown(s.additionalProperties), x, 0);
    PrefixedDiffers("pattern_properties_unknown=", RenderUnknown(s.additionalProperties), x, 19);
    PrefixedDiffers("additional_items_unknown=", RenderUnknown(s.additionalProperties), x, 0);
  }

  lemma PatternPropertiesBooleanToken(s: SchemaNode)
    ensures "pattern_properties_boolean" in SortedTokens(s) <==> s.hasPatternProperties && s.additionalProperties.BoolAdditionalProperties?
  {
    NonKeywordTokenMembers(s, "pattern_properties_boolean");
    PatternPropertiesBooleanLeading(s);
  }

  lemma PatternPropertiesObjectLeading(s: SchemaNode)
    ensures "pattern_properties_object" in LeadingTokens(s) <==> s.hasPatternProperties && s.additionalProperties.SchemaAdditionalProperties?
  {
    var x := "pattern_properties_object";
    LeadingMembers(s, x);
    NotInTypeTokens(s.types, x);
    PrefixedDiffers("additional_properties_unknown=", RenderUnknown(s.additionalProperties), x, 0);
    PrefixedDiffers("pattern_properties_unknown=", RenderUnknown(s.additionalProperties), x, 19);
    PrefixedDiffers("additional_items_unknown=", RenderUnknown(s.additionalProperties), x, 0);
  }

  lemma PatternPropertiesObjectToken(s: SchemaNode)
    ensures "pattern_properties_object" in SortedTokens(s) <==> s.hasPatternProperties && s.additionalProperties.SchemaAdditionalProperties?
  {
    NonKeywordTokenMembers(s, "pattern_properties_object");
    PatternPropertiesObjectLeading(s);
  }

  /**
   * The `patternProperties` token is present iff the keyword is, and its sub-token is
   * chosen by the shape of `additionalProperties`: `_boolean` for a
   * boolean, `_object` for a schema, `_unknown=` followed by the rendered
   * value otherwise.
   */
  lemma PatternPropertiesTokens(s: SchemaNode)
    ensures "patternProperties" in SortedTokens(s) <==> s.hasPatternProperties
    ensures "pattern_properties_boolean" in SortedTokens(s) <==> s.hasPatternProperties && s.additionalProperties.BoolAdditionalProperties?
    ensures "pattern_properties_object" in SortedTokens(s) <==> s.hasPatternProperties && s.additionalProperties.SchemaAdditionalProperties?
    ensures s.hasPatternProperties && !s.additionalProperties.BoolAdditionalProperties? && !s.additionalProperties.SchemaAdditionalProperties?
            ==> "pattern_properties_unknown=" + RenderUnknown(s.additionalProperties) in SortedTokens(s)
  {
    PatternPropertiesNameToken(s);
    PatternPropertiesBooleanToken(s);
    PatternPropertiesObjectToken(s);
    if s.hasPatternProperties && !s.additionalProperties.BoolAdditionalProperties? && !s.additionalProperties.SchemaAdditionalProperties? {
      var x := "pattern_properties_unknown=" + RenderUnknown(s.additionalProperties);
      LeadingMembers(s, x);
      LeadingTokenKept(s, x);
    }
  }

  lemma AdditionalItemsNameLeading(s: SchemaNode)
    ensures "additionalItems" in LeadingTokens(s) <==> s.hasAdditionalItems
  {
    var x := "additionalItems";
    LeadingMembers(s, x);
    NotInTypeTokens(s.types, x);
    PrefixedDiffers("additional_properties_unknown=", RenderUnknown(s.additionalProperties), x, 10);
    PrefixedDiffers("pattern_properties_unknown=", RenderUnknown(s.additionalProperties), x, 0);
    PrefixedDiffers("additional_items_unknown=", RenderUnknown(s.additionalProperties), x, 10);
  }

  lemma AdditionalItemsNameToken(s: SchemaNode)
    ensures "additionalItems" in SortedTokens(s) <==> s.hasAdditionalItems
  {
    NonKeywordTokenMembers(s, "additionalItems");
    AdditionalItemsNameLeading(s);
  }

  lemma AdditionalItemsBooleanLeading(s: SchemaNode)
    ensures "additional_items_boolean" in LeadingTokens(s) <==> s.hasAdditionalItems && s.additionalProperties.BoolAdditionalProperties?
  {
    var x := "additional_items_boolean";
    LeadingMembers(s, x);
    NotInTypeTokens(s.types, x);
    PrefixedDiffers("additional_properties_unknown=", RenderUnknown(s.additionalProperties), x, 11);
    PrefixedDiffers("pattern_properties_unknown=", RenderUnknown(s.additionalProperties), x, 0);
    PrefixedDiffers("additional_items_unknown=", RenderUnknown(s.additionalProperties), x, 17);
  }

  lemma AdditionalItemsBooleanToken(s: SchemaNode)
    ensures "additional_items_boolean" in SortedTokens(s) <==> s.hasAdditionalItems && s.additionalProperties.BoolAdditionalProperties?
  {
    NonKeywordTokenMembers(s, "additional_items_boolean");
    AdditionalItemsBooleanLeading(s);
  }

  lemma AdditionalItemsObjectLeading(s: SchemaNode)
    ensures "additional_items_object" in LeadingTokens(s) <==> s.hasAdditionalItems && s.additionalProperties.SchemaAdditionalProperties?
  {
    var x := "additional_items_object";
    LeadingMembers(s, x);
    NotInTypeTokens(s.types, x);
    PrefixedDiffers("additional_properties_unknown=", RenderUnknown(s.additionalProperties), x, 11);
    PrefixedDiffers("pattern_properties_unknown=", RenderUnknown(s.additionalProperties), x, 0);
    PrefixedDiffers("additional_items_unknown=", RenderUnknown(s.additionalProperties), x, 17);
  }

  lemma AdditionalItemsObjectToken(s: SchemaNode)
    ensures "additional_items_object" in SortedTokens(s) <==> s.hasAdditionalItems && s.additionalProperties.SchemaAdditionalProperties?
  {
    NonKeywordTokenMembers(s, "additional_items_object");
    AdditionalItemsObjectLeading(s);
  }

  /**
   * The `additionalItems` token is present iff the keyword is, and its sub-token is
   * chosen by the shape of `additionalProperties`: `_boolean` for a
   * boolean, `_object` for a schema, `_unknown=` followed by the rendered
   * value otherwise.
   */
  lemma AdditionalItemsTokens(s: SchemaNode)
    ensures "additionalItems" in SortedTokens(s) <==> s.hasAdditionalItems
    ensures "additional_items_boolean" in SortedTokens(s) <==> s.hasAdditionalItems && s.additionalProperties.BoolAdditionalProperties?
    ensures "additional_items_object" in SortedTokens(s) <==> s.hasAdditionalItems && s.additionalProperties.SchemaAdditionalProperties?
    ensures s.hasAdditionalItems && !s.additionalProperties.BoolAdditionalProperties? && !s.additionalProperties.SchemaAdditionalProperties?
            ==> "additional_items_unknown=" + RenderUnknown(s.additionalProperties) in SortedTokens(s)
  {
    AdditionalItemsNameToken(s);
    AdditionalItemsBooleanToken(s);
    AdditionalItemsObjectToken(s);
    if s.hasAdditionalItems && !s.additionalProperties.BoolAdditionalProperties? && !s.additionalProperties.SchemaAdditionalProperties? {
      var x := "additional_items_unknown=" + RenderUnknown(s.additionalProperties);
      LeadingMembers(s, x);
      LeadingTokenKept(s, x);
    }
  }

  // ---------------------------------------------------------------------
  // The fingerprint and the in-place sort of the types
  // ---------------------------------------------------------------------

  /** The type tokens depend on the declared types only as a multiset. */
  lemma TypeTokensIgnoreOrder(a: seq<string>, b: seq<string>)
    requires multiset(a) == multiset(b)
    ensures TypeTokens(a) == TypeTokens(b)
  {
    assert |a| == |multiset(a)| == |multiset(b)| == |b|;
    if |a| > 1 {
      SortIgnoresOrder(a, b);
    } else if |a| == 1 {
      assert a[0] in multiset(b);
      assert a == [a[0]] == b;
    }
  }

  lemma AllOfToExamplesIgnoresTypes(before: seq<string>, s: SchemaNode, types: seq<string>)
    ensures AllOfToExamples(before, s.(types := types)) == AllOfToExamples(before, s)
  {
    AllOfToExamplesUnfolds(before, s.(types := types));
    AllOfToExamplesUnfolds(before, s);
  }

  lemma ElseToMaxPropertiesIgnoresTypes(before: seq<string>, s: SchemaNode, types: seq<string>)
    ensures ElseToMaxProperties(before, s.(types := types)) == ElseToMaxProperties(before, s)
  {
    ElseToMaxPropertiesUnfolds(before, s.(types := types));
    ElseToMaxPropertiesUnfolds(before, s);
  }

  lemma MaximumToNotIgnoresTypes(before: seq<string>, s: SchemaNode, types: seq<string>)
    ensures MaximumToNot(before, s.(types := types)) == MaximumToNot(before, s)
  {
    MaximumToNotUnfolds(before, s.(types := types));
    MaximumToNotUnfolds(before, s);
  }

  lemma OneOfToWriteOnlyIgnoresTypes(before: seq<string>, s: SchemaNode, types: seq<string>)
    ensures OneOfToWriteOnly(before, s.(types := types)) == OneOfToWriteOnly(before, s)
  {
    OneOfToWriteOnlyUnfolds(before, s.(types := types));
    OneOfToWriteOnlyUnfolds(before, s);
  }

  lemma ShapeTokensIgnoreTypes(before: seq<string>, s: SchemaNode, types: seq<string>)
    ensures WithShapeTokens(before, s.(types := types)) == WithShapeTokens(before, s)
  {
  }

  /** Only the type tokens read the declared types. */
  lemma KeywordTokensIgnoreTypes(before: seq<string>, s: SchemaNode, types: seq<string>)
    ensures WithKeywordTokens(before, s.(types := types)) == WithKeywordTokens(before, s)
  {
    var p1 := AllOfToExamples(before, s);
    var p2 := ElseToMaxProperties(p1, s);
    var p3 := MaximumToNot(p2, s);
    AllOfToExamplesIgnoresTypes(before, s, types);
    ElseToMaxPropertiesIgnoresTypes(p1, s, types);
    MaximumToNotIgnoresTypes(p2, s, types);
    OneOfToWriteOnlyIgnoresTypes(p3, s, types);
  }

  /** Reordering a node's types leaves its token list unchanged. */
  lemma TokensIgnoreTypeOrder(s: SchemaNode, types: seq<string>)
    requires multiset(types) == multiset(s.types)
    ensures Tokens(s.(types := types)) == Tokens(s)
  {
    TypeTokensIgnoreOrder(types, s.types);
    ShapeTokensIgnoreTypes(TypeTokens(s.types), s, types);
    assert LeadingTokens(s.(types := types)) == LeadingTokens(s);
    KeywordTokensIgnoreTypes(LeadingTokens(s), s, types);
  }

  /** Reordering a node's types leaves its fingerprint unchanged. */
  lemma FingerprintIgnoresTypeOrder(s: SchemaNode, types: seq<string>)
    requires multiset(types) == multiset(s.types)
    ensures SortedTokens(s.(types := types)) == SortedTokens(s)
    ensures Fingerprint(s.(types := types)) == Fingerprint(s)
  {
    TokensIgnoreTypeOrder(s, types);
  }

  /**
   * The node `extractFeatures` leaves behind, with its types sorted in
   * place, has the fingerprint the node had before: a node reached
   * again under another path is filed under the same key.
   */
  lemma FingerprintSurvivesTypeSort(s: SchemaNode)
    ensures Fingerprint(TypesSortedInPlace(s)) == Fingerprint(s)
  {
    if |s.types| > 1 {
      FingerprintIgnoresTypeOrder(s, SortStrings(s.types));
    }
  }

  /** Running `extractFeatures` on a node a second time leaves its types as the first run left them. */
  lemma TypeSortSettles(s: SchemaNode)
    ensures TypesSortedInPlace(TypesSortedInPlace(s)) == TypesSortedInPlace(s)
  {
    if |s.types| > 1 {
      SortIdempotent(SortStrings(s.types));
    }
  }
}
