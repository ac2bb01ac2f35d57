/**
 * The part of a compiled JSON Schema (draft 2020-12) that the analysis
 * engine reads. A compiled schema is an object graph in which `$ref`
 * can make a node reachable from itself, so it is kept here as an arena:
 * nodes are addressed by `NodeId`, and a pointer field holds an id.
 */
module JsonSchema {

  datatype Option<T> = None | Some(value: T)

  type NodeId = nat

  /** The dynamic shape of the `additionalProperties` value: absent, a boolean, a schema, or anything else. */
  datatype AdditionalProperties =
    | NoAdditionalProperties
    | BoolAdditionalProperties(allowed: bool)
    | SchemaAdditionalProperties
    | OtherAdditionalProperties(rendered: string)  // the value as Go's `%s` prints it

  /** The legacy `items` field: absent, one schema, or one schema per position. */
  datatype LegacyItems =
    | NoLegacyItems
    | SingleItems(item: NodeId)
    | PositionalItems(items: seq<NodeId>)

  /**
   * One schema node. Keywords the engine only tests for presence are flags;
   * the counting keywords keep their value, with -1 where the keyword is
   * absent (and 1, the draft's default, for an absent `minContains`).
   */
  datatype SchemaNode = SchemaNode(
    location: string,
    types: seq<string>,
    properties: map<string, NodeId>,
    additionalProperties: AdditionalProperties,
    items2020: Option<NodeId>,
    items: LegacyItems,
    hasPatternProperties: bool,
    hasAdditionalItems: bool,
    allOf: seq<NodeId>,
    anyOf: seq<NodeId>,
    oneOf: seq<NodeId>,
    hasConst: bool,
    hasContains: bool,
    hasDefault: bool,
    hasDependentRequired: bool,
    deprecated: bool,
    hasEnum: bool,
    hasExamples: bool,
    hasElse: bool,
    hasExclusiveMaximum: bool,
    hasExclusiveMinimum: bool,
    format: string,
    hasIf: bool,
    maxContains: int,
    maxItems: int,
    maxLength: int,
    maxProperties: int,
    hasMaximum: bool,
    minContains: int,
    minItems: int,
    minLength: int,
    minProperties: int,
    hasMinimum: bool,
    hasMultipleOf: bool,
    hasNot: bool,
    hasPattern: bool,
    hasPrefixItems: bool,
    required: seq<string>,
    readOnly: bool,
    hasThen: bool,
    uniqueItems: bool,
    writeOnly: bool)

  type Graph = map<NodeId, SchemaNode>

  /** Every schema a node points to through a field the flattener follows. */
  predicate RefsIn(n: SchemaNode, g: Graph)
  {
    && (forall p :: p in n.properties ==> n.properties[p] in g)
    && (n.items2020.Some? ==> n.items2020.value in g)
    && (n.items.SingleItems? ==> n.items.item in g)
  }

  /** No dangling pointers: every node's followed references stay inside the graph. */
  predicate Closed(g: Graph)
  {
    forall id :: id in g ==> RefsIn(g[id], g)
  }

  /** A compiled schema document: its node graph and its root. */
  datatype SchemaDoc = SchemaDoc(nodes: Graph, root: NodeId)

  predicate WellFormed(d: SchemaDoc)
  {
    d.root in d.nodes && Closed(d.nodes)
  }

  /** Go's `slices.Contains` on the declared types. */
  predicate HasType(n: SchemaNode, t: string)
  {
    t in n.types
  }
}
