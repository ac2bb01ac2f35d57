/**
 * The flattener of pkg/analysis/analysis.go: a depth-first walk of one
 * compiled schema that fills a map from hierarchical path (`/a/b[*]/c`) to
 * schema node. The walk threads the map through the recursion; a call
 * recurses only while its level is below `MaxLevel`, which is what makes
 * it terminate on schemas that reach themselves through `$ref`.
 *
 * Go visits a map's keys in an unspecified order, and the methods below
 * pick the next property with `:|` to the same effect. Their contracts are
 * therefore stated against the order-independent set of writes a call
 * performs (`Entries`): the result is the input map overlaid with writes
 * drawn from that set (`Overlays`). Only which of several writes to one
 * path lands last depends on the order.
 */
module Flatten {
  import opened JsonSchema
  import opened Sets

  /** What a path maps to: a schema node, or nil for an array without items. */
  type Entry = Option<NodeId>

  type FlatMap = map<string, Entry>

  type Write = (string, Entry)

  /** A call recurses into a child only while its own level is below this. */
  const MaxLevel: int := 10

  /** The path of a property under `parentKey`, with the array sigil when `sigil` is on and the property is array-typed. */
  function PropertyKey(parentKey: string, name: string, child: SchemaNode, sigil: bool): string
  {
    parentKey + "/" + name + (if sigil && HasType(child, "array") then "[*]" else "")
  }

  /** An array node (not also an object) with neither `items` form. */
  predicate IsItemlessArray(n: SchemaNode)
  {
    !HasType(n, "object") && HasType(n, "array") && n.items2020.None? && n.items.NoLegacyItems?
  }

  // ---------------------------------------------------------------------
  // Specification: the set of writes a call performs

  /** The writes `flattened(mymap, g[id], parentKey, level)` performs, in no particular order. */
  ghost function Entries(g: Graph, id: NodeId, parentKey: string, level: int): set<Write>
    requires Closed(g) && id in g
    decreases MaxLevel - level, 3
  {
    var n := g[id];
    if HasType(n, "object") then
      if |n.properties| == 0 && n.additionalProperties.NoAdditionalProperties? then {}
      else PropertyEntries(g, n.properties, n.properties.Keys, parentKey, level, true)
    else if HasType(n, "array") then
      if n.items2020.Some? then ItemEntries(g, n.items2020.value, parentKey, level)
      else match n.items
        case SingleItems(item) => ItemEntries(g, item, parentKey, level)
        case PositionalItems(_) => {}
        case NoLegacyItems => {(parentKey, None)}
    else {}
  }

  /** The writes for an array whose item schema is `item`: only a single `object` item type contributes. */
  ghost function ItemEntries(g: Graph, item: NodeId, parentKey: string, level: int): set<Write>
    requires Closed(g) && item in g
    decreases MaxLevel - level, 2
  {
    var t := g[item].types;
    if |t| == 1 && t[0] == "object" then
      PropertyEntries(g, g[item].properties, g[item].properties.Keys, parentKey, level, false)
    else {}
  }

  /** The writes for the properties in `names`. */
  ghost function PropertyEntries(g: Graph, props: map<string, NodeId>, names: set<string>,
                                 parentKey: string, level: int, sigil: bool): set<Write>
    requires Closed(g) && forall p :: p in props ==> props[p] in g
    decreases MaxLevel - level, 1
  {
    set p, w | p in names && p in props && w in OnePropertyEntries(g, p, props[p], parentKey, level, sigil) :: w
  }

  /**
   * The writes for one property that stay visible: the node at its own path,
   * then (below the cap) everything beneath it. When the property is an
   * array without items, the nested call at once overwrites the node stored
   * at its path with nil, so only the nil remains.
   */
  ghost function OnePropertyEntries(g: Graph, name: string, child: NodeId,
                                    parentKey: string, level: int, sigil: bool): set<Write>
    requires Closed(g) && child in g
    decreases MaxLevel - level, 0
  {
    var key := PropertyKey(parentKey, name, g[child], sigil);
    if level < MaxLevel then
      (if IsItemlessArray(g[child]) then {} else {(key, Some(child))}) + Entries(g, child, key, level + 1)
    else {(key, Some(child))}
  }

  function KeysOf(ws: set<Write>): set<string>
  {
    set w | w in ws :: w.0
  }

  /**
   * `r` is `m` with the writes `ws` applied in some order: exactly the
   * written paths are added, a written path holds one of the values written
   * to it, and every other path keeps its value.
   */
  ghost predicate Overlays(r: FlatMap, m: FlatMap, ws: set<Write>)
  {
    && r.Keys == m.Keys + KeysOf(ws)
    && forall k :: k in r ==> if k in KeysOf(ws) then (k, r[k]) in ws else r[k] == m[k]
  }

  lemma OverlaysCompose(r2: FlatMap, r1: FlatMap, m: FlatMap, ws1: set<Write>, ws2: set<Write>)
    requires Overlays(r1, m, ws1) && Overlays(r2, r1, ws2)
    ensures Overlays(r2, m, ws1 + ws2)
  {
    assert KeysOf(ws1 + ws2) == KeysOf(ws1) + KeysOf(ws2);
  }

  lemma OverlaysWrite(m: FlatMap, k: string, v: Entry)
    ensures Overlays(m[k := v], m, {(k, v)})
  {
    assert KeysOf({(k, v)}) == {k};
  }

  /** A call that performs no writes returns its input map unchanged. */
  lemma OverlaysNothing(r: FlatMap, m: FlatMap)
    requires Overlays(r, m, {})
    ensures r == m
  {
    assert KeysOf({}) == {};
  }

  /** A path written with only one value holds that value. */
  lemma OverlaysSingleValue(r: FlatMap, m: FlatMap, ws: set<Write>, k: string, v: Entry)
    requires Overlays(r, m, ws) && (k, v) in ws
    requires forall u :: (k, u) in ws ==> u == v
    ensures k in r && r[k] == v
  {
    assert k in KeysOf(ws);
  }

  /** A call that performs exactly one write returns the map with that one entry set. */
  lemma OverlaysOneWrite(r: FlatMap, m: FlatMap, k: string, v: Entry)
    requires Overlays(r, m, {(k, v)})
    ensures r == m[k := v]
  {
    assert KeysOf({(k, v)}) == {k};
  }

  /** An array without items performs the one write that stores nil at its own path. */
  lemma ItemlessArrayEntries(g: Graph, id: NodeId, parentKey: string, level: int)
    requires Closed(g) && id in g && IsItemlessArray(g[id])
    ensures Entries(g, id, parentKey, level) == {(parentKey, None)}
  {
  }

  lemma PropertyEntriesStep(g: Graph, props: map<string, NodeId>, done: set<string>, name: string,
                            parentKey: string, level: int, sigil: bool)
    requires Closed(g) && forall p :: p in props ==> props[p] in g
    requires name in props
    ensures PropertyEntries(g, props, done + {name}, parentKey, level, sigil)
         == PropertyEntries(g, props, done, parentKey, level, sigil)
          + OnePropertyEntries(g, name, props[name], parentKey, level, sigil)
  {
  }

  // ---------------------------------------------------------------------
  // The walk

  /**
   * `flattenedSchema`: flattens a whole document from its root, with the
   * empty path and level 0. Every call of the walk requires a level between
   * 0 and 10, so no call runs deeper than level 10.
   */
  method FlattenedSchema(doc: SchemaDoc) returns (r: FlatMap)
    requires WellFormed(doc)
    ensures Overlays(r, map[], Entries(doc.nodes, doc.root, "", 0))
  {
    r := Flattened(doc.nodes, map[], doc.root, "", 0);
  }

  /** `flattened`: applies the writes of `Entries` to `mymap`. */
  method Flattened(g: Graph, mymap: FlatMap, id: NodeId, parentKey: string, level: int)
    returns (r: FlatMap)
    requires Closed(g) && id in g
    requires 0 <= level <= MaxLevel
    ensures Overlays(r, mymap, Entries(g, id, parentKey, level))
    decreases MaxLevel - level, 3
  {
    var n := g[id];
    r := mymap;
    if "object" in n.types {
      if |n.properties| == 0 && n.additionalProperties.NoAdditionalProperties? {
        // Only a diagnostic: an object with an undocumented shape.
        assert Entries(g, id, parentKey, level) == {};
        assert KeysOf({}) == {};
      } else {
        r := FlattenProperties(g, mymap, n.properties, parentKey, level, true);
      }
    } else if "array" in n.types {
      if n.items2020.Some? {
        r := FlattenItems(g, mymap, n.items2020.value, parentKey, level);
      } else if n.items.SingleItems? {
        r := FlattenItems(g, mymap, n.items.item, parentKey, level);
      } else if n.items.PositionalItems? {
        // Only a diagnostic: positional item schemas are not walked.
        assert KeysOf({}) == {};
      } else {
        // An array without items is recorded with a nil node.
        r := mymap[parentKey := None];
        OverlaysWrite(mymap, parentKey, None);
      }
    } else {
      assert KeysOf({}) == {};
    }
  }

  /** The handling of an array's item schema, shared by the `Items2020` and the legacy `Items` branch. */
  method FlattenItems(g: Graph, mymap: FlatMap, item: NodeId, parentKey: string, level: int)
    returns (r: FlatMap)
    requires Closed(g) && item in g
    requires 0 <= level <= MaxLevel
    ensures Overlays(r, mymap, ItemEntries(g, item, parentKey, level))
    decreases MaxLevel - level, 2
  {
    var types := g[item].types;
    r := mymap;
    assert KeysOf({}) == {};
    if |types| == 1 {
      var itemType := types[0];
      if itemType == "object" {
        r := FlattenProperties(g, mymap, g[item].properties, parentKey, level, false);
      } else if itemType == "string" {
        // Scalar items: nothing to add.
      } else if itemType == "number" {
        // Scalar items: nothing to add.
      } else if itemType == "integer" {
        // Scalar items: nothing to add.
      } else {
        // Only a diagnostic: an unhandled item type.
      }
    } else {
      // Only a diagnostic: zero or several item types.
    }
  }

  /** The `for propertyName, propertySchema := range ...Properties` loop. */
  method FlattenProperties(g: Graph, mymap: FlatMap, props: map<string, NodeId>,
                           parentKey: string, level: int, sigil: bool)
    returns (r: FlatMap)
    requires Closed(g) && forall p :: p in props ==> props[p] in g
    requires 0 <= level <= MaxLevel
    ensures Overlays(r, mymap, PropertyEntries(g, props, props.Keys, parentKey, level, sigil))
    decreases MaxLevel - level, 1
  {
    r := mymap;
    var remaining := props.Keys;
    DrainEnds(props.Keys);
    assert PropertyEntries(g, props, {}, parentKey, level, sigil) == {};
    assert KeysOf({}) == {};
    while remaining != {}
      invariant remaining <= props.Keys
      invariant Overlays(r, mymap, PropertyEntries(g, props, props.Keys - remaining, parentKey, level, sigil))
      decreases |remaining|
    {
      var propertyName :| propertyName in remaining;
      ghost var done := props.Keys - remaining;
      var r' := FlattenProperty(g, r, propertyName, props[propertyName], parentKey, level, sigil);
      OverlaysCompose(r', r, mymap, PropertyEntries(g, props, done, parentKey, level, sigil),
                      OnePropertyEntries(g, propertyName, props[propertyName], parentKey, level, sigil));
      PropertyEntriesStep(g, props, done, propertyName, parentKey, level, sigil);
      DrainStep(props.Keys, remaining, propertyName);
      r := r';
      remaining := remaining - {propertyName};
    }
  }

  /**
   * The loop body: store the property at its path, then, below the cap,
   * flatten the property's own schema under that path. When that schema is
   * an array without items, the nested call overwrites the entry just
   * stored with nil.
   */
  method FlattenProperty(g: Graph, mymap: FlatMap, propertyName: string, child: NodeId,
                         parentKey: string, level: int, sigil: bool)
    returns (r: FlatMap)
    requires Closed(g) && child in g
    requires 0 <= level <= MaxLevel
    ensures Overlays(r, mymap, OnePropertyEntries(g, propertyName, child, parentKey, level, sigil))
    ensures level >= MaxLevel ==> r == mymap[PropertyKey(parentKey, propertyName, g[child], sigil) := Some(child)]
    ensures level < MaxLevel && IsItemlessArray(g[child]) ==>
              r == mymap[PropertyKey(parentKey, propertyName, g[child], sigil) := None]
    decreases MaxLevel - level, 0
  {
    var key := parentKey + "/" + propertyName;
    if sigil && "array" in g[child].types {
      key := key + "[*]";
    }
    assert key == PropertyKey(parentKey, propertyName, g[child], sigil);
    r := mymap[key := Some(child)];
    if level < MaxLevel {
      var r' := Flattened(g, r, child, key, level + 1);
      if IsItemlessArray(g[child]) {
        ItemlessArrayEntries(g, child, key, level + 1);
        OverlaysOneWrite(r', r, key, None);
        assert r' == mymap[key := None];
        OverlaysWrite(mymap, key, None);
      } else {
        OverlaysWrite(mymap, key, Some(child));
        OverlaysCompose(r', r, mymap, {(key, Some(child))}, Entries(g, child, key, level + 1));
      }
      r := r';
    } else {
      OverlaysWrite(mymap, key, Some(child));
    }
  }

  // ---------------------------------------------------------------------
  // Properties of the walk

  /**
   * Under an object that documents its shape, every property is stored
   * at `parentKey + "/" + name`, followed by `[*]` exactly when the
   * property's own types contain `array`. What stays there is the
   * property's node, or nil for an array without items below the cap.
   */
  lemma ObjectPropertiesStored(g: Graph, id: NodeId, parentKey: string, level: int)
    requires Closed(g) && id in g
    requires HasType(g[id], "object")
    requires |g[id].properties| > 0 || !g[id].additionalProperties.NoAdditionalProperties?
    ensures forall p :: p in g[id].properties ==>
              var child := g[id].properties[p];
              (parentKey + "/" + p + (if HasType(g[child], "array") then "[*]" else ""),
               if level < MaxLevel && IsItemlessArray(g[child]) then None else Some(child))
                in Entries(g, id, parentKey, level)
  {
    var props := g[id].properties;
    assert Entries(g, id, parentKey, level) == PropertyEntries(g, props, props.Keys, parentKey, level, true);
    forall p | p in props
      ensures (PropertyKey(parentKey, p, g[props[p]], true), StoredValue(g, props[p], level))
                in Entries(g, id, parentKey, level)
    {
      PropertyStored(g, props, p, parentKey, level, true);
    }
  }

  /** What stays at a property's own path: its node, or nil for an array without items below the cap. */
  ghost function StoredValue(g: Graph, child: NodeId, level: int): Entry
    requires child in g
  {
    if level < MaxLevel && IsItemlessArray(g[child]) then None else Some(child)
  }

  /** A property's own path holds what stays there among the writes of its siblings' loop. */
  lemma PropertyStored(g: Graph, props: map<string, NodeId>, p: string, parentKey: string, level: int, sigil: bool)
    requires Closed(g) && (forall q :: q in props ==> props[q] in g) && p in props
    ensures (PropertyKey(parentKey, p, g[props[p]], sigil), StoredValue(g, props[p], level))
              in PropertyEntries(g, props, props.Keys, parentKey, level, sigil)
  {
    var key := PropertyKey(parentKey, p, g[props[p]], sigil);
    if level < MaxLevel && IsItemlessArray(g[props[p]]) {
      ItemlessArrayEntries(g, props[p], key, level + 1);
    }
    assert (key, StoredValue(g, props[p], level)) in OnePropertyEntries(g, p, props[p], parentKey, level, sigil);
  }

  /**
   * An object with neither `properties` nor `additionalProperties` leaves
   * the map as it was: whatever `Flattened` returns for it equals its input.
   */
  lemma UndocumentedObjectUnchanged(g: Graph, id: NodeId, parentKey: string, level: int, mymap: FlatMap, r: FlatMap)
    requires Closed(g) && id in g
    requires HasType(g[id], "object") && |g[id].properties| == 0
    requires g[id].additionalProperties.NoAdditionalProperties?
    requires Overlays(r, mymap, Entries(g, id, parentKey, level))
    ensures r == mymap
  {
    OverlaysNothing(r, mymap);
  }

  /**
   * Under an array whose item schema has the single type `object`, each
   * item property is stored at `parentKey + "/" + name`: no `items`
   * segment and no `[*]`, even when the item property is itself an array.
   * `Items2020` supplies the item schema when present, the legacy single
   * `Items` schema otherwise. What stays there is the item property's node,
   * or nil for an array without items below the cap.
   */
  lemma ArrayItemPropertiesStored(g: Graph, id: NodeId, parentKey: string, level: int)
    requires Closed(g) && id in g
    requires !HasType(g[id], "object") && HasType(g[id], "array")
    requires g[id].items2020.Some? || g[id].items.SingleItems?
    ensures var item := if g[id].items2020.Some? then g[id].items2020.value else g[id].items.item;
            g[item].types == ["object"] ==>
              forall p :: p in g[item].properties ==>
                var child := g[item].properties[p];
                (parentKey + "/" + p, if level < MaxLevel && IsItemlessArray(g[child]) then None else Some(child))
                  in Entries(g, id, parentKey, level)
  {
    var item := if g[id].items2020.Some? then g[id].items2020.value else g[id].items.item;
    assert Entries(g, id, parentKey, level) == ItemEntries(g, item, parentKey, level);
    if g[item].types == ["object"] {
      var props := g[item].properties;
      assert ItemEntries(g, item, parentKey, level) == PropertyEntries(g, props, props.Keys, parentKey, level, false);
      forall p | p in props
        ensures (parentKey + "/" + p, StoredValue(g, props[p], level)) in Entries(g, id, parentKey, level)
      {
        assert PropertyKey(parentKey, p, g[props[p]], false) == parentKey + "/" + p;
        PropertyStored(g, props, p, parentKey, level, false);
      }
    }
  }

  /**
   * An array adds nothing when its item schema has a scalar type, any other
   * single type other than `object`, zero or several types, or when its
   * items are positional: whatever `Flattened` returns equals its input.
   */
  lemma ArrayWithoutObjectItemsUnchanged(g: Graph, id: NodeId, parentKey: string, level: int, mymap: FlatMap, r: FlatMap)
    requires Closed(g) && id in g
    requires !HasType(g[id], "object") && HasType(g[id], "array")
    requires if g[id].items2020.Some? then g[g[id].items2020.value].types != ["object"]
             else match g[id].items
               case SingleItems(item) => g[item].types != ["object"]
               case PositionalItems(_) => true
               case NoLegacyItems => false
    requires Overlays(r, mymap, Entries(g, id, parentKey, level))
    ensures r == mymap
  {
    var n := g[id];
    if n.items2020.Some? {
      var t := g[n.items2020.value].types;
      assert ItemEntries(g, n.items2020.value, parentKey, level) == {};
    } else if n.items.SingleItems? {
      var t := g[n.items.item].types;
      assert ItemEntries(g, n.items.item, parentKey, level) == {};
    }
    assert Entries(g, id, parentKey, level) == {};
    OverlaysNothing(r, mymap);
  }

  /** A write lies at the call's own path (the nil of an itemless array) or strictly beneath it, and names an existing node. */
  ghost predicate WrittenUnder(w: Write, parentKey: string, g: Graph)
  {
    && ((w.0 == parentKey && w.1 == None) || parentKey + "/" <= w.0)
    && (w.1.Some? ==> w.1.value in g)
  }

  lemma PrefixTransitive(a: string, b: string, c: string)
    requires a <= b && b <= c
    ensures a <= c
  {
    assert c[..|b|][..|a|] == c[..|a|];
  }

  /** The flattener never invents a path: every write stays under the path it was called with. */
  lemma {:induction false} EntriesUnderParent(g: Graph, id: NodeId, parentKey: string, level: int)
    requires Closed(g) && id in g
    ensures forall w :: w in Entries(g, id, parentKey, level) ==> WrittenUnder(w, parentKey, g)
    decreases MaxLevel - level, 3
  {
    var n := g[id];
    if HasType(n, "object") {
      if !(|n.properties| == 0 && n.additionalProperties.NoAdditionalProperties?) {
        PropertyEntriesUnderParent(g, n.properties, n.properties.Keys, parentKey, level, true);
      }
    } else if HasType(n, "array") {
      if n.items2020.Some? {
        ItemEntriesUnderParent(g, n.items2020.value, parentKey, level);
      } else if n.items.SingleItems? {
        ItemEntriesUnderParent(g, n.items.item, parentKey, level);
      }
    }
  }

  lemma {:induction false} ItemEntriesUnderParent(g: Graph, item: NodeId, parentKey: string, level: int)
    requires Closed(g) && item in g
    ensures forall w :: w in ItemEntries(g, item, parentKey, level) ==> WrittenUnder(w, parentKey, g)
    decreases MaxLevel - level, 2
  {
    var t := g[item].types;
    if |t| == 1 && t[0] == "object" {
      PropertyEntriesUnderParent(g, g[item].properties, g[item].properties.Keys, parentKey, level, false);
    }
  }

  lemma {:induction false} PropertyEntriesUnderParent(g: Graph, props: map<string, NodeId>, names: set<string>,
                                                      parentKey: string, level: int, sigil: bool)
    requires Closed(g) && forall p :: p in props ==> props[p] in g
    ensures forall w :: w in PropertyEntries(g, props, names, parentKey, level, sigil) ==> WrittenUnder(w, parentKey, g)
    decreases MaxLevel - level, 1
  {
    forall w | w in PropertyEntries(g, props, names, parentKey, level, sigil)
      ensures WrittenUnder(w, parentKey, g)
    {
      var p :| p in names && p in props && w in OnePropertyEntries(g, p, props[p], parentKey, level, sigil);
      OnePropertyEntriesUnderParent(g, p, props[p], parentKey, level, sigil);
    }
  }

  lemma {:induction false} OnePropertyEntriesUnderParent(g: Graph, name: string, child: NodeId,
                                                         parentKey: string, level: int, sigil: bool)
    requires Closed(g) && child in g
    ensures forall w :: w in OnePropertyEntries(g, name, child, parentKey, level, sigil) ==> WrittenUnder(w, parentKey, g)
    decreases MaxLevel - level, 0
  {
    var key := PropertyKey(parentKey, name, g[child], sigil);
    assert parentKey + "/" <= key;
    if level < MaxLevel {
      EntriesUnderParent(g, child, key, level + 1);
      forall w | w in Entries(g, child, key, level + 1)
        ensures parentKey + "/" <= w.0
      {
        if w.0 != key {
          assert key <= key + "/";
          PrefixTransitive(key, key + "/", w.0);
          PrefixTransitive(parentKey + "/", key, w.0);
        }
      }
    }
  }

  /**
   * `g` and `h` differ at most in the legacy `Items` of nodes that also
   * carry an `Items2020` schema.
   */
  ghost predicate LegacyItemsShadowed(g: Graph, h: Graph)
  {
    && g.Keys == h.Keys
    && forall id :: id in g ==>
         h[id] == g[id] || (g[id].items2020.Some? && h[id] == g[id].(items := h[id].items))
  }

  /** `Items2020` takes precedence: the legacy `Items` of a node that has it is never consulted. */
  lemma {:induction false} EntriesIgnoreShadowedItems(g: Graph, h: Graph, id: NodeId, parentKey: string, level: int)
    requires Closed(g) && Closed(h) && LegacyItemsShadowed(g, h) && id in g
    ensures Entries(g, id, parentKey, level) == Entries(h, id, parentKey, level)
    decreases MaxLevel - level, 3
  {
    var n := g[id];
    if HasType(n, "object") {
      if !(|n.properties| == 0 && n.additionalProperties.NoAdditionalProperties?) {
        PropertyEntriesIgnoreShadowedItems(g, h, n.properties, n.properties.Keys, parentKey, level, true);
      }
    } else if HasType(n, "array") {
      if n.items2020.Some? {
        ItemEntriesIgnoreShadowedItems(g, h, n.items2020.value, parentKey, level);
      } else if n.items.SingleItems? {
        ItemEntriesIgnoreShadowedItems(g, h, n.items.item, parentKey, level);
      }
    }
  }

  lemma {:induction false} ItemEntriesIgnoreShadowedItems(g: Graph, h: Graph, item: NodeId, parentKey: string, level: int)
    requires Closed(g) && Closed(h) && LegacyItemsShadowed(g, h) && item in g
    ensures ItemEntries(g, item, parentKey, level) == ItemEntries(h, item, parentKey, level)
    decreases MaxLevel - level, 2
  {
    var t := g[item].types;
    if |t| == 1 && t[0] == "object" {
      PropertyEntriesIgnoreShadowedItems(g, h, g[item].properties, g[item].properties.Keys, parentKey, level, false);
    }
  }

  lemma {:induction false} PropertyEntriesIgnoreShadowedItems(g: Graph, h: Graph, props: map<string, NodeId>, names: set<string>,
                                                              parentKey: string, level: int, sigil: bool)
    requires Closed(g) && Closed(h) && LegacyItemsShadowed(g, h)
    requires forall p :: p in props ==> props[p] in g
    ensures PropertyEntries(g, props, names, parentKey, level, sigil) == PropertyEntries(h, props, names, parentKey, level, sigil)
    decreases MaxLevel - level, 1
  {
    forall p | p in names && p in props
      ensures OnePropertyEntries(g, p, props[p], parentKey, level, sigil) == OnePropertyEntries(h, p, props[p], parentKey, level, sigil)
    {
      OnePropertyEntriesIgnoreShadowedItems(g, h, p, props[p], parentKey, level, sigil);
    }
  }

  lemma {:induction false} OnePropertyEntriesIgnoreShadowedItems(g: Graph, h: Graph, name: string, child: NodeId,
                                                                 parentKey: string, level: int, sigil: bool)
    requires Closed(g) && Closed(h) && LegacyItemsShadowed(g, h) && child in g
    ensures OnePropertyEntries(g, name, child, parentKey, level, sigil) == OnePropertyEntries(h, name, child, parentKey, level, sigil)
    decreases MaxLevel - level, 0
  {
    if level < MaxLevel {
      EntriesIgnoreShadowedItems(g, h, child, PropertyKey(parentKey, name, g[child], sigil), level + 1);
    }
  }
}
