/**
 * The analyser of pkg/analysis/analysis.go and the aggregator of
 * pkg/analysis/features.go: it compiles and flattens one schema per
 * cluster app, merges the flattened paths across providers, lists them
 * sorted, and files every schema node under its feature fingerprint.
 *
 * `jsonschema.Compile` fetches and parses a schema through a foreign
 * library; it is a function parameter of `New` here. Go visits a map's
 * keys in an unspecified order; the loops below pick the next key with
 * `:|`, and their contracts are stated in order-independent form except
 * where the source fixes an order (`ClusterApps`, the sorts).
 */
module Analysis {
  import opened JsonSchema
  import opened Strings
  import opened Flatten
  import opened Features
  import FeatureProperties
  import opened Sets

  /** A cluster app for one Cluster API provider. */
  datatype ClusterApp = ClusterApp(providerName: string, repositoryURL: string, schemaURL: string)

  datatype Result<T> = Success(value: T) | Failure(error: string)

  /** A provider's flattened schema, or the empty map Go reads from a nil map for a provider without one. */
  function FlatOf(fs: map<string, FlatMap>, provider: string): FlatMap
  {
    if provider in fs then fs[provider] else map[]
  }

  // ---------------------------------------------------------------------
  // Specification of the constructor

  /**
   * The schemas `New` keeps: compiled in the order of the cluster apps, a
   * later app overwriting an earlier one of the same provider name, and the
   * first failure ending the construction.
   */
  function CompiledSchemas(apps: seq<ClusterApp>, compile: string -> Result<SchemaDoc>): Result<map<string, SchemaDoc>>
  {
    if apps == [] then Success(map[])
    else
      var last := apps[|apps| - 1];
      match CompiledSchemas(apps[..|apps| - 1], compile)
      case Failure(e) => Failure(e)
      case Success(m) =>
        match compile(last.schemaURL)
        case Failure(e) => Failure(e)
        case Success(doc) => Success(m[last.providerName := doc])
  }

  /** One more cluster app: its schema is added under its provider name, or its compile error ends the construction. */
  lemma CompiledStep(apps: seq<ClusterApp>, compile: string -> Result<SchemaDoc>, i: nat)
    requires i < |apps| && CompiledSchemas(apps[..i], compile).Success?
    ensures compile(apps[i].schemaURL).Success? ==>
      CompiledSchemas(apps[..i + 1], compile)
        == Success(CompiledSchemas(apps[..i], compile).value[apps[i].providerName := compile(apps[i].schemaURL).value])
    ensures compile(apps[i].schemaURL).Failure? ==>
      CompiledSchemas(apps[..i + 1], compile) == Failure(compile(apps[i].schemaURL).error)
  {
    assert apps[..i + 1][..i] == apps[..i];
  }

  /** Once a prefix of the cluster apps fails, the whole construction fails with the same error. */
  lemma {:induction false} CompiledFailureStays(apps: seq<ClusterApp>, compile: string -> Result<SchemaDoc>, i: nat)
    requires i <= |apps| && CompiledSchemas(apps[..i], compile).Failure?
    ensures CompiledSchemas(apps, compile) == CompiledSchemas(apps[..i], compile)
    decreases |apps| - i
  {
    if i < |apps| {
      assert apps[..i + 1][..i] == apps[..i];
      CompiledFailureStays(apps, compile, i + 1);
    } else {
      assert apps[..i] == apps;
    }
  }

  /**
   * The construction fails exactly when some cluster app's schema fails to
   * compile, and then with the error of the first such app.
   */
  lemma {:induction false} CompiledFirstFailure(apps: seq<ClusterApp>, compile: string -> Result<SchemaDoc>)
    ensures CompiledSchemas(apps, compile).Success? <==> forall i :: 0 <= i < |apps| ==> compile(apps[i].schemaURL).Success?
    ensures CompiledSchemas(apps, compile).Failure? ==>
      exists j :: 0 <= j < |apps| && compile(apps[j].schemaURL).Failure?
        && (forall i :: 0 <= i < j ==> compile(apps[i].schemaURL).Success?)
        && CompiledSchemas(apps, compile).error == compile(apps[j].schemaURL).error
  {
    if apps != [] {
      var init := apps[..|apps| - 1];
      CompiledFirstFailure(init, compile);
      if CompiledSchemas(init, compile).Failure? {
        var j :| 0 <= j < |init| && compile(init[j].schemaURL).Failure?
          && (forall i :: 0 <= i < j ==> compile(init[i].schemaURL).Success?)
          && CompiledSchemas(init, compile).error == compile(init[j].schemaURL).error;
        assert apps[j] == init[j];
        assert forall i :: 0 <= i < j ==> apps[i] == init[i];
      } else {
        assert forall i :: 0 <= i < |init| ==> apps[i] == init[i];
        if compile(apps[|apps| - 1].schemaURL).Failure? {
          assert forall i :: 0 <= i < |apps| - 1 ==> compile(apps[i].schemaURL).Success?;
        }
      }
    }
  }

  /** On success exactly the providers of the cluster apps have a schema. */
  lemma {:induction false} CompiledProviders(apps: seq<ClusterApp>, compile: string -> Result<SchemaDoc>)
    requires CompiledSchemas(apps, compile).Success?
    ensures forall p :: p in CompiledSchemas(apps, compile).value <==> exists i :: 0 <= i < |apps| && apps[i].providerName == p
  {
    if apps != [] {
      var init := apps[..|apps| - 1];
      var last := apps[|apps| - 1];
      CompiledProviders(init, compile);
      var m := CompiledSchemas(apps, compile).value;
      forall p ensures p in m <==> exists i :: 0 <= i < |apps| && apps[i].providerName == p {
        if p in m && p != last.providerName {
          var i :| 0 <= i < |init| && init[i].providerName == p;
          assert apps[i] == init[i];
        }
        if exists i :: 0 <= i < |apps| && apps[i].providerName == p {
          var i :| 0 <= i < |apps| && apps[i].providerName == p;
          if i < |init| {
            assert init[i] == apps[i];
          }
        }
      }
    }
  }

  /** On success a provider's schema is the one compiled for its last cluster app: a later app overwrites an earlier one. */
  lemma {:induction false} CompiledLastWins(apps: seq<ClusterApp>, compile: string -> Result<SchemaDoc>, i: nat)
    requires CompiledSchemas(apps, compile).Success?
    requires i < |apps| && forall j :: i < j < |apps| ==> apps[j].providerName != apps[i].providerName
    ensures apps[i].providerName in CompiledSchemas(apps, compile).value
    ensures Success(CompiledSchemas(apps, compile).value[apps[i].providerName]) == compile(apps[i].schemaURL)
  {
    var init := apps[..|apps| - 1];
    if i < |init| {
      assert init[i] == apps[i];
      assert forall j :: i < j < |init| ==> init[j] == apps[j];
      CompiledLastWins(init, compile, i);
    }
  }

  /** The entries of a flattened schema point to nodes of that schema. */
  lemma FlattenedPointsInto(doc: SchemaDoc, r: FlatMap)
    requires WellFormed(doc) && Overlays(r, map[], Entries(doc.nodes, doc.root, "", 0))
    ensures forall k :: k in r && r[k].Some? ==> r[k].value in doc.nodes
  {
    EntriesUnderParent(doc.nodes, doc.root, "", 0);
    forall k | k in r && r[k].Some? ensures r[k].value in doc.nodes {
      assert (k, r[k]) in Entries(doc.nodes, doc.root, "", 0);
    }
  }

  // ---------------------------------------------------------------------
  // Specification of the merged index

  /** The providers holding `key`, one per cluster app that has it, in the order of the cluster apps. */
  function Holders(apps: seq<ClusterApp>, fs: map<string, FlatMap>, key: string): seq<string>
  {
    if apps == [] then []
    else
      var last := apps[|apps| - 1].providerName;
      Holders(apps[..|apps| - 1], fs, key) + (if key in FlatOf(fs, last) then [last] else [])
  }

  /** Every path some cluster app's flattened schema has. */
  function MergedKeys(apps: seq<ClusterApp>, fs: map<string, FlatMap>): set<string>
  {
    if apps == [] then {}
    else MergedKeys(apps[..|apps| - 1], fs) + FlatOf(fs, apps[|apps| - 1].providerName).Keys
  }

  /** The merged key set is the union of the providers' key sets. */
  lemma {:induction false} MergedKeysUnion(apps: seq<ClusterApp>, fs: map<string, FlatMap>, key: string)
    ensures key in MergedKeys(apps, fs) <==> exists i :: 0 <= i < |apps| && key in FlatOf(fs, apps[i].providerName)
  {
    if apps != [] {
      var init := apps[..|apps| - 1];
      MergedKeysUnion(init, fs, key);
      if key in MergedKeys(init, fs) {
        var i :| 0 <= i < |init| && key in FlatOf(fs, init[i].providerName);
        assert apps[i] == init[i];
      }
      if exists i :: 0 <= i < |apps| && key in FlatOf(fs, apps[i].providerName) {
        var i :| 0 <= i < |apps| && key in FlatOf(fs, apps[i].providerName);
        if i < |init| {
          assert init[i] == apps[i];
        }
      }
    }
  }

  /** A provider is listed for `key` iff one of the cluster apps carries its name and its flattened schema has `key`. */
  lemma {:induction false} HoldersMembers(apps: seq<ClusterApp>, fs: map<string, FlatMap>, key: string, provider: string)
    ensures provider in Holders(apps, fs, key)
        <==> (exists i :: 0 <= i < |apps| && apps[i].providerName == provider) && key in FlatOf(fs, provider)
  {
    if apps != [] {
      var init := apps[..|apps| - 1];
      HoldersMembers(init, fs, key, provider);
      if exists i :: 0 <= i < |init| && init[i].providerName == provider {
        var i :| 0 <= i < |init| && init[i].providerName == provider;
        assert apps[i] == init[i];
      }
      if exists i :: 0 <= i < |apps| && apps[i].providerName == provider {
        var i :| 0 <= i < |apps| && apps[i].providerName == provider;
        if i < |init| {
          assert init[i] == apps[i];
        }
      }
    }
  }

  /** A key has a non-empty provider list exactly when it is a merged key. */
  lemma {:induction false} HoldersNonEmpty(apps: seq<ClusterApp>, fs: map<string, FlatMap>, key: string)
    ensures Holders(apps, fs, key) != [] <==> key in MergedKeys(apps, fs)
  {
    if apps != [] {
      HoldersNonEmpty(apps[..|apps| - 1], fs, key);
    }
  }

  /** The lists follow the order of the cluster apps: the apps of a prefix contribute a prefix of each list. */
  lemma {:induction false} HoldersAppend(apps: seq<ClusterApp>, more: seq<ClusterApp>, fs: map<string, FlatMap>, key: string)
    ensures Holders(apps + more, fs, key) == Holders(apps, fs, key) + Holders(more, fs, key)
    decreases |more|
  {
    if more == [] {
      assert apps + more == apps;
    } else {
      var init := more[..|more| - 1];
      assert (apps + more)[..|apps + more| - 1] == apps + init;
      assert (apps + more)[|apps + more| - 1] == more[|more| - 1];
      HoldersAppend(apps, init, fs, key);
    }
  }

  /** With distinct provider names, no provider is listed twice for a key. */
  lemma {:induction false} HoldersDistinct(apps: seq<ClusterApp>, fs: map<string, FlatMap>, key: string)
    requires forall i, j :: 0 <= i < j < |apps| ==> apps[i].providerName != apps[j].providerName
    ensures Distinct(Holders(apps, fs, key))
  {
    if apps != [] {
      var init := apps[..|apps| - 1];
      var last := apps[|apps| - 1].providerName;
      HoldersDistinct(init, fs, key);
      var h := Holders(init, fs, key);
      if key in FlatOf(fs, last) {
        HoldersMembers(init, fs, key, last);
        assert last !in h;
        forall i, j | 0 <= i < j < |h + [last]| ensures (h + [last])[i] != (h + [last])[j] {
          if j == |h| {
            assert (h + [last])[i] == h[i];
          } else {
            assert (h + [last])[i] == h[i] && (h + [last])[j] == h[j];
          }
        }
      } else {
        assert Holders(apps, fs, key) == h + [];
      }
    }
  }

  /** One pass of the outer loop of `MergedSchemas` extends the index from the first `i` cluster apps to the first `i + 1`. */
  lemma MergeStep(apps: seq<ClusterApp>, fs: map<string, FlatMap>, i: nat,
                  before: map<string, seq<string>>, after: map<string, seq<string>>)
    requires i < |apps|
    requires before.Keys == MergedKeys(apps[..i], fs)
    requires forall k :: k in before ==> before[k] == Holders(apps[..i], fs, k)
    requires after == WithProvider(before, apps[i].providerName, FlatOf(fs, apps[i].providerName).Keys)
    ensures after.Keys == MergedKeys(apps[..i + 1], fs)
    ensures forall k :: k in after ==> after[k] == Holders(apps[..i + 1], fs, k)
  {
    assert apps[..i + 1][..i] == apps[..i];
    assert apps[..i + 1][i] == apps[i];
    WithProviderMeaning(before, apps[i].providerName, FlatOf(fs, apps[i].providerName).Keys);
    forall k | k in after
      ensures after[k] == Holders(apps[..i + 1], fs, k)
    {
      HoldersNonEmpty(apps[..i], fs, k);
    }
  }

  // ---------------------------------------------------------------------
  // Specification of the aggregator

  /** The paths among `keys` at which a flattened schema holds a node rather than nil. */
  function NodePaths(m: FlatMap, keys: set<string>): set<string>
  {
    set k | k in keys && k in m && m[k].Some?
  }

  /** The number of flattened entries the aggregator visits: the non-nil ones of every cluster app. */
  function VisitCount(apps: seq<ClusterApp>, fs: map<string, FlatMap>): nat
  {
    if apps == [] then 0
    else VisitCount(apps[..|apps| - 1], fs) + |NodePaths(FlatOf(fs, apps[|apps| - 1].providerName), FlatOf(fs, apps[|apps| - 1].providerName).Keys)|
  }

  /** The nodes the aggregator visits for one provider. */
  function VisitedNodes(provider: string, m: FlatMap, keys: set<string>): set<(string, NodeId)>
  {
    set k | k in keys && k in m && m[k].Some? :: (provider, m[k].value)
  }

  /** Every (provider, node) the aggregator visits. */
  function AllVisitedNodes(apps: seq<ClusterApp>, fs: map<string, FlatMap>): set<(string, NodeId)>
  {
    if apps == [] then {}
    else
      var last := apps[|apps| - 1].providerName;
      AllVisitedNodes(apps[..|apps| - 1], fs) + VisitedNodes(last, FlatOf(fs, last), FlatOf(fs, last).Keys)
  }

  /** The node of the schema `docs` holds for `provider` at `id`, if there is one. */
  function NodeAt(docs: map<string, SchemaDoc>, provider: string, id: NodeId): Option<SchemaNode>
  {
    if provider in docs && id in docs[provider].nodes then Some(docs[provider].nodes[id]) else None
  }

  /** The (label, location) pairs filed for one provider's `keys`; the aggregator's label is the fingerprint. */
  function FiledFor(docs: map<string, SchemaDoc>, provider: string, m: FlatMap, keys: set<string>, labelOf: SchemaNode -> string): set<(string, string)>
  {
    set k | k in keys && k in m && m[k].Some? && NodeAt(docs, provider, m[k].value).Some?
      :: (labelOf(NodeAt(docs, provider, m[k].value).value), NodeAt(docs, provider, m[k].value).value.location)
  }

  /** Every (fingerprint, location) pair the aggregator files, computed on the nodes as they were before it ran. */
  function Filed(apps: seq<ClusterApp>, fs: map<string, FlatMap>, docs: map<string, SchemaDoc>): set<(string, string)>
  {
    if apps == [] then {}
    else
      var last := apps[|apps| - 1].providerName;
      Filed(apps[..|apps| - 1], fs, docs) + FiledFor(docs, last, FlatOf(fs, last), FlatOf(fs, last).Keys, Fingerprint)
  }

  /** `docs` after `extractFeatures` ran on every node in `visited`: those nodes have their types sorted in place. */
  ghost function SortedVisited(docs: map<string, SchemaDoc>, visited: set<(string, NodeId)>): map<string, SchemaDoc>
  {
    map p | p in docs :: SchemaDoc(SortedNodes(docs[p].nodes, p, visited), docs[p].root)
  }

  ghost function SortedNodes(g: Graph, provider: string, visited: set<(string, NodeId)>): Graph
  {
    map id | id in g :: if (provider, id) in visited then TypesSortedInPlace(g[id]) else g[id]
  }

  /** Sorting the types of visited nodes keeps every schema's shape: the same providers, roots and node ids, and no dangling reference. */
  lemma SortedVisitedKeeps(docs: map<string, SchemaDoc>, visited: set<(string, NodeId)>)
    ensures SortedVisited(docs, visited).Keys == docs.Keys
    ensures forall p :: p in docs ==>
      && SortedVisited(docs, visited)[p].root == docs[p].root
      && SortedVisited(docs, visited)[p].nodes.Keys == docs[p].nodes.Keys
      && (WellFormed(docs[p]) ==> WellFormed(SortedVisited(docs, visited)[p]))
    ensures forall p, id :: p in docs && id in docs[p].nodes ==>
      SortedVisited(docs, visited)[p].nodes[id]
        == if (p, id) in visited then TypesSortedInPlace(docs[p].nodes[id]) else docs[p].nodes[id]
  {
    forall p | p in docs && WellFormed(docs[p])
      ensures WellFormed(SortedVisited(docs, visited)[p])
    {
      var g := docs[p].nodes;
      var g' := SortedNodes(g, p, visited);
      forall id | id in g' ensures RefsIn(g'[id], g') {
        assert RefsIn(g[id], g);
      }
    }
  }

  /** Nothing visited: every schema as it was. */
  lemma SortedVisitedNone(docs: map<string, SchemaDoc>)
    ensures SortedVisited(docs, {}) == docs
  {
    forall p | p in docs ensures SortedVisited(docs, {})[p] == docs[p] {
      assert SortedNodes(docs[p].nodes, p, {}) == docs[p].nodes;
    }
  }

  /**
   * Visiting a node once more: the node found is the original or its
   * type-sorted form, so it has the original fingerprint and location, and
   * writing back its sorted types gives the state with the node visited.
   */
  lemma SortedVisitedStep(orig: map<string, SchemaDoc>, visited: set<(string, NodeId)>, provider: string, id: NodeId)
    requires provider in orig && id in orig[provider].nodes
    ensures var docs := SortedVisited(orig, visited);
      && provider in docs && id in docs[provider].nodes
      && docs[provider].nodes[id].location == orig[provider].nodes[id].location
      && TypesSortedInPlace(docs[provider].nodes[id]) == TypesSortedInPlace(orig[provider].nodes[id])
      && docs[provider := docs[provider].(nodes := docs[provider].nodes[id := TypesSortedInPlace(docs[provider].nodes[id])])]
         == SortedVisited(orig, visited + {(provider, id)})
  {
    var docs := SortedVisited(orig, visited);
    var n := orig[provider].nodes[id];
    FeatureProperties.TypeSortSettles(n);
    var after := SortedVisited(orig, visited + {(provider, id)});
    var written := docs[provider := docs[provider].(nodes := docs[provider].nodes[id := TypesSortedInPlace(docs[provider].nodes[id])])];
    assert written[provider].nodes == after[provider].nodes;
    forall p | p in orig ensures written[p] == after[p] {
      if p != provider {
        assert SortedNodes(orig[p].nodes, p, visited) == SortedNodes(orig[p].nodes, p, visited + {(provider, id)});
      }
    }
  }

  /** The visited node has the fingerprint of the original node. */
  lemma VisitedFingerprint(orig: map<string, SchemaDoc>, visited: set<(string, NodeId)>, provider: string, id: NodeId)
    requires provider in orig && id in orig[provider].nodes
    ensures provider in SortedVisited(orig, visited) && id in SortedVisited(orig, visited)[provider].nodes
    ensures Fingerprint(SortedVisited(orig, visited)[provider].nodes[id]) == Fingerprint(orig[provider].nodes[id])
  {
    SortedVisitedKeeps(orig, visited);
    FeatureProperties.FingerprintSurvivesTypeSort(orig[provider].nodes[id]);
  }

  /** The buckets hold exactly the pairs of `filed`, and none is empty. */
  ghost predicate Buckets(featuresMap: map<string, seq<string>>, filed: set<(string, string)>)
  {
    && (forall fp :: fp in featuresMap ==> featuresMap[fp] != [])
    && (forall fp, loc :: fp in featuresMap && loc in featuresMap[fp] <==> (fp, loc) in filed)
  }

  /** Filing one location under `fp`, in a new or an existing bucket, adds exactly that pair. */
  lemma BucketsFile(featuresMap: map<string, seq<string>>, filed: set<(string, string)>, fp: string, location: string)
    requires Buckets(featuresMap, filed)
    ensures Buckets(featuresMap[fp := if fp in featuresMap then featuresMap[fp] + [location] else [location]], filed + {(fp, location)})
  {
    var m' := featuresMap[fp := if fp in featuresMap then featuresMap[fp] + [location] else [location]];
    forall f, l ensures f in m' && l in m'[f] <==> (f, l) in filed + {(fp, location)} {
      if f == fp && fp in featuresMap {
        assert l in featuresMap[fp] + [location] <==> l in featuresMap[fp] || l == location;
      }
    }
  }

  /** Visiting one more key adds its node, if any, to the visited nodes and to the node paths. */
  lemma VisitKey(provider: string, m: FlatMap, done: set<string>, key: string)
    requires key in m && key !in done
    ensures VisitedNodes(provider, m, done + {key})
      == VisitedNodes(provider, m, done) + (if m[key].Some? then {(provider, m[key].value)} else {})
    ensures NodePaths(m, done + {key}) == NodePaths(m, done) + (if m[key].Some? then {key} else {})
    ensures key !in NodePaths(m, done)
  {
  }

  /** Visiting one more key files the original node's fingerprint and location, if the key holds a node. */
  lemma FileKey(orig: map<string, SchemaDoc>, provider: string, m: FlatMap, done: set<string>, key: string, labelOf: SchemaNode -> string)
    requires key in m && key !in done
    requires m[key].Some? ==> provider in orig && m[key].value in orig[provider].nodes
    ensures FiledFor(orig, provider, m, done + {key}, labelOf)
      == FiledFor(orig, provider, m, done, labelOf)
       + (if m[key].Some?
          then {(labelOf(orig[provider].nodes[m[key].value]), orig[provider].nodes[m[key].value].location)}
          else {})
  {
  }

  /** The number of locations over all buckets. */
  ghost function TotalSize(m: map<string, seq<string>>): nat
    decreases |m|
  {
    if m == map[] then 0
    else
      var k :| k in m;
      |m[k]| + TotalSize(m - {k})
  }

  lemma {:induction false} TotalSizeRemove(m: map<string, seq<string>>, k: string)
    requires k in m
    ensures TotalSize(m) == |m[k]| + TotalSize(m - {k})
    decreases |m|
  {
    var j :| j in m && TotalSize(m) == |m[j]| + TotalSize(m - {j});
    if j != k {
      TotalSizeRemove(m - {j}, k);
      TotalSizeRemove(m - {k}, j);
      assert m - {j} - {k} == m - {k} - {j};
    }
  }

  /** Appending one location to a bucket, new or existing, adds one to the total. */
  lemma TotalSizeFile(m: map<string, seq<string>>, key: string, location: string)
    ensures TotalSize(m[key := if key in m then m[key] + [location] else [location]]) == TotalSize(m) + 1
  {
    var m' := m[key := if key in m then m[key] + [location] else [location]];
    TotalSizeRemove(m', key);
    if key in m {
      TotalSizeRemove(m, key);
      assert m' - {key} == m - {key};
    } else {
      assert m' - {key} == m;
    }
  }

  /** How many times `loc` is listed in the bucket of `fp`. */
  function Occurrences(featuresMap: map<string, seq<string>>, fp: string, loc: string): nat
  {
    if fp in featuresMap then multiset(featuresMap[fp])[loc] else 0
  }

  /** The keys among `keys` of one provider's flattened schema whose node is filed as (`fp`, `loc`). */
  function FilingPaths(docs: map<string, SchemaDoc>, provider: string, m: FlatMap, keys: set<string>,
                       labelOf: SchemaNode -> string, fp: string, loc: string): set<string>
  {
    set k | k in keys && k in m && m[k].Some? && NodeAt(docs, provider, m[k].value).Some?
              && labelOf(NodeAt(docs, provider, m[k].value).value) == fp
              && NodeAt(docs, provider, m[k].value).value.location == loc
  }

  /**
   * How many times the aggregator files (`fp`, `loc`): once per path that
   * reaches such a node, and once per cluster app, so a provider named
   * twice is counted twice.
   */
  function FiledCount(apps: seq<ClusterApp>, fs: map<string, FlatMap>, docs: map<string, SchemaDoc>, fp: string, loc: string): nat
  {
    if apps == [] then 0
    else
      var last := apps[|apps| - 1].providerName;
      FiledCount(apps[..|apps| - 1], fs, docs, fp, loc)
        + |FilingPaths(docs, last, FlatOf(fs, last), FlatOf(fs, last).Keys, Fingerprint, fp, loc)|
  }

  /** A pair is filed at least once exactly when it is among the pairs filed. */
  lemma {:induction false} FiledCountPositive(apps: seq<ClusterApp>, fs: map<string, FlatMap>, docs: map<string, SchemaDoc>, fp: string, loc: string)
    ensures FiledCount(apps, fs, docs, fp, loc) > 0 <==> (fp, loc) in Filed(apps, fs, docs)
  {
    if apps != [] {
      var last := apps[|apps| - 1].providerName;
      FiledCountPositive(apps[..|apps| - 1], fs, docs, fp, loc);
      FilingPathsFiled(docs, last, FlatOf(fs, last), FlatOf(fs, last).Keys, Fingerprint, fp, loc);
    }
  }

  /** For one provider, a pair has a path filing it exactly when it is among the pairs filed. */
  lemma FilingPathsFiled(docs: map<string, SchemaDoc>, provider: string, m: FlatMap, keys: set<string>,
                         labelOf: SchemaNode -> string, fp: string, loc: string)
    ensures FilingPaths(docs, provider, m, keys, labelOf, fp, loc) != {} <==> (fp, loc) in FiledFor(docs, provider, m, keys, labelOf)
  {
    var paths := FilingPaths(docs, provider, m, keys, labelOf, fp, loc);
    if (fp, loc) in FiledFor(docs, provider, m, keys, labelOf) {
      var k :| k in keys && k in m && m[k].Some? && NodeAt(docs, provider, m[k].value).Some?
        && (labelOf(NodeAt(docs, provider, m[k].value).value), NodeAt(docs, provider, m[k].value).value.location) == (fp, loc);
      assert k in paths;
    }
  }

  /**
   * Every (`fp`, `loc`) is listed as often as it was in `start`, the buckets
   * before this provider, plus once per key among `done` that files it.
   */
  ghost predicate Tally(featuresMap: map<string, seq<string>>, start: map<string, seq<string>>, orig: map<string, SchemaDoc>,
                        provider: string, m: FlatMap, done: set<string>, labelOf: SchemaNode -> string)
  {
    forall fp, loc :: Occurrences(featuresMap, fp, loc)
      == Occurrences(start, fp, loc) + |FilingPaths(orig, provider, m, done, labelOf, fp, loc)|
  }

  /** Appending `location` to the bucket of `key` lists that pair once more and changes no other count. */
  lemma OccurrencesFile(m: map<string, seq<string>>, key: string, location: string, fp: string, loc: string)
    ensures Occurrences(m[key := if key in m then m[key] + [location] else [location]], fp, loc)
      == Occurrences(m, fp, loc) + (if fp == key && loc == location then 1 else 0)
  {
    if fp == key && key in m {
      assert multiset(m[key] + [location]) == multiset(m[key]) + multiset{location};
    }
  }

  /** Filing the node at a fresh key adds that key to the paths of its pair, and of no other pair. */
  lemma TallyStep(featuresMap: map<string, seq<string>>, start: map<string, seq<string>>, orig: map<string, SchemaDoc>,
                  provider: string, m: FlatMap, done: set<string>, key: string, labelOf: SchemaNode -> string,
                  fp: string, location: string)
    requires key in m && key !in done && m[key].Some? && PointsInto(orig, provider, m)
    requires Tally(featuresMap, start, orig, provider, m, done, labelOf)
    requires fp == labelOf(orig[provider].nodes[m[key].value])
    requires location == orig[provider].nodes[m[key].value].location
    ensures Tally(featuresMap[fp := if fp in featuresMap then featuresMap[fp] + [location] else [location]],
                  start, orig, provider, m, done + {key}, labelOf)
  {
    var m' := featuresMap[fp := if fp in featuresMap then featuresMap[fp] + [location] else [location]];
    forall f, l
      ensures Occurrences(m', f, l) == Occurrences(start, f, l) + |FilingPaths(orig, provider, m, done + {key}, labelOf, f, l)|
    {
      OccurrencesFile(featuresMap, fp, location, f, l);
      FilingPathsStep(orig, provider, m, done, key, labelOf, f, l);
    }
  }

  /** Visiting a fresh key holding a node adds one path to the pair that node files, and none to any other pair. */
  lemma FilingPathsStep(orig: map<string, SchemaDoc>, provider: string, m: FlatMap, done: set<string>, key: string,
                        labelOf: SchemaNode -> string, fp: string, loc: string)
    requires key in m && key !in done && m[key].Some? && PointsInto(orig, provider, m)
    ensures |FilingPaths(orig, provider, m, done + {key}, labelOf, fp, loc)|
      == |FilingPaths(orig, provider, m, done, labelOf, fp, loc)|
       + (if fp == labelOf(orig[provider].nodes[m[key].value]) && loc == orig[provider].nodes[m[key].value].location then 1 else 0)
  {
    var before := FilingPaths(orig, provider, m, done, labelOf, fp, loc);
    if fp == labelOf(orig[provider].nodes[m[key].value]) && loc == orig[provider].nodes[m[key].value].location {
      assert FilingPaths(orig, provider, m, done + {key}, labelOf, fp, loc) == before + {key};
    } else {
      assert FilingPaths(orig, provider, m, done + {key}, labelOf, fp, loc) == before;
    }
  }

  /** A key holding nil files nothing. */
  lemma TallySkip(featuresMap: map<string, seq<string>>, start: map<string, seq<string>>, orig: map<string, SchemaDoc>,
                  provider: string, m: FlatMap, done: set<string>, key: string, labelOf: SchemaNode -> string)
    requires key in m && m[key].None?
    requires Tally(featuresMap, start, orig, provider, m, done, labelOf)
    ensures Tally(featuresMap, start, orig, provider, m, done + {key}, labelOf)
  {
    forall f, l ensures FilingPaths(orig, provider, m, done + {key}, labelOf, f, l) == FilingPaths(orig, provider, m, done, labelOf, f, l) {
    }
  }

  /** After a provider's last key, the counts of `Features` cover one more cluster app. */
  lemma TallyDone(apps: seq<ClusterApp>, fs: map<string, FlatMap>, orig: map<string, SchemaDoc>, i: nat,
                  featuresMap: map<string, seq<string>>, start: map<string, seq<string>>)
    requires i < |apps|
    requires forall fp, loc :: Occurrences(start, fp, loc) == FiledCount(apps[..i], fs, orig, fp, loc)
    requires Tally(featuresMap, start, orig, apps[i].providerName, FlatOf(fs, apps[i].providerName),
                   FlatOf(fs, apps[i].providerName).Keys, Fingerprint)
    ensures forall fp, loc :: Occurrences(featuresMap, fp, loc) == FiledCount(apps[..i + 1], fs, orig, fp, loc)
  {
    assert apps[..i + 1][..i] == apps[..i];
    assert apps[..i + 1][i] == apps[i];
  }

  // ---------------------------------------------------------------------
  // The analyser

  class Analyser {
    var clusterApps: seq<ClusterApp>
    /** The compiled schema of each provider. */
    var schemas: map<string, SchemaDoc>
    /** The flattened schema of each provider; its entries point into that provider's schema. */
    var flattenedSchema: map<string, FlatMap>

    ghost predicate Valid()
      reads this
    {
      && (forall p :: p in schemas ==> WellFormed(schemas[p]))
      && (forall p :: p in flattenedSchema ==> p in schemas)
      && (forall p, k :: p in flattenedSchema && k in flattenedSchema[p] && flattenedSchema[p][k].Some?
            ==> flattenedSchema[p][k].value in schemas[p].nodes)
    }

    /** Each provider's flattened schema is its compiled schema flattened from the root. */
    ghost predicate FlattenedFromRoots()
      reads this
    {
      && flattenedSchema.Keys == schemas.Keys
      && forall p :: p in flattenedSchema ==>
           p in schemas && WellFormed(schemas[p])
           && Overlays(flattenedSchema[p], map[], Entries(schemas[p].nodes, schemas[p].root, "", 0))
    }

    constructor Empty(apps: seq<ClusterApp>)
      ensures clusterApps == apps && schemas == map[] && flattenedSchema == map[]
      ensures Valid()
    {
      clusterApps := apps;
      schemas := map[];
      flattenedSchema := map[];
    }

    /** One pass of the loop of `New`: keeps a compiled schema and its flattened form under the provider's name. */
    method Admit(provider: string, doc: SchemaDoc, flat: FlatMap)
      requires Valid() && FlattenedFromRoots()
      requires WellFormed(doc) && Overlays(flat, map[], Entries(doc.nodes, doc.root, "", 0))
      modifies this
      ensures Valid() && FlattenedFromRoots()
      ensures clusterApps == old(clusterApps)
      ensures schemas == old(schemas)[provider := doc]
      ensures flattenedSchema == old(flattenedSchema)[provider := flat]
    {
      FlattenedPointsInto(doc, flat);
      schemas := schemas[provider := doc];
      flattenedSchema := flattenedSchema[provider := flat];
    }

    /** `Providers`: the provider names in the order of the cluster apps. */
    method Providers() returns (providers: seq<string>)
      ensures |providers| == |clusterApps|
      ensures forall i :: 0 <= i < |providers| ==> providers[i] == clusterApps[i].providerName
    {
      providers := [];
      for i := 0 to |clusterApps|
        invariant |providers| == i
        invariant forall j :: 0 <= j < i ==> providers[j] == clusterApps[j].providerName
      {
        providers := providers + [clusterApps[i].providerName];
      }
    }

    /**
     * `MergedSchemas`: every path of every provider's flattened schema,
     * mapped to the providers that have it, in the order of the cluster apps.
     */
    method MergedSchemas() returns (fullSchemas: map<string, seq<string>>)
      ensures fullSchemas.Keys == MergedKeys(clusterApps, flattenedSchema)
      ensures forall k :: k in fullSchemas ==> fullSchemas[k] == Holders(clusterApps, flattenedSchema, k)
    {
      fullSchemas := map[];
      for i := 0 to |clusterApps|
        invariant fullSchemas.Keys == MergedKeys(clusterApps[..i], flattenedSchema)
        invariant forall k :: k in fullSchemas ==> fullSchemas[k] == Holders(clusterApps[..i], flattenedSchema, k)
      {
        var provider := clusterApps[i].providerName;
        ghost var before := fullSchemas;
        fullSchemas := AppendProvider(fullSchemas, provider, FlatOf(flattenedSchema, provider).Keys);
        MergeStep(clusterApps, flattenedSchema, i, before, fullSchemas);
      }
      assert clusterApps[..|clusterApps|] == clusterApps;
    }

    /** `HierarchicalKeys`: the merged paths, sorted, each once. */
    method HierarchicalKeys() returns (keys: seq<string>)
      ensures Sorted(keys) && Distinct(keys)
      ensures forall k :: k in keys <==> k in MergedKeys(clusterApps, flattenedSchema)
    {
      var merged := MergedSchemas();
      keys := SortedKeys(merged);
    }

    /** `Keys`: the paths of one provider's flattened schema, sorted; none for a provider without one. */
    method Keys(provider: string) returns (keys: seq<string>)
      ensures Sorted(keys) && Distinct(keys)
      ensures forall k :: k in keys <==> provider in flattenedSchema && k in flattenedSchema[provider]
    {
      keys := SortedKeys(FlatOf(flattenedSchema, provider));
    }

    /**
     * `Features`: files the location of every node the flattened schemas
     * point to under its fingerprint. As in the source, `extractFeatures`
     * sorts the types of each visited node in place; the fingerprints are
     * those of the nodes as they were, since sorting the types does not
     * change them.
     */
    method Features() returns (featuresMap: map<string, seq<string>>)
      requires Valid()
      modifies this
      ensures Valid()
      ensures clusterApps == old(clusterApps) && flattenedSchema == old(flattenedSchema)
      ensures schemas == SortedVisited(old(schemas), AllVisitedNodes(clusterApps, flattenedSchema))
      ensures Buckets(featuresMap, Filed(clusterApps, flattenedSchema, old(schemas)))
      ensures TotalSize(featuresMap) == VisitCount(clusterApps, flattenedSchema)
      ensures forall fp, loc :: Occurrences(featuresMap, fp, loc) == FiledCount(clusterApps, flattenedSchema, old(schemas), fp, loc)
    {
      ghost var orig := schemas;
      featuresMap := map[];
      SortedVisitedNone(orig);
      forall p ensures PointsInto(orig, p, FlatOf(flattenedSchema, p)) {
      }
      for i := 0 to |clusterApps|
        invariant clusterApps == old(clusterApps) && flattenedSchema == old(flattenedSchema)
        invariant forall p :: PointsInto(orig, p, FlatOf(flattenedSchema, p))
        invariant schemas == SortedVisited(orig, AllVisitedNodes(clusterApps[..i], flattenedSchema))
        invariant Buckets(featuresMap, Filed(clusterApps[..i], flattenedSchema, orig))
        invariant TotalSize(featuresMap) == VisitCount(clusterApps[..i], flattenedSchema)
        invariant forall fp, loc :: Occurrences(featuresMap, fp, loc) == FiledCount(clusterApps[..i], flattenedSchema, orig, fp, loc)
      {
        var provider := clusterApps[i].providerName;
        var m := FlatOf(flattenedSchema, provider);
        ghost var visited := AllVisitedNodes(clusterApps[..i], flattenedSchema);
        ghost var filed := Filed(clusterApps[..i], flattenedSchema, orig);
        ghost var count := VisitCount(clusterApps[..i], flattenedSchema);
        ghost var start := featuresMap;
        ProviderStart(orig, schemas, featuresMap, provider, m, visited, filed, count);
        schemas, featuresMap := FileProvider(orig, schemas, featuresMap, provider, m, visited, filed, count);
        ProviderDone(clusterApps, flattenedSchema, orig, i, schemas, featuresMap);
        TallyDone(clusterApps, flattenedSchema, orig, i, featuresMap, start);
      }
      assert clusterApps[..|clusterApps|] == clusterApps;
      SortedVisitedKeeps(orig, AllVisitedNodes(clusterApps, flattenedSchema));
    }
  }

  /** The list kept under `k`, empty where there is none (Go's read of a missing map key). */
  function Listed<K, V>(m: map<K, seq<V>>, k: K): seq<V>
  {
    if k in m then m[k] else []
  }

  /** `m` after appending `p` to the list of every key in `keys`. */
  ghost function WithProvider<K, V>(m: map<K, seq<V>>, p: V, keys: set<K>): map<K, seq<V>>
  {
    map k | k in m.Keys + keys :: Listed(m, k) + (if k in keys then [p] else [])
  }

  lemma WithProviderNone<K, V>(m: map<K, seq<V>>, p: V)
    ensures WithProvider(m, p, {}) == m
  {
    forall k | k in m ensures WithProvider(m, p, {})[k] == m[k] {
      assert Listed(m, k) + [] == m[k];
    }
  }

  lemma WithProviderStep<K, V>(m: map<K, seq<V>>, p: V, keys: set<K>, todo: set<K>, key: K, merged: map<K, seq<V>>)
    requires todo <= keys && key in todo
    requires merged == WithProvider(m, p, keys - todo)
    ensures key in merged ==> merged[key] == Listed(m, key)
    ensures key !in merged ==> Listed(m, key) + [p] == [p]
    ensures WithProvider(m, p, keys - (todo - {key})) == merged[key := Listed(m, key) + [p]]
  {
    DrainStep(keys, todo, key);
    if key in merged {
      assert Listed(m, key) + [] == Listed(m, key);
    } else {
      assert key !in m;
    }
  }

  lemma WithProviderMeaning<K, V>(m: map<K, seq<V>>, p: V, keys: set<K>)
    ensures WithProvider(m, p, keys).Keys == m.Keys + keys
    ensures forall k :: k in WithProvider(m, p, keys) ==>
      WithProvider(m, p, keys)[k] == Listed(m, k) + (if k in keys then [p] else [])
  {
  }

  /** The inner loop of `MergedSchemas`: appends `provider` to the list of every key in `keys`, starting a list where there is none. */
  method AppendProvider<K, V>(fullSchemas: map<K, seq<V>>, provider: V, keys: set<K>)
    returns (merged: map<K, seq<V>>)
    ensures merged == WithProvider(fullSchemas, provider, keys)
  {
    merged := fullSchemas;
    var todo := keys;
    WithProviderNone(fullSchemas, provider);
    DrainEnds(keys);
    while todo != {}
      invariant todo <= keys
      invariant merged == WithProvider(fullSchemas, provider, keys - todo)
      decreases |todo|
    {
      var key :| key in todo;
      WithProviderStep(fullSchemas, provider, keys, todo, key, merged);
      ghost var next := WithProvider(fullSchemas, provider, keys - (todo - {key}));
      if key in merged {
        merged := merged[key := merged[key] + [provider]];
      } else {
        merged := merged[key := [provider]];
      }
      assert merged == next;
      todo := todo - {key};
    }
  }

  /** The keys of `m` collected one by one in map order, then sorted as `sort.Strings` does. */
  method SortedKeys<V>(m: map<string, V>) returns (keys: seq<string>)
    ensures Sorted(keys) && Distinct(keys) && |keys| == |m|
    ensures forall k :: k in keys <==> k in m
  {
    var collected: seq<string> := [];
    var todo := m.Keys;
    while todo != {}
      invariant todo <= m.Keys
      invariant Distinct(collected)
      invariant forall k :: k in collected <==> k in m && k !in todo
      invariant |collected| + |todo| == |m|
      decreases |todo|
    {
      var key :| key in todo;
      forall i, j | 0 <= i < j < |collected + [key]| ensures (collected + [key])[i] != (collected + [key])[j] {
        assert (collected + [key])[i] == collected[i];
      }
      collected := collected + [key];
      todo := todo - {key};
    }
    keys := SortStrings(collected);
    DistinctPermutation(collected, keys);
    forall k ensures k in keys <==> k in m {
      SortKeepsMembers(collected, k);
    }
  }

  /** Every non-nil entry of `m` points to a node of the provider's schema in `orig`. */
  ghost predicate PointsInto(orig: map<string, SchemaDoc>, provider: string, m: FlatMap)
  {
    forall k :: k in m && m[k].Some? ==> provider in orig && m[k].value in orig[provider].nodes
  }

  /**
   * The state of `Features` after visiting the keys `done` of one provider's
   * flattened schema, on top of the nodes `visited`, the pairs `filed` and
   * the `count` locations of the providers before it; nodes are filed under
   * `labelOf`, which is `Fingerprint` in the analyser.
   */
  ghost predicate Progress(orig: map<string, SchemaDoc>, docs: map<string, SchemaDoc>, featuresMap: map<string, seq<string>>,
                           provider: string, m: FlatMap, done: set<string>,
                           visited: set<(string, NodeId)>, filed: set<(string, string)>, count: nat, labelOf: SchemaNode -> string)
  {
    && docs == SortedVisited(orig, visited + VisitedNodes(provider, m, done))
    && Buckets(featuresMap, filed + FiledFor(orig, provider, m, done, labelOf))
    && TotalSize(featuresMap) == count + |NodePaths(m, done)|
  }

  /** A nil entry is skipped: visiting its key changes nothing. */
  lemma SkipNil(orig: map<string, SchemaDoc>, docs: map<string, SchemaDoc>, featuresMap: map<string, seq<string>>,
                provider: string, m: FlatMap, done: set<string>, key: string,
                visited: set<(string, NodeId)>, filed: set<(string, string)>, count: nat, labelOf: SchemaNode -> string)
    requires key in m && key !in done && m[key].None?
    requires Progress(orig, docs, featuresMap, provider, m, done, visited, filed, count, labelOf)
    ensures Progress(orig, docs, featuresMap, provider, m, done + {key}, visited, filed, count, labelOf)
  {
    VisitKey(provider, m, done, key);
    FileKey(orig, provider, m, done, key, labelOf);
  }

  /**
   * Visiting a key that holds a node: with `fp` the label of the original
   * node, sorting the node's types in place and filing its location under
   * `fp` gives the state with the key visited.
   */
  lemma ProgressStep(orig: map<string, SchemaDoc>, docs: map<string, SchemaDoc>, featuresMap: map<string, seq<string>>,
                     provider: string, m: FlatMap, done: set<string>, key: string,
                     visited: set<(string, NodeId)>, filed: set<(string, string)>, count: nat, labelOf: SchemaNode -> string,
                     fp: string)
    requires key in m && key !in done && m[key].Some? && PointsInto(orig, provider, m)
    requires Progress(orig, docs, featuresMap, provider, m, done, visited, filed, count, labelOf)
    requires fp == labelOf(orig[provider].nodes[m[key].value])
    ensures provider in docs && m[key].value in docs[provider].nodes
    ensures docs[provider].nodes[m[key].value].location == orig[provider].nodes[m[key].value].location
    ensures var id := m[key].value;
      var node := docs[provider].nodes[id];
      Progress(orig, docs[provider := docs[provider].(nodes := docs[provider].nodes[id := TypesSortedInPlace(node)])],
               featuresMap[fp := if fp in featuresMap then featuresMap[fp] + [node.location] else [node.location]],
               provider, m, done + {key}, visited, filed, count, labelOf)
  {
    var id := m[key].value;
    StepNodes(orig, docs, provider, m, done, key, visited);
    var node := docs[provider].nodes[id];
    StepBuckets(orig, featuresMap, provider, m, done, key, filed, labelOf, fp, node.location);
    StepCount(featuresMap, m, done, key, count, fp, node.location);
  }

  lemma StepNodes(orig: map<string, SchemaDoc>, docs: map<string, SchemaDoc>,
                  provider: string, m: FlatMap, done: set<string>, key: string, visited: set<(string, NodeId)>)
    requires key in m && key !in done && m[key].Some? && PointsInto(orig, provider, m)
    requires docs == SortedVisited(orig, visited + VisitedNodes(provider, m, done))
    ensures provider in docs && m[key].value in docs[provider].nodes
    ensures docs[provider].nodes[m[key].value].location == orig[provider].nodes[m[key].value].location
    ensures var id := m[key].value;
      docs[provider := docs[provider].(nodes := docs[provider].nodes[id := TypesSortedInPlace(docs[provider].nodes[id])])]
        == SortedVisited(orig, visited + VisitedNodes(provider, m, done + {key}))
  {
    var id := m[key].value;
    var seen := visited + VisitedNodes(provider, m, done);
    VisitKey(provider, m, done, key);
    SortedVisitedStep(orig, seen, provider, id);
    assert seen + {(provider, id)} == visited + VisitedNodes(provider, m, done + {key});
  }

  lemma StepBuckets(orig: map<string, SchemaDoc>, featuresMap: map<string, seq<string>>,
                    provider: string, m: FlatMap, done: set<string>, key: string,
                    filed: set<(string, string)>, labelOf: SchemaNode -> string, fp: string, location: string)
    requires key in m && key !in done && m[key].Some? && PointsInto(orig, provider, m)
    requires Buckets(featuresMap, filed + FiledFor(orig, provider, m, done, labelOf))
    requires fp == labelOf(orig[provider].nodes[m[key].value])
    requires location == orig[provider].nodes[m[key].value].location
    ensures Buckets(featuresMap[fp := if fp in featuresMap then featuresMap[fp] + [location] else [location]],
                    filed + FiledFor(orig, provider, m, done + {key}, labelOf))
  {
    FileKey(orig, provider, m, done, key, labelOf);
    BucketsFile(featuresMap, filed + FiledFor(orig, provider, m, done, labelOf), fp, location);
    assert filed + FiledFor(orig, provider, m, done, labelOf) + {(fp, location)}
        == filed + FiledFor(orig, provider, m, done + {key}, labelOf);
  }

  lemma StepCount(featuresMap: map<string, seq<string>>, m: FlatMap, done: set<string>, key: string,
                  count: nat, fp: string, location: string)
    requires key in m && key !in done && m[key].Some?
    requires TotalSize(featuresMap) == count + |NodePaths(m, done)|
    ensures TotalSize(featuresMap[fp := if fp in featuresMap then featuresMap[fp] + [location] else [location]])
      == count + |NodePaths(m, done + {key})|
  {
    VisitKey("", m, done, key);
    TotalSizeFile(featuresMap, fp, location);
  }

  /** `extractFeatures` and the join of `Features` on one node: its fingerprint, and the node as it is afterwards. */
  method FingerprintOf(node: SchemaNode) returns (fp: string, node': SchemaNode)
    ensures fp == Fingerprint(node)
    ensures node' == TypesSortedInPlace(node)
  {
    var features;
    features, node' := ExtractFeatures(node);
    fp := Join(features, " ");
  }

  /** The body of the inner loop of `Features` for a key holding a node: fingerprint it, sort its types in place, file its location. */
  method FileEntry(ghost orig: map<string, SchemaDoc>, docs: map<string, SchemaDoc>, featuresMap: map<string, seq<string>>,
                   provider: string, m: FlatMap, ghost done: set<string>, key: string,
                   ghost visited: set<(string, NodeId)>, ghost filed: set<(string, string)>, ghost count: nat,
                   ghost start: map<string, seq<string>>)
    returns (docs': map<string, SchemaDoc>, featuresMap': map<string, seq<string>>)
    requires key in m && key !in done && m[key].Some? && PointsInto(orig, provider, m)
    requires Progress(orig, docs, featuresMap, provider, m, done, visited, filed, count, Fingerprint)
    requires Tally(featuresMap, start, orig, provider, m, done, Fingerprint)
    ensures Progress(orig, docs', featuresMap', provider, m, done + {key}, visited, filed, count, Fingerprint)
    ensures Tally(featuresMap', start, orig, provider, m, done + {key}, Fingerprint)
  {
    var id := m[key].value;
    ghost var seen := visited + VisitedNodes(provider, m, done);
    VisitedFingerprint(orig, seen, provider, id);
    var node := docs[provider].nodes[id];
    var featuresString, sorted := FingerprintOf(node);
    ProgressStep(orig, docs, featuresMap, provider, m, done, key, visited, filed, count, Fingerprint, featuresString);
    TallyStep(featuresMap, start, orig, provider, m, done, key, Fingerprint, featuresString, node.location);
    docs' := docs[provider := docs[provider].(nodes := docs[provider].nodes[id := sorted])];
    if featuresString in featuresMap {
      featuresMap' := featuresMap[featuresString := featuresMap[featuresString] + [node.location]];
    } else {
      featuresMap' := featuresMap[featuresString := [node.location]];
    }
  }

  /** Before a provider's first key, the state of the providers before it is the state of `Features`. */
  lemma ProviderStart(orig: map<string, SchemaDoc>, docs: map<string, SchemaDoc>, featuresMap: map<string, seq<string>>,
                      provider: string, m: FlatMap, visited: set<(string, NodeId)>, filed: set<(string, string)>, count: nat)
    requires docs == SortedVisited(orig, visited)
    requires Buckets(featuresMap, filed) && TotalSize(featuresMap) == count
    ensures Progress(orig, docs, featuresMap, provider, m, {}, visited, filed, count, Fingerprint)
  {
    assert visited + VisitedNodes(provider, m, {}) == visited;
    assert filed + FiledFor(orig, provider, m, {}, Fingerprint) == filed;
    assert NodePaths(m, {}) == {};
  }

  /** After a provider's last key, the state of `Features` covers one more cluster app. */
  lemma ProviderDone(apps: seq<ClusterApp>, fs: map<string, FlatMap>, orig: map<string, SchemaDoc>, i: nat,
                     docs: map<string, SchemaDoc>, featuresMap: map<string, seq<string>>)
    requires i < |apps|
    requires var provider := apps[i].providerName;
      var m := FlatOf(fs, provider);
      Progress(orig, docs, featuresMap, provider, m, m.Keys,
               AllVisitedNodes(apps[..i], fs), Filed(apps[..i], fs, orig), VisitCount(apps[..i], fs), Fingerprint)
    ensures docs == SortedVisited(orig, AllVisitedNodes(apps[..i + 1], fs))
    ensures Buckets(featuresMap, Filed(apps[..i + 1], fs, orig))
    ensures TotalSize(featuresMap) == VisitCount(apps[..i + 1], fs)
  {
    assert apps[..i + 1][..i] == apps[..i];
    assert apps[..i + 1][i] == apps[i];
  }

  /**
   * The inner loop of `Features` for one provider: every non-nil entry of
   * the provider's flattened schema is fingerprinted, has its types sorted
   * in place, and its location is filed under the fingerprint.
   */
  method FileProvider(ghost orig: map<string, SchemaDoc>, docs: map<string, SchemaDoc>,
                      featuresMap: map<string, seq<string>>, provider: string, m: FlatMap,
                      ghost visited: set<(string, NodeId)>, ghost filed: set<(string, string)>, ghost count: nat)
    returns (docs': map<string, SchemaDoc>, featuresMap': map<string, seq<string>>)
    requires PointsInto(orig, provider, m)
    requires Progress(orig, docs, featuresMap, provider, m, {}, visited, filed, count, Fingerprint)
    ensures Progress(orig, docs', featuresMap', provider, m, m.Keys, visited, filed, count, Fingerprint)
    ensures Tally(featuresMap', featuresMap, orig, provider, m, m.Keys, Fingerprint)
  {
    docs', featuresMap' := docs, featuresMap;
    forall fp, loc ensures FilingPaths(orig, provider, m, {}, Fingerprint, fp, loc) == {} {
    }
    var todo := m.Keys;
    DrainEnds(m.Keys);
    while todo != {}
      invariant todo <= m.Keys
      invariant Progress(orig, docs', featuresMap', provider, m, m.Keys - todo, visited, filed, count, Fingerprint)
      invariant Tally(featuresMap', featuresMap, orig, provider, m, m.Keys - todo, Fingerprint)
      decreases |todo|
    {
      var key :| key in todo;
      ghost var done := m.Keys - todo;
      if m[key].Some? {
        docs', featuresMap' := FileEntry(orig, docs', featuresMap', provider, m, done, key, visited, filed, count, featuresMap);
      } else {
        SkipNil(orig, docs', featuresMap', provider, m, done, key, visited, filed, count, Fingerprint);
        TallySkip(featuresMap', featuresMap, orig, provider, m, done, key, Fingerprint);
      }
      DrainStep(m.Keys, todo, key);
      todo := todo - {key};
    }
  }

  /**
   * `New`: compiles every cluster app's schema in order, stopping at the
   * first failure, and flattens each one.
   */
  method New(apps: seq<ClusterApp>, compile: string -> Result<SchemaDoc>) returns (r: Result<Analyser>)
    requires forall u :: compile(u).Success? ==> WellFormed(compile(u).value)
    ensures r.Success? <==> CompiledSchemas(apps, compile).Success?
    ensures r.Failure? ==> r.error == CompiledSchemas(apps, compile).error
    ensures r.Success? ==>
      && fresh(r.value) && r.value.Valid() && r.value.FlattenedFromRoots()
      && r.value.clusterApps == apps
      && r.value.schemas == CompiledSchemas(apps, compile).value
  {
    var a := new Analyser.Empty(apps);
    for i := 0 to |apps|
      invariant fresh(a) && a.clusterApps == apps && a.Valid() && a.FlattenedFromRoots()
      invariant CompiledSchemas(apps[..i], compile) == Success(a.schemas)
    {
      CompiledStep(apps, compile, i);
      var compiled := compile(apps[i].schemaURL);
      if compiled.Failure? {
        CompiledFailureStays(apps, compile, i + 1);
        return Failure(compiled.error);
      }
      var flat := FlattenedSchema(compiled.value);
      a.Admit(apps[i].providerName, compiled.value, flat);
    }
    assert apps[..|apps|] == apps;
    r := Success(a);
  }
}
