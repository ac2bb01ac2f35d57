# Schema analysis engine

A Dafny model of the schema analysis engine in `pkg/analysis`. Each Cluster API provider has a cluster app whose values schema is written in JSON Schema. The engine does four things:

- compiles every provider's schema;
- flattens each schema into a map from hierarchical path (`/a/b[*]/c`) to schema node;
- merges the flattened paths of all providers into one path → provider-list index, and lists the paths sorted;
- fingerprints every flattened node by the constraint keywords it uses, and groups node locations by fingerprint.

Modules:

- `JsonSchema` (`schema.dfy`) is the part of a compiled JSON Schema (draft 2020-12) that the engine reads. The compiled schema can reach itself through `$ref`, so it is kept as an arena of nodes addressed by `NodeId`.
- `Strings` (`strings.dfy`) holds `sort.Strings` and `strings.Join`. It proves that sorting yields a sorted permutation, and that this sorted permutation is unique.
- `Sets` (`sets.dfy`) has two small facts about draining a set key by key.
- `Flatten` (`flatten.dfy`) is the flattener (`flattened`, `flattenedSchema`). The order in which Go visits a map is unspecified, so the flattener's result is specified against the set of writes a call performs (`Entries`). The result is the input map overlaid with those writes (`Overlays`).
- `Features` (`features.dfy`) is `extractFeatures`.
- `FeatureProperties` (`feature_properties.dfy`) proves which tokens `extractFeatures` emits, and when.
- `Analysis` (`analyser.dfy`) is the `Analyser` with `New`, `Providers`, `MergedSchemas`, `HierarchicalKeys`, `Keys` and `Features`, together with the specification functions those methods are proved against.

## Model

| member | source | states |
|---|---|---|
| Flatten.FlattenedSchema | pkg/analysis/analysis.go:120-123 | flattening a document starts at the root with the empty path and level 0. The result is the empty map overlaid with that call's writes (`Entries` from the root). Each nested call's precondition `0 <= level <= 10` is checked at the call, so no call runs deeper than level 10. |
| Flatten.Flattened | pkg/analysis/analysis.go:127-210 | the result is the input map overlaid with exactly the writes of `Entries`. Dispatch tests type membership, `object` before `array`. A property's subtree is entered only while `level < 10`. An array without items writes nil at its own path. The walk requires `0 <= level <= 10`, and every recursive call meets that bound. |
| Flatten.FlattenItems | pkg/analysis/analysis.go:149-171 | an item schema contributes its properties (without `[*]`) only when its types are exactly `["object"]`. Scalar, other, zero or multiple item types add nothing. |
| Flatten.FlattenProperties | pkg/analysis/analysis.go:132-142 | the loop over a node's properties, visited in any order, overlays the union of every property's writes. |
| Flatten.FlattenProperty | pkg/analysis/analysis.go:133-141 | each property is stored at its path, and the walk recurses only while `level < 10`. At the cap only that one entry is written. Below the cap, an array child without items overwrites the entry just stored: the result is the input map with nil at that path. |
| Flatten.ItemlessArrayEntries | pkg/analysis/analysis.go:203-205 | an array with neither `Items2020` nor `Items` writes exactly one entry: nil at its own path. |
| Flatten.ObjectPropertiesStored | pkg/analysis/analysis.go:128-137 | under an object that has properties or `additionalProperties`, every property is written at `parentKey + "/" + name`. `[*]` is appended exactly when the property's types contain `array`. The value that stays there is the property's node, or nil for an array without items below level 10. |
| Flatten.PropertyStored | pkg/analysis/analysis.go:132-141 | among the writes of a node's property loop, each property's own path holds its node, or nil when it is an array without items below level 10. |
| Flatten.UndocumentedObjectUnchanged | pkg/analysis/analysis.go:128-130 | an object with no properties and no `additionalProperties` leaves the map equal to its input. |
| Flatten.ArrayItemPropertiesStored | pkg/analysis/analysis.go:148-186 | under an array whose item schema has the single type `object`, each item property is written at `parentKey + "/" + name`. There is no `items` segment and no `[*]`. As for objects, the value that stays is the node, or nil for an array without items below level 10. The item schema is taken from `Items2020` when present and from the legacy `Items` otherwise. |
| Flatten.ArrayWithoutObjectItemsUnchanged | pkg/analysis/analysis.go:160-201 | these leave the map equal to its input: scalar item types, any other single item type, zero or several item types, and positional items. |
| Flatten.EntriesUnderParent | pkg/analysis/analysis.go:133-204 | every write lies at the call's own path (the nil of an itemless array) or strictly below it, and names an existing node. |
| Flatten.EntriesIgnoreShadowedItems | pkg/analysis/analysis.go:148-172 | `Items2020` takes precedence: changing the legacy `Items` of nodes that have `Items2020` changes no write. |
| Features.TypeFeatures | pkg/analysis/features.go:42-53 | the type tokens, and the node as it is afterwards: its types sorted when there are several, unchanged otherwise. |
| Features.AppendShape | pkg/analysis/features.go:56-92 | a shape-refined keyword appends its name and a sub-token chosen by the shape of `additionalProperties`, or appends nothing when absent. |
| Features.AppendShapeFeatures | pkg/analysis/features.go:55-92 | the tokens for `additionalProperties`, `patternProperties` and `additionalItems`, in source order. All three are refined by the shape of `additionalProperties`. |
| Features.AppendKeywordFeatures | pkg/analysis/features.go:94-228 | one token per present keyword, appended in source order. |
| Features.ExtractFeatures | pkg/analysis/features.go:38-232 | the result is the sort of every appended token. The returned node is `s` as it is afterwards: its types sorted in place when there are several. |
| FeatureProperties.ExtractFeaturesSortedDistinct | pkg/analysis/features.go:40-231 | the token list is sorted lexicographically and its tokens are pairwise distinct. Nothing is lost by the sort. |
| FeatureProperties.TokensNoRepeats | pkg/analysis/features.go:42-228 | no token is appended twice before the sort. |
| FeatureProperties.TypeCountTokens | pkg/analysis/features.go:43-53 | `multiple_types`, `single_type` and `no_type` are emitted exactly when `len(Types)` is >1, 1 and 0, so exactly one of them is emitted. |
| FeatureProperties.TypeListToken | pkg/analysis/features.go:45-50 | with several types the token is `type=` followed by the sorted types joined by commas. With one type it is `type=` followed by that type. |
| FeatureProperties.AdditionalPropertiesTokens | pkg/analysis/features.go:56-66 | `additionalProperties` is emitted iff it is set. Its `_boolean` or `_object` sub-token is emitted iff it has that shape. Any other shape yields `additional_properties_unknown=` and the rendered value. |
| FeatureProperties.PatternPropertiesTokens | pkg/analysis/features.go:69-79 | `patternProperties` is emitted iff it is set. Its sub-token is chosen by the shape of `additionalProperties`, not by its own value. |
| FeatureProperties.AdditionalItemsTokens | pkg/analysis/features.go:82-92 | `additionalItems` is emitted iff it is set. Its sub-token is chosen by the shape of `additionalProperties`. |
| FeatureProperties.AllOfToExamplesTokens | pkg/analysis/features.go:94-128 | each token from `allOf` to `examples` is emitted iff its keyword is present (non-empty for the lists). |
| FeatureProperties.ElseToMaxPropertiesTokens | pkg/analysis/features.go:130-164 | each token from `else` to `maxProperties` is emitted iff its keyword is present, a non-empty format, or a count other than -1. |
| FeatureProperties.MaximumToNotTokens | pkg/analysis/features.go:166-196 | each token from `maximum` to `not` is emitted iff its keyword is present or its count differs from its sentinel. |
| FeatureProperties.OneOfToWriteOnlyTokens | pkg/analysis/features.go:198-228 | each token from `oneOf` to `writeOnly` is emitted iff its keyword is present, its list is non-empty, or its flag is true. |
| FeatureProperties.CountSentinelTokens | pkg/analysis/features.go:150-184 | `maxContains`, `maxItems`, `maxLength`, `maxProperties`, `minItems`, `minLength` and `minProperties` are emitted iff the value is not -1. `minContains` is emitted iff it is not 1. |
| FeatureProperties.BooleanAndListTokens | pkg/analysis/features.go:94-227 | the boolean keywords are emitted iff true: `deprecated`, `readOnly`, `uniqueItems`, `writeOnly`. The list keywords are emitted iff non-empty: `allOf`, `anyOf`, `oneOf`, `required_properties`. |
| FeatureProperties.TokensMembers | pkg/analysis/features.go:42-230 | a string is a token iff it is a type or shape token or the token of a present keyword. There are no other tokens. |
| FeatureProperties.LeadingTokenKept | pkg/analysis/features.go:42-230 | every type and shape token survives into the sorted list. |
| FeatureProperties.FingerprintIgnoresTypeOrder | pkg/analysis/features.go:43-47 | tokens and fingerprint depend only on the multiset of types, not their order. |
| FeatureProperties.FingerprintSurvivesTypeSort | pkg/analysis/features.go:45-46 | sorting a node's types in place does not change its fingerprint. |
| FeatureProperties.TypeSortSettles | pkg/analysis/features.go:45-46 | a second `extractFeatures` on the same node sorts nothing more. |
| Strings.SortStrings | pkg/analysis/analysis.go:85 | `sort.Strings` yields a sorted permutation of its input. |
| Strings.SortedUnique | pkg/analysis/analysis.go:85 | two sorted permutations of the same strings are equal, so any sort gives the same result. |
| Strings.SortIgnoresOrder | pkg/analysis/features.go:230 | sorting depends only on the multiset of its input. |
| Strings.SortIdempotent | pkg/analysis/features.go:46 | sorting a sorted list changes nothing. |
| Analysis.CompiledFirstFailure | pkg/analysis/analysis.go:57-61 | construction succeeds iff every cluster app's schema compiles. Otherwise it fails with the error of the first app that does not compile. |
| Analysis.CompiledStep | pkg/analysis/analysis.go:57-65 | compiling one more cluster app either stores its schema under its provider name or fails with its compile error. |
| Analysis.CompiledFailureStays | pkg/analysis/analysis.go:59-61 | once a prefix of the cluster apps fails, the whole construction fails with that error. |
| Analysis.CompiledProviders | pkg/analysis/analysis.go:57-65 | on success, exactly the providers named by the cluster apps have a schema. |
| Analysis.CompiledLastWins | pkg/analysis/analysis.go:63-65 | a provider's schema is the one compiled for its last cluster app: a later app of the same name overwrites an earlier one. |
| Analysis.FlattenedPointsInto | pkg/analysis/analysis.go:120-123 | every non-nil flattened entry is a node of the provider's schema. |
| Analysis.Analyser.Admit | pkg/analysis/analysis.go:63-65 | stores a provider's compiled schema and its flattened form under its name, and changes nothing else. The analyser stays valid. Every flattened schema is still its schema's writes from the root. |
| Analysis.New | pkg/analysis/analysis.go:50-69 | `New` fails iff some schema fails to compile, with the first such error. Otherwise: the analyser keeps the cluster apps and the compiled schemas; it has one flattened schema per provider, each the overlay of that schema's writes from the root; and it is valid. |
| Analysis.Analyser.Providers | pkg/analysis/analysis.go:72-78 | the provider names in the order of the cluster apps, one per app. |
| Analysis.AppendProvider | pkg/analysis/analysis.go:96-103 | for every key in a provider's flattened schema, the provider is appended to that key's list, and a list is started where there is none. No other key changes. |
| Analysis.MergeStep | pkg/analysis/analysis.go:94-104 | one pass of the outer loop extends the index from the first `i` cluster apps to the first `i + 1`. |
| Analysis.Analyser.MergedSchemas | pkg/analysis/analysis.go:91-107 | the key set is the merged key set. Each key's list is the providers holding it, in the order of the cluster apps. |
| Analysis.MergedKeysUnion | pkg/analysis/analysis.go:94-103 | the merged key set is the union of every cluster app's flattened key set. |
| Analysis.HoldersMembers | pkg/analysis/analysis.go:94-103 | a provider is listed for a key iff a cluster app of that name has the key in its flattened schema. |
| Analysis.HoldersNonEmpty | pkg/analysis/analysis.go:97-102 | a key's list is non-empty iff it is a merged key. |
| Analysis.HoldersAppend | pkg/analysis/analysis.go:94 | the lists follow the order of the cluster apps: the list for a concatenation of apps is the concatenation of the lists. |
| Analysis.HoldersDistinct | pkg/analysis/analysis.go:94-103 | with distinct provider names, no provider is listed twice for a key. |
| Analysis.SortedKeys | pkg/analysis/analysis.go:110-117 | a map's keys collected in map order and then sorted: sorted, without duplicates, one per key, and exactly the map's keys. |
| Analysis.Analyser.HierarchicalKeys | pkg/analysis/analysis.go:81-87 | the merged key set, sorted, each key once. |
| Analysis.Analyser.Keys | pkg/analysis/analysis.go:110-117 | one provider's flattened paths, sorted, each once. A provider with no flattened schema has none. |
| Analysis.FingerprintOf | pkg/analysis/features.go:22-23 | the joined token list of a node is its fingerprint, and the node afterwards has its types sorted in place when there are several. |
| Analysis.BucketsFile | pkg/analysis/features.go:25-30 | filing a location in a new or existing bucket adds exactly that (fingerprint, location) pair, and no bucket is empty. |
| Analysis.TotalSizeFile | pkg/analysis/features.go:25-30 | appending one location to a bucket, new or existing, adds one to the total number of filed locations. |
| Analysis.VisitKey | pkg/analysis/features.go:20-21 | visiting one more key adds its node, if non-nil, to the visited nodes and to the non-nil paths. |
| Analysis.FileKey | pkg/analysis/features.go:20-30 | visiting one more key files the node's fingerprint and location when the entry is non-nil, and nothing otherwise. |
| Analysis.VisitedFingerprint | pkg/analysis/features.go:22-23 | a node whose types earlier visits sorted still has the fingerprint of the node as it was. |
| Analysis.SortedVisitedKeeps | pkg/analysis/features.go:45-46 | sorting the types of visited nodes keeps every schema's providers, roots, node ids and well-formedness. |
| Analysis.FileEntry | pkg/analysis/features.go:21-30 | the inner loop body for a non-nil entry: it fingerprints the node, sorts its types in place, and files its location. The loop's progress predicate, and each pair's count, are kept with one more key done. |
| Analysis.FileProvider | pkg/analysis/features.go:20-32 | the inner loop over one provider's keys, visited in any order, files every non-nil entry once and skips the nil ones. |
| Analysis.ProviderDone | pkg/analysis/features.go:19-33 | after a provider's last key, the aggregator's state covers one more cluster app. |
| Analysis.OccurrencesFile | pkg/analysis/features.go:25-30 | appending a location to a bucket, new or existing, lists that (fingerprint, location) pair once more and changes no other pair's count. |
| Analysis.FilingPathsStep | pkg/analysis/features.go:20-30 | visiting a fresh key that holds a node adds one filing to the pair of that node's fingerprint and location, and none to any other pair. |
| Analysis.FiledCountPositive | pkg/analysis/features.go:19-32 | a pair is filed at least once exactly when it is among the filed pairs. |
| Analysis.TallyDone | pkg/analysis/features.go:19-33 | after a provider's last key, each pair's count covers one more cluster app. |
| Analysis.Analyser.Features | pkg/analysis/features.go:16-36 | the buckets hold exactly the (fingerprint, location) pairs of the non-nil flattened entries, and no bucket is empty. Each pair is listed as many times as there are (cluster app, path) entries that file it, so a provider named by two cluster apps, or a node reached by two paths, is filed twice. The total number of locations is the number of non-nil entries. The visited nodes end with their types sorted in place. |

## Left out

- `jsonschema.Compile` fetches a schema over the network through the `httploader` and parses it with a foreign library. It is the function parameter `compile` of `New`, whose result is either a well-formed schema graph or an error string.
- `microerror.Mask` is modelled as passing the compile error through unchanged.
- The `log.Printf` diagnostics of `flattened` are left out. They are the only effect of the undocumented-object, unhandled-item-type, multiple-item-type and positional-items branches, which therefore leave the map unchanged. The `providerName` argument of `flattened` is used only in those lines and is not modelled.
- The exact Go `%s` rendering of an `additionalProperties` value of unknown shape is an opaque string carried by `OtherAdditionalProperties`. An absent value renders as `%!s(<nil>)`.
- Go's map iteration order is unspecified. The loops pick the next key with `:|`, and their contracts are order-independent, except for the fixed orders: `ClusterApps` and the explicit sorts.
- Flatten.Flattened: when two different properties' writes reach the same path (a property `a` of array type and a sibling literally named `a[*]`, for instance), which one lands last depends on map order, so the contract admits either. A property's own nil overwrite of an itemless array is not order-dependent and is kept.
- Analysis.Analyser.Features: the order of the locations inside one bucket follows map iteration order and is not stated. The contract fixes which locations a bucket holds and how many times each.
- Pointers into the compiled schema are node ids in an arena. The aliasing by which `extractFeatures` sorts the `Types` slice of the shared node is modelled as an explicit write-back of the sorted types into the analyser's `schemas`.
- `sort.Strings` is modelled as an insertion sort. `Strings.SortedUnique` shows every correct sort gives the same result, so the algorithm does not matter.
- `PropertyDetails` is declared but not used by any modelled operation.
- `main.go` (command-line wiring, browser launch, JSON output) and `pkg/server/server.go` (HTTP serving of embedded files) are I/O only and are not part of this model.
- Only the schema fields the engine reads are modelled. The keywords that are only tested for presence are flags. The counting keywords keep their integer value, with the sentinels -1, and 1 for `minContains`.
