# Field-mapping flattener of the detector end-to-end tests

The detector test suite of the security-analytics dashboards plugin reads the
backend's field-mapping view, a nested schema object, and flattens it into
`{ruleFieldName, logFieldName}` records with `getMappingFields`. The caller then
projects the records into `[ruleFieldName, logFieldName]` rows for the table
check. This project models that function and that projection, and proves what
they produce.

- `wrappers.dfy` — `Option`, standing for a JavaScript value that may be `undefined`.
- `mapping_schema.dfy` (module `MappingSchema`) — the schema as values. A node is
  `Group(children)` when its `properties` is truthy, or `Terminal(path)` otherwise.
  An object is the sequence of its `(key, value)` pairs in enumeration order.
  It also holds the specification `Flatten`, and two views of the schema that are
  independent of it: the key paths of its terminals (`Leaves`) and lookup by key
  path (`NodeAt`, the chain `properties[k1].properties[k2]…`). The lemmas
  about order, count, names and values are in this module too.
- `field_mappings.dfy` (module `FieldMappings`) — the imperative code. `ItemList`
  is the shared `items` array, which is changed in place by `push`.
  `GetMappingFields` is the `for…in` loop with its recursive call on the same
  array; it is proved to append exactly `Flatten(properties, prefix)`.
  `ToPairs` is the `map` projection, and `MappingTable` is the call site.

Behaviour as implemented:
- The empty object `{}` is truthy, so a node whose `properties` is `{}` is a group with
  no children and contributes nothing (`EmptyGroupAddsNothing`).
- A node object with no `properties` and no `path` is still a terminal. Its record
  gets an `undefined` log field (`Terminal(None)`) and no error is raised
  (`MissingPathExample`). One might expect a validation error here; the code
  raises none, and the model follows the code.
- The prefix test is JavaScript truthiness, so an empty prefix adds no dot. If a root
  key is the empty string, it therefore vanishes from the names below it: path
  `["", "a"]` gives `"a"`, where the dot-join would be `".a"` (`EmptyRootKeyIsDropped`).
  This is why `RuleNamesAreDotJoins` assumes that root keys are non-empty.
  `EntriesFollowLeaves` gives the exact name for every schema.

## Model

| member | source | states |
|---|---|---|
| `FieldMappings.ItemList.constructor` | cypress/integration/plugins/security-analytics-dashboards-plugin/1_detectors.spec.js:20 | the default accumulator `[]` starts empty |
| `FieldMappings.ItemList.Push` | cypress/integration/plugins/security-analytics-dashboards-plugin/1_detectors.spec.js:25-28 | `push` appends exactly one record at the end and keeps the rest |
| `FieldMappings.GetMappingFields` | cypress/integration/plugins/security-analytics-dashboards-plugin/1_detectors.spec.js:20-34 | returns the same array it was given. That array ends up as its old contents followed by `Flatten(properties, prefix)`, so earlier entries stay unchanged and in order as a prefix, exactly one entry is appended per terminal node, and nothing changes for an empty schema |
| `FieldMappings.ToPairs` | cypress/integration/plugins/security-analytics-dashboards-plugin/1_detectors.spec.js:87 | the projection keeps length and order; row `i` is `[ruleFieldName, logFieldName]` of record `i` |
| `FieldMappings.PairsRoundTrip` | cypress/integration/plugins/security-analytics-dashboards-plugin/1_detectors.spec.js:87 | the projection loses nothing. `FromPairs`, which reads rows back into records, is its inverse; it has no counterpart in the code and exists only to state this. Records to rows to records, and rows to records to rows, are both the identity |
| `FieldMappings.SiblingOrderExample` | cypress/integration/plugins/security-analytics-dashboards-plugin/1_detectors.spec.js:20-34 | `{a: {path: "x"}, b: {properties: {c: {path: "y"}}}}` gives the rows `[["a","x"], ["b.c","y"]]` in that order |
| `FieldMappings.MissingPathExample` | cypress/integration/plugins/security-analytics-dashboards-plugin/1_detectors.spec.js:24-28 | a node object with no `properties` and no `path` gives a record whose log field is `undefined`; nothing is raised |
| `FieldMappings.MappingTable` | cypress/integration/plugins/security-analytics-dashboards-plugin/1_detectors.spec.js:86-87 | flattening from the root with `[]` and `''` and then projecting gives `ToPairs(Flatten(properties, ""))`: one row per terminal node, and no rows for an empty schema |
| `MappingSchema.FlattenAppend` | cypress/integration/plugins/security-analytics-dashboards-plugin/1_detectors.spec.js:21 | keys are handled in enumeration order: the entries of `a + b` are those of `a` followed by those of `b` |
| `MappingSchema.FlattenSplit` | cypress/integration/plugins/security-analytics-dashboards-plugin/1_detectors.spec.js:21-31 | depth-first pre-order: the entries of key `i` (the whole subtree of a group) come right after those of its earlier siblings and before those of its later siblings |
| `MappingSchema.EmptyGroupAddsNothing` | cypress/integration/plugins/security-analytics-dashboards-plugin/1_detectors.spec.js:23-30 | a key whose `properties` is `{}` contributes no entry: removing it changes nothing |
| `MappingSchema.FlattenLength` | cypress/integration/plugins/security-analytics-dashboards-plugin/1_detectors.spec.js:23-31 | the number of entries equals the number of terminal nodes; groups add no entry of their own |
| `MappingSchema.FieldEntriesLength` | cypress/integration/plugins/security-analytics-dashboards-plugin/1_detectors.spec.js:24-31 | one key contributes one entry if it is a terminal, and as many entries as its subtree has terminals if it is a group |
| `MappingSchema.FlattenIsNamedLeaves` | cypress/integration/plugins/security-analytics-dashboards-plugin/1_detectors.spec.js:20-34 | the entries are exactly the schema's terminal key paths in pre-order. Each is named by the traversal's prefix rule applied along its path and carries that terminal's `path` |
| `MappingSchema.FieldEntriesAreNamedLeaves` | cypress/integration/plugins/security-analytics-dashboards-plugin/1_detectors.spec.js:22-30 | the same, for the subtree under one key |
| `MappingSchema.EntriesFollowLeaves` | cypress/integration/plugins/security-analytics-dashboards-plugin/1_detectors.spec.js:22-30 | entry `i` is named `JoinFrom(prefix, keys of leaf i)`, and its log field is leaf `i`'s `path`, copied without change |
| `MappingSchema.JoinFromNonEmpty` | cypress/integration/plugins/security-analytics-dashboards-plugin/1_detectors.spec.js:22-30 | below a non-empty prefix, the name is `prefix + "." +` the dot-join of the keys |
| `MappingSchema.JoinFromRoot` | cypress/integration/plugins/security-analytics-dashboards-plugin/1_detectors.spec.js:22-30 | from prefix `''`, a key path whose first key is non-empty is named by the dot-join of its keys |
| `MappingSchema.RuleNamesAreDotJoins` | cypress/integration/plugins/security-analytics-dashboards-plugin/1_detectors.spec.js:22-30 | from prefix `''` with non-empty root keys, every `ruleFieldName` is the dot-join of its key path from the root |
| `MappingSchema.EmptyRootKeyIsDropped` | cypress/integration/plugins/security-analytics-dashboards-plugin/1_detectors.spec.js:22 | an empty root key is swallowed by the falsy prefix: key path `["", "a"]` gives `"a"`, not `".a"` |
| `MappingSchema.TerminalsAreLeaves` | cypress/integration/plugins/security-analytics-dashboards-plugin/1_detectors.spec.js:23-31 | every terminal reachable by a key path is among the leaves the traversal visits |
| `MappingSchema.LeavesAreTerminals` | cypress/integration/plugins/security-analytics-dashboards-plugin/1_detectors.spec.js:23-31 | in an object (keys unique at each level), every visited leaf's key path leads to a terminal with that leaf's `path` |
| `MappingSchema.TerminalsHaveEntries` | cypress/integration/plugins/security-analytics-dashboards-plugin/1_detectors.spec.js:22-31 | every terminal node yields an entry named from its key path whose log field is its `path` |
| `MappingSchema.EntriesAreTerminals` | cypress/integration/plugins/security-analytics-dashboards-plugin/1_detectors.spec.js:22-31 | conversely, in an object every entry comes from a terminal: some key path leads to a terminal whose `path` is the entry's log field, and the entry is named from that path |

## Left out

- Browser automation, network interception, fixtures, and the test runner's hooks. Of the test file, only `getMappingFields` and the projection of its result have logic to model.
- The `_.isEmpty(properties)` choice between the pending and the automatic panel (lines 83-89) only decides which UI assertion runs, so it is not modelled; `MappingTable` models only the automatic branch (lines 86-87).
- JavaScript's `for…in` key order (integer-like keys first, then insertion order) and inherited enumerable properties. An object is given as an already-ordered sequence of pairs.
- `properties` values that are truthy but not objects, such as a number or a non-empty string. The model has no such value: a node is a `Group` when its `properties` is an object, and a `Terminal` when `properties` is missing or falsy.
- Keys whose value is `null` or `undefined`. Reading `properties[field].properties` on such a value (line 23) throws a `TypeError`, and `Node` has no case for such a value, so this error path is not modelled.
- `path` values that are not strings. `path` is a string or `undefined`.
- Determinism (flattening twice gives equal results) needs no lemma: the model is a function of its inputs.
- Distinct rule names: unique keys do not make rule names distinct, because a key may contain a dot (`{"a.b": …}` and `{a: {properties: {b: …}}}` both give `"a.b"`). No such lemma is stated.
