/**
 * The nested field-mapping schema returned by the security-analytics backend,
 * and the flat list of (rule field, log field) entries it stands for.
 *
 * A schema is a JavaScript object whose keys are field names. Each value is
 * either a group (its `properties` is truthy) or a terminal (it is read for
 * its `path`, which may be missing). The object is modelled as the sequence
 * of its (key, value) pairs in enumeration order.
 */
module MappingSchema {
  import opened Wrappers

  /** A schema value: a group whose `properties` object holds `children`, or a terminal with its `path`. */
  datatype Node = Group(children: seq<Field>) | Terminal(path: Option<string>)

  /** One key of a schema object with the value stored under it. */
  datatype Field = Field(name: string, node: Node)

  /** One flattened record `{ruleFieldName, logFieldName}`; a missing `path` gives `None`. */
  datatype Entry = Entry(ruleFieldName: string, logFieldName: Option<string>)

  /** A terminal's key path from the root, with its `path` value. */
  datatype Leaf = Leaf(keys: seq<string>, path: Option<string>)

  /** The name of `field` under `prefix`; an empty prefix is falsy in JavaScript and adds no dot. */
  function FullName(prefix: string, field: string): string
  {
    if prefix != "" then prefix + "." + field else field
  }

  /** What flattening `fields` under `prefix` appends, in order. */
  function Flatten(fields: seq<Field>, prefix: string): seq<Entry>
    decreases fields, 1
  {
    if fields == [] then [] else FieldEntries(fields[0], prefix) + Flatten(fields[1..], prefix)
  }

  /** What one key of the schema contributes: one entry for a terminal, its subtree's entries for a group. */
  function FieldEntries(f: Field, prefix: string): seq<Entry>
    decreases f, 0
  {
    var name := FullName(prefix, f.name);
    match f.node
    case Terminal(path) => [Entry(name, path)]
    case Group(children) => Flatten(children, name)
  }

  /** The number of terminal nodes among `fields` and their descendants. */
  function TerminalCount(fields: seq<Field>): nat
    decreases fields, 1
  {
    if fields == [] then 0 else NodeTerminals(fields[0].node) + TerminalCount(fields[1..])
  }

  function NodeTerminals(n: Node): nat
    decreases n, 0
  {
    match n
    case Terminal(_) => 1
    case Group(children) => TerminalCount(children)
  }

  // ---------------------------------------------------------------------------
  // An independent view of the schema: key paths and lookup by key path.
  // ---------------------------------------------------------------------------

  /** Every terminal of `fields` with the keys leading to it, in depth-first pre-order. */
  function Leaves(fields: seq<Field>): seq<Leaf>
    decreases fields, 1
  {
    if fields == [] then [] else FieldLeaves(fields[0]) + Leaves(fields[1..])
  }

  function FieldLeaves(f: Field): seq<Leaf>
    decreases f, 0
  {
    match f.node
    case Terminal(path) => [Leaf([f.name], path)]
    case Group(children) => Under(f.name, Leaves(children))
  }

  /** The leaves `ls` seen one level up, below the key `k`. */
  function Under(k: string, ls: seq<Leaf>): seq<Leaf>
  {
    seq(|ls|, i requires 0 <= i < |ls| => Leaf([k] + ls[i].keys, ls[i].path))
  }

  /** `properties[k]`: the value under the first key equal to `k`, if any. */
  function Find(fields: seq<Field>, k: string): Option<Node>
  {
    if fields == [] then None
    else if fields[0].name == k then Some(fields[0].node)
    else Find(fields[1..], k)
  }

  /** `properties[k1].properties[k2]…[kn]`: the node reached by following `keys`, if any. */
  function NodeAt(fields: seq<Field>, keys: seq<string>): Option<Node>
    decreases keys
  {
    if keys == [] then None
    else match Find(fields, keys[0])
      case None => None
      case Some(n) =>
        if |keys| == 1 then Some(n)
        else match n
          case Terminal(_) => None
          case Group(children) => NodeAt(children, keys[1..])
  }

  /** A JavaScript object: no key occurs twice at any level. */
  predicate UniqueKeys(fields: seq<Field>)
  {
    (forall i, j :: 0 <= i < j < |fields| ==> fields[i].name != fields[j].name) &&
    (forall i :: 0 <= i < |fields| && fields[i].node.Group? ==> UniqueKeys(fields[i].node.children))
  }

  /** The rule name the traversal gives a terminal reached by `keys`, starting from `prefix`. */
  function JoinFrom(prefix: string, keys: seq<string>): string
    decreases keys
  {
    if keys == [] then prefix else JoinFrom(FullName(prefix, keys[0]), keys[1..])
  }

  /** The keys separated by dots: `["dns", "answers", "name"]` gives `"dns.answers.name"`. */
  function DotJoin(keys: seq<string>): string
  {
    if |keys| == 0 then ""
    else if |keys| == 1 then keys[0]
    else keys[0] + "." + DotJoin(keys[1..])
  }

  // ---------------------------------------------------------------------------
  // Order: the entries of siblings are concatenated in enumeration order.
  // ---------------------------------------------------------------------------

  lemma {:induction false} FlattenAppend(a: seq<Field>, b: seq<Field>, prefix: string)
    ensures Flatten(a + b, prefix) == Flatten(a, prefix) + Flatten(b, prefix)
  {
    if a == [] {
      assert a + b == b;
    } else {
      assert (a + b)[1..] == a[1..] + b;
      FlattenAppend(a[1..], b, prefix);
    }
  }

  /** Depth-first pre-order: the entries of key `i` come after those of its earlier siblings and before those of its later ones. */
  lemma FlattenSplit(fields: seq<Field>, i: nat, prefix: string)
    requires i < |fields|
    ensures Flatten(fields, prefix) ==
            Flatten(fields[..i], prefix) + FieldEntries(fields[i], prefix) + Flatten(fields[i + 1..], prefix)
  {
    assert fields == fields[..i] + ([fields[i]] + fields[i + 1..]);
    FlattenAppend(fields[..i], [fields[i]] + fields[i + 1..], prefix);
    FlattenAppend([fields[i]], fields[i + 1..], prefix);
  }

  /** A key whose `properties` is the empty object `{}` is a group and contributes no entry. */
  lemma EmptyGroupAddsNothing(fields: seq<Field>, i: nat, prefix: string)
    requires i < |fields| && fields[i].node == Group([])
    ensures Flatten(fields, prefix) == Flatten(fields[..i] + fields[i + 1..], prefix)
  {
    FlattenSplit(fields, i, prefix);
    FlattenAppend(fields[..i], fields[i + 1..], prefix);
  }

  // ---------------------------------------------------------------------------
  // Count: one entry per terminal node, none for a group.
  // ---------------------------------------------------------------------------

  lemma {:induction false} FlattenLength(fields: seq<Field>, prefix: string)
    ensures |Flatten(fields, prefix)| == TerminalCount(fields)
    decreases fields, 1
  {
    if fields != [] {
      FieldEntriesLength(fields[0], prefix);
      FlattenLength(fields[1..], prefix);
    }
  }

  lemma {:induction false} FieldEntriesLength(f: Field, prefix: string)
    ensures |FieldEntries(f, prefix)| == NodeTerminals(f.node)
    decreases f, 0
  {
    match f.node
    case Terminal(_) =>
    case Group(children) => FlattenLength(children, FullName(prefix, f.name));
  }

  // ---------------------------------------------------------------------------
  // Names: entry i is leaf i, named from its key path, with its `path` copied.
  // ---------------------------------------------------------------------------

  /** The entries the traversal makes for `ls` under `prefix`. */
  function Named(ls: seq<Leaf>, prefix: string): seq<Entry>
  {
    seq(|ls|, i requires 0 <= i < |ls| => Entry(JoinFrom(prefix, ls[i].keys), ls[i].path))
  }

  lemma NamedAppend(a: seq<Leaf>, b: seq<Leaf>, prefix: string)
    ensures Named(a + b, prefix) == Named(a, prefix) + Named(b, prefix)
  {
  }

  lemma NamedUnder(k: string, ls: seq<Leaf>, prefix: string)
    ensures Named(Under(k, ls), prefix) == Named(ls, FullName(prefix, k))
  {
    forall i | 0 <= i < |ls|
      ensures Named(Under(k, ls), prefix)[i] == Named(ls, FullName(prefix, k))[i]
    {
      assert ([k] + ls[i].keys)[1..] == ls[i].keys;
    }
  }

  lemma {:induction false} FlattenIsNamedLeaves(fields: seq<Field>, prefix: string)
    ensures Flatten(fields, prefix) == Named(Leaves(fields), prefix)
    decreases fields, 1
  {
    if fields != [] {
      FieldEntriesAreNamedLeaves(fields[0], prefix);
      FlattenIsNamedLeaves(fields[1..], prefix);
      NamedAppend(FieldLeaves(fields[0]), Leaves(fields[1..]), prefix);
    }
  }

  lemma {:induction false} FieldEntriesAreNamedLeaves(f: Field, prefix: string)
    ensures FieldEntries(f, prefix) == Named(FieldLeaves(f), prefix)
    decreases f, 0
  {
    match f.node
    case Terminal(path) =>
      assert JoinFrom(prefix, [f.name]) == FullName(prefix, f.name) by {
        assert [f.name][1..] == [];
      }
    case Group(children) =>
      FlattenIsNamedLeaves(children, FullName(prefix, f.name));
      NamedUnder(f.name, Leaves(children), prefix);
  }

  /** Entry `i` is named by leaf `i`'s key path and carries that terminal's `path` unchanged. */
  lemma EntriesFollowLeaves(fields: seq<Field>, prefix: string)
    ensures |Flatten(fields, prefix)| == |Leaves(fields)|
    ensures forall i :: 0 <= i < |Leaves(fields)| ==>
              Flatten(fields, prefix)[i].ruleFieldName == JoinFrom(prefix, Leaves(fields)[i].keys) &&
              Flatten(fields, prefix)[i].logFieldName == Leaves(fields)[i].path
  {
    FlattenIsNamedLeaves(fields, prefix);
  }

  /** Below a non-empty prefix, a key path is appended with a dot before each key. */
  lemma {:induction false} JoinFromNonEmpty(prefix: string, keys: seq<string>)
    requires prefix != "" && keys != []
    ensures JoinFrom(prefix, keys) == prefix + "." + DotJoin(keys)
    decreases keys
  {
    if |keys| > 1 {
      JoinFromNonEmpty(prefix + "." + keys[0], keys[1..]);
    }
  }

  /** From the root, a key path whose first key is non-empty is named by joining its keys with dots. */
  lemma JoinFromRoot(keys: seq<string>)
    requires keys != [] && keys[0] != ""
    ensures JoinFrom("", keys) == DotJoin(keys)
  {
    if |keys| > 1 {
      JoinFromNonEmpty(keys[0], keys[1..]);
    }
  }

  /** Every leaf's key path is non-empty and starts with a key of `fields`. */
  lemma {:induction false} LeafStartsWithKey(fields: seq<Field>, l: Leaf)
    requires l in Leaves(fields)
    ensures l.keys != [] && exists j :: 0 <= j < |fields| && fields[j].name == l.keys[0]
    decreases fields
  {
    if l in FieldLeaves(fields[0]) {
      assert fields[0].name == l.keys[0];
    } else {
      LeafStartsWithKey(fields[1..], l);
      var j :| 0 <= j < |fields[1..]| && fields[1..][j].name == l.keys[0];
      assert fields[j + 1].name == l.keys[0];
    }
  }

  /** With prefix `""` and non-empty root keys, each rule name is the dot-join of its key path. */
  lemma RuleNamesAreDotJoins(fields: seq<Field>)
    requires forall j :: 0 <= j < |fields| ==> fields[j].name != ""
    ensures |Flatten(fields, "")| == |Leaves(fields)|
    ensures forall i :: 0 <= i < |Leaves(fields)| ==>
              Flatten(fields, "")[i].ruleFieldName == DotJoin(Leaves(fields)[i].keys)
  {
    EntriesFollowLeaves(fields, "");
    forall i | 0 <= i < |Leaves(fields)|
      ensures Flatten(fields, "")[i].ruleFieldName == DotJoin(Leaves(fields)[i].keys)
    {
      LeafStartsWithKey(fields, Leaves(fields)[i]);
      JoinFromRoot(Leaves(fields)[i].keys);
    }
  }

  /** With an empty root key, the empty prefix swallows it: key path `["", "a"]` is named `"a"`, not `".a"`. */
  lemma EmptyRootKeyIsDropped()
    ensures Flatten([Field("", Group([Field("a", Terminal(Some("p")))]))], "") == [Entry("a", Some("p"))]
    ensures DotJoin(["", "a"]) == ".a"
  {
  }

  // ---------------------------------------------------------------------------
  // Leaves are exactly the terminals reachable by key paths.
  // ---------------------------------------------------------------------------

  lemma {:induction false} FindSome(fields: seq<Field>, k: string, n: Node)
    requires Find(fields, k) == Some(n)
    ensures exists j :: 0 <= j < |fields| && fields[j].name == k && fields[j].node == n
  {
    if fields[0].name != k {
      FindSome(fields[1..], k, n);
      var j :| 0 <= j < |fields[1..]| && fields[1..][j].name == k && fields[1..][j].node == n;
      assert fields[j + 1].name == k && fields[j + 1].node == n;
    }
  }

  lemma {:induction false} FieldLeavesInLeaves(fields: seq<Field>, j: nat, l: Leaf)
    requires j < |fields| && l in FieldLeaves(fields[j])
    ensures l in Leaves(fields)
    decreases j
  {
    if j > 0 {
      FieldLeavesInLeaves(fields[1..], j - 1, l);
    }
  }

  /** Every terminal reachable by a key path is a leaf of the schema. */
  lemma {:induction false} TerminalsAreLeaves(fields: seq<Field>, keys: seq<string>, p: Option<string>)
    requires NodeAt(fields, keys) == Some(Terminal(p))
    ensures Leaf(keys, p) in Leaves(fields)
    decreases keys
  {
    var n := Find(fields, keys[0]).value;
    FindSome(fields, keys[0], n);
    var j :| 0 <= j < |fields| && fields[j].name == keys[0] && fields[j].node == n;
    if |keys| == 1 {
      assert n == Terminal(p) && keys == [keys[0]];
      assert FieldLeaves(fields[j]) == [Leaf(keys, p)];
    } else {
      var children := n.children;
      TerminalsAreLeaves(children, keys[1..], p);
      var m :| 0 <= m < |Leaves(children)| && Leaves(children)[m] == Leaf(keys[1..], p);
      assert Under(keys[0], Leaves(children))[m] == Leaf(keys, p);
    }
    FieldLeavesInLeaves(fields, j, Leaf(keys, p));
  }

  /** In an object with unique keys, every leaf's key path leads to a terminal with that leaf's `path`. */
  lemma {:induction false} LeavesAreTerminals(fields: seq<Field>, l: Leaf)
    requires UniqueKeys(fields) && l in Leaves(fields)
    ensures NodeAt(fields, l.keys) == Some(Terminal(l.path))
    decreases fields
  {
    var f := fields[0];
    if l in FieldLeaves(f) {
      match f.node
      case Terminal(path) =>
      case Group(children) =>
        var m :| 0 <= m < |Leaves(children)| && Under(f.name, Leaves(children))[m] == l;
        var inner := Leaves(children)[m];
        LeavesAreTerminals(children, inner);
        assert l.keys[1..] == inner.keys;
    } else {
      var rest := fields[1..];
      assert UniqueKeys(rest) by {
        forall i | 0 <= i < |rest| && rest[i].node.Group?
          ensures UniqueKeys(rest[i].node.children)
        {
          assert rest[i] == fields[i + 1];
        }
      }
      LeavesAreTerminals(rest, l);
      LeafStartsWithKey(rest, l);
      var j :| 0 <= j < |rest| && rest[j].name == l.keys[0];
      assert rest[j] == fields[j + 1];
      assert Find(fields, l.keys[0]) == Find(rest, l.keys[0]);
    }
  }

  /** Every terminal reachable by `keys` yields an entry named from `keys` that carries its `path`. */
  lemma TerminalsHaveEntries(fields: seq<Field>, keys: seq<string>, p: Option<string>, prefix: string)
    requires NodeAt(fields, keys) == Some(Terminal(p))
    ensures Entry(JoinFrom(prefix, keys), p) in Flatten(fields, prefix)
  {
    TerminalsAreLeaves(fields, keys, p);
    var i :| 0 <= i < |Leaves(fields)| && Leaves(fields)[i] == Leaf(keys, p);
    EntriesFollowLeaves(fields, prefix);
    assert Flatten(fields, prefix)[i] == Entry(JoinFrom(prefix, keys), p);
  }

  /** In an object with unique keys, every entry comes from a terminal: its key path leads there and its log name is that terminal's `path`. */
  lemma EntriesAreTerminals(fields: seq<Field>, prefix: string, i: nat)
    requires UniqueKeys(fields) && i < |Flatten(fields, prefix)|
    ensures exists keys :: NodeAt(fields, keys) == Some(Terminal(Flatten(fields, prefix)[i].logFieldName)) &&
                           Flatten(fields, prefix)[i].ruleFieldName == JoinFrom(prefix, keys)
  {
    EntriesFollowLeaves(fields, prefix);
    var l := Leaves(fields)[i];
    LeavesAreTerminals(fields, l);
    assert NodeAt(fields, l.keys) == Some(Terminal(Flatten(fields, prefix)[i].logFieldName));
  }
}
