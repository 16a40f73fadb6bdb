/**
 * The detector test suite's flattening of the backend's field-mapping view:
 * `getMappingFields` walks the schema and pushes records onto a shared array,
 * and the caller turns the records into `[ruleFieldName, logFieldName]` rows.
 */
module FieldMappings {
  import opened Wrappers
  import opened MappingSchema

  /** The JavaScript array `items` that every level of the traversal pushes onto. */
  class ItemList {
    var entries: seq<Entry>

    /** `[]`, the default accumulator. */
    constructor ()
      ensures entries == []
    {
      entries := [];
    }

    /** `items.push(e)`. */
    method Push(e: Entry)
      modifies this
      ensures entries == old(entries) + [e]
    {
      entries := entries + [e];
    }
  }

  /**
   * `getMappingFields(properties, items, prefix)`: iterates over the keys in order,
   * pushes one record per terminal and recurses into each group with the same
   * `items`; returns `items` itself. Earlier entries stay in place as a prefix.
   */
  method GetMappingFields(properties: seq<Field>, items: ItemList, prefix: string) returns (result: ItemList)
    modifies items
    ensures result == items
    ensures items.entries == old(items.entries) + Flatten(properties, prefix)
    ensures |items.entries| == |old(items.entries)| + TerminalCount(properties)
    ensures items.entries[..|old(items.entries)|] == old(items.entries)
    decreases properties
  {
    var i := 0;
    while i < |properties|
      invariant 0 <= i <= |properties|
      invariant items.entries == old(items.entries) + Flatten(properties[..i], prefix)
    {
      var field := properties[i];
      var fullFieldName := FullName(prefix, field.name);
      match field.node {
        case Terminal(path) =>
          items.Push(Entry(fullFieldName, path));
        case Group(nextProperties) =>
          var _ := GetMappingFields(nextProperties, items, fullFieldName);
      }
      assert properties[..i + 1] == properties[..i] + [field];
      FlattenAppend(properties[..i], [field], prefix);
      i := i + 1;
    }
    assert properties[..i] == properties;
    FlattenLength(properties, prefix);
    result := items;
  }

  /** `items.map((item) => [item.ruleFieldName, item.logFieldName])`. */
  function ToPairs(items: seq<Entry>): (r: seq<(string, Option<string>)>)
    ensures |r| == |items|
    ensures forall i :: 0 <= i < |items| ==> r[i] == (items[i].ruleFieldName, items[i].logFieldName)
  {
    if items == [] then [] else [(items[0].ruleFieldName, items[0].logFieldName)] + ToPairs(items[1..])
  }

  /** The records a table of rows stands for: the inverse of `ToPairs`, used only to state that the projection is lossless. */
  function FromPairs(rows: seq<(string, Option<string>)>): (r: seq<Entry>)
    ensures |r| == |rows|
    ensures forall i :: 0 <= i < |rows| ==> r[i].ruleFieldName == rows[i].0 && r[i].logFieldName == rows[i].1
  {
    if rows == [] then [] else [Entry(rows[0].0, rows[0].1)] + FromPairs(rows[1..])
  }

  /** The projection loses nothing: the records can be read back from the rows, and the rows from the records. */
  lemma PairsRoundTrip(items: seq<Entry>, rows: seq<(string, Option<string>)>)
    ensures FromPairs(ToPairs(items)) == items
    ensures ToPairs(FromPairs(rows)) == rows
  {
  }

  /** `{a: {path: "x"}, b: {properties: {c: {path: "y"}}}}` gives the rows `[["a", "x"], ["b.c", "y"]]`, in that order. */
  lemma SiblingOrderExample()
    ensures ToPairs(Flatten([Field("a", Terminal(Some("x"))),
                             Field("b", Group([Field("c", Terminal(Some("y")))]))], ""))
            == [("a", Some("x")), ("b.c", Some("y"))]
  {
    var b := Field("b", Group([Field("c", Terminal(Some("y")))]));
    assert FullName("b", "c") == "b.c";
    assert FieldEntries(b, "") == [Entry("b.c", Some("y"))];
  }

  /** A key whose value is an object without `properties` or `path` yields a row whose log field is `undefined`; nothing is raised. */
  lemma MissingPathExample()
    ensures ToPairs(Flatten([Field("bad", Terminal(None))], "")) == [("bad", None)]
  {
  }

  /**
   * The caller in `validateFieldMappingsTable`: flattens from the root with a
   * fresh `[]` and prefix `''`, then projects the records into rows.
   */
  method MappingTable(properties: seq<Field>) returns (rows: seq<(string, Option<string>)>)
    ensures rows == ToPairs(Flatten(properties, ""))
    ensures |rows| == TerminalCount(properties)
    ensures properties == [] ==> rows == []
  {
    var items := new ItemList();
    var filled := GetMappingFields(properties, items, "");
    rows := ToPairs(filled.entries);
  }
}
