/**
 * The keyed tree a request document is read into. Every node holds a text
 * value and an ordered list of keyed children; the elements of a list are
 * children with the empty key. Lookups follow the paths the plugin asks
 * for, written here as sequences of keys instead of dotted strings.
 */
module PropertyTree {
  import opened Wrappers
  import opened ScalerTypes
  import opened Decimal

  datatype PTree = PTree(data: string, children: seq<Child>)
  datatype Child = Child(key: string, tree: PTree)

  /** `find`: the first child stored under `key`, if any. */
  function Find(cs: seq<Child>, key: string): (r: Option<PTree>)
    ensures r.None? <==> forall i :: 0 <= i < |cs| ==> cs[i].key != key
    ensures r.Some? ==> exists i :: 0 <= i < |cs| && cs[i] == Child(key, r.value)
                                   && forall j :: 0 <= j < i ==> cs[j].key != key
  {
    if cs == [] then None
    else if cs[0].key == key then
      assert cs[0] == Child(key, cs[0].tree);
      Some(cs[0].tree)
    else
      var r := Find(cs[1..], key);
      if r.Some? then
        var i :| 0 <= i < |cs[1..]| && cs[1..][i] == Child(key, r.value)
                 && forall j :: 0 <= j < i ==> cs[1..][j].key != key;
        assert cs[i + 1] == Child(key, r.value);
        r
      else r
  }

  /** `get_child`: walks `path` key by key from `t`; fails when a key is missing. */
  function GetChild(t: PTree, path: seq<string>): Option<PTree>
    decreases |path|
  {
    if path == [] then Some(t)
    else
      var c :- Find(t.children, path[0]);
      GetChild(c, path[1..])
  }

  /** `get<std::string>`: the text at `path`; fails only when the path is missing. */
  function GetString(t: PTree, path: seq<string>): Option<string>
  {
    var c :- GetChild(t, path);
    Some(c.data)
  }

  /** `get<int32_t>`: the text at `path` read as an `int32_t`; fails when missing or ill-typed. */
  function GetInt(t: PTree, path: seq<string>): Option<Int32>
  {
    var c :- GetChild(t, path);
    ReadInt32(c.data)
  }

  /**
   * An optional integer child `key`: `default` when there is no such child,
   * otherwise its value, which must be well-typed.
   */
  function OptionalInt(t: PTree, key: string, default: Int32): (r: Option<Int32>)
    ensures Find(t.children, key).None? ==> r == Some(default)
    ensures Find(t.children, key).Some? ==> r == ReadInt32(Find(t.children, key).value.data)
  {
    if Find(t.children, key).None? then Some(default)
    else
      var c := Find(t.children, key).value;
      assert [key][1..] == [] && GetChild(c, []) == Some(c);
      assert GetChild(t, [key]) == Some(c);
      GetInt(t, [key])
  }
}
