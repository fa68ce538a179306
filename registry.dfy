/**
 * The registry as the plugin sees it: keys with a name, a last-write time,
 * typed values and sub-keys. Reading hives out of a memory image is the
 * substrate's business; here a hive is already a tree of `Key` values.
 */
module Registry {
  import opened Wrappers
  import opened Strings

  /** The typed data of a value, as the substrate decodes it. */
  datatype RegValue =
    | Text(text: string)             // REG_SZ, REG_EXPAND_SZ, REG_LINK
    | Binary(data: string, dump: string)  // REG_BINARY, REG_NONE: the raw bytes and their hex dump
    | MultiText(items: seq<string>)  // REG_MULTI_SZ
    | Dword(number: nat)             // REG_DWORD, REG_QWORD

  datatype Key = Key(name: string, lastWrite: int, values: seq<(string, RegValue)>, subkeys: seq<Key>)

  /** `str(data)` for each kind of value. */
  function Render(v: RegValue): (r: string)
    ensures v.Text? ==> r == v.text
    ensures v.Dword? ==> ParseInt(r) == Some(v.number)
  {
    match v
    case Text(t) => t
    case Binary(_, d) => d
    case MultiText(items) => "[" + ListItems(items) + "]"
    case Dword(n) => DecimalRoundTrip(n); Decimal(n)
  }

  /** The items of a list as `str` of a Python list shows them. */
  function ListItems(items: seq<string>): string
    decreases |items|
  {
    if items == [] then ""
    else if |items| == 1 then "'" + items[0] + "'"
    else "'" + items[0] + "', " + ListItems(items[1..])
  }

  /**
   * The dictionary `dict_for_key` builds: every value name maps to the rendered
   * data, and a later value of the same name overwrites an earlier one.
   */
  function ValueMap(vs: seq<(string, RegValue)>): map<string, string>
    decreases |vs|
  {
    if vs == [] then map[]
    else ValueMap(vs[..|vs| - 1])[Last(vs).0 := Render(Last(vs).1)]
  }

  /** The values of a key that may be absent; an absent key has none. */
  function ValuesOf(k: Option<Key>): seq<(string, RegValue)> {
    if k.Some? then k.value.values else []
  }

  function SubkeysOf(k: Option<Key>): seq<Key> {
    if k.Some? then k.value.subkeys else []
  }

  /** A name is in the dictionary exactly when some value carries it. */
  lemma {:induction false} ValueMapNames(vs: seq<(string, RegValue)>, n: string)
    ensures n in ValueMap(vs) <==> exists i :: 0 <= i < |vs| && vs[i].0 == n
    decreases |vs|
  {
    if vs != [] {
      var init := vs[..|vs| - 1];
      ValueMapNames(init, n);
      if n in ValueMap(init) {
        var i :| 0 <= i < |init| && init[i].0 == n;
        assert vs[i].0 == n;
      }
      if exists i :: 0 <= i < |vs| && vs[i].0 == n {
        var i :| 0 <= i < |vs| && vs[i].0 == n;
        if i < |vs| - 1 { assert init[i].0 == n; }
      }
    }
  }

  /** The dictionary holds the data of the LAST value of each name. */
  lemma {:induction false} ValueMapLastWins(vs: seq<(string, RegValue)>, i: nat)
    requires i < |vs|
    requires forall j :: i < j < |vs| ==> vs[j].0 != vs[i].0
    ensures vs[i].0 in ValueMap(vs) && ValueMap(vs)[vs[i].0] == Render(vs[i].1)
    decreases |vs|
  {
    if i < |vs| - 1 {
      var init := vs[..|vs| - 1];
      ValueMapLastWins(init, i);
    }
  }

  /** The dictionary has no more entries than the key has values. */
  lemma {:induction false} ValueMapSize(vs: seq<(string, RegValue)>)
    ensures |ValueMap(vs)| <= |vs|
    decreases |vs|
  {
    if vs != [] {
      ValueMapSize(vs[..|vs| - 1]);
    }
  }

  /**
   * The data of the first value named exactly `name`, as the registry API's
   * value lookup returns it; None when no value has that name.
   */
  function LookupValue(vs: seq<(string, RegValue)>, name: string): (r: Option<RegValue>)
    ensures r.None? <==> forall i :: 0 <= i < |vs| ==> vs[i].0 != name
    ensures r.Some? ==> exists i :: 0 <= i < |vs| && vs[i] == (name, r.value) && NoneNamedBefore(vs, name, i)
    decreases |vs|
  {
    if vs == [] then None
    else if vs[0].0 == name then
      assert vs[0] == (name, vs[0].1) && NoneNamedBefore(vs, name, 0);
      Some(vs[0].1)
    else
      var r := LookupValue(vs[1..], name);
      assert forall i :: 1 <= i < |vs| ==> vs[i] == vs[1..][i - 1];
      if r.Some? then
        var i :| 0 <= i < |vs[1..]| && vs[1..][i] == (name, r.value) && NoneNamedBefore(vs[1..], name, i);
        assert vs[i + 1] == (name, r.value) && NoneNamedBefore(vs, name, i + 1);
        r
      else r
  }

  predicate NoneNamedBefore(vs: seq<(string, RegValue)>, name: string, n: int)
    requires n <= |vs|
  {
    forall i :: 0 <= i < n ==> vs[i].0 != name
  }

  /**
   * The first sub-key whose name equals `name` ignoring ASCII case; None
   * exactly when no sub-key's name does.
   */
  function FindSubkey(ks: seq<Key>, name: string): (r: Option<Key>)
    ensures r.None? <==> forall i :: 0 <= i < |ks| ==> Lower(ks[i].name) != Lower(name)
    ensures r.Some? ==> exists i :: 0 <= i < |ks| && ks[i] == r.value && Lower(r.value.name) == Lower(name)
                                  && NoMatchBefore(ks, name, i)
    decreases |ks|
  {
    if ks == [] then None
    else if Lower(ks[0].name) == Lower(name) then
      assert NoMatchBefore(ks, name, 0);
      Some(ks[0])
    else
      var r := FindSubkey(ks[1..], name);
      assert forall i :: 1 <= i < |ks| ==> ks[i] == ks[1..][i - 1];
      if r.Some? then
        var i :| 0 <= i < |ks[1..]| && ks[1..][i] == r.value && Lower(r.value.name) == Lower(name)
                 && NoMatchBefore(ks[1..], name, i);
        assert ks[i + 1] == r.value && NoMatchBefore(ks, name, i + 1);
        r
      else r
  }

  predicate NoMatchBefore(ks: seq<Key>, name: string, n: int)
    requires n <= |ks|
  {
    forall i :: 0 <= i < n ==> Lower(ks[i].name) != Lower(name)
  }

  /**
   * Walk a path of key names down from `root`, each step the first sub-key
   * matching ignoring case; `None` when a step is missing.
   */
  function OpenKey(root: Key, path: seq<string>): (r: Option<Key>)
    ensures path == [] ==> r == Some(root)
    ensures r.Some? && path != [] ==> Lower(r.value.name) == Lower(Last(path))
    decreases |path|
  {
    if path == [] then Some(root)
    else
      match FindSubkey(root.subkeys, path[0])
      case None => None
      case Some(k) => OpenKey(k, path[1..])
  }

  /** The same walk from a root that may be missing. */
  function OpenPath(root: Option<Key>, path: seq<string>): Option<Key> {
    if root.Some? then OpenKey(root.value, path) else None
  }
}
