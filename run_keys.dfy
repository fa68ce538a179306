/**
 * What the Run-key scan reports: one entry per non-empty value of each Run
 * key, grouped per hive name and per (key path, last-write time).
 */
module RunKeys {
  import opened Wrappers
  import opened Strings
  import opened Sequences
  import opened Registry
  import opened Correlation
  import opened Hives

  /** `(value name, data with NULs removed, pids)`. */
  datatype RunEntry = RunEntry(name: string, target: string, pids: seq<int>)

  /** Run-key values whose data is "" or a lone NUL are skipped. */
  predicate KeptRunValue(data: string) {
    data != "" && data != "\0"
  }

  predicate HasRunEntries(d: map<string, string>) {
    exists n :: n in d && KeptRunValue(d[n])
  }

  /** The entry reported for value `n` of dictionary `d`. */
  ghost predicate RunEntryFor(procs: map<int, Process>, d: map<string, string>, e: RunEntry) {
    && e.name in d
    && KeptRunValue(d[e.name])
    && e.target == StripNul(d[e.name])
    && PidsFor(procs, d[e.name], e.pids)
  }

  /**
   * `es` is a possible result of `parse_autoruns_key` for a key whose value
   * dictionary is `d`: one entry for each kept value, in no particular order.
   */
  ghost predicate RunEntriesFor(procs: map<int, Process>, d: map<string, string>, es: seq<RunEntry>) {
    && (forall i :: 0 <= i < |es| ==> RunEntryFor(procs, d, es[i]))
    && (forall n :: n in d && KeptRunValue(d[n]) ==> exists i :: 0 <= i < |es| && es[i].name == n)
    && (forall i, j :: 0 <= i < j < |es| ==> es[i].name != es[j].name)
  }

  /** A key yields no more entries than it has values. */
  lemma RunEntriesBound(procs: map<int, Process>, vs: seq<(string, RegValue)>, es: seq<RunEntry>)
    requires RunEntriesFor(procs, ValueMap(vs), es)
    ensures |es| <= |ValueMap(vs)| <= |vs|
  {
    var names := seq(|es|, i requires 0 <= i < |es| => es[i].name);
    assert NoDup(names);
    NoDupCard(names);
    assert Elems(names) <= ValueMap(vs).Keys;
    SubsetCard(Elems(names), ValueMap(vs).Keys);
    ValueMapSize(vs);
  }

  /** A key yields some entry exactly when it has a kept value. */
  lemma RunEntriesEmpty(procs: map<int, Process>, d: map<string, string>, es: seq<RunEntry>)
    requires RunEntriesFor(procs, d, es)
    ensures es != [] <==> HasRunEntries(d)
  {
    if es != [] {
      assert RunEntryFor(procs, d, es[0]);
    }
  }

  /** A hive as the hive list shows it: its name and its root key, if one is found. */
  datatype Hive = Hive(name: string, root: Option<Key>)

  type Groups = map<(string, int), seq<RunEntry>>

  /** Hives the Run-key scan looks into: a root key and a per-user or software name. */
  predicate Scanned(h: Hive) {
    h.root.Some? && (Classify(h.name) == NtUserHive || Classify(h.name) == SoftwareHive)
  }

  /** The key a Run-key path names inside a hive. */
  function RunKey(h: Hive, path: string): Option<Key> {
    OpenPath(h.root, Split(path, '\\'))
  }

  /** Group `(path, ts)` with entries `es` is what hive `h` contributes for `path`. */
  ghost predicate GroupFrom(procs: map<int, Process>, h: Hive, path: string, ts: int, es: seq<RunEntry>) {
    && Scanned(h)
    && path in RunKeysFor(Classify(h.name))
    && RunKey(h, path).Some?
    && RunKey(h, path).value.lastWrite == ts
    && es != []
    && RunEntriesFor(procs, ValueMap(RunKey(h, path).value.values), es)
  }

  /** Hive `h` has something to report under `path`. */
  predicate Reports(h: Hive, path: string) {
    && Scanned(h)
    && path in RunKeysFor(Classify(h.name))
    && RunKey(h, path).Some?
    && HasRunEntries(ValueMap(RunKey(h, path).value.values))
  }

  /** Some hive at one of the `offsets` contributes group `g` of `name`. */
  ghost predicate GroupFromSomeHive(procs: map<int, Process>, offsets: set<int>, images: map<int, Hive>,
                                    name: string, g: (string, int), es: seq<RunEntry>) {
    exists off :: off in offsets && off in images && images[off].name == name
                  && GroupFrom(procs, images[off], g.0, g.1, es)
  }

  /** A hive name is only ever recorded together with a group. */
  predicate NoEmptyHive(r: map<string, Groups>) {
    forall name :: name in r ==> r[name] != map[]
  }

  /** Group `g` of hive `name` is recorded in `r`. */
  predicate Recorded(r: map<string, Groups>, name: string, g: (string, int)) {
    name in r && g in r[name]
  }

  /**
   * `r` is a possible result of `get_autoruns`: no hive name is recorded
   * without a group, every recorded group is the non-empty result of one Run
   * key of one scanned hive (so SYSTEM and other hives contribute nothing),
   * and every Run key of a scanned hive that has something to report is
   * recorded under the hive's name and the key's path and last-write time.
   */
  ghost predicate AutorunsFor(procs: map<int, Process>, offsets: set<int>, images: map<int, Hive>,
                              r: map<string, Groups>) {
    && NoEmptyHive(r)
    && (forall name, g :: Recorded(r, name, g) ==>
          GroupFromSomeHive(procs, offsets, images, name, g, r[name][g]))
    && (forall off, path :: off in offsets && off in images && Reports(images[off], path) ==>
          Recorded(r, images[off].name, (path, RunKey(images[off], path).value.lastWrite)))
  }

  /** Hives that are not per-user or software hives contribute nothing. */
  lemma OnlyUserAndSoftwareHives(procs: map<int, Process>, offsets: set<int>, images: map<int, Hive>,
                                 r: map<string, Groups>, name: string, g: (string, int))
    requires AutorunsFor(procs, offsets, images, r)
    requires Recorded(r, name, g)
    ensures Classify(name) == NtUserHive || Classify(name) == SoftwareHive
    ensures r[name][g] != []
  {
    assert GroupFromSomeHive(procs, offsets, images, name, g, r[name][g]);
  }

  /** Every hive name in the result is the name of a scanned hive at one of the offsets. */
  lemma HiveNamesScanned(procs: map<int, Process>, offsets: set<int>, images: map<int, Hive>,
                         r: map<string, Groups>, name: string)
    requires AutorunsFor(procs, offsets, images, r)
    requires name in r
    ensures exists off :: off in offsets && off in images && images[off].name == name && Scanned(images[off])
  {
    var g :| g in r[name];
    assert Recorded(r, name, g);
    assert GroupFromSomeHive(procs, offsets, images, name, g, r[name][g]);
  }
}
