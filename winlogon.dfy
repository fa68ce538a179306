/**
 * The two Winlogon extractors: well-known values of the Winlogon key, and the
 * notification packages registered under its Notify sub-key.
 */
module Winlogon {
  import opened Wrappers
  import opened Strings
  import opened Sequences
  import opened Registry
  import opened Correlation
  import opened Tables

  /** `Microsoft\Windows NT\CurrentVersion\Winlogon`, split at its backslashes. */
  const WinlogonKeyPath: seq<string> := ["Microsoft", "Windows NT", "CurrentVersion", "Winlogon"]
  /** Its `Notify` sub-key. */
  const NotifyKeyPath: seq<string> := WinlogonKeyPath + ["Notify"]

  /** `(value name, data with NULs removed, timestamp, usual default, pids)`. */
  datatype WinlogonEntry = WinlogonEntry(value: string, data: string, timestamp: int, default: string, pids: seq<int>)

  ghost predicate WinlogonEntryFor(procs: map<int, Process>, k: Key, e: WinlogonEntry) {
    var d := ValueMap(k.values);
    && e.value in d
    && e.value in WinlogonCommonValues
    && e.data == StripNul(d[e.value])
    && e.timestamp == k.lastWrite
    && e.default == WinlogonCommonValues[e.value]
    && PidsFor(procs, d[e.value], e.pids)
  }

  /**
   * `es` is a possible result of `get_winlogon`: one entry for each value whose
   * name is one of the well-known ones, in no particular order.
   */
  ghost predicate WinlogonEntriesFor(procs: map<int, Process>, k: Key, es: seq<WinlogonEntry>) {
    var d := ValueMap(k.values);
    && (forall i :: 0 <= i < |es| ==> WinlogonEntryFor(procs, k, es[i]))
    && (forall n :: n in d && n in WinlogonCommonValues ==> exists i :: 0 <= i < |es| && es[i].value == n)
    && (forall i, j :: 0 <= i < j < |es| ==> es[i].value != es[j].value)
  }

  /** At most one entry per well-known value name. */
  lemma WinlogonEntriesAtMostFive(procs: map<int, Process>, k: Key, es: seq<WinlogonEntry>)
    requires WinlogonEntriesFor(procs, k, es)
    ensures |es| <= 5
  {
    var names := seq(|es|, i requires 0 <= i < |es| => es[i].value);
    assert NoDup(names);
    NoDupCard(names);
    assert Elems(names) <= WinlogonCommonValues.Keys;
    SubsetCard(Elems(names), WinlogonCommonValues.Keys);
    assert |WinlogonCommonValues.Keys| == 5;
  }

  /** `(package DLL with NULs removed, hooked events, timestamp, pids)`. */
  datatype NotifyEntry = NotifyEntry(dll: string, events: seq<(string, string)>, timestamp: int, pids: seq<int>)

  /** The events of `evts` the package hooks, in `evts` order, with their handlers. */
  function HookedEvents(evts: seq<string>, d: map<string, string>): seq<(string, string)>
    decreases |evts|
  {
    if evts == [] then []
    else if evts[0] in d then [(evts[0], StripNul(d[evts[0]]))] + HookedEvents(evts[1..], d)
    else HookedEvents(evts[1..], d)
  }

  /** Only events of `evts` that have a value are hooked, each with its NUL-stripped handler. */
  lemma {:induction false} HookedEventsSound(evts: seq<string>, d: map<string, string>)
    ensures forall i :: 0 <= i < |HookedEvents(evts, d)| ==>
      var h := HookedEvents(evts, d)[i]; h.0 in evts && h.0 in d && h.1 == StripNul(d[h.0])
    decreases |evts|
  {
    if evts != [] {
      HookedEventsSound(evts[1..], d);
      var rest := HookedEvents(evts[1..], d);
      var r := HookedEvents(evts, d);
      var off := if evts[0] in d then 1 else 0;
      assert forall i :: off <= i < |r| ==> r[i] == rest[i - off];
    }
  }

  /** Event `e` is among the hooked events `r`. */
  ghost predicate Hooks(r: seq<(string, string)>, e: string) {
    exists i :: 0 <= i < |r| && r[i].0 == e
  }

  /** Every event of `evts` that has a value is hooked. */
  lemma {:induction false} HookedEventsComplete(evts: seq<string>, d: map<string, string>)
    ensures forall e :: e in evts && e in d ==> Hooks(HookedEvents(evts, d), e)
    decreases |evts|
  {
    if evts != [] {
      HookedEventsComplete(evts[1..], d);
      var rest := HookedEvents(evts[1..], d);
      var r := HookedEvents(evts, d);
      var off := if evts[0] in d then 1 else 0;
      assert forall i :: off <= i < |r| ==> r[i] == rest[i - off];
      forall e | e in evts && e in d
        ensures Hooks(r, e)
      {
        if e == evts[0] {
          assert r[0].0 == e;
        } else {
          assert e in evts[1..];
          var j :| 0 <= j < |rest| && rest[j].0 == e;
          assert r[j + off].0 == e;
        }
      }
    }
  }

  /** The position of the first occurrence of `x` in `s`. */
  function IndexOf(s: seq<string>, x: string): (i: nat)
    requires x in s
    ensures i < |s| && s[i] == x
    decreases |s|
  {
    if s[0] == x then 0 else 1 + IndexOf(s[1..], x)
  }

  /** `r`'s event names appear in `evts` order. */
  predicate InEventOrder(evts: seq<string>, r: seq<(string, string)>) {
    forall i, j :: 0 <= i < j < |r| && r[i].0 in evts && r[j].0 in evts ==>
      IndexOf(evts, r[i].0) < IndexOf(evts, r[j].0)
  }

  /** Hooked events keep the order of the event list, hence never repeat. */
  lemma {:induction false} HookedEventsOrdered(evts: seq<string>, d: map<string, string>)
    requires NoDup(evts)
    ensures InEventOrder(evts, HookedEvents(evts, d))
    decreases |evts|
  {
    if evts != [] {
      assert NoDup(evts[1..]);
      HookedEventsOrdered(evts[1..], d);
      var r := HookedEvents(evts, d);
      forall i, j | 0 <= i < j < |r| && r[i].0 in evts && r[j].0 in evts
        ensures IndexOf(evts, r[i].0) < IndexOf(evts, r[j].0)
      {
        if i == 0 && evts[0] in d {
          HeadBeforeTail(evts, d, j);
        } else {
          TailOrdered(evts, d, i, j);
        }
      }
    }
  }

  /** The head event, when hooked, comes before every other hooked event. */
  lemma HeadBeforeTail(evts: seq<string>, d: map<string, string>, j: nat)
    requires NoDup(evts) && evts != [] && evts[0] in d
    requires 1 <= j < |HookedEvents(evts, d)|
    ensures HookedEvents(evts, d)[0].0 == evts[0] && HookedEvents(evts, d)[j].0 in evts
    ensures IndexOf(evts, evts[0]) < IndexOf(evts, HookedEvents(evts, d)[j].0)
  {
    var y := HookedInTail(evts, d, j);
  }

  /** Two events hooked past the head keep the order they have in the tail. */
  lemma TailOrdered(evts: seq<string>, d: map<string, string>, i: nat, j: nat)
    requires NoDup(evts) && evts != []
    requires InEventOrder(evts[1..], HookedEvents(evts[1..], d))
    requires (if evts[0] in d then 1 else 0) <= i < j < |HookedEvents(evts, d)|
    ensures HookedEvents(evts, d)[i].0 in evts && HookedEvents(evts, d)[j].0 in evts
    ensures IndexOf(evts, HookedEvents(evts, d)[i].0) < IndexOf(evts, HookedEvents(evts, d)[j].0)
  {
    var x := HookedInTail(evts, d, i);
    var y := HookedInTail(evts, d, j);
  }

  /** An event hooked past the head of `evts` comes from, and is hooked in, the tail. */
  lemma HookedInTail(evts: seq<string>, d: map<string, string>, k: nat) returns (x: string)
    requires NoDup(evts) && evts != []
    requires (if evts[0] in d then 1 else 0) <= k < |HookedEvents(evts, d)|
    ensures x == HookedEvents(evts, d)[k].0
    ensures var m := k - (if evts[0] in d then 1 else 0);
      m < |HookedEvents(evts[1..], d)| && HookedEvents(evts[1..], d)[m].0 == x
    ensures x in evts[1..] && IndexOf(evts, x) == 1 + IndexOf(evts[1..], x)
  {
    var off := if evts[0] in d then 1 else 0;
    var rest := HookedEvents(evts[1..], d);
    assert HookedEvents(evts, d)[k] == rest[k - off];
    x := rest[k - off].0;
    HookedEventsSound(evts[1..], d);
    assert x in evts[1..];
    IndexInTail(evts, x);
  }

  lemma IndexInTail(evts: seq<string>, x: string)
    requires NoDup(evts) && evts != [] && x in evts[1..]
    ensures IndexOf(evts, x) == 1 + IndexOf(evts[1..], x)
  {
    var k :| 0 <= k < |evts[1..]| && evts[1..][k] == x;
    assert evts[k + 1] == x;
  }

  /** Value names whose lower-cased form is `dllname` (its case varies across versions). */
  predicate IsDllName(d: map<string, string>, n: string) {
    n in d && Lower(n) == "dllname"
  }

  predicate HasDllName(d: map<string, string>) {
    exists n :: n in d && IsDllName(d, n)
  }

  /**
   * `e` is a possible result of `parse_winlogon_registration_key(k)`: the DLL is
   * the data of one of the DllName-like values, and the pids are correlated
   * against that data.
   */
  ghost predicate NotifyEntryFor(procs: map<int, Process>, k: Key, e: NotifyEntry) {
    var d := ValueMap(k.values);
    && (exists n :: IsDllName(d, n) && e.dll == StripNul(d[n]) && PidsFor(procs, d[n], e.pids))
    && e.events == HookedEvents(WinlogonNotificationEvents, d)
    && e.timestamp == k.lastWrite
  }

  /** A package DLL whose last path component is, verbatim, a known Windows package. */
  predicate KnownDll(dll: string) {
    Last(Split(dll, '\\')) in WinlogonRegistrationKnownDlls
  }

  predicate ShownRegistration(verbose: bool, dll: string) {
    verbose || !KnownDll(dll)
  }

  /** Some DllName choice for key `k` gives a package that is hidden. */
  ghost predicate MayHide(verbose: bool, k: Key) {
    var d := ValueMap(k.values);
    exists n :: IsDllName(d, n) && !ShownRegistration(verbose, StripNul(d[n]))
  }

  /**
   * `rs` is a possible result of `get_winlogon_registrations` over the package
   * keys `ks` (none of which lacks a DllName): the shown packages, in key order.
   */
  ghost predicate RegistrationsFor(procs: map<int, Process>, verbose: bool, ks: seq<Key>, rs: seq<NotifyEntry>)
    decreases |ks|
  {
    if ks == [] then rs == []
    else
      var init := ks[..|ks| - 1];
      || (&& rs != []
          && NotifyEntryFor(procs, Last(ks), Last(rs))
          && ShownRegistration(verbose, Last(rs).dll)
          && RegistrationsFor(procs, verbose, init, rs[..|rs| - 1]))
      || (MayHide(verbose, Last(ks)) && RegistrationsFor(procs, verbose, init, rs))
  }

  /** Non-verbose output never shows a known Windows package. */
  lemma {:induction false} NonVerboseHidesKnownDlls(procs: map<int, Process>, ks: seq<Key>, rs: seq<NotifyEntry>)
    requires RegistrationsFor(procs, false, ks, rs)
    ensures forall i :: 0 <= i < |rs| ==> !KnownDll(rs[i].dll)
    decreases |ks|
  {
    if ks != [] {
      var init := ks[..|ks| - 1];
      if rs != [] && NotifyEntryFor(procs, Last(ks), Last(rs)) && ShownRegistration(false, Last(rs).dll)
         && RegistrationsFor(procs, false, init, rs[..|rs| - 1]) {
        NonVerboseHidesKnownDlls(procs, init, rs[..|rs| - 1]);
        assert forall i :: 0 <= i < |rs| - 1 ==> rs[i] == rs[..|rs| - 1][i];
      } else {
        NonVerboseHidesKnownDlls(procs, init, rs);
      }
    }
  }

  /** `rs` holds, in key order, exactly one entry for each package key of `ks`. */
  ghost predicate PairedEntries(procs: map<int, Process>, ks: seq<Key>, rs: seq<NotifyEntry>) {
    |rs| == |ks| && forall i :: 0 <= i < |ks| ==> NotifyEntryFor(procs, ks[i], rs[i])
  }

  /** Verbose output shows one entry per package key, in key order. */
  lemma {:induction false} VerboseShowsEveryPackage(procs: map<int, Process>, ks: seq<Key>, rs: seq<NotifyEntry>)
    requires RegistrationsFor(procs, true, ks, rs)
    ensures PairedEntries(procs, ks, rs)
    decreases |ks|
  {
    if ks != [] {
      VerboseLastPackage(procs, ks, rs);
      VerboseShowsEveryPackage(procs, ks[..|ks| - 1], rs[..|rs| - 1]);
      PairedLast(procs, ks, rs);
    }
  }

  lemma PairedLast(procs: map<int, Process>, ks: seq<Key>, rs: seq<NotifyEntry>)
    requires ks != [] && rs != []
    requires PairedEntries(procs, ks[..|ks| - 1], rs[..|rs| - 1]) && NotifyEntryFor(procs, Last(ks), Last(rs))
    ensures PairedEntries(procs, ks, rs)
  {
    AppendEntry(procs, ks[..|ks| - 1], rs[..|rs| - 1], Last(ks), Last(rs));
    InitLast(ks);
    InitLast(rs);
  }

  lemma InitLast<T>(s: seq<T>)
    requires s != []
    ensures s[..|s| - 1] + [Last(s)] == s
  {
    assert (s[..|s| - 1] + [Last(s)])[|s| - 1] == s[|s| - 1];
  }

  lemma AppendEntry(procs: map<int, Process>, ks: seq<Key>, rs: seq<NotifyEntry>, k: Key, e: NotifyEntry)
    requires PairedEntries(procs, ks, rs) && NotifyEntryFor(procs, k, e)
    ensures PairedEntries(procs, ks + [k], rs + [e])
  {
    forall i | 0 <= i < |ks|
      ensures NotifyEntryFor(procs, (ks + [k])[i], (rs + [e])[i])
    {
      assert (ks + [k])[i] == ks[i] && (rs + [e])[i] == rs[i];
    }
  }

  /** In verbose mode nothing is hidden, so the last key gave the last entry. */
  lemma VerboseLastPackage(procs: map<int, Process>, ks: seq<Key>, rs: seq<NotifyEntry>)
    requires ks != [] && RegistrationsFor(procs, true, ks, rs)
    ensures rs != [] && NotifyEntryFor(procs, Last(ks), Last(rs))
    ensures RegistrationsFor(procs, true, ks[..|ks| - 1], rs[..|rs| - 1])
  {
    assert !MayHide(true, Last(ks));
  }

  lemma KnownDllBareName()
    ensures KnownDll("crypt32.dll")
  {
    SplitPiece("crypt32.dll", '\\');
  }

  lemma KnownDllFullPath()
    ensures KnownDll("C:\\WINDOWS\\system32\\crypt32.dll")
  {
    assert "C:\\WINDOWS\\system32\\crypt32.dll" == "C:\\WINDOWS\\system32" + ['\\'] + "crypt32.dll";
    LastSplitAfterSeparator("C:\\WINDOWS\\system32", "crypt32.dll", '\\');
  }

  lemma KnownDllIsCaseSensitive()
    ensures !KnownDll("CRYPT32.DLL")
  {
    SplitPiece("CRYPT32.DLL", '\\');
  }
}
