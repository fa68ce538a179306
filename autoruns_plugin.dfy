/**
 * The `Autoruns` plugin object: the process inventory it correlates against,
 * the extractors that walk the registry, and `calculate`, which fills the five
 * result fields for the selected ASEP types.
 */
module AutorunsPlugin {
  import opened Wrappers
  import opened Strings
  import opened Sequences
  import opened Registry
  import opened PathNormalizer
  import opened Correlation
  import opened Tables
  import opened Hives
  import opened RunKeys
  import opened Services
  import opened AppInit
  import opened Winlogon
  import opened Errors

  /** Some element of a non-empty set: Python's dictionary and set iteration order is unspecified. */
  method Pick<T>(s: set<T>) returns (x: T)
    requires s != {}
    ensures x in s
  {
    x :| x in s;
  }

  /** `list(set(xs))`: the distinct elements of a set, in no particular order. */
  method ListOfSet(s: set<int>) returns (r: seq<int>)
    ensures NoDup(r) && Elems(r) == s
  {
    r := [];
    var todo := s;
    while todo != {}
      invariant todo <= s
      invariant NoDup(r) && Elems(r) == s - todo
      decreases |todo|
    {
      var x := Pick(todo);
      assert Elems(r + [x]) == Elems(r) + {x};
      r := r + [x];
      todo := todo - {x};
    }
  }

  class Autoruns {
    /** The VERBOSE option. */
    const verbose: bool
    /** The ASEP-TYPE option. */
    const asepType: Option<string>

    var processDict: map<int, Process>
    var autoruns: map<string, Groups>
    var services: seq<ServiceRecord>
    var appinitDlls: seq<string>
    var winlogon: seq<WinlogonEntry>
    var winlogonRegistrations: seq<NotifyEntry>

    constructor(verbose: bool, asepType: Option<string>)
      ensures this.verbose == verbose && this.asepType == asepType
      ensures processDict == map[] && autoruns == map[]
      ensures services == [] && appinitDlls == [] && winlogon == [] && winlogonRegistrations == []
    {
      this.verbose := verbose;
      this.asepType := asepType;
      processDict := map[];
      autoruns := map[];
      services := [];
      appinitDlls := [];
      winlogon := [];
      winlogonRegistrations := [];
    }

    /**
     * The pids of the processes whose sanitised command line, or one of whose
     * sanitised module names, contains the sanitised `path`.
     */
    method FindPidsForImagepath(path: string) returns (pids: seq<int>)
      ensures PidsFor(processDict, path, pids)
    {
      var hits: seq<int> := [];
      var needle := Sanitize(path);
      if needle != "" {
        var todo := processDict.Keys;
        while todo != {}
          invariant todo <= processDict.Keys
          invariant Elems(hits) == MatchedOutside(processDict, todo, needle)
          decreases |todo|
        {
          var pid := Pick(todo);
          var p := processDict[pid];
          ghost var before := Elems(hits);
          LowerCaseMatch(CmdlineText(p), path);
          if Contains(Sanitize(Lower(CmdlineText(p))), Lower(needle)) {
            hits := Append(hits, pid);
          }
          var j := 0;
          while j < |p.modules|
            invariant 0 <= j <= |p.modules|
            invariant Elems(hits) == before + (if ModuleHit(p, needle, j) then {pid} else {})
          {
            ModuleHitStep(p, needle, j);
            LowerCaseMatch(DllText(p.modules[j]), path);
            if Contains(Sanitize(Lower(DllText(p.modules[j]))), Lower(needle)) {
              hits := Append(hits, pid);
            }
            j := j + 1;
          }
          MatchedOutsideStep(processDict, todo, needle, pid);
          todo := todo - {pid};
        }
      }
      pids := ListOfSet(Elems(hits));
    }

    /** `dict_for_key`: the rendered data of each value name, the last value of a name winning. */
    method DictForKey(k: Option<Key>) returns (d: map<string, string>)
      ensures d == ValueMap(ValuesOf(k))
    {
      var vs := ValuesOf(k);
      d := map[];
      for i := 0 to |vs|
        invariant d == ValueMap(vs[..i])
      {
        assert vs[..i + 1][..i] == vs[..i];
        d := d[vs[i].0 := Render(vs[i].1)];
      }
      assert vs[..|vs|] == vs;
    }

    /** `parse_autoruns_key`: one entry for each value whose data is neither empty nor a lone NUL. */
    method ParseAutorunsKey(k: Option<Key>) returns (es: seq<RunEntry>)
      ensures RunEntriesFor(processDict, ValueMap(ValuesOf(k)), es)
    {
      var d := DictForKey(k);
      es := [];
      var todo := d.Keys;
      while todo != {}
        invariant todo <= d.Keys
        invariant RunScan(processDict, d, todo, es)
        decreases |todo|
      {
        var v := Pick(todo);
        if KeptRunValue(d[v]) {
          var pids := FindPidsForImagepath(d[v]);
          RunScanAppend(processDict, d, todo, es, RunEntry(v, StripNul(d[v]), pids));
          es := es + [RunEntry(v, StripNul(d[v]), pids)];
        }
        todo := todo - {v};
      }
    }

    /**
     * `get_autoruns`: scan each distinct hive offset once; in per-user and
     * software hives open every Run key and record its non-empty result under
     * the hive name and the key's path and last-write time.
     */
    method GetAutoruns(offsets: seq<int>, images: map<int, Hive>) returns (hives: map<string, Groups>)
      requires forall off :: off in offsets ==> off in images
      ensures AutorunsFor(processDict, Elems(offsets), images, hives)
    {
      var all := Elems(offsets);
      hives := map[];
      var todo := all;
      while todo != {}
        invariant todo <= all
        invariant NoEmptyHive(hives)
        invariant Sound(processDict, all, images, hives)
        invariant CompleteOutside(all, todo, images, hives)
        decreases |todo|
      {
        var hoff := Pick(todo);
        var hive := images[hoff];
        var name := hive.name;
        if hive.root.Some? {
          var kind := Classify(name);
          if kind == NtUserHive || kind == SoftwareHive {
            var keys := RunKeysFor(kind);
            for m := 0 to |keys|
              invariant NoEmptyHive(hives)
              invariant Sound(processDict, all, images, hives)
              invariant CompleteOutside(all, todo, images, hives)
              invariant CompleteUpTo(hive, keys, m, hives)
            {
              var fullKey := keys[m];
              var key := OpenKey(hive.root.value, Split(fullKey, '\\'));
              var results := ParseAutorunsKey(key);
              RunEntriesEmpty(processDict, ValueMap(ValuesOf(key)), results);
              if |results| > 0 {
                var ts := key.value.lastWrite;
                ghost var old_hives := hives;
                var h := if name in hives then hives[name] else map[];
                h := h[(fullKey, ts) := results];
                hives := hives[name := h];
                RecordKeepsSound(processDict, all, images, old_hives, hives, hoff, fullKey, results);
                RecordGrows(old_hives, hives, name, (fullKey, ts), results);
                RecordKeepsNoEmpty(old_hives, hives, name, (fullKey, ts), results);
                GrowsKeepsComplete(all, todo, images, hive, keys, m, old_hives, hives);
              }
              NextKey(hive, keys, m, hives);
            }
            assert keys[..|keys|] == keys;
          }
        }
        LastKeyDone(all, todo, images, hoff, hives);
        todo := todo - {hoff};
      }
    }

    /**
     * `parse_service_key`: describe an automatically started service, resolving
     * the svchost `Parameters\ServiceDll` indirection, and correlate it.
     */
    method ParseServiceKey(k: Key) returns (r: Result<Option<ServiceRecord>, Error>)
      ensures DescribeService(k).Failure? ==> r == Failure(DescribeService(k).error)
      ensures DescribeService(k) == Success(None) ==> r == Success(None)
      ensures DescribeService(k).Success? && DescribeService(k).value.Some? ==>
        r.Success? && r.value.Some? && CorrelatedService(processDict, DescribeService(k).value.value, r.value.value)
    {
      var serviceDict := DictForKey(Some(k));
      var name := k.name;
      var displayName := TextField(serviceDict, "DisplayName");
      var startup := IntField(serviceDict, "Start", -1);
      if startup.Failure? {
        return Failure(startup.error);
      }
      var serviceType := IntField(serviceDict, "Type", -1);
      if serviceType.Failure? {
        return Failure(serviceType.error);
      }
      var imagePath := TextField(serviceDict, "ImagePath");
      var timestamp := k.lastWrite;

      var entry: Option<string> := None;
      var parameters: map<string, string> := map[];
      if Contains(imagePath, "svchost.exe -k") {
        var i := 0;
        while i < |k.subkeys|
          invariant 0 <= i <= |k.subkeys|
          invariant FindParameters(k.subkeys) == FindParameters(k.subkeys[i..])
          invariant parameters == map[] && timestamp == k.lastWrite
        {
          var sub := k.subkeys[i];
          if sub.name == "Parameters" {
            parameters := DictForKey(Some(sub));
            timestamp := sub.lastWrite;
            break;
          }
          assert k.subkeys[i..][1..] == k.subkeys[i + 1..];
          i := i + 1;
        }
        if parameters != map[] && "ServiceDll" in parameters {
          entry := ServiceDllEntry(parameters);
        }
      }
      assert ParametersOf(k).Some? ==> parameters == ValueMap(ParametersOf(k).value.values);
      assert entry == ServiceDllEntry(if ParametersOf(k).Some? then ValueMap(ParametersOf(k).value.values) else map[]);

      if !AutoStart(startup.value) {
        return Success(None);
      }
      var pids;
      if entry.Some? && entry.value != "" {
        pids := FindPidsForImagepath(parameters["ServiceDll"]);
      } else {
        pids := FindPidsForImagepath(imagePath);
      }
      if serviceType.value !in ServiceTypes {
        return Failure(UnknownServiceType(serviceType.value));
      }
      r := Success(Some(ServiceRecord(name, timestamp, displayName, ServiceStartup[startup.value],
                                      ServiceTypes[serviceType.value], imagePath, entry, pids)));
    }

    /**
     * `get_services`: the automatically started services of the current control
     * set (ControlSet001 when unknown), in key order, minus system32 and unknown
     * image paths unless verbose; the first failing key aborts the scan.
     */
    method GetServices(system: Option<Key>, currentControlSet: Option<string>) returns (r: Result<seq<ServiceRecord>, Error>)
      ensures ServicesFor(processDict, ServiceKeys(system, currentControlSet), verbose, r)
    {
      var ks := SubkeysOf(OpenPath(system, Split(ServicesKeyPath(currentControlSet), '\\')));
      var found: seq<ServiceRecord> := [];
      for i := 0 to |ks|
        invariant ServicesFor(processDict, ks[..i], verbose, Success(found))
      {
        var service := ParseServiceKey(ks[i]);
        if service.Failure? {
          ListedFailsAt(ks, i, verbose);
          return Failure(service.error);
        }
        if service.value.Some? {
          var rec := service.value.value;
          if verbose || (!Contains(Lower(rec.imagePath), "system32") && rec.imagePath != "Unknown") {
            ServicesForShown(processDict, ks, i, verbose, found, rec);
            found := found + [rec];
          } else {
            ServicesForHidden(processDict, ks, i, verbose, found);
          }
        } else {
          ServicesForHidden(processDict, ks, i, verbose, found);
        }
      }
      assert ks[..|ks|] == ks;
      r := Success(found);
    }

    /**
     * `get_winlogon`: one entry for each well-known value of the Winlogon key;
     * an error when the key is absent, where Python reads `LastWriteTime` of None.
     */
    method GetWinlogon(software: Option<Key>) returns (r: Result<seq<WinlogonEntry>, Error>)
      ensures r.Failure? <==> OpenPath(software, WinlogonKeyPath).None?
      ensures r.Failure? ==> r.error == MissingWinlogonKey
      ensures r.Success? ==> WinlogonEntriesFor(processDict, OpenPath(software, WinlogonKeyPath).value, r.value)
    {
      var winlogonKey := OpenPath(software, WinlogonKeyPath);
      if winlogonKey.None? {
        return Failure(MissingWinlogonKey);
      }
      var valdict := DictForKey(winlogonKey);
      var wk := winlogonKey.value;
      var timestamp := wk.lastWrite;
      var es: seq<WinlogonEntry> := [];
      var todo := valdict.Keys;
      while todo != {}
        invariant todo <= valdict.Keys
        invariant WinlogonScan(processDict, wk, todo, es)
        decreases |todo|
      {
        var value := Pick(todo);
        if value in WinlogonCommonValues {
          var pids := FindPidsForImagepath(valdict[value]);
          var e := WinlogonEntry(value, StripNul(valdict[value]), timestamp, WinlogonCommonValues[value], pids);
          WinlogonScanAppend(processDict, wk, todo, es, e);
          es := es + [e];
        } else {
          WinlogonScanSkip(processDict, wk, todo, es, value);
        }
        todo := todo - {value};
      }
      WinlogonScanDone(processDict, wk, es);
      r := Success(es);
    }

    /**
     * `parse_winlogon_registration_key`: the package DLL named by a DllName
     * value (any case), the hooked events, the key's timestamp and the pids;
     * an error when no DllName value exists.
     */
    method ParseWinlogonRegistrationKey(k: Key) returns (r: Result<NotifyEntry, Error>)
      ensures r.Failure? <==> !HasDllName(ValueMap(k.values))
      ensures r.Failure? ==> r.error == MissingDllName(k.name)
      ensures r.Success? ==> NotifyEntryFor(processDict, k, r.value)
    {
      var d := DictForKey(Some(k));
      var events := HookedEvents(WinlogonNotificationEvents, d);
      var dllname: Option<string> := None;
      ghost var chosen: string := "";
      var todo := d.Keys;
      while todo != {}
        invariant todo <= d.Keys
        invariant dllname.Some? ==> IsDllName(d, chosen) && dllname.value == d[chosen]
        invariant dllname.None? ==> forall n :: n in d && n !in todo ==> !IsDllName(d, n)
        decreases |todo|
      {
        var dictkey := Pick(todo);
        if Lower(dictkey) == "dllname" {
          dllname := Some(d[dictkey]);
          chosen := dictkey;
        }
        todo := todo - {dictkey};
      }
      if dllname.None? {
        return Failure(MissingDllName(k.name));
      }
      var pids := FindPidsForImagepath(dllname.value);
      r := Success(NotifyEntry(StripNul(dllname.value), events, k.lastWrite, pids));
    }

    /**
     * `get_winlogon_registrations`: the notification packages under the Notify
     * key, in key order, minus known Windows packages unless verbose; a package
     * without a DllName aborts the scan.
     */
    method GetWinlogonRegistrations(software: Option<Key>) returns (r: Result<seq<NotifyEntry>, Error>)
      ensures r.Failure? <==> MissingDllNameError(NotifyKeys(software)).Some?
      ensures r.Failure? ==> r.error == MissingDllNameError(NotifyKeys(software)).value
      ensures r.Success? ==> RegistrationsFor(processDict, verbose, NotifyKeys(software), r.value)
    {
      var ks := SubkeysOf(OpenPath(software, NotifyKeyPath));
      var regs: seq<NotifyEntry> := [];
      for i := 0 to |ks|
        invariant MissingDllNameError(ks) == MissingDllNameError(ks[i..])
        invariant RegistrationsFor(processDict, verbose, ks[..i], regs)
      {
        var reg := ParseWinlogonRegistrationKey(ks[i]);
        assert ks[i..][1..] == ks[i + 1..];
        if reg.Failure? {
          return Failure(reg.error);
        }
        var e := reg.value;
        if verbose || Last(Split(e.dll, '\\')) !in WinlogonRegistrationKnownDlls {
          RegistrationShown(processDict, verbose, ks, i, regs, e);
          regs := regs + [e];
        } else {
          RegistrationHidden(processDict, verbose, ks, i, regs, e);
        }
      }
      assert ks[..|ks|] == ks && ks[|ks|..] == [];
      r := Success(regs);
    }
    method ScanServices(sel: seq<string>, system: Option<Key>, currentControlSet: Option<string>) returns (err: Option<Error>)
      requires "services" in sel
      modifies this`services
      ensures err == ServicesError(sel, verbose, system, currentControlSet)
      ensures if err.None? then ServicesFor(processDict, ServiceKeys(system, currentControlSet), verbose, Success(services))
              else services == old(services)
    {
      var r := GetServices(system, currentControlSet);
      if r.Failure? {
        return Some(r.error);
      }
      services := r.value;
      err := None;
    }

    method ScanAppinit(sel: seq<string>, software: Option<Key>) returns (err: Option<Error>)
      requires "appinit" in sel
      modifies this`appinitDlls
      ensures err == AppinitError(sel, software)
      ensures if err.None? then appinitDlls == GetAppinitDlls(software).value else appinitDlls == old(appinitDlls)
    {
      var r := GetAppinitDlls(software);
      if r.Failure? {
        return Some(r.error);
      }
      appinitDlls := r.value;
      err := None;
    }

    /**
     * The Winlogon part of `calculate`: the well-known values, then the
     * notification packages; an absent Winlogon key stops it before the packages.
     */
    method ScanWinlogon(software: Option<Key>) returns (err: Option<Error>)
      modifies this`winlogon, this`winlogonRegistrations
      ensures err == WinlogonError(software)
      ensures if OpenPath(software, WinlogonKeyPath).Some?
              then WinlogonEntriesFor(processDict, OpenPath(software, WinlogonKeyPath).value, winlogon)
              else winlogon == old(winlogon)
      ensures if err.None? then RegistrationsFor(processDict, verbose, NotifyKeys(software), winlogonRegistrations)
              else winlogonRegistrations == old(winlogonRegistrations)
    {
      var w := GetWinlogon(software);
      if w.Failure? {
        return Some(w.error);
      }
      winlogon := w.value;
      var r := GetWinlogonRegistrations(software);
      if r.Failure? {
        return Some(r.error);
      }
      winlogonRegistrations := r.value;
      err := None;
    }

    /**
     * The AppInit_DLLs and Winlogon part of `calculate`, in that order, on
     * fields already emptied; the first error stops the scan.
     */
    method ScanLate(sel: seq<string>, software: Option<Key>) returns (err: Option<Error>)
      requires appinitDlls == [] && winlogon == [] && winlogonRegistrations == []
      modifies this`appinitDlls, this`winlogon, this`winlogonRegistrations
      ensures LateOutcome(processDict, verbose, sel, software, err, appinitDlls, winlogon, winlogonRegistrations)
    {
      if "appinit" in sel {
        err := ScanAppinit(sel, software);
        if err.Some? {
          return;
        }
      }
      if "winlogon" in sel {
        err := ScanWinlogon(software);
        if err.Some? {
          return;
        }
      }
      err := None;
    }

    /**
     * The services, AppInit_DLLs and Winlogon part of `calculate`, in that
     * order, on fields already emptied; the first error stops the scan.
     */
    method ScanRest(sel: seq<string>, system: Option<Key>, currentControlSet: Option<string>, software: Option<Key>)
      returns (err: Option<Error>)
      requires services == [] && appinitDlls == [] && winlogon == [] && winlogonRegistrations == []
      modifies this`services, this`appinitDlls, this`winlogon, this`winlogonRegistrations
      ensures RestOutcome(processDict, verbose, sel, system, currentControlSet, software,
                          err, services, appinitDlls, winlogon, winlogonRegistrations)
    {
      if "services" in sel {
        err := ScanServices(sel, system, currentControlSet);
        if err.Some? {
          return;
        }
      }
      err := ScanLate(sel, software);
    }

    /**
     * `calculate`: take the process inventory, then scan the selected ASEP
     * types in order (Run keys, services, AppInit_DLLs, Winlogon). The first
     * error stops the scan; fields not reached keep their empty value.
     */
    method Calculate(inventory: map<int, Process>, offsets: seq<int>, images: map<int, Hive>,
                     system: Option<Key>, currentControlSet: Option<string>, software: Option<Key>)
      returns (err: Option<Error>)
      requires forall off :: off in offsets ==> off in images
      modifies this
      ensures processDict == inventory
      ensures if "autoruns" in AsepList(asepType) then AutorunsFor(inventory, Elems(offsets), images, autoruns)
              else autoruns == map[]
      ensures RestOutcome(inventory, verbose, AsepList(asepType), system, currentControlSet, software,
                          err, services, appinitDlls, winlogon, winlogonRegistrations)
    {
      processDict := inventory;
      var aseps := AsepList(asepType);

      autoruns := map[];
      services := [];
      appinitDlls := [];
      winlogon := [];
      winlogonRegistrations := [];

      if "autoruns" in aseps {
        autoruns := GetAutoruns(offsets, images);
      }
      err := ScanRest(aseps, system, currentControlSet, software);
    }
  }

  /**
   * What the services, AppInit_DLLs and Winlogon part of `calculate` leaves
   * behind for the selection `sel`: a services error stops everything after it
   * and leaves the later fields empty; otherwise the services hold the listing
   * when selected and the rest goes on as `LateOutcome` says.
   */
  ghost predicate RestOutcome(procs: map<int, Process>, verbose: bool, sel: seq<string>,
                              system: Option<Key>, currentControlSet: Option<string>, software: Option<Key>,
                              err: Option<Error>, services: seq<ServiceRecord>, appinitDlls: seq<string>,
                              winlogon: seq<WinlogonEntry>, winlogonRegistrations: seq<NotifyEntry>) {
    var e1 := ServicesError(sel, verbose, system, currentControlSet);
    && (if "services" in sel && e1.None?
        then ServicesFor(procs, ServiceKeys(system, currentControlSet), verbose, Success(services))
        else services == [])
    && (if e1.Some? then err == e1 && appinitDlls == [] && winlogon == [] && winlogonRegistrations == []
        else LateOutcome(procs, verbose, sel, software, err, appinitDlls, winlogon, winlogonRegistrations))
  }

  /**
   * What the AppInit_DLLs and Winlogon part of `calculate` leaves behind: an
   * AppInit_DLLs error stops both Winlogon scans, an absent Winlogon key stops
   * both, a missing `DllName` only the registrations; each selected stage
   * reached holds its result and every other field stays empty.
   */
  ghost predicate LateOutcome(procs: map<int, Process>, verbose: bool, sel: seq<string>, software: Option<Key>,
                              err: Option<Error>, appinitDlls: seq<string>,
                              winlogon: seq<WinlogonEntry>, winlogonRegistrations: seq<NotifyEntry>) {
    var e2 := AppinitError(sel, software);
    var wk := OpenPath(software, WinlogonKeyPath);
    && err == (if e2.Some? then e2 else if "winlogon" in sel then WinlogonError(software) else None)
    && (if "appinit" in sel && e2.None? then appinitDlls == GetAppinitDlls(software).value else appinitDlls == [])
    && (if "winlogon" in sel && e2.None? && wk.Some?
        then WinlogonEntriesFor(procs, wk.value, winlogon)
        else winlogon == [])
    && (if "winlogon" in sel && e2.None? && WinlogonError(software).None?
        then RegistrationsFor(procs, verbose, NotifyKeys(software), winlogonRegistrations)
        else winlogonRegistrations == [])
  }

  /** The entries `es` cover the kept values of `d` outside `todo`. */
  ghost predicate RunScan(procs: map<int, Process>, d: map<string, string>, todo: set<string>, es: seq<RunEntry>) {
    && (forall i :: 0 <= i < |es| ==> RunEntryFor(procs, d, es[i]) && es[i].name !in todo)
    && (forall n :: n in d && n !in todo && KeptRunValue(d[n]) ==> exists i :: 0 <= i < |es| && es[i].name == n)
    && (forall i, j :: 0 <= i < j < |es| ==> es[i].name != es[j].name)
  }

  lemma RunScanAppend(procs: map<int, Process>, d: map<string, string>, todo: set<string>, es: seq<RunEntry>, e: RunEntry)
    requires RunScan(procs, d, todo, es) && e.name in todo && RunEntryFor(procs, d, e)
    ensures RunScan(procs, d, todo - {e.name}, es + [e])
  {
    var es' := es + [e];
    assert es'[|es|].name == e.name;
    assert forall i :: 0 <= i < |es| ==> es'[i] == es[i];
  }

  /** The entries `es` cover the well-known values of `k` outside `todo`. */
  ghost predicate WinlogonScan(procs: map<int, Process>, k: Key, todo: set<string>, es: seq<WinlogonEntry>) {
    var d := ValueMap(k.values);
    && (forall i :: 0 <= i < |es| ==> WinlogonEntryFor(procs, k, es[i]) && es[i].value !in todo)
    && (forall n :: n in d && n !in todo && n in WinlogonCommonValues ==> exists i :: 0 <= i < |es| && es[i].value == n)
    && (forall i, j :: 0 <= i < j < |es| ==> es[i].value != es[j].value)
  }

  lemma WinlogonScanAppend(procs: map<int, Process>, k: Key, todo: set<string>, es: seq<WinlogonEntry>, e: WinlogonEntry)
    requires WinlogonScan(procs, k, todo, es) && e.value in todo && WinlogonEntryFor(procs, k, e)
    ensures WinlogonScan(procs, k, todo - {e.value}, es + [e])
  {
    var es' := es + [e];
    assert es'[|es|].value == e.value;
    assert forall i :: 0 <= i < |es| ==> es'[i] == es[i];
  }

  lemma WinlogonScanDone(procs: map<int, Process>, k: Key, es: seq<WinlogonEntry>)
    requires WinlogonScan(procs, k, {}, es)
    ensures WinlogonEntriesFor(procs, k, es)
  {
  }

  lemma WinlogonScanSkip(procs: map<int, Process>, k: Key, todo: set<string>, es: seq<WinlogonEntry>, v: string)
    requires WinlogonScan(procs, k, todo, es) && v !in WinlogonCommonValues
    ensures WinlogonScan(procs, k, todo - {v}, es)
  {

  }

  const AllAsepTypes: seq<string> := ["autoruns", "services", "appinit", "winlogon"]

  /**
   * The ASEP types `calculate` scans: the ASEP-TYPE option split on commas,
   * pieces taken verbatim, or all four when the option is unset or empty.
   */
  function AsepList(asepType: Option<string>): (r: seq<string>)
    ensures asepType.None? || asepType.value == "" ==> r == AllAsepTypes
  {
    if asepType.Some? && asepType.value != "" then Split(asepType.value, ',') else AllAsepTypes
  }

  /** A non-empty `asep_type` is cut at its commas and nothing else: joining the pieces gives it back. */
  lemma AsepListJoins(asepType: string)
    requires asepType != ""
    ensures Join(AsepList(Some(asepType)), ',') == asepType
  {
    JoinSplit(asepType, ',');
  }

  /** The pieces are not trimmed: a space after the comma deselects the second type. */
  lemma SpaceAfterCommaDeselects()
    ensures AsepList(Some("autoruns, services")) == ["autoruns", " services"]
    ensures "services" !in AsepList(Some("autoruns, services"))
  {
    var parts := ["autoruns", " services"];
    assert parts[1..] == [" services"];
    assert Join(parts, ',') == "autoruns, services";
    SplitJoin(parts, ',');
  }

  /** The failure of the service scan, when it is selected. */
  function ServicesError(sel: seq<string>, verbose: bool, system: Option<Key>, currentControlSet: Option<string>): Option<Error> {
    var listed := ListedServices(ServiceKeys(system, currentControlSet), verbose);
    if "services" in sel && listed.Failure? then Some(listed.error) else None
  }

  /** The failure of the AppInit_DLLs lookup, when it is selected. */
  function AppinitError(sel: seq<string>, software: Option<Key>): Option<Error> {
    if "appinit" in sel && GetAppinitDlls(software).Failure? then Some(GetAppinitDlls(software).error) else None
  }

  /**
   * The failure of the Winlogon part: an absent Winlogon key, else the first
   * package key without a DllName value.
   */
  function WinlogonError(software: Option<Key>): Option<Error> {
    if OpenPath(software, WinlogonKeyPath).None? then Some(MissingWinlogonKey)
    else MissingDllNameError(NotifyKeys(software))
  }

  /** The notification package keys `get_winlogon_registrations` walks. */
  function NotifyKeys(software: Option<Key>): seq<Key> {
    SubkeysOf(OpenPath(software, NotifyKeyPath))
  }

  /** The error of the first package key without a DllName value, if any. */
  function MissingDllNameError(ks: seq<Key>): (r: Option<Error>)
    ensures r.Some? ==> exists i :: 0 <= i < |ks| && r.value == MissingDllName(ks[i].name)
                                  && !HasDllName(ValueMap(ks[i].values)) && AllHaveDllName(ks, i)
    decreases |ks|
  {
    if ks == [] then None
    else if !HasDllName(ValueMap(ks[0].values)) then
      assert AllHaveDllName(ks, 0);
      Some(MissingDllName(ks[0].name))
    else
      var r := MissingDllNameError(ks[1..]);
      if r.Some? then
        var i :| 0 <= i < |ks[1..]| && r.value == MissingDllName(ks[1..][i].name)
                 && !HasDllName(ValueMap(ks[1..][i].values)) && AllHaveDllName(ks[1..], i);
        assert ks[i + 1] == ks[1..][i];
        assert forall j :: 1 <= j <= i ==> ks[j] == ks[1..][j - 1];
        assert AllHaveDllName(ks, i + 1);
        r
      else r
  }

  /** The package keys before the `n`-th all have a DllName value. */
  predicate AllHaveDllName(ks: seq<Key>, n: int)
    requires n <= |ks|
  {
    forall j :: 0 <= j < n ==> HasDllName(ValueMap(ks[j].values))
  }

  /** The scan of the package keys fails exactly when some key has no DllName value. */
  lemma {:induction false} MissingDllNameErrorIff(ks: seq<Key>)
    ensures MissingDllNameError(ks).Some? <==> exists i :: 0 <= i < |ks| && !HasDllName(ValueMap(ks[i].values))
    decreases |ks|
  {
    if ks != [] {
      MissingDllNameErrorIff(ks[1..]);
      if exists i :: 0 <= i < |ks| && !HasDllName(ValueMap(ks[i].values)) {
        var i :| 0 <= i < |ks| && !HasDllName(ValueMap(ks[i].values));
        if i > 0 { assert ks[1..][i - 1] == ks[i]; }
      }
      if exists i :: 0 <= i < |ks[1..]| && !HasDllName(ValueMap(ks[1..][i].values)) {
        var i :| 0 <= i < |ks[1..]| && !HasDllName(ValueMap(ks[1..][i].values));
        assert ks[i + 1] == ks[1..][i];
      }
    }
  }

  lemma RegistrationShown(procs: map<int, Process>, verbose: bool, ks: seq<Key>, i: nat, rs: seq<NotifyEntry>, e: NotifyEntry)
    requires i < |ks| && RegistrationsFor(procs, verbose, ks[..i], rs)
    requires NotifyEntryFor(procs, ks[i], e) && ShownRegistration(verbose, e.dll)
    ensures RegistrationsFor(procs, verbose, ks[..i + 1], rs + [e])
  {
    assert ks[..i + 1][..i] == ks[..i] && Last(ks[..i + 1]) == ks[i];
    assert (rs + [e])[..|rs|] == rs;
  }

  lemma RegistrationHidden(procs: map<int, Process>, verbose: bool, ks: seq<Key>, i: nat, rs: seq<NotifyEntry>, e: NotifyEntry)
    requires i < |ks| && RegistrationsFor(procs, verbose, ks[..i], rs)
    requires NotifyEntryFor(procs, ks[i], e) && !ShownRegistration(verbose, e.dll)
    ensures RegistrationsFor(procs, verbose, ks[..i + 1], rs)
  {
    assert ks[..i + 1][..i] == ks[..i] && Last(ks[..i + 1]) == ks[i];
    assert MayHide(verbose, ks[i]);
  }

  /** The service keys `get_services` walks. */
  function ServiceKeys(system: Option<Key>, currentControlSet: Option<string>): seq<Key> {
    SubkeysOf(OpenPath(system, Split(ServicesKeyPath(currentControlSet), '\\')))
  }

  /** A failure at key `i`, with the keys before it listed, is the failure of the whole scan. */
  lemma ListedFailsAt(ks: seq<Key>, i: nat, verbose: bool)
    requires i < |ks| && ListedServices(ks[..i], verbose).Success? && DescribeService(ks[i]).Failure?
    ensures ListedServices(ks, verbose) == Failure(DescribeService(ks[i]).error)
    decreases |ks|
  {
    var init := ks[..|ks| - 1];
    if i < |ks| - 1 {
      assert init[..i] == ks[..i] && init[i] == ks[i];
      ListedFailsAt(init, i, verbose);
    } else {
      assert init == ks[..i];
    }
  }

  /** One more service key extends the listing by its shown record, if any. */
  lemma ListedExtend(ks: seq<Key>, i: nat, verbose: bool)
    requires i < |ks| && ListedServices(ks[..i], verbose).Success? && DescribeService(ks[i]).Success?
    ensures ListedServices(ks[..i + 1], verbose).Success?
    ensures var d := DescribeService(ks[i]).value;
      ListedServices(ks[..i + 1], verbose).value == ListedServices(ks[..i], verbose).value +
        (if d.Some? && ShownService(verbose, d.value.0.imagePath) then [d.value] else [])
  {
    assert ks[..i + 1][..i] == ks[..i] && Last(ks[..i + 1]) == ks[i];
  }

  /** One more service key whose record is shown adds the record, correlated, to the listing. */
  lemma ServicesForShown(procs: map<int, Process>, ks: seq<Key>, i: nat, verbose: bool,
                         found: seq<ServiceRecord>, rec: ServiceRecord)
    requires i < |ks| && ServicesFor(procs, ks[..i], verbose, Success(found))
    requires DescribeService(ks[i]).Success? && DescribeService(ks[i]).value.Some?
    requires CorrelatedService(procs, DescribeService(ks[i]).value.value, rec)
    requires ShownService(verbose, rec.imagePath)
    ensures ServicesFor(procs, ks[..i + 1], verbose, Success(found + [rec]))
  {
    var x := DescribeService(ks[i]).value.value;
    var acc := ListedServices(ks[..i], verbose).value;
    ListedExtend(ks, i, verbose);
    assert x.0.imagePath == rec.imagePath;
    AppendCorrelated(procs, acc, found, x, rec);
  }

  lemma AppendCorrelated(procs: map<int, Process>, xs: seq<(ServiceRecord, string)>, found: seq<ServiceRecord>,
                         x: (ServiceRecord, string), rec: ServiceRecord)
    requires |found| == |xs| && forall m :: 0 <= m < |xs| ==> CorrelatedService(procs, xs[m], found[m])
    requires CorrelatedService(procs, x, rec)
    ensures forall m :: 0 <= m < |xs| + 1 ==> CorrelatedService(procs, (xs + [x])[m], (found + [rec])[m])
  {
  }

  /** One more service key that is not an automatic start, or is not shown, leaves the listing as it was. */
  lemma ServicesForHidden(procs: map<int, Process>, ks: seq<Key>, i: nat, verbose: bool, found: seq<ServiceRecord>)
    requires i < |ks| && ServicesFor(procs, ks[..i], verbose, Success(found))
    requires DescribeService(ks[i]).Success?
    requires DescribeService(ks[i]).value.Some? ==> !ShownService(verbose, DescribeService(ks[i]).value.value.0.imagePath)
    ensures ServicesFor(procs, ks[..i + 1], verbose, Success(found))
  {
    assert ks[..i + 1][..i] == ks[..i] && Last(ks[..i + 1]) == ks[i];
  }

  /** Every recorded group comes from some hive at one of the offsets. */
  ghost predicate Sound(procs: map<int, Process>, offsets: set<int>, images: map<int, Hive>, r: map<string, Groups>) {
    forall name, g :: Recorded(r, name, g) ==> GroupFromSomeHive(procs, offsets, images, name, g, r[name][g])
  }

  /** Every Run key with something to report, in the hives already scanned, is recorded. */
  ghost predicate CompleteOutside(offsets: set<int>, todo: set<int>, images: map<int, Hive>, r: map<string, Groups>) {
    forall off, path :: off in offsets && off !in todo && off in images && Reports(images[off], path) ==>
      Recorded(r, images[off].name, (path, RunKey(images[off], path).value.lastWrite))
  }

  /** The first `m` Run keys of hive `h` that have something to report are recorded. */
  ghost predicate CompleteUpTo(h: Hive, keys: seq<string>, m: nat, r: map<string, Groups>)
    requires m <= |keys|
  {
    forall path :: path in keys[..m] && Reports(h, path) ==> Recorded(r, h.name, (path, RunKey(h, path).value.lastWrite))
  }

  /** `r'` records every group `r` records. */
  ghost predicate Grows(r: map<string, Groups>, r': map<string, Groups>) {
    forall name, g :: Recorded(r, name, g) ==> Recorded(r', name, g)
  }

  lemma RecordGrows(r: map<string, Groups>, r': map<string, Groups>, name: string, g: (string, int), es: seq<RunEntry>)
    requires r' == r[name := (if name in r then r[name] else map[])[g := es]]
    ensures Grows(r, r') && Recorded(r', name, g)
  {
  }

  lemma RecordKeepsNoEmpty(r: map<string, Groups>, r': map<string, Groups>, name: string, g: (string, int), es: seq<RunEntry>)
    requires NoEmptyHive(r)
    requires r' == r[name := (if name in r then r[name] else map[])[g := es]]
    ensures NoEmptyHive(r')
  {
    assert g in r'[name];
  }

  lemma GrowsKeepsComplete(offsets: set<int>, todo: set<int>, images: map<int, Hive>, h: Hive,
                           keys: seq<string>, m: nat, r: map<string, Groups>, r': map<string, Groups>)
    requires m <= |keys| && Grows(r, r')
    requires CompleteOutside(offsets, todo, images, r) && CompleteUpTo(h, keys, m, r)
    ensures CompleteOutside(offsets, todo, images, r') && CompleteUpTo(h, keys, m, r')
  {
  }

  /** Once key `m` is handled, the first `m + 1` keys are complete. */
  lemma NextKey(h: Hive, keys: seq<string>, m: nat, r: map<string, Groups>)
    requires m < |keys| && CompleteUpTo(h, keys, m, r)
    requires Reports(h, keys[m]) ==> Recorded(r, h.name, (keys[m], RunKey(h, keys[m]).value.lastWrite))
    ensures CompleteUpTo(h, keys, m + 1, r)
  {
    assert keys[..m + 1] == keys[..m] + [keys[m]];
  }

  /** Once every Run key of hive `hoff` is handled, that hive is complete. */
  lemma LastKeyDone(offsets: set<int>, todo: set<int>, images: map<int, Hive>, hoff: int, r: map<string, Groups>)
    requires hoff in todo && hoff in images && CompleteOutside(offsets, todo, images, r)
    requires Scanned(images[hoff]) ==> CompleteUpTo(images[hoff], RunKeysFor(Classify(images[hoff].name)), |RunKeysFor(Classify(images[hoff].name))|, r)
    ensures CompleteOutside(offsets, todo - {hoff}, images, r)
  {
    var keys := RunKeysFor(Classify(images[hoff].name));
    assert keys[..|keys|] == keys;
  }

  /**
   * Recording the non-empty result of one Run key of a scanned hive keeps
   * every group sound.
   */
  lemma RecordKeepsSound(procs: map<int, Process>, offsets: set<int>, images: map<int, Hive>,
                         r: map<string, Groups>, r': map<string, Groups>, hoff: int, path: string, es: seq<RunEntry>)
    requires Sound(procs, offsets, images, r)
    requires hoff in offsets && hoff in images && Scanned(images[hoff])
    requires path in RunKeysFor(Classify(images[hoff].name))
    requires RunKey(images[hoff], path).Some? && es != []
    requires RunEntriesFor(procs, ValueMap(RunKey(images[hoff], path).value.values), es)
    requires var name := images[hoff].name;
      r' == r[name := (if name in r then r[name] else map[])[(path, RunKey(images[hoff], path).value.lastWrite) := es]]
    ensures Sound(procs, offsets, images, r')
  {
    var name := images[hoff].name;
    var g0 := (path, RunKey(images[hoff], path).value.lastWrite);
    assert GroupFrom(procs, images[hoff], g0.0, g0.1, es);
    assert GroupFromSomeHive(procs, offsets, images, name, g0, es);
    forall n, g | Recorded(r', n, g)
      ensures GroupFromSomeHive(procs, offsets, images, n, g, r'[n][g])
    {
      if n != name || g != g0 {
        assert Recorded(r, n, g) && r'[n][g] == r[n][g];
      }
    }
  }

  /** The pids outside `todo` whose process matches `needle`. */
  function MatchedOutside(procs: map<int, Process>, todo: set<int>, needle: string): set<int> {
    set pid | pid in procs && pid !in todo && Matches(procs[pid], needle)
  }

  lemma MatchedOutsideStep(procs: map<int, Process>, todo: set<int>, needle: string, pid: int)
    requires pid in todo && pid in procs
    ensures MatchedOutside(procs, todo - {pid}, needle) ==
      MatchedOutside(procs, todo, needle) + (if ModuleHit(procs[pid], needle, |procs[pid].modules|) then {pid} else {})
  {
    assert ModuleHit(procs[pid], needle, |procs[pid].modules|) == Matches(procs[pid], needle);
  }

  /** The lower-cased comparison in the loop is the comparison of sanitised texts. */
  lemma LowerCaseMatch(text: string, path: string)
    ensures Contains(Sanitize(Lower(text)), Lower(Sanitize(path))) == Contains(Sanitize(text), Sanitize(path))
  {
    LowerOfSanitized(path);
    SanitizeIgnoresCase(text);
  }

  /** `xs.append(x)`. */
  function Append(xs: seq<int>, x: int): (r: seq<int>)
    ensures Elems(r) == Elems(xs) + {x}
  {
    assert Elems(xs + [x]) == Elems(xs) + {x};
    xs + [x]
  }

  lemma ModuleHitStep(p: Process, needle: string, j: nat)
    requires j < |p.modules|
    ensures ModuleHit(p, needle, j + 1) <==>
      ModuleHit(p, needle, j) || Contains(Sanitize(DllText(p.modules[j])), needle)
  {
    if ModuleHit(p, needle, j + 1) && !ModuleHit(p, needle, j) {
      var m :| 0 <= m < j + 1 && Contains(Sanitize(DllText(p.modules[m])), needle);
      assert m == j;
    }
  }

  /** The cmdline of `p`, or one of its first `j` modules, matches `needle`. */
  predicate ModuleHit(p: Process, needle: string, j: nat)
    requires j <= |p.modules|
  {
    || Contains(Sanitize(CmdlineText(p)), needle)
    || exists m :: 0 <= m < j && Contains(Sanitize(DllText(p.modules[m])), needle)
  }
}
