/**
 * What the service scan reports: services that start automatically, with the
 * svchost `Parameters\ServiceDll` indirection resolved.
 */
module Services {
  import opened Wrappers
  import opened Strings
  import opened Registry
  import opened Correlation
  import opened Tables
  import opened Errors

  /**
   * `(name, timestamp, display name, startup label, type label, image path,
   * entry, pids)`; `entry` is None when no ServiceDll was resolved.
   */
  datatype ServiceRecord = ServiceRecord(
    name: string, timestamp: int, displayName: string, startup: string,
    serviceType: string, imagePath: string, entry: Option<string>, pids: seq<int>)

  /** `int(d.get(field, default))`. */
  function IntField(d: map<string, string>, field: string, default: int): Result<int, Error> {
    if field !in d then Success(default)
    else match ParseInt(d[field])
      case Some(n) => Success(n)
      case None => Failure(NotAnInteger(field, d[field]))
  }

  /** `d.get(field, "Unknown")` with NULs removed. */
  function TextField(d: map<string, string>, field: string): string {
    StripNul(if field in d then d[field] else "Unknown")
  }

  /** The svchost indirection applies to image paths with this marker (case-sensitive). */
  predicate HostedBySvchost(imagePath: string) {
    Contains(imagePath, "svchost.exe -k")
  }

  /** The first sub-key named exactly `Parameters`; the scan stops there. */
  function FindParameters(ks: seq<Key>): (r: Option<Key>)
    ensures r.None? <==> forall i :: 0 <= i < |ks| ==> ks[i].name != "Parameters"
    ensures r.Some? ==> exists i :: 0 <= i < |ks| && ks[i] == r.value && r.value.name == "Parameters"
                                  && NoParametersBefore(ks, i)
    decreases |ks|
  {
    if ks == [] then None
    else if ks[0].name == "Parameters" then
      assert NoParametersBefore(ks, 0);
      Some(ks[0])
    else
      var r := FindParameters(ks[1..]);
      assert forall i :: 1 <= i < |ks| ==> ks[i] == ks[1..][i - 1];
      if r.Some? then
        var i :| 0 <= i < |ks[1..]| && ks[1..][i] == r.value && r.value.name == "Parameters"
                 && NoParametersBefore(ks[1..], i);
        assert ks[i + 1] == r.value && NoParametersBefore(ks, i + 1);
        r
      else r
  }

  predicate NoParametersBefore(ks: seq<Key>, n: int)
    requires n <= |ks|
  {
    forall i :: 0 <= i < n ==> ks[i].name != "Parameters"
  }

  /** The Parameters key consulted for a service, if any. */
  function ParametersOf(k: Key): Option<Key> {
    if HostedBySvchost(TextField(ValueMap(k.values), "ImagePath")) then FindParameters(k.subkeys) else None
  }

  /** The values of the Parameters key consulted, as a dictionary; empty when there is none. */
  function ParametersDict(k: Key): map<string, string> {
    if ParametersOf(k).Some? then ValueMap(ParametersOf(k).value.values) else map[]
  }

  /** `ServiceDll`, followed by ` (ServiceMain)` when that is non-empty, with NULs removed. */
  function ServiceDllEntry(pd: map<string, string>): (r: Option<string>)
    ensures r.Some? <==> "ServiceDll" in pd
    ensures r.Some? ==> '\0' !in r.value
    ensures r.Some? ==> r.value == StripNul(pd["ServiceDll"]) + MainSuffix(pd)
  {
    if "ServiceDll" !in pd then None
    else
      var main := if "ServiceMain" in pd && pd["ServiceMain"] != "" then " (" + pd["ServiceMain"] + ")" else "";
      StripNulAppend(pd["ServiceDll"], main);
      if main != "" then
        ParenthesisedStripNul(pd["ServiceMain"]);
        Some(StripNul(pd["ServiceDll"] + main))
      else Some(StripNul(pd["ServiceDll"] + main))
  }

  /** Removing NULs from ` (m)` only touches `m`. */
  lemma ParenthesisedStripNul(m: string)
    ensures StripNul(" (" + m + ")") == " (" + StripNul(m) + ")"
  {
    StripNulAppend(" (" + m, ")");
    StripNulAppend(" (", m);
    assert StripNul(" (") == " (" by {
      assert RemoveAll("(", "\0") == "(";
    }
    assert StripNul(")") == ")";
  }

  /** ` (ServiceMain)` with NULs removed when ServiceMain is non-empty, else nothing. */
  function MainSuffix(pd: map<string, string>): string {
    if "ServiceMain" in pd && pd["ServiceMain"] != "" then " (" + StripNul(pd["ServiceMain"]) + ")" else ""
  }

  predicate AutoStart(code: int) {
    code == 0 || code == 1 || code == 2
  }

  /**
   * What `parse_service_key` makes of a key before correlation: the record with
   * its pids left empty and the path to correlate; None for a service that does
   * not start automatically; an error where Python raises one. `Start` is
   * read before `Type`, and the type label is looked up only for a service
   * that starts automatically.
   */
  function DescribeService(k: Key): (r: Result<Option<(ServiceRecord, string)>, Error>)
    ensures r.Success? && r.value.Some? ==>
      r.value.value.0.startup in {"Boot Start", "System Start", "Auto Start"}
    ensures r.Success? && r.value.Some? ==>
      r.value.value.0.entry.Some? ==> HostedBySvchost(r.value.value.0.imagePath)
    ensures r.Success? && r.value.Some? ==>
      r.value.value.0.name == k.name && r.value.value.0.pids == []
  {
    var d := ValueMap(k.values);
    var imagePath := TextField(d, "ImagePath");
    match IntField(d, "Start", -1)
    case Failure(e) => Failure(e)
    case Success(start) =>
      match IntField(d, "Type", -1)
      case Failure(e) => Failure(e)
      case Success(code) =>
        var params := ParametersOf(k);
        var timestamp := if params.Some? then params.value.lastWrite else k.lastWrite;
        var pd := ParametersDict(k);
        var entry := ServiceDllEntry(pd);
        if !AutoStart(start) then Success(None)
        else if code !in ServiceTypes then Failure(UnknownServiceType(code))
        else
          var reference := if entry.Some? && entry.value != "" then pd["ServiceDll"] else imagePath;
          var rec := ServiceRecord(k.name, timestamp, TextField(d, "DisplayName"), ServiceStartup[start],
                                   ServiceTypes[code], imagePath, entry, []);
          Success(Some((rec, reference)))
  }

  /** The Start code of a service key, when it reads as an integer; -1 when absent. */
  function StartCode(k: Key): Result<int, Error> {
    IntField(ValueMap(k.values), "Start", -1)
  }

  /** The Type code of a service key, when it reads as an integer; -1 when absent. */
  function TypeCode(k: Key): Result<int, Error> {
    IntField(ValueMap(k.values), "Type", -1)
  }

  /**
   * The errors of `parse_service_key`: a non-integer Start, then a non-integer
   * Type, then an unknown Type code of a service that starts automatically.
   */
  lemma ServiceFailures(k: Key)
    ensures StartCode(k).Failure? ==> DescribeService(k) == Failure(StartCode(k).error)
    ensures StartCode(k).Success? && TypeCode(k).Failure? ==> DescribeService(k) == Failure(TypeCode(k).error)
    ensures StartCode(k).Success? && TypeCode(k).Success? ==>
      (DescribeService(k).Failure? <==> AutoStart(StartCode(k).value) && TypeCode(k).value !in ServiceTypes)
    ensures DescribeService(k).Failure? && StartCode(k).Success? && TypeCode(k).Success? ==>
      DescribeService(k).error == UnknownServiceType(TypeCode(k).value)
  {
  }

  /**
   * The fields of a reported service: the display name and image path default
   * to "Unknown" and lose their NULs, and the labels are the table entries of
   * the Start and Type codes.
   */
  lemma ServiceRecordFields(k: Key, rec: ServiceRecord, reference: string)
    requires DescribeService(k) == Success(Some((rec, reference)))
    ensures StartCode(k).Success? && AutoStart(StartCode(k).value)
    ensures TypeCode(k).Success? && TypeCode(k).value in ServiceTypes
    ensures rec.startup == ServiceStartup[StartCode(k).value]
    ensures rec.serviceType == ServiceTypes[TypeCode(k).value]
    ensures rec.displayName == TextField(ValueMap(k.values), "DisplayName")
    ensures rec.imagePath == TextField(ValueMap(k.values), "ImagePath")
    ensures '\0' !in rec.displayName && '\0' !in rec.imagePath
  {
  }

  /** `int()` fails exactly on a present value that is not an optionally signed decimal. */
  lemma IntFieldFails(d: map<string, string>, field: string, default: int)
    ensures IntField(d, field, default).Failure? <==> field in d && ParseInt(d[field]).None?
    ensures IntField(d, field, default).Failure? ==> IntField(d, field, default).error == NotAnInteger(field, d[field])
    ensures field !in d ==> IntField(d, field, default) == Success(default)
  {
  }

  /** Manual, disabled and unset services are never reported. */
  lemma NotAutoStartDropped(k: Key)
    requires StartCode(k).Success? && !AutoStart(StartCode(k).value)
    ensures DescribeService(k).Failure? || DescribeService(k) == Success(None)
  {
  }

  /** An automatically started service of a known type is reported. */
  lemma AutoStartKept(k: Key)
    requires StartCode(k).Success? && AutoStart(StartCode(k).value)
    requires TypeCode(k).Success? && TypeCode(k).value in ServiceTypes
    ensures DescribeService(k).Success? && DescribeService(k).value.Some?
  {
  }

  /**
   * The timestamp is the Parameters key's once one was found (even without a
   * ServiceDll); the entry and the correlated path follow ServiceDll.
   */
  lemma ServiceIndirection(k: Key, rec: ServiceRecord, reference: string)
    requires DescribeService(k) == Success(Some((rec, reference)))
    ensures ParametersOf(k).Some? ==> rec.timestamp == ParametersOf(k).value.lastWrite
    ensures ParametersOf(k).None? ==> rec.timestamp == k.lastWrite && rec.entry.None?
    ensures rec.entry == ServiceDllEntry(ParametersDict(k))
    ensures rec.entry.Some? <==> ParametersOf(k).Some? && "ServiceDll" in ValueMap(ParametersOf(k).value.values)
    ensures rec.entry.Some? ==>
      rec.entry.value == StripNul(ParametersDict(k)["ServiceDll"]) + MainSuffix(ParametersDict(k))
    ensures rec.entry.Some? && rec.entry.value != "" ==>
      reference == ValueMap(ParametersOf(k).value.values)["ServiceDll"]
    ensures rec.entry.None? || rec.entry.value == "" ==> reference == rec.imagePath
  {
  }

  /** Non-verbose mode hides image paths under system32 and unknown image paths. */
  predicate ShownService(verbose: bool, imagePath: string) {
    verbose || (!Contains(Lower(imagePath), "system32") && imagePath != "Unknown")
  }

  /** The services `get_services` lists, before correlation; stops at the first error. */
  function ListedServices(ks: seq<Key>, verbose: bool): Result<seq<(ServiceRecord, string)>, Error>
    decreases |ks|
  {
    if ks == [] then Success([])
    else
      match ListedServices(ks[..|ks| - 1], verbose)
      case Failure(e) => Failure(e)
      case Success(acc) =>
        match DescribeService(Last(ks))
        case Failure(e) => Failure(e)
        case Success(None) => Success(acc)
        case Success(Some(x)) => if ShownService(verbose, x.0.imagePath) then Success(acc + [x]) else Success(acc)
  }

  /** `rec` is the described service `x` with pids correlated against its path. */
  predicate CorrelatedService(procs: map<int, Process>, x: (ServiceRecord, string), rec: ServiceRecord) {
    rec == x.0.(pids := rec.pids) && PidsFor(procs, x.1, rec.pids)
  }

  /** `r` is a possible result of `get_services` over the service keys `ks`. */
  predicate ServicesFor(procs: map<int, Process>, ks: seq<Key>, verbose: bool, r: Result<seq<ServiceRecord>, Error>) {
    match ListedServices(ks, verbose)
    case Failure(e) => r == Failure(e)
    case Success(xs) =>
      r.Success? && |r.value| == |xs|
      && forall i :: 0 <= i < |xs| ==> CorrelatedService(procs, xs[i], r.value[i])
  }

  /** The scan fails exactly when some service key fails. */
  lemma {:induction false} ListedFailsIffSomeKeyFails(ks: seq<Key>, verbose: bool)
    ensures ListedServices(ks, verbose).Failure? <==> exists i :: 0 <= i < |ks| && DescribeService(ks[i]).Failure?
    decreases |ks|
  {
    if ks != [] {
      var init := ks[..|ks| - 1];
      ListedFailsIffSomeKeyFails(init, verbose);
      if exists i :: 0 <= i < |ks| && DescribeService(ks[i]).Failure? {
        var i :| 0 <= i < |ks| && DescribeService(ks[i]).Failure?;
        if i < |ks| - 1 { assert init[i] == ks[i]; }
      }
      if exists i :: 0 <= i < |init| && DescribeService(init[i]).Failure? {
        var i :| 0 <= i < |init| && DescribeService(init[i]).Failure?;
        assert ks[i] == init[i];
      }
    }
  }

  /** Every listed service starts automatically; non-verbose lists hide system32 and unknown paths. */
  lemma {:induction false} ListedServicesShape(ks: seq<Key>, verbose: bool)
    requires ListedServices(ks, verbose).Success?
    ensures forall x :: x in ListedServices(ks, verbose).value ==>
      x.0.startup in {"Boot Start", "System Start", "Auto Start"} && ShownService(verbose, x.0.imagePath)
    decreases |ks|
  {
    if ks != [] {
      ListedServicesShape(ks[..|ks| - 1], verbose);
    }
  }

  /**
   * Every automatically started service that the mode shows is listed; in
   * verbose mode that is every one of them.
   */
  lemma {:induction false} ListsEveryShownService(ks: seq<Key>, verbose: bool, i: nat, x: (ServiceRecord, string))
    requires i < |ks| && DescribeService(ks[i]) == Success(Some(x)) && ShownService(verbose, x.0.imagePath)
    requires ListedServices(ks, verbose).Success?
    ensures x in ListedServices(ks, verbose).value
    decreases |ks|
  {
    var init := ks[..|ks| - 1];
    if i < |ks| - 1 {
      assert init[i] == ks[i];
      ListsEveryShownService(init, verbose, i, x);
    }
  }

  /** Where the services live: the current control set, ControlSet001 when unknown. */
  function ServicesKeyPath(currentControlSet: Option<string>): (path: string)
    ensures currentControlSet.None? ==> Split(path, '\\') == ["ControlSet001", "Services"]
  {
    var path := currentControlSet.GetOr("ControlSet001") + "\\Services";
    assert currentControlSet.None? ==> Split(path, '\\') == ["ControlSet001", "Services"] by {
      if currentControlSet.None? {
        var parts := ["ControlSet001", "Services"];
        assert parts[1..] == ["Services"];
        assert Join(parts, '\\') == "ControlSet001" + ['\\'] + "Services";
        assert path == Join(parts, '\\');
        SplitJoin(parts, '\\');
      }
    }
    path
  }
}
