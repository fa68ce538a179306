/** `get_appinit_dlls`: the DLLs listed in the AppInit_DLLs value of the SOFTWARE hive. */
module AppInit {
  import opened Wrappers
  import opened Strings
  import opened Registry
  import opened Errors

  /** `Microsoft\Windows NT\CurrentVersion\Windows`, split at its backslashes. */
  const AppInitKeyPath: seq<string> := ["Microsoft", "Windows NT", "CurrentVersion", "Windows"]

  /** The first value named `AppInit_DLLs` of the key, if the key and the value exist. */
  function AppInitRaw(software: Option<Key>): Option<RegValue> {
    LookupValue(ValuesOf(OpenPath(software, AppInitKeyPath)), "AppInit_DLLs")
  }

  /**
   * The `AppInit_DLLs` data as the registry API's value lookup returns it: the
   * text of a string value, the raw bytes of a binary one. A missing key or
   * value is `None` in Python, and a DWORD or multi-string value is an int or
   * a list; `.replace` raises on all of them.
   */
  function AppInitValue(software: Option<Key>): (r: Result<string, Error>)
    ensures var v := AppInitRaw(software);
      && (r.Failure? <==> v.None? || v.value.Dword? || v.value.MultiText?)
      && (r.Failure? ==> r.error == if v.None? then MissingAppInitValue else AppInitNotText)
      && (r.Success? ==> v == Some(Text(r.value)) || (v.Some? && v.value.Binary? && v.value.data == r.value))
  {
    match AppInitRaw(software)
    case None => Failure(MissingAppInitValue)
    case Some(Text(t)) => Success(t)
    case Some(Binary(data, _)) => Success(data)
    case Some(_) => Failure(AppInitNotText)
  }

  /**
   * The NUL-stripped value split on single spaces. The list is never empty
   * (an empty value gives `[""]`), so the `None` return is unreachable.
   */
  function GetAppinitDlls(software: Option<Key>): (r: Result<seq<string>, Error>)
    ensures r.Failure? <==> AppInitValue(software).Failure?
    ensures r.Failure? ==> r.error == AppInitValue(software).error
    ensures r.Success? ==> |r.value| >= 1
    ensures r.Success? ==> Join(r.value, ' ') == StripNul(AppInitValue(software).value)
    ensures r.Success? ==> forall i :: 0 <= i < |r.value| ==> ' ' !in r.value[i] && '\0' !in r.value[i]
  {
    match AppInitValue(software)
    case Failure(e) => Failure(e)
    case Success(v) =>
      var dlls := Split(StripNul(v), ' ');
      JoinSplit(StripNul(v), ' ');
      SplitChars(StripNul(v), ' ');
      Success(dlls)
  }

  /** Every character of a piece comes from the split string. */
  lemma {:induction false} SplitChars(s: string, sep: char)
    ensures forall i, c :: 0 <= i < |Split(s, sep)| && c in Split(s, sep)[i] ==> c in s
    decreases |s|
  {
    if s != [] {
      SplitChars(s[1..], sep);
      var rest := Split(s[1..], sep);
      var r := Split(s, sep);
      forall i, c | 0 <= i < |r| && c in r[i]
        ensures c in s
      {
        assert s == [s[0]] + s[1..];
        if s[0] == sep {
          if i > 0 { assert r[i] == rest[i - 1]; }
        } else if i == 0 {
          assert r[0] == [s[0]] + rest[0];
        } else {
          assert r[i] == rest[i];
        }
      }
    }
  }

  /** Splitting `a.dll b.dll` gives the two names in order. */
  lemma TwoDlls()
    ensures Split("a.dll b.dll", ' ') == ["a.dll", "b.dll"]
  {
    var parts := ["a.dll", "b.dll"];
    assert parts[1..] == ["b.dll"];
    assert Join(parts, ' ') == "a.dll b.dll";
    SplitJoin(parts, ' ');
  }
}
