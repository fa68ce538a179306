# volatility-autoruns: ASEP extraction and correlation, modelled in Dafny

This project models the core of the `autoruns` Volatility plugin. The plugin
looks through the registry hives of a Windows memory image for
auto-start extensibility points (ASEPs), and ties each one to the running
processes that plausibly came from it. The model covers:

- **Path normalisation** (`PathNormalizer.Sanitize`): lower-case the text,
  then delete the environment and device prefixes, NULs and quotes, in the
  source's order.
- **PID correlation** (`Correlation`, `Autoruns.FindPidsForImagepath`): a
  process matches a path when the sanitised path occurs in the process's
  sanitised command line or in one of its sanitised module names.
- **The registry as the plugin reads it** (`Registry`): keys have a name, a
  last-write time, typed values and sub-keys.
  - `dict_for_key` turns a key's values into a dictionary in which the last
    value of a name wins.
  - `open_key` walks a path of sub-key names, ignoring case.
- **Hive classification and the Run-key scan** (`Hives`, `RunKeys`,
  `Autoruns.GetAutoruns`, `Autoruns.ParseAutorunsKey`).
  - Per-user (`ntuser.dat`) and machine `software` hives are scanned.
  - Every non-empty value of each known Run key is reported.
  - Results are grouped per hive name and per (key path, last-write time).
- **Services** (`Services`, `Autoruns.ParseServiceKey`, `Autoruns.GetServices`):
  - automatically started services of the current control set;
  - the svchost `Parameters\ServiceDll` indirection resolved;
  - `system32` and unknown image paths hidden unless verbose.
- **AppInit_DLLs** (`AppInit.GetAppinitDlls`).
- **Winlogon**: the well-known Winlogon values (`Autoruns.GetWinlogon`), and
  the notification packages under `Winlogon\Notify`
  (`Autoruns.ParseWinlogonRegistrationKey`, `Autoruns.GetWinlogonRegistrations`).
  The packages list their hooked events, and known Windows packages are
  hidden unless verbose.
- **`calculate`** (`Autoruns.Calculate`): select the ASEP types from the
  ASEP-TYPE option, empty the five result lists, and run the selected
  extractors in order.

The plugin object is a Dafny `class` (`AutorunsPlugin.Autoruns`). Its fields
are the process inventory and the five result lists, and its methods update
them as the Python methods do. Each statement loop of the source is a `while`
or `for` loop. The list comprehension that collects a package's hooked events
is the recursive function `Winlogon.HookedEvents`. Each method is proved
against a specification predicate or function. These live in the `Correlation`,
`RunKeys`, `Services`, `Winlogon` and `AutorunsPlugin` modules:

- `PidsFor` for `find_pids_for_imagepath`;
- `RunEntriesFor` for `parse_autoruns_key`;
- `AutorunsFor` for `get_autoruns`;
- `ServicesFor` for `get_services`;
- `WinlogonEntriesFor` for `get_winlogon`;
- `NotifyEntryFor` for `parse_winlogon_registration_key`;
- `RegistrationsFor` for `get_winlogon_registrations`;
- `RestOutcome` for the error-stopping tail of `calculate`.

Lemmas then prove what those predicates promise.

Python's dictionary and set iteration order is unspecified. So loops over a
dictionary's keys take an arbitrary remaining key (`Pick`). Their contracts
say which entries the result holds, and that none repeats, but not in which
order.

Python exceptions that escape the plugin are values of `Errors.Error`, and the
operations that can raise return a `Result`:

- `int()` of a non-numeric `Start` or `Type` value;
- `service_types[...]` for an unknown type code;
- an absent Winlogon key, whose `LastWriteTime` `get_winlogon` reads;
- a notification package without a `DllName` value;
- a missing `AppInit_DLLs` value, or one whose data is a number or a list
  (a DWORD or multi-string value) and so has no `replace`.

`calculate` stops at the first such error. Result lists it had not reached
yet stay empty, and lists it had already filled keep their values.

### Behaviour worth knowing

- Sanitising is not idempotent. Deleting a quote can join the pieces of a
  `\??\` prefix, which a second pass then deletes; see
  `PathNormalizer.SanitizeNotIdempotent`. It is case-insensitive.
- A Run entry's reported target is the value data with NULs removed. It is
  not normalised; only the correlation uses the normalised form.
- A service's timestamp is that of its `Parameters` sub-key whenever one was
  found. This holds even when that sub-key has no `ServiceDll`.
- An empty `AppInit_DLLs` value gives `[""]`, not an empty list, because
  `"".split(' ') == [""]`.
- Exceptions are not contained per entry. A malformed service key, an
  absent Winlogon key or a package without `DllName` aborts the whole
  `calculate` call.
- The `svchost.exe -k` marker is found by a case-sensitive substring test,
  and the `Parameters` sub-key by exact name. A package DLL is known only
  when its last path component equals a listed name exactly. Hive names,
  key path steps and `DllName` value names are compared case-insensitively.

## Model

| member | source | states |
|---|---|---|
| PathNormalizer.Sanitize | autoruns.py:92-101 | The sanitised path is no longer than the input and contains no NUL, no double quote, no single quote and no upper-case ASCII letter. |
| PathNormalizer.SanitizeIgnoresCase | autoruns.py:92-101 | Sanitising the upper-cased or the lower-cased input gives the same result as sanitising the input. |
| PathNormalizer.LowerOfSanitized | autoruns.py:92-94 | Lower-casing a sanitised path again changes nothing. |
| PathNormalizer.SanitizeNotIdempotent | autoruns.py:95-100 | For the input `\?'?\`, one pass gives `\??\` and a second pass gives the empty string, so sanitising is not idempotent. |
| AutorunsPlugin.Autoruns.FindPidsForImagepath | autoruns.py:130-148 | The result has no duplicate pid. Its pids are exactly those whose sanitised command line, or a sanitised module name, contains the sanitised path; missing or empty names count as `[no cmdline]` / `[no dllname]`. There are none when the path sanitises to "". |
| AutorunsPlugin.ListOfSet | autoruns.py:148 | `list(set(pids))`: the list has no duplicates and has exactly the set's elements. |
| AutorunsPlugin.LowerCaseMatch | autoruns.py:134-145 | Comparing the lower-cased sanitised path against the sanitised lower-cased text is the same test as comparing the two sanitised texts. |
| Correlation.EmptyReferenceMatchesNothing | autoruns.py:134-135 | A path that sanitises to the empty string correlates with no process. |
| Correlation.PidsWithinInventory | autoruns.py:136-148 | Every correlated pid is a pid of the inventory, so there are never more pids than processes. |
| Correlation.CorrelationMonotone | autoruns.py:136-146 | Adding a process to the inventory never removes a pid from any path's result. |
| Correlation.AddingMatchingProcess | autoruns.py:138-141 | Adding a process whose command line contains the sanitised path adds exactly that pid. |
| Correlation.RegisteredCommandLineIsFound | autoruns.py:138-141 | A process whose command line is exactly the registered path is correlated with it, unless the path sanitises to "". |
| AutorunsPlugin.Autoruns.DictForKey | autoruns.py:156-171 | The dictionary is the key's values rendered with `str`, a later value of a name overwriting an earlier one; an absent key gives an empty dictionary. |
| Registry.ValueMapNames | autoruns.py:159-170 | A name is in the dictionary if and only if some value of the key carries it. |
| Registry.ValueMapLastWins | autoruns.py:159-170 | The dictionary holds the rendered data of the last value of each name. |
| Registry.ValueMapSize | autoruns.py:158-171 | The dictionary has no more entries than the key has values. |
| Registry.FindSubkey | autoruns.py:318 | Finds nothing exactly when no sub-key's name equals the wanted name ignoring ASCII case; otherwise finds the first sub-key whose name does. |
| Registry.OpenKey | autoruns.py:318 | An empty path opens the root itself; a key opened along a non-empty path has the last step's name, ignoring ASCII case. |
| Registry.Render | autoruns.py:162-170 | `str(data)`: a string value renders as its text, and a DWORD renders as a decimal that `int()` reads back as the same number. |
| Registry.LookupValue | autoruns.py:176 | The value lookup finds nothing exactly when no value has the name; otherwise it gives the data of the first value so named. |
| Strings.DecimalRoundTrip | autoruns.py:230-231 | `int(str(n)) == n`: a DWORD rendered by `dict_for_key` reads back as the same number. |
| AppInit.AppInitValue | autoruns.py:176-177 | A missing key or value is `MissingAppInitValue`, and DWORD or multi-string data is `AppInitNotText`. Otherwise the text is the data of the first `AppInit_DLLs` value: its string, or the raw bytes of a binary value, never a rendering. |
| AppInit.GetAppinitDlls | autoruns.py:173-182 | Fails exactly when the value cannot be read as text, with that error. Otherwise the list is never empty, its pieces hold no space and no NUL, and joining them with spaces gives back the NUL-stripped text. |
| AppInit.TwoDlls | autoruns.py:177 | `a.dll b.dll` splits into `a.dll` and `b.dll`, in that order. |
| AutorunsPlugin.Autoruns.GetWinlogon | autoruns.py:198-211 | Gives one entry for each value of the Winlogon key whose name is one of the five well-known names, and fails with `MissingWinlogonKey` exactly when the key is absent. Each entry carries the NUL-stripped data, the key's timestamp, the usual default and the correlated pids, and no name repeats. |
| Winlogon.WinlogonEntriesAtMostFive | autoruns.py:206-209 | `get_winlogon` never returns more than five entries. |
| Winlogon.HookedEventsSound | autoruns.py:215 | Every hooked event is one of the notification events and has a value, and its handler is that value with NULs removed. |
| Winlogon.HookedEventsComplete | autoruns.py:215 | Every notification event that has a value is hooked. |
| Winlogon.HookedEventsOrdered | autoruns.py:215 | Hooked events keep the order of the notification event list, so none repeats. |
| Tables.NotificationEventsDistinct | autoruns.py:42-51 | The nine notification event names are pairwise distinct. |
| AutorunsPlugin.Autoruns.ParseWinlogonRegistrationKey | autoruns.py:213-223 | Fails, naming the package, exactly when the key has no value whose lower-cased name is `dllname`. Otherwise the entry's DLL is the NUL-stripped data of such a value, the pids are correlated against that data, the events are the hooked events and the timestamp is the key's. |
| AutorunsPlugin.Autoruns.GetWinlogonRegistrations | autoruns.py:186-196 | Fails exactly when some package key lacks a DllName value, with the error of the first such key. Otherwise it lists the packages in key order, a package being left out only when it is hidden as a known Windows DLL in non-verbose mode. |
| AutorunsPlugin.MissingDllNameError | autoruns.py:186-191 | The package scan's error names a package key without a DllName value, and every key before it has one. |
| AutorunsPlugin.MissingDllNameErrorIff | autoruns.py:190-191 | The package scan fails if and only if some package key has no DllName value. |
| Winlogon.NonVerboseHidesKnownDlls | autoruns.py:193-194 | In non-verbose mode no listed package's last path component is a known Windows package. |
| Winlogon.VerboseShowsEveryPackage | autoruns.py:193-194 | In verbose mode the list has exactly one entry per package key, in key order. |
| Winlogon.KnownDllBareName | autoruns.py:193 | `crypt32.dll` is a known package. |
| Winlogon.KnownDllFullPath | autoruns.py:193 | `C:\WINDOWS\system32\crypt32.dll` is a known package: only the last path component is compared. |
| Winlogon.KnownDllIsCaseSensitive | autoruns.py:193 | `CRYPT32.DLL` is not a known package: the comparison is case-sensitive. |
| Winlogon.KnownDll | autoruns.py:193 | A package DLL is known when the last `\`-separated component of its path is one of the listed Windows packages, compared exactly. |
| Services.FindParameters | autoruns.py:239-243 | Finds nothing exactly when no sub-key is named exactly `Parameters`. Otherwise it finds the first sub-key so named, where the loop stops. |
| Services.ServiceDllEntry | autoruns.py:244-250 | There is an entry exactly when the Parameters key has a `ServiceDll` value. The entry is that value with NULs removed, followed by ` (ServiceMain)` (NULs removed) exactly when `ServiceMain` is present and non-empty, and it holds no NUL. |
| Services.DescribeService | autoruns.py:225-259 | A reported service has an automatic startup label and the key's name. It has an entry only when its image path names `svchost.exe -k`. |
| Services.ServiceFailures | autoruns.py:230-259 | A non-integer Start fails with that error first, then a non-integer Type. A key whose codes both read fails exactly when it starts automatically with a Type code missing from the type table, and the error names that code. |
| Services.ServiceRecordFields | autoruns.py:227-259 | A reported service's Start and Type codes read as integers, the Start code is automatic and the Type code is in the table. Its labels are their table entries. Its display name and image path are the values, or "Unknown" when absent, with NULs removed. |
| Services.IntFieldFails | autoruns.py:230-231 | `int(d.get(field, -1))` fails exactly on a present value that is not an optionally signed decimal, naming the field and its text, and gives the default when the value is absent. |
| Services.NotAutoStartDropped | autoruns.py:254 | A service whose Start code is not 0, 1 or 2 is never reported. |
| Services.AutoStartKept | autoruns.py:254-259 | A service with an automatic Start code and a known Type code is reported. |
| Services.ServiceIndirection | autoruns.py:235-258 | The timestamp is the Parameters key's once that key was found, and the service key's otherwise. The record's entry is the `ServiceDll` entry of that Parameters key, so it exists exactly when an svchost service's Parameters key has a `ServiceDll` value. The pids are correlated against the raw `ServiceDll` value when the entry is non-empty, and against the image path otherwise. |
| AutorunsPlugin.Autoruns.ParseServiceKey | autoruns.py:225-259 | Fails with the same error as the description of the key. Gives nothing for a service that does not start automatically. Otherwise gives the described record with pids correlated against its reference path. |
| Services.ServicesKeyPath | autoruns.py:263-269 | Without a current control set, the services are looked up under `ControlSet001\Services`. |
| AutorunsPlugin.Autoruns.GetServices | autoruns.py:261-276 | Fails with the first key's error when any service key fails. Otherwise lists, in key order, the described services that are shown, each correlated. |
| Services.ListedFailsIffSomeKeyFails | autoruns.py:269-270 | The service scan fails if and only if some service key fails. |
| Services.ListedServicesShape | autoruns.py:272-274 | Every listed service starts automatically. In non-verbose mode none has an image path under `system32` (any case) or an unknown image path. |
| Services.ListsEveryShownService | autoruns.py:272-274 | Every reported service that the mode shows is listed, so in verbose mode every automatically started service is. |
| Services.ShownService | autoruns.py:273 | A service is shown in verbose mode, or when its image path contains no `system32` in any case and is not "Unknown". |
| Hives.Classify | autoruns.py:301-309 | The lower-cased last component of the hive's name decides: `ntuser.dat` before `software` before `system`, and anything else is irrelevant. |
| Hives.RunKeysFor | autoruns.py:302-311 | Per-user hives get the ten per-user Run keys and software hives the nine machine Run keys; SYSTEM and other hives get none. |
| Hives.ClassifyByFileName | autoruns.py:302-308 | Only the last component of a hive's name decides its kind. |
| Hives.ClassifyIgnoresCase | autoruns.py:302-308 | Upper-casing a hive's name does not change its kind. |
| AutorunsPlugin.Autoruns.ParseAutorunsKey | autoruns.py:328-337 | Gives one entry for each value whose data is neither empty nor a lone NUL, with the NUL-stripped data and the pids correlated against the raw data. No value name repeats. |
| RunKeys.RunEntriesBound | autoruns.py:330-335 | A Run key yields no more entries than it has values. |
| RunKeys.RunEntriesEmpty | autoruns.py:321-333 | A Run key yields some entry if and only if one of its values has data other than "" or a lone NUL. |
| AutorunsPlugin.Autoruns.GetAutoruns | autoruns.py:278-326 | No hive name is recorded without a group. Every recorded group is the non-empty result of one Run key of one per-user or software hive at a listed offset. Every such Run key with something to report is recorded, under the hive's name and the key's path and last-write time. |
| RunKeys.OnlyUserAndSoftwareHives | autoruns.py:302-311 | Only per-user and software hives contribute groups, and no recorded group is empty. |
| RunKeys.HiveNamesScanned | autoruns.py:300-324 | Every hive name in the result is the name of a per-user or software hive, with a root, at one of the listed offsets. |
| AutorunsPlugin.AsepList | autoruns.py:342-345 | Without an ASEP-TYPE option, or with an empty one, all four types are selected. |
| AutorunsPlugin.AsepListJoins | autoruns.py:343 | A non-empty ASEP-TYPE is cut at its commas and nothing else: joining the pieces with commas gives it back. |
| AutorunsPlugin.SpaceAfterCommaDeselects | autoruns.py:343 | The pieces are not trimmed, so `autoruns, services` does not select `services`. |
| AutorunsPlugin.Autoruns.constructor | autoruns.py:106-118 | The plugin starts with the VERBOSE and ASEP-TYPE options it was given, and with an empty inventory and empty result lists. |
| AutorunsPlugin.Autoruns.ScanServices | autoruns.py:355-356 | When selected, the services field holds the scan's list unless the scan fails, and the error is the scan's. |
| AutorunsPlugin.Autoruns.ScanAppinit | autoruns.py:357-358 | When selected, the AppInit_DLLs field holds the list unless the value is missing or not text, and the error is the lookup's. |
| AutorunsPlugin.Autoruns.ScanWinlogon | autoruns.py:359-361 | An absent Winlogon key fails before either list is filled. Otherwise it fills the Winlogon values, then the registrations unless a package lacks a DllName value, and returns that error. |
| AutorunsPlugin.Autoruns.ScanLate | autoruns.py:357-361 | An AppInit_DLLs failure stops both Winlogon scans, and so does an absent Winlogon key. A missing DllName stops only the registrations. Every stage reached holds its result, and every other list stays empty. |
| AutorunsPlugin.Autoruns.ScanRest | autoruns.py:355-361 | A services failure stops everything after it, and the later lists stay empty. Otherwise the services hold their list when selected, and the rest goes on as for the AppInit_DLLs and Winlogon part. |
| AutorunsPlugin.Autoruns.Calculate | autoruns.py:339-361 | The inventory is the one given. The Run-key groups are exactly those `get_autoruns` promises when selected, and empty otherwise. The other lists are filled in order for the selected types, and the first error stops the scan with the lists after it empty. |

## Left out

- Reading hives and processes out of a memory image is not part of this model. That covers `utils.load_as`, `win32.tasks.pslist`, `hivelist`, `HiveAddressSpace`, `rawreg.get_root` and `obj.Object`. The process inventory (`get_dll_list`, autoruns.py:122-128) is a parameter of `calculate`, as are the hive offsets and the hive behind each offset.
- `registryapi` is not part of this model. The SOFTWARE and SYSTEM roots and the current control set that `reg_get_key`, `reg_get_all_subkeys` and `reg_get_currentcontrolset` would find are parameters. An absent key reads as having no values and no sub-keys. The value lookup `reg_get_value` is taken to return the decoded data of the first value whose name equals the wanted one exactly, and nothing when there is none.
- `hive_name` (autoruns.py:150-154) is not modelled: each hive arrives with its name.
- The `debug.error` call for a missing root when a HIVE-OFFSET was given (autoruns.py:297-299) is left out; such hives are skipped, as they are without that option.
- The `ntuser_hive_roots`, `software_hive_root` and `system_hive_root` locals of `get_autoruns` are never read, so they are not modelled.
- The hex dump of `REG_BINARY`/`REG_NONE` data arrives already rendered, beside the raw bytes. The `backslashreplace` ASCII encoding of strings is not modelled, since strings stay sequences of characters.
- `str` of a `REG_MULTI_SZ` list is simplified to `['a', 'b']`. The items get no `repr` escaping, so backslashes are not doubled and quotes are not escaped. A multi-string Run, Winlogon or service value holding a path therefore renders, and correlates, with single backslashes where Python has doubled ones.
- Strings.ParseInt: `int()` is modelled as an optional sign followed by ASCII digits. The leading and trailing whitespace Python also accepts is not modelled.
- `process_dict` only ever holds processes with a PEB, so the `Peb` test at autoruns.py:138 always passes and is not modelled.
- The rendering of results (`render_table`, `render_text` and the plugin's output) is outside the modelled core.
- AutorunsPlugin.Autoruns.GetAutoruns: results are grouped per hive name, so two hives with the same name share one group map. The later hive wins a clash on (key path, timestamp). The contract states soundness and completeness per group, not which hive wins such a clash.
- Iteration order of dictionaries and sets is not modelled: `parse_autoruns_key`, `get_winlogon` and `find_pids_for_imagepath` are specified up to the order of their results.
- AutorunsPlugin.Autoruns.ParseWinlogonRegistrationKey: when several value names lower-case to `dllname`, the one Python keeps depends on dictionary order. The contract says only that one of them is used.
