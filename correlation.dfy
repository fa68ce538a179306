/**
 * The process inventory and `find_pids_for_imagepath`: which running processes
 * plausibly correspond to a path found in the registry.
 */
module Correlation {
  import opened Wrappers
  import opened Strings
  import opened Sequences
  import opened PathNormalizer

  /**
   * One entry of `process_dict`: the command line from the process environment
   * block and the full names of the loaded modules, any of which may be missing.
   */
  datatype Process = Process(cmdline: Option<string>, modules: seq<Option<string>>)

  /** Python's `x or default` for a string that may be None or empty. */
  function OrDefault(x: Option<string>, default: string): string {
    if x.Some? && x.value != "" then x.value else default
  }

  function CmdlineText(p: Process): string {
    OrDefault(p.cmdline, "[no cmdline]")
  }

  function DllText(m: Option<string>): string {
    OrDefault(m, "[no dllname]")
  }

  /** The matching rule for an already sanitised reference `needle`. */
  predicate Matches(p: Process, needle: string) {
    || Contains(Sanitize(CmdlineText(p)), needle)
    || exists i :: 0 <= i < |p.modules| && Contains(Sanitize(DllText(p.modules[i])), needle)
  }

  /** The pids correlated with `reference`; none when it sanitises to "". */
  function CorrelatedPids(procs: map<int, Process>, reference: string): set<int> {
    var needle := Sanitize(reference);
    if needle == "" then {} else set pid | pid in procs && Matches(procs[pid], needle)
  }

  /** `pids` is a possible result of `find_pids_for_imagepath(reference)`. */
  predicate PidsFor(procs: map<int, Process>, reference: string, pids: seq<int>) {
    && NoDup(pids)
    && Elems(pids) == CorrelatedPids(procs, reference)
  }

  /** A reference that sanitises to the empty string matches nothing. */
  lemma EmptyReferenceMatchesNothing(procs: map<int, Process>, reference: string, pids: seq<int>)
    requires Sanitize(reference) == ""
    requires PidsFor(procs, reference, pids)
    ensures pids == []
  {
    NoDupCard(pids);
  }

  /** Every correlated pid is a pid of the inventory, at most once. */
  lemma PidsWithinInventory(procs: map<int, Process>, reference: string, pids: seq<int>)
    requires PidsFor(procs, reference, pids)
    ensures Elems(pids) <= procs.Keys
    ensures |pids| <= |procs|
  {
    NoDupCard(pids);
    assert Elems(pids) <= procs.Keys;
    SubsetCard(Elems(pids), procs.Keys);
  }

  /** Adding a process never removes a pid from the result. */
  lemma CorrelationMonotone(procs: map<int, Process>, pid: int, p: Process, reference: string)
    requires pid !in procs
    ensures CorrelatedPids(procs, reference) <= CorrelatedPids(procs[pid := p], reference)
  {
  }

  /**
   * Adding a process whose command line contains the sanitised reference adds
   * exactly that pid.
   */
  lemma AddingMatchingProcess(procs: map<int, Process>, pid: int, p: Process, reference: string)
    requires pid !in procs
    requires Sanitize(reference) != ""
    requires Contains(Sanitize(CmdlineText(p)), Sanitize(reference))
    ensures CorrelatedPids(procs[pid := p], reference) == CorrelatedPids(procs, reference) + {pid}
  {
    var needle := Sanitize(reference);
    assert Matches(p, needle);
    forall q | q in CorrelatedPids(procs[pid := p], reference)
      ensures q in CorrelatedPids(procs, reference) + {pid}
    {
      if q != pid {
        assert procs[pid := p][q] == procs[q];
      }
    }
  }

  /** A process started with exactly the registered command line is found. */
  lemma RegisteredCommandLineIsFound(procs: map<int, Process>, pid: int, reference: string)
    requires pid in procs && procs[pid].cmdline == Some(reference)
    requires Sanitize(reference) != ""
    ensures pid in CorrelatedPids(procs, reference)
  {
    assert reference != "";
    assert CmdlineText(procs[pid]) == reference;
    ContainsItself(Sanitize(reference));
  }
}
