/** Which hives the Run-key scan looks at, and which keys it opens in each. */
module Hives {
  import opened Strings
  import opened Tables

  datatype HiveKind = NtUserHive | SoftwareHive | SystemHive | Irrelevant

  /** The lower-cased last `\`-separated component of a hive's name. */
  function FileComponent(name: string): string {
    Lower(Last(Split(name, '\\')))
  }

  /** Classification by file name; `ntuser.dat` wins over `software`, which wins over `system`. */
  function Classify(name: string): HiveKind {
    var file := FileComponent(name);
    if Contains(file, "ntuser.dat") then NtUserHive
    else if Contains(file, "software") then SoftwareHive
    else if Contains(file, "system") then SystemHive
    else Irrelevant
  }

  /** The Run keys scanned in a hive of each kind; SYSTEM and other hives have none. */
  function RunKeysFor(kind: HiveKind): (keys: seq<string>)
    ensures kind == SystemHive || kind == Irrelevant ==> keys == []
    ensures kind == NtUserHive ==> |keys| == 10
    ensures kind == SoftwareHive ==> |keys| == 9
  {
    match kind
    case NtUserHive => NtuserRunKeys
    case SoftwareHive => SoftwareRunKeys
    case _ => []
  }

  /** Only the file name matters, not the directories in front of it. */
  lemma {:induction false} ClassifyByFileName(dir: string, file: string)
    requires '\\' !in file
    ensures Classify(dir + "\\" + file) == Classify(file)
  {
    LastSplitAfterSeparator(dir, file, '\\');
    SplitPiece(file, '\\');
  }

  /** Classification ignores the case of the hive name. */
  lemma {:induction false} ClassifyIgnoresCase(name: string)
    ensures Classify(Upper(name)) == Classify(name)
  {
    SplitUpper(name, '\\');
    var parts := Split(name, '\\');
    LowerOfUpper(Last(parts));
  }

  /** Upper-casing before splitting on a non-letter upper-cases each piece. */
  lemma {:induction false} SplitUpper(s: string, sep: char)
    requires !('a' <= sep <= 'z') && !('A' <= sep <= 'Z')
    ensures |Split(Upper(s), sep)| == |Split(s, sep)|
    ensures forall i :: 0 <= i < |Split(s, sep)| ==> Split(Upper(s), sep)[i] == Upper(Split(s, sep)[i])
    decreases |s|
  {
    if s != [] {
      SplitUpper(s[1..], sep);
      assert Upper(s)[1..] == Upper(s[1..]);
      var rest := Split(s[1..], sep);
      if s[0] != sep {
        assert Upper([s[0]] + rest[0]) == [UpperChar(s[0])] + Upper(rest[0]);
      }
    }
  }
}
