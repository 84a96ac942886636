/**
 Resolving a conflict backup: keep it in place of the file, drop it, or keep both under a new name.
 */
module ConflictResolution {
  import opened Basics
  import opened BackupNames

  datatype Error = NotABackup | BackupMissing | UnknownAction

  datatype Result = Resolved(loser: string) | Refused(error: Error)

  // ----- candidate names

  /** The extension of a file name with its dot: what follows the stem. */
  function Extension(name: string): string {
    name[|Stem(name)|..]
  }

  /** The text put between stem and extension; the first candidate carries no number. */
  function Mark(suffix: string, n: nat): string {
    if n <= 1 then " (" + suffix + ")" else " (" + suffix + " " + Decimal(n) + ")"
  }

  function Suffix(loser: string): string {
    if loser == "local" then "this device" else "other device"
  }

  /** A path without the separators at its end, which `Path` ignores when it takes a path apart. */
  function Trimmed(p: Path): (r: Path)
    ensures r <= p && (r != "" ==> r[|r| - 1] != '/')
    ensures forall i :: |r| <= i < |p| ==> p[i] == '/'
  {
    if p != "" && p[|p| - 1] == '/' then Trimmed(p[..|p| - 1]) else p
  }

  /** The last name of a path; empty only if the path is. */
  function LastName(p: Path): string {
    FileName(Trimmed(p))
  }

  /** The directory of a path with its separator. */
  function Parent(p: Path): string {
    Trimmed(p)[..FileNameStart(Trimmed(p))]
  }

  function StemOf(winner: Path): string {
    if LastName(winner) == "" then "file" else Stem(LastName(winner))
  }

  /** The name that is tried: the mark goes between stem and extension. */
  function CandidateName(winner: Path, loser: string, n: nat): string {
    StemOf(winner) + Mark(Suffix(loser), n) + Extension(LastName(winner))
  }

  function Candidate(winner: Path, loser: string, n: nat): Path {
    Parent(winner) + CandidateName(winner, loser, n)
  }

  /** The parts of a path that is put together from a directory and a name. */
  lemma {:induction false} PartsOf(dir: string, name: string)
    requires (dir != "" ==> dir[|dir| - 1] == '/') && name != "" && '/' !in name
    ensures Parent(dir + name) == dir && LastName(dir + name) == name
  {
    var p := dir + name;
    assert p[|p| - 1] == name[|name| - 1] && name[|name| - 1] in name;
    assert Trimmed(p) == p;
    assert forall i :: |dir| <= i < |p| ==> p[i] == name[i - |dir|];
    FileNameStartUnique(p, |dir|);
    assert p[|dir|..] == name && p[..|dir|] == dir;
  }

  /** The mark: the suffix in brackets, from the second candidate on with its number. */
  lemma {:induction false} MarkReads(suffix: string, n: nat)
    requires n >= 1
    ensures n == 1 ==> Mark(suffix, n) == " (" + suffix + ")"
    ensures n > 1 ==> Mark(suffix, n) == " (" + suffix + " " + Decimal(n) + ")"
  {
  }

  /** The words for a loser: "local" is this device, everything else another one. */
  lemma {:induction false} SuffixReads(loser: string)
    ensures Suffix("local") == "this device"
    ensures loser != "local" ==> Suffix(loser) == "other device"
  {
  }

  lemma {:induction false} ExtensionAfterDot(stem: string, ext: string)
    requires stem != "" && '.' !in ext
    ensures Stem(stem + "." + ext) == stem && Extension(stem + "." + ext) == "." + ext
  {
    StemBeforeDot(stem, ext);
    assert (stem + "." + ext)[|stem|..] == "." + ext;
  }

  /** What the candidates look like: in the file's directory, the mark between its stem and its extension. */
  lemma {:induction false} CandidateReads(dir: string, name: string, stem: string, ext: string, loser: string, n: nat)
    requires (dir != "" ==> dir[|dir| - 1] == '/') && '/' !in name && stem != "" && '.' !in ext
    requires name == stem + "." + ext
    ensures Candidate(dir + name, loser, n) == dir + (stem + Mark(Suffix(loser), n) + ("." + ext))
  {
    PartsOf(dir, name);
    ExtensionAfterDot(stem, ext);
  }

  lemma {:induction false} CandidatesDiffer(winner: Path, loser: string, m: nat, n: nat)
    requires 1 <= m < n
    ensures Candidate(winner, loser, m) != Candidate(winner, loser, n)
  {
    MarksDiffer(Suffix(loser), m, n);
    InsertionsDiffer(StemOf(winner), Mark(Suffix(loser), m), Mark(Suffix(loser), n), Extension(LastName(winner)));
    PrefixDiffers(Parent(winner), CandidateName(winner, loser, m), CandidateName(winner, loser, n));
  }

  lemma {:induction false} PrefixDiffers(dir: string, a: string, b: string)
    requires a != b
    ensures dir + a != dir + b
  {
    assert (dir + a)[|dir|..] == a && (dir + b)[|dir|..] == b;
  }

  lemma {:induction false} InsertionsDiffer(stem: string, a: string, b: string, ext: string)
    requires a != b
    ensures stem + a + ext != stem + b + ext
  {
    var s, t, k := stem + a + ext, stem + b + ext, |stem|;
    assert s[k..k + |a|] == a && t[k..k + |b|] == b;
    assert |a| == |b| || |s| != |t|;
  }

  lemma {:induction false} MarksDiffer(suffix: string, m: nat, n: nat)
    requires 1 <= m < n
    ensures Mark(suffix, m) != Mark(suffix, n)
  {
    ValueOfDecimal(m);
    ValueOfDecimal(n);
    var d, e := Decimal(m), Decimal(n);
    var k := |suffix| + 3;
    assert Mark(suffix, n)[k..k + |e|] == e;
    assert m > 1 && |d| == |e| ==> Mark(suffix, m)[k..k + |d|] == d;
  }

  /** Pairwise different names that are all taken are no more than there are names in use. */
  lemma {:induction false} TriedBounded(taken: set<Path>, winner: Path, loser: string, n: nat)
    requires forall i :: 1 <= i <= n ==> Candidate(winner, loser, i) in taken
    ensures n <= |taken|
  {
    if n > 0 {
      var last := Candidate(winner, loser, n);
      var others := taken - {last};
      forall i | 1 <= i <= n - 1 ensures Candidate(winner, loser, i) in others {
        CandidatesDiffer(winner, loser, i, n);
      }
      TriedBounded(others, winner, loser, n - 1);
      assert |taken| == |others| + 1;
    }
  }

  // ----- the result is not a conflict any more

  /** Putting a mark into a name without the tag does not create the tag. */
  lemma {:induction false} MarkAddsNoTag(stem: string, suffix: string, n: nat, ext: string)
    requires suffix == "this device" || suffix == "other device"
    requires forall i :: 0 <= i ==> !OccursAt(stem + ext, TAG, i)
    ensures forall i :: 0 <= i ==> !OccursAt(stem + Mark(suffix, n) + ext, TAG, i)
  {
    MarkChars(suffix, n);
    forall i | 0 <= i ensures !OccursAt(stem + Mark(suffix, n) + ext, TAG, i) {
      InsertionAddsNoTag(stem, Mark(suffix, n), ext, i);
    }
  }

  /** A tag would have to lie beside the inserted text, start inside it, or run over its first character. */
  lemma {:induction false} InsertionAddsNoTag(stem: string, mark: string, ext: string, i: nat)
    requires |mark| > 0 && mark[0] == ' ' && '.' !in mark
    requires forall i :: 0 <= i ==> !OccursAt(stem + ext, TAG, i)
    ensures !OccursAt(stem + mark + ext, TAG, i)
  {
    var s, t := stem + mark + ext, stem + ext;
    if i + |TAG| <= |s| {
      var there := s[i..i + |TAG|];
      if i + |TAG| <= |stem| {
        assert there == t[i..i + |TAG|] && !OccursAt(t, TAG, i);
      } else if i >= |stem| + |mark| {
        var k := i - |mark|;
        assert there == t[k..k + |TAG|] && !OccursAt(t, TAG, k);
      } else if i < |stem| {
        assert s[|stem|] == (stem + mark)[|stem|] == mark[0];
        assert there[|stem| - i] == s[|stem|] == ' ';
        assert forall j :: 0 <= j < |TAG| ==> TAG[j] != ' ';
      } else {
        var k := i - |stem|;
        assert s[i] == (stem + mark)[i] == mark[k] && mark[k] in mark;
        assert there[0] == s[i] && TAG[0] == '.';
      }
    }
  }

  lemma {:induction false} MarkChars(suffix: string, n: nat)
    requires suffix == "this device" || suffix == "other device"
    ensures var m := Mark(suffix, n); |m| > 0 && m[0] == ' ' && '.' !in m && '/' !in m
  {
    assert forall i :: 0 <= i < |Decimal(n)| ==> IsDigit(Decimal(n)[i]);
    assert '.' !in Decimal(n) && '/' !in Decimal(n);
    assert '.' !in suffix && '/' !in suffix;
  }

  /** Appending a name without separators to a directory makes it the file name. */
  lemma {:induction false} AppendName(dir: string, name: string)
    requires (dir != "" ==> dir[|dir| - 1] == '/') && '/' !in name
    ensures FileName(dir + name) == name
  {
    var p := dir + name;
    assert forall i :: |dir| <= i < |p| ==> p[i] == name[i - |dir|];
    FileNameStartUnique(p, |dir|);
    assert p[|dir|..] == name;
  }

  /** Stem and extension make up the last name, or stand in for it when there is none. */
  lemma {:induction false} WholeName(winner: Path)
    ensures StemOf(winner) + Extension(LastName(winner)) == if LastName(winner) == "" then "file" else LastName(winner)
  {
    var name := LastName(winner);
    assert Stem(name) + Extension(name) == name;
  }

  lemma {:induction false} NoSlash(winner: Path, loser: string, n: nat)
    ensures '/' !in CandidateName(winner, loser, n)
  {
    var name := LastName(winner);
    assert '/' !in name;
    assert '/' !in Stem(name) && '/' !in Extension(name);
    MarkChars(Suffix(loser), n);
    var a, b := StemOf(winner) + Mark(Suffix(loser), n), Extension(name);
    assert '/' !in a;
    assert forall c :: c in a + b ==> c in a || c in b;
  }

  /** The mark goes into the file name and leaves the directory alone. */
  lemma {:induction false} CandidateFileName(winner: Path, loser: string, n: nat)
    ensures FileName(Candidate(winner, loser, n)) == CandidateName(winner, loser, n)
  {
    NoSlash(winner, loser, n);
    AppendName(Parent(winner), CandidateName(winner, loser, n));
  }

  /** A candidate for a file whose own name carries no tag is not listed as a conflict. */
  lemma {:induction false} CandidateNotAConflict(winner: Path, loser: string, n: nat)
    requires RFind(LastName(winner), TAG).None?
    ensures ParseConflictSuffix(FileName(Candidate(winner, loser, n))) == None
  {
    CandidateFileName(winner, loser, n);
    WholeName(winner);
    MarkAddsNoTag(StemOf(winner), Suffix(loser), n, Extension(LastName(winner)));
  }

  // ----- resolving

  /** How often a content occurs in a folder. */
  ghost function Copies(files: Files, data: Bytes): nat {
    |set p | p in files && files[p] == data|
  }

  /** Moving a file to an unused name changes no content and no count. */
  lemma {:induction false} RenameKeepsContents(files: Files, from: Path, to: Path, data: Bytes)
    requires from in files && to !in files
    ensures Copies((files - {from})[to := files[from]], data) == Copies(files, data)
  {
    var after := (files - {from})[to := files[from]];
    var had, has := (set p | p in files && files[p] == data), (set p | p in after && after[p] == data);
    if files[from] == data {
      assert has == (had - {from}) + {to};
    } else {
      assert has == had;
    }
  }

  /** The number of the first unused candidate. */
  ghost predicate FirstFree(files: Files, winner: Path, loser: string, n: nat) {
    && n >= 1 && Candidate(winner, loser, n) !in files
    && forall i :: 1 <= i < n ==> Candidate(winner, loser, i) in files
  }

  /** The name of a conflict backup. */
  ghost predicate IsBackup(backup: Path) {
    ParseConflictSuffix(FileName(backup)).Some? && WinnerPath(backup).Some?
  }

  ghost predicate IsAction(action: string) {
    action == "keep_backup" || action == "keep_original" || action == "keep_both"
  }

  class Folder {
    var files: Files

    constructor (files: Files)
      ensures this.files == files
    {
      this.files := files;
    }

    /** Search for an unused name: the plain mark first, then numbered ones. */
    method FreshName(winner: Path, loser: string) returns (name: Path, n: nat)
      requires |files| < 0xffff_ffff - 1  // the 32-bit counter does not overflow
      ensures n <= |files| + 1 && name == Candidate(winner, loser, n) && FirstFree(files, winner, loser, n)
    {
      n := 1;
      name := Candidate(winner, loser, 1);
      var counter := 2;
      while name in files
        invariant counter == n + 1 && 1 <= n <= |files| + 1 && counter < 0x1_0000_0000
        invariant name == Candidate(winner, loser, n)
        invariant forall i :: 1 <= i < n ==> Candidate(winner, loser, i) in files
        decreases |files| + 1 - n
      {
        TriedBounded(files.Keys, winner, loser, n);
        name := Candidate(winner, loser, counter);
        n := counter;
        counter := counter + 1;
      }
    }

    /** Carry out one of the three actions on a conflict backup. */
    method Resolve(backup: Path, action: string) returns (result: Result)
      requires action == "keep_both" ==> |files| < 0xffff_ffff - 1
      modifies this`files
      ensures result == Refused(NotABackup) <==> !IsBackup(backup)
      ensures result == Refused(BackupMissing) <==> IsBackup(backup) && backup !in old(files)
      ensures result == Refused(UnknownAction) <==> IsBackup(backup) && backup in old(files) && !IsAction(action)
      ensures result.Resolved? <==> IsBackup(backup) && backup in old(files) && IsAction(action)
      ensures result.Refused? ==> files == old(files)
      ensures result.Resolved? ==>
        var parts, winner := ParseConflictSuffix(FileName(backup)), WinnerPath(backup);
        && backup in old(files) && parts.Some? && winner.Some? && result.loser == parts.value.1
        && match action
           case "keep_backup" => files == old(files)[winner.value := old(files)[backup]] - {backup}
           case "keep_original" => files == old(files) - {backup}
           case "keep_both" =>
             exists n :: FirstFree(old(files), winner.value, result.loser, n) &&
               files == (old(files) - {backup})[Candidate(winner.value, result.loser, n) := old(files)[backup]]
           case _ => false
      // keeping both loses no content and overwrites nothing
      ensures action == "keep_both" && result.Resolved? ==>
        && (forall data :: Copies(files, data) == Copies(old(files), data))
        && (forall p :: p in old(files) && p != backup ==> p in files && files[p] == old(files)[p])
    {
      var parts := ParseConflictSuffix(FileName(backup));
      var winner := WinnerPath(backup);
      if parts.None? || winner.None? {
        return Refused(NotABackup);
      }
      if backup !in files {
        return Refused(BackupMissing);
      }
      var loser := parts.value.1;
      match action {
        case "keep_backup" =>
          files := files[winner.value := files[backup]];
          files := files - {backup};
          return Resolved(loser);
        case "keep_original" =>
          files := files - {backup};
          return Resolved(loser);
        case "keep_both" =>
          var name, n := FreshName(winner.value, loser);
          forall data ensures Copies((files - {backup})[name := files[backup]], data) == Copies(files, data) {
            RenameKeepsContents(files, backup, name, data);
          }
          files := (files - {backup})[name := files[backup]];
          return Resolved(loser);
        case _ =>
          return Refused(UnknownAction);
      }
    }
  }
}
