/**
 Names of conflict backups: how a session prints them, how the conflict inventory parses them, and
 why the two agree for every file name.
 */
module BackupNames {
  import opened Basics

  const TAG: string := ".ferrisync-conflict-"

  // ----- decimal numbers

  predicate IsDigit(c: char) {
    '0' <= c <= '9'
  }

  predicate AllDigits(s: string) {
    forall i :: 0 <= i < |s| ==> IsDigit(s[i])
  }

  function Decimal(n: nat): (s: string)
    ensures |s| > 0 && AllDigits(s)
  {
    var d := [('0' as int + n % 10) as char];
    if n < 10 then d else Decimal(n / 10) + d
  }

  function Value(s: string): nat
    requires AllDigits(s)
  {
    if s == [] then 0 else 10 * Value(s[..|s| - 1]) + (s[|s| - 1] as int - '0' as int)
  }

  lemma {:induction false} ValueOfDecimal(n: nat)
    ensures Value(Decimal(n)) == n
  {
    var d := [('0' as int + n % 10) as char];
    if n < 10 {
      assert Decimal(n) == d && d[..0] == [];
    } else {
      ValueOfDecimal(n / 10);
      assert (Decimal(n / 10) + d)[..|Decimal(n / 10)|] == Decimal(n / 10);
    }
  }

  /** Rust's `str::parse::<u64>`: an optional plus sign, at least one digit, no overflow. */
  function ParseU64(s: string): Option<U64> {
    var digits := if |s| > 0 && s[0] == '+' then s[1..] else s;
    if |digits| > 0 && AllDigits(digits) && Value(digits) < 0x1_0000_0000_0000_0000
    then Some(Value(digits)) else None
  }

  // ----- searching strings

  predicate OccursAt(s: string, pat: string, i: nat) {
    i + |pat| <= |s| && s[i..i + |pat|] == pat
  }

  /** The last place, at or before `from`, where `pat` occurs. */
  function RFindFrom(s: string, pat: string, from: nat): (r: Option<nat>)
    ensures r.Some? ==> OccursAt(s, pat, r.value) && r.value <= from
    ensures r.Some? ==> forall j :: r.value < j <= from ==> !OccursAt(s, pat, j)
    ensures r.None? ==> forall j :: 0 <= j <= from ==> !OccursAt(s, pat, j)
  {
    if OccursAt(s, pat, from) then Some(from)
    else if from == 0 then None
    else RFindFrom(s, pat, from - 1)
  }

  function RFind(s: string, pat: string): (r: Option<nat>)
    ensures r.Some? ==> OccursAt(s, pat, r.value) && forall j :: r.value < j ==> !OccursAt(s, pat, j)
    ensures r.None? ==> forall j :: 0 <= j ==> !OccursAt(s, pat, j)
  {
    RFindFrom(s, pat, |s|)
  }

  /** The first place where a character occurs. */
  function IndexOf(s: string, c: char): (r: Option<nat>)
    ensures r.Some? ==> r.value < |s| && s[r.value] == c && forall j :: 0 <= j < r.value ==> s[j] != c
    ensures r.None? ==> c !in s
  {
    if s == [] then None
    else if s[0] == c then Some(0)
    else
      match IndexOf(s[1..], c)
      case Some(i) => assert forall j :: 0 < j <= i ==> s[j] == s[1..][j - 1]; Some(i + 1)
      case None => assert s == [s[0]] + s[1..]; None
  }

  lemma {:induction false} IndexOfSplit(a: string, c: char, b: string)
    requires c !in a
    ensures IndexOf(a + [c] + b, c) == Some(|a|)
  {
    var s := a + [c] + b;
    assert s[|a|] == c;
    assert forall j :: 0 <= j < |a| ==> s[j] == a[j] && a[j] in a;
  }

  // ----- printing and parsing

  /** The parts that follow the tag in a backup's name. */
  function Tail(ts: U64, loser: string, hash: string): string {
    Decimal(ts) + "-" + loser + "-" + hash
  }

  function BackupPath(p: Path, ts: U64, loser: string, hash: string): Path {
    p + TAG + Tail(ts, loser, hash)
  }

  predicate IsHex(c: char) {
    '0' <= c <= '9' || 'a' <= c <= 'f'
  }

  /** What `backup_on_conflict` supplies: a loser without separators and a hash prefix in hexadecimal. */
  ghost predicate PrintableParts(loser: string, hash: string) {
    && |loser| > 0 && '-' !in loser && '.' !in loser && '/' !in loser
    && |hash| > 0 && forall i :: 0 <= i < |hash| ==> IsHex(hash[i])
  }

  /** `{number}-{loser}-{hash}`, where the hash is everything after the second separator. */
  function ParseTail(tail: string): Option<(U64, string, string)> {
    match IndexOf(tail, '-')
    case None => None  // either no number, or a number with nothing after it
    case Some(i) =>
      match ParseU64(tail[..i])
      case None => None
      case Some(ts) =>
        var rest := tail[i + 1..];
        match IndexOf(rest, '-')
        case None => None
        case Some(j) =>
          if j == 0 then None else Some((ts, rest[..j], rest[j + 1..]))
  }

  function ParseConflictSuffix(name: string): Option<(U64, string, string)> {
    match RFind(name, TAG)
    case None => None
    case Some(idx) => ParseTail(name[idx + |TAG|..])
  }

  /** Directory and file name of a relative path; no file name when it ends in a separator. */
  function FileNameStart(p: Path): nat
    ensures FileNameStart(p) <= |p|
    ensures forall i :: FileNameStart(p) <= i < |p| ==> p[i] != '/'
    ensures FileNameStart(p) > 0 ==> p[FileNameStart(p) - 1] == '/'
  {
    match RFind(p, "/")
    case None =>
      assert forall i :: 0 <= i < |p| ==> !OccursAt(p, "/", i) && p[i..i + 1] == [p[i]];
      0
    case Some(i) =>
      assert p[i..i + 1] == "/" && p[i] == '/';
      assert forall j :: i < j < |p| ==> !OccursAt(p, "/", j) && p[j..j + 1] == [p[j]];
      i + 1
  }

  function FileName(p: Path): string {
    p[FileNameStart(p)..]
  }

  function WinnerPath(backup: Path): Option<Path> {
    var start := FileNameStart(backup);
    var name := FileName(backup);
    if name == [] then None
    else
      match RFind(name, TAG)
      case None => None
      case Some(idx) =>
        // a non-empty parent directory is put back with its separator
        if start <= 1 then Some(name[..idx]) else Some(backup[..start - 1] + "/" + name[..idx])
  }

  /** Nothing after the tag can be mistaken for another tag, so the last tag is the printed one. */
  lemma {:induction false} LastTag(p: string, ts: U64, loser: string, hash: string)
    requires PrintableParts(loser, hash)
    ensures RFind(BackupPath(p, ts, loser, hash), TAG) == Some(|p|)
  {
    var tail := Tail(ts, loser, hash);
    var s := BackupPath(p, ts, loser, hash);
    assert s[|p|..|p| + |TAG|] == TAG;
    assert OccursAt(s, TAG, |p|);
    TailHasNo(ts, loser, hash, '.');
    forall j | |p| < j ensures !OccursAt(s, TAG, j) {
      if j < |s| {
        assert s[j] == if j < |p| + |TAG| then TAG[j - |p|] else tail[j - |p| - |TAG|];
        assert j + |TAG| <= |s| ==> s[j..j + |TAG|][0] == s[j];
      }
    }
  }

  lemma {:induction false} TailHasNo(ts: U64, loser: string, hash: string, c: char)
    requires PrintableParts(loser, hash) && c in {'.', '/'}
    ensures c !in Tail(ts, loser, hash)
  {
    var d := Decimal(ts);
    var tail := Tail(ts, loser, hash);
    forall i | 0 <= i < |tail| ensures tail[i] != c {
      if i < |d| {
        assert tail[i] == d[i];
      } else if |d| < i <= |d| + |loser| {
        assert tail[i] == loser[i - |d| - 1] && loser[i - |d| - 1] in loser;
      } else if i > |d| + |loser| + 1 {
        assert tail[i] == hash[i - |d| - |loser| - 2];
      }
    }
  }

  lemma {:induction false} ParsePrintedTail(ts: U64, loser: string, hash: string)
    requires PrintableParts(loser, hash)
    ensures ParseTail(Tail(ts, loser, hash)) == Some((ts, loser, hash))
  {
    var d := Decimal(ts);
    var rest := loser + ['-'] + hash;
    var tail := Tail(ts, loser, hash);
    assert '-' !in d && d[0] != '+';
    assert tail == d + ['-'] + rest;
    ValueOfDecimal(ts);
    PrintedTailParses(d, ts, loser, hash);
  }

  /** Parsing a printed backup name gives back its parts, whatever the file was called. */
  lemma {:induction false} ParsePrinted(name: string, ts: U64, loser: string, hash: string)
    requires PrintableParts(loser, hash)
    ensures ParseConflictSuffix(BackupPath(name, ts, loser, hash)) == Some((ts, loser, hash))
  {
    LastTag(name, ts, loser, hash);
    assert BackupPath(name, ts, loser, hash)[|name| + |TAG|..] == Tail(ts, loser, hash);
    ParsePrintedTail(ts, loser, hash);
  }

  /** A number, a loser and a hash with separators between them parse into just these. */
  lemma {:induction false} PrintedTailParses(number: string, ts: U64, loser: string, hash: string)
    requires '-' !in number && ParseU64(number) == Some(ts) && loser != "" && '-' !in loser
    ensures ParseTail(number + ['-'] + (loser + ['-'] + hash)) == Some((ts, loser, hash))
  {
    var rest := loser + ['-'] + hash;
    var tail := number + ['-'] + rest;
    IndexOfSplit(number, '-', rest);
    assert tail[..|number|] == number && tail[|number| + 1..] == rest;
    IndexOfSplit(loser, '-', hash);
    assert rest[..|loser|] == loser && rest[|loser| + 1..] == hash;
  }

  lemma {:induction false} SplitAtFirst(s: string, c: char)
    requires IndexOf(s, c).Some?
    ensures var i := IndexOf(s, c).value; s == s[..i] + [c] + s[i + 1..] && c !in s[..i]
  {
  }

  /** And nothing else parses: what follows the tag is then a number, a loser and a hash. */
  lemma {:induction false} ParsedTailIsPrinted(tail: string) returns (number: string)
    requires ParseTail(tail).Some?
    ensures var (ts, loser, hash) := ParseTail(tail).value;
      && tail == number + ['-'] + (loser + ['-'] + hash)
      && '-' !in number && ParseU64(number) == Some(ts) && loser != "" && '-' !in loser
  {
    var i := IndexOf(tail, '-').value;
    var rest := tail[i + 1..];
    number := tail[..i];
    SplitAtFirst(tail, '-');
    SplitAtFirst(rest, '-');
  }

  /** A number as the parser reads it: digits, with or without a plus sign, below 2^64. */
  lemma {:induction false} ParseU64Iff(s: string, n: U64)
    ensures ParseU64(s) == Some(n) <==>
      exists digits: string ::
        (s == digits || s == "+" + digits) && digits != "" && AllDigits(digits) && Value(digits) == n
  {
    if ParseU64(s) == Some(n) && s[0] == '+' {
      assert s == "+" + s[1..];
    }
    if digits: string :| (s == digits || s == "+" + digits) && digits != "" && AllDigits(digits) && Value(digits) == n {
      assert s != digits ==> s[1..] == digits;
      assert s == digits ==> IsDigit(s[0]);
    }
  }

  lemma {:induction false} FileNameStartUnique(p: Path, k: nat)
    requires k <= |p| && (k > 0 ==> p[k - 1] == '/')
    requires forall i :: k <= i < |p| ==> p[i] != '/'
    ensures FileNameStart(p) == k
  {
  }

  lemma {:induction false} FileNameOfBackup(p: Path, ts: U64, loser: string, hash: string)
    requires PrintableParts(loser, hash)
    ensures FileNameStart(BackupPath(p, ts, loser, hash)) == FileNameStart(p)
    ensures FileName(BackupPath(p, ts, loser, hash)) == BackupPath(FileName(p), ts, loser, hash)
  {
    var b := BackupPath(p, ts, loser, hash);
    var k := FileNameStart(p);
    TailHasNo(ts, loser, hash, '/');
    var tail := Tail(ts, loser, hash);
    forall i | k <= i < |b| ensures b[i] != '/' {
      assert b[i] == if i < |p| then p[i] else if i < |p| + |TAG| then TAG[i - |p|] else tail[i - |p| - |TAG|];
    }
    FileNameStartUnique(b, k);
    assert b[k..] == p[k..] + TAG + tail;
  }

  /**
   The inventory recovers from a backup exactly the file it was made for, with the parts that were
   printed: for every directory, every file name (also one that already carries the tag), every time
   stamp, loser and hash prefix.
   */
  lemma {:induction false} BackupRoundTrip(p: Path, ts: U64, loser: string, hash: string)
    requires PrintableParts(loser, hash) && (|p| > 0 ==> p[0] != '/')
    ensures ParseConflictSuffix(FileName(BackupPath(p, ts, loser, hash))) == Some((ts, loser, hash))
    ensures WinnerPath(BackupPath(p, ts, loser, hash)) == Some(p)
  {
    FileNameOfBackup(p, ts, loser, hash);
    ParsePrinted(FileName(p), ts, loser, hash);
    WinnerOfBackup(p, ts, loser, hash);
  }

  lemma {:induction false} WinnerOfBackup(p: Path, ts: U64, loser: string, hash: string)
    requires PrintableParts(loser, hash) && (|p| > 0 ==> p[0] != '/')
    ensures WinnerPath(BackupPath(p, ts, loser, hash)) == Some(p)
  {
    FileNameOfBackup(p, ts, loser, hash);
    LastTag(FileName(p), ts, loser, hash);
    var b := BackupPath(p, ts, loser, hash);
    var k := FileNameStart(p);
    assert FileName(b)[..|FileName(p)|] == FileName(p);
    if k > 0 {
      assert b[..k - 1] == p[..k - 1];
      assert p == p[..k - 1] + "/" + p[k..];
    }
  }

  /** Backups of different paths never share a name. */
  lemma {:induction false} BackupInjective(p: Path, ts: U64, loser: string, hash: string,
                        p': Path, ts': U64, loser': string, hash': string)
    requires PrintableParts(loser, hash) && PrintableParts(loser', hash')
    requires BackupPath(p, ts, loser, hash) == BackupPath(p', ts', loser', hash')
    ensures p == p' && ts == ts' && loser == loser' && hash == hash'
  {
    LastTag(p, ts, loser, hash);
    LastTag(p', ts', loser', hash');
    assert BackupPath(p, ts, loser, hash)[..|p|] == p;
    ParsePrinted(p, ts, loser, hash);
    ParsePrinted(p', ts', loser', hash');
  }

  // ----- the temporary name used while a file is being written

  /** The file name up to its last dot; all of it when there is no dot after the first character. */
  function Stem(name: string): string {
    match RFind(name, ".")
    case None => name
    case Some(i) => if i == 0 then name else name[..i]
  }

  /** Everything before the last dot is the stem. */
  lemma {:induction false} StemBeforeDot(name: string, rest: string)
    requires name != "" && '.' !in rest
    ensures Stem(name + "." + rest) == name
  {
    var s := name + "." + rest;
    assert s[|name|..|name| + 1] == "." && OccursAt(s, ".", |name|);
    forall j: nat | |name| < j ensures !OccursAt(s, ".", j) {
      if j < |s| {
        assert s[j] == rest[j - |name| - 1] && s[j..j + 1][0] == s[j];
      }
    }
    assert s[..|name|] == name;
  }

  /** A name without a dot after its first character is all stem. */
  lemma {:induction false} StemIsAll(name: string)
    requires forall i :: 0 < i < |name| ==> name[i] != '.'
    ensures Stem(name) == name
  {
    if RFind(name, ".").Some? {
      var i := RFind(name, ".").value;
      assert name[i..i + 1] == "." && name[i] == '.';
    }
  }

  /** What `Path::with_extension(".ferrisync-tmp")` puts after the stem: its dot is doubled. */
  const TEMP_SUFFIX: string := "..ferrisync-tmp"

  /** The extension of the file name is replaced. */
  function TempPath(p: Path): Path {
    p[..FileNameStart(p)] + Stem(FileName(p)) + TEMP_SUFFIX
  }

  /** A temporary file never collides with a backup. */
  lemma {:induction false} TempIsNoBackup(p: Path, q: Path, ts: U64, loser: string, hash: string)
    requires PrintableParts(loser, hash)
    ensures TempPath(p) != BackupPath(q, ts, loser, hash)
  {
    var t, b := TempPath(p), BackupPath(q, ts, loser, hash);
    assert t[|t| - 1] == 'p';
    assert b[|b| - 1] == hash[|hash| - 1];
  }

  /** A name that a temporary file can have. */
  predicate IsTempName(p: Path) {
    |p| >= |TEMP_SUFFIX| && p[|p| - |TEMP_SUFFIX|..] == TEMP_SUFFIX
  }

  lemma {:induction false} TempPathIsTempName(p: Path)
    ensures IsTempName(TempPath(p))
  {
  }

  lemma {:induction false} BackupIsNoTempName(q: Path, ts: U64, loser: string, hash: string)
    requires PrintableParts(loser, hash)
    ensures !IsTempName(BackupPath(q, ts, loser, hash))
  {
    var b := BackupPath(q, ts, loser, hash);
    assert b[|b| - 1] == hash[|hash| - 1];
    assert |b| >= |TEMP_SUFFIX| ==> b[|b| - |TEMP_SUFFIX|..][|TEMP_SUFFIX| - 1] == b[|b| - 1];
  }

  /** The temporary name of a backup is the backed-up path with the suffix appended, extension and all. */
  lemma {:induction false} TempOfBackup(p: Path, ts: U64, loser: string, hash: string)
    requires PrintableParts(loser, hash) && FileName(p) != ""
    ensures TempPath(BackupPath(p, ts, loser, hash)) == p + TEMP_SUFFIX
  {
    var b, k := BackupPath(p, ts, loser, hash), FileNameStart(p);
    FileNameOfBackup(p, ts, loser, hash);
    StemOfBackup(FileName(p), ts, loser, hash);
    assert b[..k] == p[..k] && p == p[..k] + FileName(p);
  }

  lemma {:induction false} StemOfBackup(name: string, ts: U64, loser: string, hash: string)
    requires PrintableParts(loser, hash) && name != ""
    ensures Stem(BackupPath(name, ts, loser, hash)) == name
  {
    var b, tail := BackupPath(name, ts, loser, hash), Tail(ts, loser, hash);
    TailHasNo(ts, loser, hash, '.');
    assert b[|name|..|name| + 1] == ".";
    assert OccursAt(b, ".", |name|);
    forall j: nat | |name| < j ensures !OccursAt(b, ".", j) {
      if j < |b| {
        assert b[j] == if j < |name| + |TAG| then TAG[j - |name|] else tail[j - |name| - |TAG|];
        assert b[j..j + 1][0] == b[j];
      }
    }
    assert b[..|name|] == name;
  }
}
