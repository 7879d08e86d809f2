/** File and directory names: backend/internal/kicad/paths.go. */
module Paths {
  import opened Decimal

  /** unicode.IsSpace. */
  predicate IsSpace(c: char) {
    || '\t' <= c <= '\r' || c == ' ' || c == '\U{0085}' || c == '\U{00A0}' || c == '\U{1680}'
    || '\U{2000}' <= c <= '\U{200A}' || c == '\U{2028}' || c == '\U{2029}' || c == '\U{202F}'
    || c == '\U{205F}' || c == '\U{3000}'
  }

  function TrimLeft(s: string): string {
    if s != "" && IsSpace(s[0]) then TrimLeft(s[1..]) else s
  }

  function TrimRight(s: string): string {
    if s != "" && IsSpace(s[|s| - 1]) then TrimRight(s[..|s| - 1]) else s
  }

  /** strings.TrimSpace. */
  function TrimSpace(s: string): string {
    TrimRight(TrimLeft(s))
  }

  predicate NoOuterSpace(s: string) {
    s == "" || (!IsSpace(s[0]) && !IsSpace(s[|s| - 1]))
  }

  /** strings.ReplaceAll(s, pat, ""): scans left to right, matches do not overlap. */
  function RemoveAll(s: string, pat: string): string
    requires pat != ""
  {
    if |s| < |pat| then s
    else if s[..|pat|] == pat then RemoveAll(s[|pat|..], pat)
    else [s[0]] + RemoveAll(s[1..], pat)
  }

  function RemoveChars(s: string, chars: set<char>): string {
    if s == "" then ""
    else if s[0] in chars then RemoveChars(s[1..], chars)
    else [s[0]] + RemoveChars(s[1..], chars)
  }

  const ILLEGAL: seq<char> := ['/', '\\', ':', '*', '?', '\"', '<', '>', '|']

  function CharSet(cs: seq<char>): set<char> {
    set c | c in cs
  }

  predicate NoDotDot(s: string) {
    forall i :: 0 <= i < |s| - 1 ==> !(s[i] == '.' && s[i + 1] == '.')
  }

  function Dots(n: nat): (s: string)
    ensures |s| == n
  {
    if n == 0 then "" else "." + Dots(n - 1)
  }

  /** One pass over the characters, then the dot pairs, then the trim. */
  function Sanitized(s: string): string {
    TrimSpace(RemoveAll(RemoveChars(s, CharSet(ILLEGAL)), ".."))
  }

  lemma {:induction false} RemoveAllChar(s: string, c: char)
    ensures RemoveAll(s, [c]) == RemoveChars(s, {c})
  {
    if s != "" {
      assert s[..1] == [s[0]];
      RemoveAllChar(s[1..], c);
    }
  }

  lemma {:induction false} RemoveTwice(s: string, a: set<char>, b: set<char>)
    ensures RemoveChars(RemoveChars(s, a), b) == RemoveChars(s, a + b)
  {
    if s != "" {
      RemoveTwice(s[1..], a, b);
      if s[0] !in a {
        var t := RemoveChars(s, a);
        assert t[0] == s[0] && t[1..] == RemoveChars(s[1..], a);
      }
    }
  }

  /** SanitizeFilename: nine passes in a loop come to one. */
  method SanitizeFilename(filename: string) returns (result: string)
    ensures result == Sanitized(filename)
  {
    hide RemoveChars, RemoveAll, TrimSpace;
    result := filename;
    RemoveNone(filename);
    for i := 0 to |ILLEGAL|
      invariant result == RemoveChars(filename, CharSet(ILLEGAL[..i]))
    {
      result := RemoveAll(result, [ILLEGAL[i]]);
      RemoveAllChar(RemoveChars(filename, CharSet(ILLEGAL[..i])), ILLEGAL[i]);
      RemoveTwice(filename, CharSet(ILLEGAL[..i]), {ILLEGAL[i]});
      assert CharSet(ILLEGAL[..i + 1]) == CharSet(ILLEGAL[..i]) + {ILLEGAL[i]};
    }
    assert ILLEGAL[..|ILLEGAL|] == ILLEGAL;
    result := RemoveAll(result, "..");
    result := TrimSpace(result);
  }

  lemma {:induction false} RemoveNone(s: string)
    ensures RemoveChars(s, CharSet(ILLEGAL[..0])) == s
  {
    if s != "" {
      RemoveNone(s[1..]);
    }
  }

  /* --------------------------------------------------- dot pairs */

  /** Left-to-right removal leaves each run of dots at its length mod 2: a run
      ends at the end of the text or at another character. */
  lemma {:induction false} DotRunParity(n: nat, rest: string)
    requires rest == "" || rest[0] != '.'
    ensures RemoveAll(Dots(n) + rest, "..") == Dots(n % 2) + RemoveAll(rest, "..")
  {
    var s := Dots(n) + rest;
    if n >= 2 {
      assert Dots(n) == "." + ("." + Dots(n - 2));
      assert s[..2] == ".." && s[2..] == Dots(n - 2) + rest;
      DotRunParity(n - 2, rest);
    } else if n == 1 {
      assert s == "." + rest && Dots(1) == ".";
      assert s[1..] == rest;
      assert rest != "" ==> s[..2] == ['.', rest[0]];
      assert rest == "" ==> RemoveAll(rest, "..") == "";
    } else {
      assert s == rest;
    }
  }

  /** The first character that is no dot stays first. */
  lemma {:induction false} RemovalLeavesNoPair(s: string)
    ensures NoDotDot(RemoveAll(s, ".."))
    ensures s != "" && s[0] != '.' ==> RemoveAll(s, "..") != "" && RemoveAll(s, "..")[0] != '.'
  {
    if |s| >= 2 {
      assert s[..2] == [s[0], s[1]];
      if s[..2] == ".." {
        RemovalLeavesNoPair(s[2..]);
      } else {
        RemovalLeavesNoPair(s[1..]);
        var t := RemoveAll(s[1..], "..");
        assert RemoveAll(s, "..") == [s[0]] + t;
        assert s[0] == '.' ==> t[0] != '.';
      }
    }
  }

  lemma NoDotStays(c: char, rest: string)
    requires c != '.'
    ensures RemoveAll([c] + rest, "..") == [c] + RemoveAll(rest, "..")
  {
    var s := [c] + rest;
    assert s[1..] == rest && s[0] == c;
    if rest == "" {
      assert s == [c] && RemoveAll(rest, "..") == "";
    } else {
      assert s[..2][0] == c;
    }
  }

  /** And all that is no dot stays, in its place: with DotRunParity this is what
      removal does to any text. */
  lemma {:induction false} NoDotsStay(s: string, rest: string)
    requires '.' !in s
    ensures RemoveAll(s + rest, "..") == s + RemoveAll(rest, "..")
  {
    hide *;
    if s == "" {
      assert s + rest == rest && s + RemoveAll(rest, "..") == RemoveAll(rest, "..");
    } else {
      NoDotsStay(s[1..], rest);
      NoDotStays(s[0], s[1..] + rest);
      assert s + rest == [s[0]] + (s[1..] + rest);
      assert s + RemoveAll(rest, "..") == [s[0]] + (s[1..] + RemoveAll(rest, ".."));
    }
  }

  lemma {:induction false} NothingToRemove(s: string)
    requires NoDotDot(s)
    ensures RemoveAll(s, "..") == s
  {
    if |s| >= 2 {
      assert s[..2] == [s[0], s[1]];
      NothingToRemove(s[1..]);
    }
  }

  lemma {:induction false} RemovalKeepsSubset(s: string, cs: set<char>)
    requires forall c <- s :: c !in cs
    ensures forall c <- RemoveAll(s, "..") :: c !in cs
  {
    if |s| >= 2 {
      RemovalKeepsSubset(if s[..2] == ".." then s[2..] else s[1..], cs);
    }
  }

  lemma {:induction false} CharsAreGone(s: string, cs: set<char>)
    ensures forall c <- RemoveChars(s, cs) :: c !in cs
    ensures (forall c <- s :: c !in cs) ==> RemoveChars(s, cs) == s
  {
    if s != "" {
      CharsAreGone(s[1..], cs);
    }
  }

  /* --------------------------------------------------------- trimming */

  lemma {:induction false} TrimLeftSlices(s: string) returns (i: nat)
    ensures i <= |s| && TrimLeft(s) == s[i..] && forall k :: 0 <= k < i ==> IsSpace(s[k])
    ensures TrimLeft(s) == "" || !IsSpace(TrimLeft(s)[0])
  {
    i := 0;
    if s != "" && IsSpace(s[0]) {
      var k := TrimLeftSlices(s[1..]);
      assert s[1..][k..] == s[k + 1..];
      i := k + 1;
    }
  }

  lemma {:induction false} TrimRightSlices(s: string) returns (j: nat)
    ensures j <= |s| && TrimRight(s) == s[..j] && forall k :: j <= k < |s| ==> IsSpace(s[k])
    ensures TrimRight(s) == "" || !IsSpace(TrimRight(s)[|TrimRight(s)| - 1])
  {
    j := |s|;
    if s != "" && IsSpace(s[|s| - 1]) {
      j := TrimRightSlices(s[..|s| - 1]);
      assert s[..|s| - 1][..j] == s[..j];
    }
  }

  /** TrimSpace returns a slice without outer space, and leaves such a text alone. */
  lemma NothingToTrim(s: string)
    requires NoOuterSpace(s)
    ensures TrimSpace(s) == s
  {
    hide IsSpace;
  }

  /** White space in Unicode's sense. */
  predicate IsWhite(c: char) {
    || c as int in {0x09, 0x0A, 0x0B, 0x0C, 0x0D, 0x20, 0x85, 0xA0, 0x1680, 0x2028, 0x2029, 0x202F, 0x205F, 0x3000}
    || 0x2000 <= c as int <= 0x200A
  }

  lemma SpaceIsWhite(c: char)
    ensures IsSpace(c) <==> IsWhite(c)
  {
  }

  predicate NoOuterWhite(s: string) {
    s == "" || (!IsWhite(s[0]) && !IsWhite(s[|s| - 1]))
  }

  /** TrimSpace cuts off all white space at both ends, and only that. */
  lemma TrimSpaceSlices(s: string) returns (i: nat, j: nat)
    ensures i <= j <= |s| && TrimSpace(s) == s[i..j] && NoOuterWhite(s[i..j])
    ensures forall k :: 0 <= k < i || j <= k < |s| ==> IsWhite(s[k])
    ensures NoOuterWhite(s) ==> TrimSpace(s) == s
  {
    hide IsSpace, IsWhite, TrimLeft, TrimRight;
    forall c: char
      ensures IsSpace(c) <==> IsWhite(c)
    {
      SpaceIsWhite(c);
    }
    i := TrimLeftSlices(s);
    var left := TrimLeft(s);
    var n := TrimRightSlices(left);
    assert s[i..][..n] == s[i..i + n];
    j := i + n;
    forall k | j <= k < |s|
      ensures IsWhite(s[k])
    {
      assert left[k - i] == s[k];
    }
    if n > 0 {
      assert TrimRight(left)[0] == left[0];
    }
    if NoOuterWhite(s) {
      NothingToTrim(s);
    }
  }

  /* --------------------------------------------------- main results */

  /** A file name is clean when it is one path component that nothing in this
      file changes any more. */
  predicate Clean(s: string) {
    && (forall c <- s :: c !in {'/', '\\', ':', '*', '?', '\"', '<', '>', '|'})
    && NoDotDot(s) && NoOuterWhite(s)
  }

  /** Whatever the input, the output has none of the nine characters, no ".."
      anywhere, and no outer space. */
  lemma SanitizedIsClean(s: string)
    ensures Clean(Sanitized(s))
  {
    hide IsSpace, IsWhite, TrimSpace, RemoveAll, RemoveChars, ILLEGAL, CharSet;
    IllegalNine();
    var plain := RemoveChars(s, CharSet(ILLEGAL));
    CharsAreGone(s, CharSet(ILLEGAL));
    var undotted := RemoveAll(plain, "..");
    RemovalKeepsSubset(plain, CharSet(ILLEGAL));
    RemovalLeavesNoPair(plain);
    var i, j := TrimSpaceSlices(undotted);
    SliceStaysClean(undotted, i, j);
  }

  lemma IllegalNine()
    ensures CharSet(ILLEGAL) == {'/', '\\', ':', '*', '?', '\"', '<', '>', '|'}
  {
  }

  lemma SliceStaysClean(s: string, i: nat, j: nat)
    requires i <= j <= |s| && NoDotDot(s) && forall c <- s :: c !in CharSet(ILLEGAL)
    ensures NoDotDot(s[i..j]) && forall c <- s[i..j] :: c !in CharSet(ILLEGAL)
  {
    hide ILLEGAL;
    forall c <- s[i..j]
      ensures c !in CharSet(ILLEGAL)
    {
      assert c in s;
    }
  }

  /** Exactly the clean names are fixed points; so sanitizing twice is once. */
  lemma SanitizedFixpoint(s: string)
    ensures Sanitized(s) == s <==> Clean(s)
    ensures Sanitized(Sanitized(s)) == Sanitized(s)
  {
    SanitizedIsClean(s);
    CleanIsFixed(Sanitized(s));
    if Clean(s) {
      CleanIsFixed(s);
    }
  }

  lemma CleanIsFixed(s: string)
    requires Clean(s)
    ensures Sanitized(s) == s
  {
    hide IsSpace, IsWhite, RemoveAll, RemoveChars, ILLEGAL, TrimSpace, CharSet;
    IllegalNine();
    CharsAreGone(s, CharSet(ILLEGAL));
    NothingToRemove(s);
    var _, _ := TrimSpaceSlices(s);
  }

  /** SanitizeFilepath. */
  function SanitizeFilepath(path: string): string {
    var undotted := RemoveAll(path, "..");
    var relative := if undotted != "" && undotted[0] == '/' then undotted[1..] else undotted;
    TrimSpace(if relative != "" && relative[0] == '\\' then relative[1..] else relative)
  }

  /** What SanitizeFilepath leaves of a path: no "..", and of the rest not one '/' in
      front, nor one '\\' then, nor white space at the ends. */
  lemma FilepathLosesFront(s: string)
    requires NoDotDot(s)
    ensures s == "" || s[0] !in {'/', '\\'} ==> SanitizeFilepath(s) == TrimSpace(s)
    ensures s == "" || s[0] != '\\' ==> SanitizeFilepath("/" + s) == TrimSpace(s)
    ensures SanitizeFilepath("\\" + s) == SanitizeFilepath("/\\" + s) == TrimSpace(s)
    ensures SanitizeFilepath(".." + s) == SanitizeFilepath(s)
  {
    hide RemoveAll, TrimSpace;
    NothingToRemove(s);
    NoDotsStay("/", s);
    NoDotsStay("\\", s);
    NoDotsStay("/\\", s);
    LeadingPair(s);
    assert ("/" + s)[1..] == s && ("\\" + s)[1..] == s && ("/\\" + s)[1..] == "\\" + s;
  }

  lemma LeadingPair(s: string)
    ensures RemoveAll(".." + s, "..") == RemoveAll(s, "..")
  {
    assert (".." + s)[..2] == ".." && (".." + s)[2..] == s;
  }

  /** GetProjectName. */
  function GetProjectName(layoutName: string): string {
    if layoutName == "" then "keyboard" else Sanitized(layoutName)
  }

  /** The project directory, named through SanitizeFilepath, and the files in it,
      named after the project, agree on the name. */
  lemma DirectoryNameIsProjectName(layoutName: string)
    ensures SanitizeFilepath(GetProjectName(layoutName)) == GetProjectName(layoutName)
    ensures Clean(GetProjectName(layoutName))
    ensures GetProjectName("") == "keyboard"
    ensures layoutName != "" ==> GetProjectName(layoutName) == Sanitized(layoutName)
  {
    KeyboardIsClean();
    SanitizedIsClean(layoutName);
    hide Sanitized, Clean;
    CleanSurvivesFilepath(GetProjectName(layoutName));
  }

  lemma KeyboardIsClean()
    ensures Clean("keyboard")
  {
  }

  lemma CleanSurvivesFilepath(name: string)
    requires Clean(name)
    ensures SanitizeFilepath(name) == name
  {
    hide RemoveAll, IsSpace, IsWhite, TrimSpace;
    NothingToRemove(name);
    var _, _ := TrimSpaceSlices(name);
    assert name != "" ==> name[0] in name;
  }

  /* --------------------------------------------- the work directory */

  const LOGS := "logs"

  /** filepath.Join of a clean directory path and one element without separators
      that is not "..". */
  function JoinPath(dir: string, name: string): string {
    if name == "" || name == "." then dir else dir + "/" + name
  }

  /** How many bytes a text takes in UTF-8. */
  function Utf8Length(s: string): nat {
    if s == "" then 0
    else Utf8Length(s[..|s| - 1]) + (var c := s[|s| - 1] as int;
                                     if c < 0x80 then 1 else if c < 0x800 then 2 else if c < 0x10000 then 3 else 4)
  }

  /** What Linux takes for a name in a directory. */
  predicate IsName(name: string) {
    '\0' !in name && Utf8Length(name) <= 255
  }

  /** os.Mkdir of a name joined to a directory: refused if the path is there, and for
      what is no name. */
  function Mkdir(existing: set<string>, dir: string, name: string): Option<set<string>> {
    if !IsName(name) || JoinPath(dir, name) in existing then None else Some(existing + {JoinPath(dir, name)})
  }

  /** CreateKicadWorkDir and then CreateLogDir in the new, empty work directory. */
  function MakeDirs(workDir: string, layoutName: string): Option<set<string>> {
    match Mkdir({workDir}, workDir, SanitizeFilepath(GetProjectName(layoutName)))
    case None => None
    case Some(existing) => Mkdir(existing, workDir, LOGS)
  }

  predicate HasDirectory(name: string) {
    name !in {"", ".", LOGS} && IsName(name)
  }

  /** The directories can be made, and are two of their own named after the project
      and "logs", if and only if that name is not empty, "." or "logs", holds no NUL
      and takes no more than 255 bytes. */
  lemma DirectoriesAreMade(workDir: string, layoutName: string)
    ensures var name := GetProjectName(layoutName);
            && (MakeDirs(workDir, layoutName).Some? <==> HasDirectory(name))
            && (HasDirectory(name) ==>
                  && MakeDirs(workDir, layoutName).value == {workDir, workDir + "/" + name, workDir + "/" + LOGS}
                  && |MakeDirs(workDir, layoutName).value| == 3)
  {
    hide GetProjectName, SanitizeFilepath, Clean, IsName;
    DirectoryNameIsProjectName(layoutName);
    LogsIsName();
    var name := GetProjectName(layoutName);
    assert (workDir + "/" + name)[|workDir| + 1..] == name && (workDir + "/" + LOGS)[|workDir| + 1..] == LOGS;
    assert |workDir + "/" + name| > |workDir| && |workDir + "/" + LOGS| > |workDir|;
  }

  lemma LogsIsName()
    ensures IsName(LOGS)
  {
    assert Utf8Length("") == 0 && "l"[..0] == "" && "lo"[..1] == "l" && "log"[..2] == "lo" && "logs"[..3] == "log";
  }

  /** Layouts that cannot be built for their name. */
  lemma NamesWithoutDirectory(workDir: string)
    ensures GetProjectName("?") == "" && GetProjectName("...") == "." && GetProjectName("logs") == "logs"
    ensures forall layoutName <- ["?", "...", "logs", "a\0", Copies(256, 'a')] :: MakeDirs(workDir, layoutName).None?
  {
    hide Sanitized, MakeDirs, IsName, Copies;
    SanitizedExamples();
    NoNames();
    forall layoutName <- ["?", "...", "logs", "a\0", Copies(256, 'a')]
      ensures MakeDirs(workDir, layoutName).None?
    {
      DirectoriesAreMade(workDir, layoutName);
    }
  }

  /** n times the same character. */
  function Copies(n: nat, c: char): string {
    seq(n, _ => c)
  }

  /** One to four bytes a character, as section 3 of RFC 3629 has it. */
  lemma {:induction false} BytesOfCopies(n: nat, c: char)
    ensures c <= '\U{7F}' ==> Utf8Length(Copies(n, c)) == n
    ensures '\U{80}' <= c <= '\U{7FF}' ==> Utf8Length(Copies(n, c)) == 2 * n
    ensures '\U{800}' <= c <= '\U{FFFF}' ==> Utf8Length(Copies(n, c)) == 3 * n
    ensures '\U{10000}' <= c ==> Utf8Length(Copies(n, c)) == 4 * n
  {
    if n > 0 {
      BytesOfCopies(n - 1, c);
      assert Copies(n, c)[..n - 1] == Copies(n - 1, c);
    }
  }

  lemma {:induction false} BytesAppend(a: string, b: string)
    ensures Utf8Length(a + b) == Utf8Length(a) + Utf8Length(b)
  {
    if b == "" {
      assert a + b == a;
    } else {
      BytesAppend(a, b[..|b| - 1]);
      assert (a + b)[..|a + b| - 1] == a + b[..|b| - 1];
    }
  }

  lemma NoNames()
    ensures GetProjectName("a\0") == "a\0" && !IsName("a\0")
    ensures GetProjectName(Copies(256, 'a')) == Copies(256, 'a') && !IsName(Copies(256, 'a'))
  {
    hide Sanitized, Utf8Length;
    CleanIsFixed("a\0");
    CleanIsFixed(Copies(256, 'a'));
    BytesOfCopies(256, 'a');
    assert "a\0"[1] == '\0';
  }

  lemma SanitizedExamples()
    ensures Sanitized("?") == "" && Sanitized("...") == "." && Sanitized("logs") == "logs"
  {
    hide Sanitized, Clean;
    OnlyQuestionMark();
    OnlyDots();
    LogsIsClean();
    CleanIsFixed("logs");
  }

  lemma OnlyQuestionMark()
    ensures Sanitized("?") == ""
  {
    assert "?"[0] in ILLEGAL && "?"[1..] == "";
    assert RemoveChars("?", CharSet(ILLEGAL)) == "";
  }

  lemma OnlyDots()
    ensures Sanitized("...") == "."
  {
    hide RemoveAll, RemoveChars, TrimLeft, TrimRight;
    CharsAreGone("...", CharSet(ILLEGAL));
    DotRunParity(3, "");
    assert Dots(3) + "" == "..." && Dots(1) + "" == ".";
    NothingToRemove("");
    var _, _ := TrimSpaceSlices(".");
  }

  lemma LogsIsClean()
    ensures Clean("logs")
  {
  }
}
