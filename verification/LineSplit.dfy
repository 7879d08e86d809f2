/** Splitting text into lines: what LineWriter's output is measured against.
    A Go string or byte slice is a string here, one character to a byte. */
module LineSplit {

  /** bytes.IndexByte. */
  function IndexByte(s: string, c: char): (i: int)
    ensures -1 <= i < |s|
    ensures i < 0 ==> c !in s
    ensures i >= 0 ==> s[i] == c && c !in s[..i]
  {
    if s == "" then -1
    else if s[0] == c then 0
    else
      var k := IndexByte(s[1..], c);
      assert k >= 0 ==> s[..k + 1] == [s[0]] + s[1..][..k];
      if k < 0 then -1 else k + 1
  }

  /** The newline-terminated lines of a text, without their newlines. */
  function Lines(s: string): seq<string> {
    var i := IndexByte(s, '\n');
    if i < 0 then [] else [s[..i]] + Lines(s[i + 1..])
  }

  /** What follows the last newline. */
  function Remainder(s: string): string {
    var i := IndexByte(s, '\n');
    if i < 0 then s else Remainder(s[i + 1..])
  }

  function TrimCR(s: string): string {
    if s != "" && s[|s| - 1] == '\r' then s[..|s| - 1] else s
  }

  function TrimAll(lines: seq<string>): (ts: seq<string>)
    ensures |ts| == |lines|
  {
    seq(|lines|, i requires 0 <= i < |lines| => TrimCR(lines[i]))
  }

  /** The lines Close flushes: the remainder, unless it is empty. */
  function Flushed(rest: string): seq<string> {
    if rest == "" then [] else [rest]
  }

  /** One-shot splitting of a whole text. */
  function Split(s: string): seq<string> {
    TrimAll(Lines(s) + Flushed(Remainder(s)))
  }

  function Concat(parts: seq<string>): string {
    if parts == [] then "" else Concat(parts[..|parts| - 1]) + parts[|parts| - 1]
  }

  function Unlines(lines: seq<string>): string {
    if lines == [] then "" else lines[0] + "\n" + Unlines(lines[1..])
  }

  predicate NewlineFree(lines: seq<string>) {
    forall l <- lines :: '\n' !in l
  }

  lemma {:induction false} IndexIs(s: string, c: char, k: nat)
    requires k < |s| && s[k] == c && forall j :: 0 <= j < k ==> s[j] != c
    ensures IndexByte(s, c) == k
  {
    if k > 0 {
      IndexIs(s[1..], c, k - 1);
    }
  }

  lemma PrefixHasNo(s: string, i: int, c: char)
    requires 0 <= i <= |s| && c !in s[..i]
    ensures forall j :: 0 <= j < i ==> s[j] != c
  {
    assert forall j :: 0 <= j < i ==> s[..i][j] == s[j];
  }

  lemma FirstLine(s: string, i: int)
    requires i == IndexByte(s, '\n')
    ensures i < 0 ==> Lines(s) == [] && Remainder(s) == s
    ensures i >= 0 ==> Lines(s) == [s[..i]] + Lines(s[i + 1..]) && Remainder(s) == Remainder(s[i + 1..])
  {
    hide IndexByte;
  }

  lemma Assoc(a: string, b: string, c: string)
    ensures a + b + c == a + (b + c)
  {
  }

  lemma CutAtNewline(s: string, i: nat)
    requires i < |s| && s[i] == '\n'
    ensures s == s[..i] + "\n" + s[i + 1..]
  {
  }

  lemma CutAfterLine(l: string, tail: string)
    requires '\n' !in l
    ensures var s := l + "\n" + tail;
            IndexByte(s, '\n') == |l| && s[..|l|] == l && s[|l| + 1..] == tail
  {
    var s := l + "\n" + tail;
    assert forall j :: 0 <= j < |l| ==> s[j] == l[j];
    IndexIs(s, '\n', |l|);
  }

  /** Splitting is the one way to take a text apart: any newline-free lines and
      newline-free remainder that put it together again are its own. */
  lemma {:induction false} SplitIsUnique(s: string, lines: seq<string>, rest: string)
    requires NewlineFree(lines) && '\n' !in rest
    requires s == Unlines(lines) + rest
    ensures Lines(s) == lines && Remainder(s) == rest
  {
    assert Unlines([]) == "";
    assert lines != [] ==> Unlines(lines) == lines[0] + "\n" + Unlines(lines[1..]);
    hide Unlines, Lines, Remainder, IndexByte;
    FirstLine(s, IndexByte(s, '\n'));
    if lines != [] {
      var l, ls := lines[0], lines[1..];
      assert lines == [l] + ls;
      assert l in lines && NewlineFree(ls);
      hide *;
      var tail := Unlines(ls) + rest;
      Assoc(l + "\n", Unlines(ls), rest);
      CutAfterLine(l, tail);
      SplitIsUnique(tail, ls, rest);
    }
  }

  /** The untrimmed lines and the remainder rebuild the text byte for byte. */
  lemma {:induction false} SplitRebuilds(s: string)
    ensures s == Unlines(Lines(s)) + Remainder(s)
    ensures NewlineFree(Lines(s)) && '\n' !in Remainder(s)
  {
    assert Unlines([]) == "";
    hide IndexByte, Lines, Remainder, Unlines;
    var i := IndexByte(s, '\n');
    FirstLine(s, i);
    if i >= 0 {
      var l, tail := s[..i], s[i + 1..];
      CutAtNewline(s, i);
      SplitRebuilds(tail);
      hide NewlineFree;
      NewlineFreeCons(l, Lines(tail));
      UnlinesCons(l, Lines(tail));
      Assoc(l + "\n", Unlines(Lines(tail)), Remainder(tail));
    }
  }

  lemma NewlineFreeCons(l: string, ls: seq<string>)
    requires '\n' !in l && NewlineFree(ls)
    ensures NewlineFree([l] + ls)
  {
  }

  lemma UnlinesCons(l: string, ls: seq<string>)
    ensures Unlines([l] + ls) == l + "\n" + Unlines(ls)
  {
    assert ([l] + ls)[1..] == ls;
  }

  /** More input only adds to the lines; the remainder is all that carries over. */
  lemma {:induction false} SplitAppend(a: string, b: string)
    ensures Lines(a + b) == Lines(a) + Lines(Remainder(a) + b)
    ensures Remainder(a + b) == Remainder(Remainder(a) + b)
  {
    hide *;
    var i := IndexByte(a, '\n');
    FirstLine(a, i);
    if i >= 0 {
      PrefixHasNo(a, i, '\n');
      IndexIs(a + b, '\n', i);
      FirstLine(a + b, i);
      var tail := a[i + 1..];
      assert (a + b)[i + 1..] == tail + b && (a + b)[..i] == a[..i];
      SplitAppend(tail, b);
    }
  }

  /** The text of a line: without its one final CR, exactly if it has one. */
  predicate IsTextOf(text: string, line: string) {
    line == text + "\r" || (line == text && (line == "" || line[|line| - 1] != '\r'))
  }

  lemma TrimCRIsText(line: string)
    ensures IsTextOf(TrimCR(line), line)
    ensures TrimCR(line + "\r") == line
    ensures line == "" || line[|line| - 1] != '\r' ==> TrimCR(line) == line
  {
    assert (line + "\r")[..|line|] == line;
  }

  ghost predicate AreTextsOf(texts: seq<string>, lines: seq<string>) {
    |texts| == |lines| && forall i :: 0 <= i < |lines| ==> IsTextOf(texts[i], lines[i])
  }

  lemma TrimAllAreTexts(lines: seq<string>)
    ensures AreTextsOf(TrimAll(lines), lines)
  {
    hide TrimCR, IsTextOf;
    forall i | 0 <= i < |lines|
      ensures IsTextOf(TrimAll(lines)[i], lines[i])
    {
      TrimCRIsText(lines[i]);
    }
  }

  /** `texts` are those of newline-free lines that, each with a newline, and `rest`
      put s together. */
  ghost predicate AreLinesOf(texts: seq<string>, s: string, rest: string) {
    exists lines :: NewlineFree(lines) && '\n' !in rest && s == Unlines(lines) + rest && AreTextsOf(texts, lines)
  }

  lemma LinesAreTexts(s: string)
    ensures AreLinesOf(TrimAll(Lines(s)), s, Remainder(s))
  {
    hide Lines, Remainder, Unlines, TrimAll, AreTextsOf;
    SplitRebuilds(s);
    TrimAllAreTexts(Lines(s));
  }

  /** One-shot splitting gives the texts of the lines, and of a rest that is not empty. */
  lemma SplitAreTexts(s: string)
    ensures exists texts, rest ::
              && AreLinesOf(texts, s, rest)
              && (rest == "" ==> Split(s) == texts)
              && (rest != "" ==> exists text :: IsTextOf(text, rest) && Split(s) == texts + [text])
  {
    hide Lines, Remainder, TrimCR, AreLinesOf, IsTextOf;
    var texts, rest := TrimAll(Lines(s)), Remainder(s);
    LinesAreTexts(s);
    TrimCRIsText(rest);
    if rest == "" {
      assert Split(s) == texts;
    } else {
      assert Split(s) == texts + [TrimCR(rest)];
    }
  }

  /** The lines that successive chunks emit, and what is left pending. */
  function Feed(chunks: seq<string>): (seq<string>, string) {
    if chunks == [] then ([], "")
    else
      var (lines, pending) := Feed(chunks[..|chunks| - 1]);
      var data := pending + chunks[|chunks| - 1];
      (lines + Lines(data), Remainder(data))
  }

  /** However a text is cut into chunks, its lines are the same. */
  lemma {:induction false} ChunkingInvariant(chunks: seq<string>)
    ensures Feed(chunks) == (Lines(Concat(chunks)), Remainder(Concat(chunks)))
    ensures TrimAll(Feed(chunks).0 + Flushed(Feed(chunks).1)) == Split(Concat(chunks))
  {
    if chunks != [] {
      hide Lines, Remainder;
      ChunkingInvariant(chunks[..|chunks| - 1]);
      SplitAppend(Concat(chunks[..|chunks| - 1]), chunks[|chunks| - 1]);
    }
  }
}
