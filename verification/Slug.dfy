/** slugifySheet of backend/internal/kicad/kicad.go. */
module Slug {

  predicate IsAlnum(c: char) {
    'a' <= c <= 'z' || '0' <= c <= '9'
  }

  /** What is assumed of unicode.ToLower, which strings.ToLower applies to each
      character: it leaves lower-case letters, digits and the hyphen alone. */
  ghost predicate IsLowering(lower: char -> char) {
    forall c :: 'a' <= c <= 'z' || '0' <= c <= '9' || c == '-' ==> lower(c) == c
  }

  function MapLower(s: string, lower: char -> char): (t: string)
    ensures |t| == |s|
  {
    seq(|s|, i requires 0 <= i < |s| => lower(s[i]))
  }

  /** Length of the run of alphanumerics that s starts with. */
  function RunLength(s: string): (n: nat)
    ensures n <= |s|
    ensures forall i :: 0 <= i < n ==> IsAlnum(s[i])
    ensures n < |s| ==> !IsAlnum(s[n])
  {
    if s == "" || !IsAlnum(s[0]) then 0 else 1 + RunLength(s[1..])
  }

  /** The maximal runs of alphanumerics. */
  function Runs(s: string): seq<string>
    decreases |s|
  {
    if s == "" then []
    else if !IsAlnum(s[0]) then Runs(s[1..])
    else [s[..RunLength(s)]] + Runs(s[RunLength(s)..])
  }

  function JoinHyphen(words: seq<string>): string {
    if words == [] then ""
    else if |words| == 1 then words[0]
    else JoinHyphen(words[..|words| - 1]) + "-" + words[|words| - 1]
  }

  function Slugified(name: string, lower: char -> char): string {
    JoinHyphen(Runs(MapLower(name, lower)))
  }

  function DropLeft(s: string): string {
    if s != "" && s[0] == '-' then DropLeft(s[1..]) else s
  }

  function DropRight(s: string): string {
    if s != "" && s[|s| - 1] == '-' then DropRight(s[..|s| - 1]) else s
  }

  /** strings.Trim(s, "-"). */
  function TrimHyphens(s: string): string {
    DropRight(DropLeft(s))
  }

  predicate IsWord(w: string) {
    w != "" && forall c <- w :: IsAlnum(c)
  }

  predicate AllWords(ws: seq<string>) {
    forall w <- ws :: IsWord(w)
  }

  lemma {:induction false} RunsAreWords(s: string)
    ensures AllWords(Runs(s))
    decreases |s|
  {
    if s != "" {
      if !IsAlnum(s[0]) {
        RunsAreWords(s[1..]);
      } else {
        var n := RunLength(s);
        RunsAreWords(s[n..]);
        assert IsWord(s[..n]);
      }
    }
  }

  lemma RunLengthAppend(s: string, c: char)
    ensures RunLength(s) < |s| ==> RunLength(s + [c]) == RunLength(s)
    ensures RunLength(s) == |s| ==> RunLength(s + [c]) == if IsAlnum(c) then |s| + 1 else |s|
  {
    var n := RunLength(s + [c]);
    assert forall i :: 0 <= i < |s| ==> (s + [c])[i] == s[i];
    assert (s + [c])[|s|] == c;
  }

  predicate EndsInRun(s: string) {
    s != "" && IsAlnum(s[|s| - 1])
  }

  /** `runs` with one more character, after a text that ended inside a run or not. */
  function Extend(runs: seq<string>, inRun: bool, c: char): seq<string> {
    if !IsAlnum(c) then runs
    else if inRun && runs != [] then runs[..|runs| - 1] + [runs[|runs| - 1] + [c]]
    else runs + [[c]]
  }

  lemma RunsAt(s: string, n: nat)
    requires n == RunLength(s)
    ensures n > 0 ==> Runs(s) == [s[..n]] + Runs(s[n..])
    ensures s != "" && n == 0 ==> Runs(s) == Runs(s[1..])
    ensures s == "" ==> Runs(s) == []
  {
  }

  lemma RunsWhole(s: string)
    requires s != "" && RunLength(s) == |s|
    ensures Runs(s) == [s]
  {
    RunsAt(s, |s|);
    RunsAt("", 0);
    hide Runs;
    assert s[..|s|] == s && s[|s|..] == "";
  }

  lemma RunsOfWord(s: string, c: char)
    requires s != "" && RunLength(s) == |s|
    ensures Runs(s) == [s] && Runs(s + [c]) == Extend([s], true, c)
  {
    var t := s + [c];
    hide Runs, RunLength;
    RunLengthAppend(s, c);
    RunsWhole(s);
    if IsAlnum(c) {
      RunsWhole(t);
      assert [s][..0] == [];
    } else {
      RunsAt(t, |s|);
      assert t[..|s|] == s && t[|s|..] == [c];
      RunsOne(c);
    }
  }

  lemma RunsOne(c: char)
    ensures Runs([c]) == if IsAlnum(c) then [[c]] else []
  {
    assert [c][1..] == "" && [c][..1] == [c];
  }

  lemma ExtendNone(c: char)
    ensures Extend([], false, c) == if IsAlnum(c) then [[c]] else []
  {
  }

  lemma ExtendTail(run: string, runs: seq<string>, inRun: bool, c: char)
    requires inRun ==> runs != []
    ensures Extend([run] + runs, inRun, c) == [run] + Extend(runs, inRun, c)
  {
  }

  /** How one more character changes the runs. */
  lemma {:induction false} RunsSnoc(s: string, c: char)
    ensures Runs(s + [c]) == Extend(Runs(s), EndsInRun(s), c)
    ensures EndsInRun(s) ==> Runs(s) != []
    decreases |s|
  {
    hide Runs, RunLength, Extend;
    var t, n := s + [c], RunLength(s);
    RunsAt(s, n);
    RunsOne(c);
    ExtendNone(c);
    RunLengthAppend(s, c);
    RunsAt(t, RunLength(t));
    if s == "" {
      assert t == [c];
    } else if n == 0 {
      RunsSnoc(s[1..], c);
      assert t[1..] == s[1..] + [c];
    } else if n < |s| {
      RunsSnoc(s[n..], c);
      assert t[..n] == s[..n] && t[n..] == s[n..] + [c];
      ExtendTail(s[..n], Runs(s[n..]), EndsInRun(s), c);
    } else {
      RunsOfWord(s, c);
    }
  }

  /* ------------------------------------------------------------ loop */

  /** Words joined by hyphens, framed by a hyphen where the text has no word. */
  function Framed(lead: bool, words: seq<string>, trail: bool): string {
    (if lead then "-" else "") + JoinHyphen(words) + (if words != [] && trail then "-" else "")
  }

  /** The builder's content after the characters of p. */
  function Raw(p: string): string {
    Framed(p != "" && !IsAlnum(p[0]), Runs(p), !EndsInRun(p))
  }

  lemma JoinSnoc(words: seq<string>, w: string)
    ensures JoinHyphen(words + [w]) == if words == [] then w else JoinHyphen(words) + "-" + w
  {
    assert (words + [w])[..|words|] == words;
  }

  lemma JoinExtends(words: seq<string>, w: string, c: char)
    ensures JoinHyphen(words + [w + [c]]) == JoinHyphen(words + [w]) + [c]
  {
    hide JoinHyphen;
    JoinSnoc(words, w);
    JoinSnoc(words, w + [c]);
  }

  lemma FramedAlnum(lead: bool, words: seq<string>, inRun: bool, c: char)
    requires IsAlnum(c) && (inRun ==> words != [])
    ensures Framed(lead, Extend(words, inRun, c), false) == Framed(lead, words, !inRun) + [c]
  {
    assert JoinHyphen([]) == "";
    hide JoinHyphen;
    if inRun {
      var init, last := words[..|words| - 1], words[|words| - 1];
      assert words == init + [last];
      JoinExtends(init, last, c);
    } else {
      JoinSnoc(words, [c]);
    }
  }

  lemma RawSnoc(p: string, c: char)
    ensures Raw("") == ""
    ensures Raw(p + [c]) == Raw(p) + (if IsAlnum(c) then [c] else if p == "" || EndsInRun(p) then "-" else "")
  {
    RunsSnoc(p, c);
    RunsOne(c);
    RunsAt("", 0);
    hide Runs;
    assert p != "" ==> (p + [c])[0] == p[0];
    assert "" + [c] == [c];
    if IsAlnum(c) {
      FramedAlnum(p != "" && !IsAlnum(p[0]), Runs(p), EndsInRun(p), c);
    }
  }

  lemma {:induction false} JoinedEnds(ws: seq<string>)
    requires AllWords(ws)
    ensures var j := JoinHyphen(ws);
            if ws == [] then j == "" else j != "" && IsAlnum(j[0]) && IsAlnum(j[|j| - 1])
  {
    if ws != [] {
      var init, last := ws[..|ws| - 1], ws[|ws| - 1];
      assert ws[0] in ws && last in ws;
      assert last[0] in last && last[|last| - 1] in last;
      JoinedEnds(init);
    }
  }

  lemma TrimFramed(core: string, lead: bool, trail: bool)
    requires core != "" ==> IsAlnum(core[0]) && IsAlnum(core[|core| - 1])
    requires core == "" ==> !trail
    ensures TrimHyphens((if lead then "-" else "") + core + (if trail then "-" else "")) == core
  {
    var s := (if lead then "-" else "") + core + (if trail then "-" else "");
    var t := core + (if trail then "-" else "");
    assert DropLeft(t) == t;
    assert lead ==> s[1..] == t;
    assert DropLeft(s) == t;
    assert trail ==> t[..|t| - 1] == core;
    assert DropRight(core) == core;
  }

  /* --------------------------------- the slug, character by character */

  /** `kept` are the places in the name of all characters that are a-z or 0-9 once in
      lower case. */
  ghost predicate Keeps(name: string, lower: char -> char, kept: seq<nat>) {
    && (forall j :: 0 <= j < |kept| ==> kept[j] < |name|)
    && (forall j, k :: 0 <= j < k < |kept| ==> kept[j] < kept[k])
    && (forall i :: 0 <= i < |name| ==>
          (i in kept <==> 'a' <= lower(name[i]) <= 'z' || '0' <= lower(name[i]) <= '9'))
  }

  ghost predicate Copies(name: string, lower: char -> char, slug: string, kept: seq<nat>, at: seq<nat>) {
    |at| == |kept|
    && forall j :: 0 <= j < |at| ==> kept[j] < |name| && at[j] < |slug| && slug[at[j]] == lower(name[kept[j]])
  }

  /** Next to each other if and only if they are in the name, else with one hyphen
      between; and nothing before the first and behind the last. */
  ghost predicate Spaced(slug: string, kept: seq<nat>, at: seq<nat>) {
    && |at| == |kept|
    && (if at == [] then slug == "" else at[0] == 0 && at[|at| - 1] == |slug| - 1)
    && (forall j :: 0 <= j < |at| - 1 ==>
          if kept[j + 1] == kept[j] + 1 then at[j + 1] == at[j] + 1
          else at[j + 1] == at[j] + 2 && at[j] + 1 < |slug| && slug[at[j] + 1] == '-')
  }

  /** The characters kept, and their places `at` in the slug. */
  ghost predicate Corresponds(name: string, lower: char -> char, slug: string, kept: seq<nat>, at: seq<nat>) {
    Keeps(name, lower, kept) && Copies(name, lower, slug, kept, at) && Spaced(slug, kept, at)
  }

  ghost predicate IsSlugOf(name: string, lower: char -> char, slug: string) {
    exists kept, at :: Corresponds(name, lower, slug, kept, at)
  }

  lemma KeepsSnoc(name: string, lower: char -> char, kept: seq<nat>, c: char)
    requires Keeps(name, lower, kept)
    ensures Keeps(name + [c], lower, if IsAlnum(lower(c)) then kept + [|name|] else kept)
  {
    var more := if IsAlnum(lower(c)) then kept + [|name|] else kept;
    forall i | 0 <= i < |name| + 1
      ensures i in more <==> IsAlnum(lower((name + [c])[i]))
    {
      assert i in more <==> i in kept || (IsAlnum(lower(c)) && i == |name|);
    }
  }

  /** Whether the last character kept is next to what comes after the name. */
  lemma LastKept(name: string, lower: char -> char, kept: seq<nat>)
    requires Keeps(name, lower, kept) && kept != []
    ensures kept[|kept| - 1] + 1 == |name| <==> name != "" && IsAlnum(lower(name[|name| - 1]))
  {
    assert kept[|kept| - 1] in kept;
    if |name| - 1 in kept {
      var j :| 0 <= j < |kept| && kept[j] == |name| - 1;
      assert j == |kept| - 1;
    }
  }

  lemma CopiesSkip(name: string, lower: char -> char, slug: string, kept: seq<nat>, at: seq<nat>, c: char)
    requires Copies(name, lower, slug, kept, at)
    ensures Copies(name + [c], lower, slug, kept, at)
  {
  }

  lemma CopiesNext(name: string, lower: char -> char, slug: string, kept: seq<nat>, at: seq<nat>, c: char, more: string)
    requires Copies(name, lower, slug, kept, at)
    ensures Copies(name + [c], lower, slug + more + [lower(c)], kept + [|name|], at + [|slug + more|])
  {
  }

  lemma SpacedNext(slug: string, kept: seq<nat>, at: seq<nat>, k: nat, c: char, more: string)
    requires Spaced(slug, kept, at)
    requires more == if kept == [] || kept[|kept| - 1] + 1 == k then "" else "-"
    ensures Spaced(slug + more + [c], kept + [k], at + [|slug + more|])
  {
  }

  lemma CorrespondsSnoc(name: string, lower: char -> char, slug: string, kept: seq<nat>, at: seq<nat>, c: char,
                        more: string)
    requires Corresponds(name, lower, slug, kept, at)
    requires more == if kept == [] || (name != "" && IsAlnum(lower(name[|name| - 1]))) then "" else "-"
    ensures IsSlugOf(name + [c], lower, if IsAlnum(lower(c)) then slug + more + [lower(c)] else slug)
  {
    hide Keeps, Copies, Spaced;
    KeepsSnoc(name, lower, kept, c);
    if kept != [] {
      LastKept(name, lower, kept);
    }
    if IsAlnum(lower(c)) {
      CopiesNext(name, lower, slug, kept, at, c, more);
      SpacedNext(slug, kept, at, |name|, lower(c), more);
      assert Corresponds(name + [c], lower, slug + more + [lower(c)], kept + [|name|], at + [|slug + more|]);
    } else {
      CopiesSkip(name, lower, slug, kept, at, c);
      assert Corresponds(name + [c], lower, slug, kept, at);
    }
  }

  lemma MapLowerSnoc(name: string, lower: char -> char, c: char)
    ensures MapLower(name + [c], lower) == MapLower(name, lower) + [lower(c)]
  {
  }

  lemma {:induction false} SlugifiedCorresponds(name: string, lower: char -> char)
    ensures IsSlugOf(name, lower, Slugified(name, lower))
  {
    hide Slugified, Keeps, Copies, Spaced;
    if name == "" {
      EmptySlug(lower);
    } else {
      var init, c := name[..|name| - 1], name[|name| - 1];
      assert name == init + [c];
      SlugifiedCorresponds(init, lower);
      var slug := Slugified(init, lower);
      var kept, at :| Corresponds(init, lower, slug, kept, at);
      SlugifiedSnoc(init, lower, c);
      NoneKept(init, lower, slug, kept, at);
      CorrespondsSnoc(init, lower, slug, kept, at, c,
                      if slug == "" || (init != "" && IsAlnum(lower(init[|init| - 1]))) then "" else "-");
    }
  }

  lemma EmptySlug(lower: char -> char)
    ensures Slugified("", lower) == "" && Corresponds("", lower, "", [], [])
  {
    assert MapLower("", lower) == "";
  }

  lemma NoneKept(name: string, lower: char -> char, slug: string, kept: seq<nat>, at: seq<nat>)
    requires Corresponds(name, lower, slug, kept, at)
    ensures kept == [] <==> slug == ""
  {
  }

  lemma SlugifiedSnoc(name: string, lower: char -> char, c: char)
    ensures var slug := Slugified(name, lower);
            Slugified(name + [c], lower)
            == if !IsAlnum(lower(c)) then slug
               else
                 slug + (if slug == "" || (name != "" && IsAlnum(lower(name[|name| - 1]))) then "" else "-")
                 + [lower(c)]
  {
    var t := MapLower(name, lower);
    MapLowerSnoc(name, lower, c);
    RunsSnoc(t, lower(c));
    RunsAreWords(t);
    JoinedEnds(Runs(t));
    JoinExtended(Runs(t), EndsInRun(t), lower(c));
  }

  lemma JoinExtended(words: seq<string>, inRun: bool, c: char)
    requires (inRun ==> words != []) && (JoinHyphen(words) == "" <==> words == [])
    ensures JoinHyphen(Extend(words, inRun, c))
            == if !IsAlnum(c) then JoinHyphen(words)
               else JoinHyphen(words) + (if words == [] || inRun then "" else "-") + [c]
  {
    hide JoinHyphen;
    if IsAlnum(c) {
      if inRun {
        var init, last := words[..|words| - 1], words[|words| - 1];
        assert words == init + [last];
        JoinExtends(init, last, c);
      } else {
        JoinSnoc(words, [c]);
      }
    }
  }

  /** The loop and the trim give the runs joined by single hyphens. */
  method SlugifySheet(name: string, lower: char -> char) returns (slug: string)
    ensures slug == Slugified(name, lower) && IsSlugOf(name, lower, slug)
  {
    SlugifiedCorresponds(name, lower);
    var text := MapLower(name, lower);
    var b := "";
    var prevHyphen := false;
    hide Raw, MapLower, IsSlugOf;
    RawSnoc("", ' ');
    for i := 0 to |text|
      invariant b == Raw(text[..i])
      invariant prevHyphen <==> i > 0 && !EndsInRun(text[..i])
    {
      var r := text[i];
      RawSnoc(text[..i], r);
      assert text[..i + 1] == text[..i] + [r];
      if IsAlnum(r) {
        b := b + [r];
        prevHyphen := false;
      } else {
        if !prevHyphen {
          b := b + "-";
          prevHyphen := true;
        }
      }
    }
    assert text[..|text|] == text;
    slug := TrimHyphens(b);
    RawTrims(text);
  }

  lemma RawTrims(text: string)
    ensures TrimHyphens(Raw(text)) == JoinHyphen(Runs(text))
  {
    RunsAreWords(text);
    JoinedEnds(Runs(text));
    TrimFramed(JoinHyphen(Runs(text)), text != "" && !IsAlnum(text[0]), Runs(text) != [] && !EndsInRun(text));
  }

  /* --------------------------------------------------- main results */

  /** [a-z0-9-] only, no leading, trailing or doubled hyphen. */
  predicate IsSlug(s: string) {
    && (forall c <- s :: 'a' <= c <= 'z' || '0' <= c <= '9' || c == '-')
    && (s != "" ==> s[0] != '-' && s[|s| - 1] != '-')
    && (forall i :: 0 <= i < |s| - 1 ==> !(s[i] == '-' && s[i + 1] == '-'))
  }

  lemma {:induction false} JoinedIsSlug(ws: seq<string>)
    requires AllWords(ws)
    ensures IsSlug(JoinHyphen(ws))
  {
    JoinedEnds(ws);
    if |ws| == 1 {
      WordIsSlug(ws[0]);
    } else if |ws| > 1 {
      var init, last := ws[..|ws| - 1], ws[|ws| - 1];
      assert last in ws;
      JoinedIsSlug(init);
      JoinedEnds(init);
      WordIsSlug(last);
      hide JoinHyphen, AllWords;
      SlugsJoin(JoinHyphen(init), last);
    }
  }

  lemma WordIsSlug(w: string)
    requires IsWord(w)
    ensures IsSlug(w)
  {
    assert forall i :: 0 <= i < |w| ==> w[i] in w;
  }

  lemma SlugsJoin(a: string, b: string)
    requires IsSlug(a) && IsSlug(b) && a != "" && b != ""
    ensures IsSlug(a + "-" + b)
  {
    var s := a + "-" + b;
    forall c <- s
      ensures IsAlnum(c) || c == '-'
    {
      assert c in a || c == '-' || c in b;
    }
  }

  lemma {:induction false} RunsAppendWord(s: string, w: string)
    requires IsWord(w) && !EndsInRun(s)
    ensures Runs(s + w) == Runs(s) + [w]
  {
    var init, c := w[..|w| - 1], w[|w| - 1];
    assert w == init + [c] && c in w;
    assert s + w == (s + init) + [c];
    RunsSnoc(s + init, c);
    if init == "" {
      assert s + init == s;
    } else {
      assert forall d <- init :: d in w;
      RunsAppendWord(s, init);
      assert init[|init| - 1] in w;
    }
  }

  /** Splitting the joined words gives them back. */
  lemma {:induction false} RunsOfJoined(ws: seq<string>)
    requires AllWords(ws)
    ensures Runs(JoinHyphen(ws)) == ws
  {
    if ws != [] {
      var init, last := ws[..|ws| - 1], ws[|ws| - 1];
      assert last in ws && ws == init + [last];
      RunsOfJoined(init);
      JoinSnoc(init, last);
      if init == [] {
        RunsAppendWord("", last);
        assert "" + last == last;
      } else {
        RunsSnoc(JoinHyphen(init), '-');
        RunsAppendWord(JoinHyphen(init) + "-", last);
      }
    }
  }

  /** Every output is a slug, and slugifying it again changes nothing. */
  lemma SlugifiedIsSlug(name: string, lower: char -> char)
    requires IsLowering(lower)
    ensures IsSlug(Slugified(name, lower))
    ensures Slugified(Slugified(name, lower), lower) == Slugified(name, lower)
  {
    var ws := Runs(MapLower(name, lower));
    RunsAreWords(MapLower(name, lower));
    JoinedIsSlug(ws);
    RunsOfJoined(ws);
    LowerKeepsSlug(JoinHyphen(ws), lower);
  }

  lemma LowerKeepsSlug(s: string, lower: char -> char)
    requires IsLowering(lower) && IsSlug(s)
    ensures MapLower(s, lower) == s
  {
    assert forall i :: 0 <= i < |s| ==> s[i] in s;
  }
}
