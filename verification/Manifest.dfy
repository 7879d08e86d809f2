/** The schematic renders: GenerateSchematicImage of backend/internal/kicad/kicad.go. */
module Manifest {
  import opened Decimal
  import opened Glob
  import opened Slug

  /** common.RenderFile. */
  datatype Render = Render(name: string, kind: string, sheet: string)

  function TrimPrefix(s: string, prefix: string): string {
    if prefix <= s then s[|prefix|..] else s
  }

  /** The sheet token of an exported file; empty for the root sheet. */
  function SheetOf(project: string, base: string, lower: char -> char): string {
    if base == project then "" else Slugified(TrimPrefix(base, project + "-"), lower)
  }

  /** The root sheet has no token; a child's is the slug of what follows the project's
      name and a hyphen, or of all of a name that does not start with these. */
  lemma TokenOfSheet(project: string, base: string, lower: char -> char)
    ensures SheetOf(project, project, lower) == ""
    ensures IsSlugOf(base, lower, SheetOf(project, project + "-" + base, lower))
    ensures base != project && !(project + "-" <= base) ==> IsSlugOf(base, lower, SheetOf(project, base, lower))
  {
    hide Slugified, IsSlugOf;
    SlugifiedCorresponds(base, lower);
    assert (project + "-" + base)[|project + "-"|..] == base;
    assert |project + "-" + base| > |project|;
  }

  function RenderOf(project: string, base: string, lower: char -> char): Render {
    var sheet := SheetOf(project, base, lower);
    Render(if base == project then "schematic" else "schematic-" + sheet, "schematic", sheet)
  }

  function RendersOf(project: string, bases: seq<string>, lower: char -> char): (rs: seq<Render>)
    ensures |rs| == |bases|
  {
    seq(|bases|, i requires 0 <= i < |bases| => RenderOf(project, bases[i], lower))
  }

  /** Go's < on strings. */
  predicate TextLess(a: string, b: string) {
    if b == "" then false
    else if a == "" then true
    else if a[0] != b[0] then a[0] < b[0]
    else TextLess(a[1..], b[1..])
  }

  /** a comes before b in a dictionary: it is a proper prefix of b, or has the smaller
      character at the first place where they differ. */
  ghost predicate Before(a: string, b: string) {
    || a < b
    || exists k :: 0 <= k < |a| && k < |b| && a[..k] == b[..k] && a[k] < b[k]
  }

  lemma {:induction false} TextLessIsBefore(a: string, b: string)
    ensures TextLess(a, b) <==> Before(a, b)
  {
    if a != "" && b != "" {
      if a[0] == b[0] {
        TextLessIsBefore(a[1..], b[1..]);
        BeforeCons(a, b);
      } else {
        assert a[..0] == b[..0];
      }
    }
  }

  lemma BeforeCons(a: string, b: string)
    requires a != "" && b != "" && a[0] == b[0]
    ensures Before(a[1..], b[1..]) <==> Before(a, b)
  {
    var x, y := a[1..], b[1..];
    assert x < y <==> a < b by {
      assert a == [a[0]] + x && b == [b[0]] + y;
    }
    if k :| 0 <= k < |x| && k < |y| && x[..k] == y[..k] && x[k] < y[k] {
      assert a[..k + 1] == [a[0]] + x[..k] && b[..k + 1] == [b[0]] + y[..k];
      assert a[k + 1] < b[k + 1];
    }
    if k :| 0 <= k < |a| && k < |b| && a[..k] == b[..k] && a[k] < b[k] {
      assert k > 0 && x[..k - 1] == a[..k][1..] && y[..k - 1] == b[..k][1..];
      assert x[k - 1] < y[k - 1];
    }
  }

  /** The comparator given to sort.SliceStable. */
  predicate Less(a: Render, b: Render) {
    if (a.sheet == "") != (b.sheet == "") then a.sheet == ""
    else TextLess(a.sheet, b.sheet)
  }

  /** The special case for the root is the order of the texts already. */
  lemma LessIsBefore(a: Render, b: Render)
    ensures Less(a, b) <==> Before(a.sheet, b.sheet)
  {
    hide Before;
    TextLessIsBefore(a.sheet, b.sheet);
  }

  lemma {:induction false} TextLessOrder(a: string, b: string, c: string)
    ensures !TextLess(a, a)
    ensures !TextLess(a, b) && !TextLess(b, a) ==> a == b
    ensures TextLess(a, b) && TextLess(b, c) ==> TextLess(a, c)
  {
    if a != "" {
      TextLessOrder(a[1..], if b == "" then "" else b[1..], if c == "" then "" else c[1..]);
      assert b != "" && a[0] == b[0] && a[1..] == b[1..] ==> a == [a[0]] + a[1..] == [b[0]] + b[1..] == b;
    }
  }

  ghost predicate Sorted(rs: seq<Render>) {
    forall i, j :: 0 <= i < j < |rs| ==> !Less(rs[j], rs[i])
  }

  /** Where a stable sort puts r after the sorted renders rs: behind all that it is not less than. */
  function Insert(rs: seq<Render>, r: Render): seq<Render> {
    if rs == [] || !Less(r, rs[|rs| - 1]) then rs + [r]
    else Insert(rs[..|rs| - 1], r) + [rs[|rs| - 1]]
  }

  /** sort.SliceStable: sorted, a permutation, and equal elements keep their order. */
  function StableSort(rs: seq<Render>): seq<Render> {
    if rs == [] then [] else Insert(StableSort(rs[..|rs| - 1]), rs[|rs| - 1])
  }

  lemma NotLessTransitive(a: Render, b: Render, c: Render)
    ensures !Less(b, a) && !Less(c, b) ==> !Less(c, a)
    ensures Less(a, b) ==> !Less(b, a)
  {
    TextLessOrder(a.sheet, b.sheet, a.sheet);
    TextLessOrder(a.sheet, b.sheet, c.sheet);
    TextLessOrder(c.sheet, a.sheet, b.sheet);
    TextLessOrder(b.sheet, c.sheet, a.sheet);
    TextLessOrder(b.sheet, a.sheet, b.sheet);
  }

  lemma {:induction false} InsertSorts(rs: seq<Render>, r: Render)
    requires Sorted(rs)
    ensures Sorted(Insert(rs, r)) && multiset(Insert(rs, r)) == multiset(rs) + multiset{r}
  {
    hide Less;
    if rs == [] {
    } else if !Less(r, rs[|rs| - 1]) {
      forall i | 0 <= i < |rs|
        ensures !Less(r, rs[i])
      {
        NotLessTransitive(rs[i], rs[|rs| - 1], r);
      }
    } else {
      var init, last := rs[..|rs| - 1], rs[|rs| - 1];
      assert rs == init + [last];
      InsertSorts(init, r);
      var t := Insert(init, r);
      NotLessTransitive(r, last, r);
      forall x <- t
        ensures !Less(last, x)
      {
        assert x in multiset(t);
        assert x == r || x in multiset(init);
      }
    }
  }

  /** In dictionary order of their sheets. */
  ghost predicate InOrder(rs: seq<Render>) {
    forall i, j :: 0 <= i < j < |rs| ==> !Before(rs[j].sheet, rs[i].sheet)
  }

  lemma SortedInOrder(rs: seq<Render>)
    requires Sorted(rs)
    ensures InOrder(rs)
  {
    hide Less, Before;
    forall i, j | 0 <= i < j < |rs|
      ensures !Before(rs[j].sheet, rs[i].sheet)
    {
      LessIsBefore(rs[j], rs[i]);
    }
  }

  /** The order and contents of the manifest. */
  lemma StableSortOrders(rs: seq<Render>)
    ensures InOrder(StableSort(rs)) && multiset(StableSort(rs)) == multiset(rs)
  {
    hide InOrder, Sorted;
    StableSortSorts(rs);
    SortedInOrder(StableSort(rs));
  }

  lemma {:induction false} StableSortSorts(rs: seq<Render>)
    ensures Sorted(StableSort(rs)) && multiset(StableSort(rs)) == multiset(rs)
  {
    if rs != [] {
      var init, last := rs[..|rs| - 1], rs[|rs| - 1];
      assert rs == init + [last];
      StableSortSorts(init);
      InsertSorts(StableSort(init), last);
    }
  }

  function WithSheet(rs: seq<Render>, sheet: string): seq<Render> {
    if rs == [] then []
    else WithSheet(rs[..|rs| - 1], sheet) + (if rs[|rs| - 1].sheet == sheet then [rs[|rs| - 1]] else [])
  }

  lemma {:induction false} InsertKeepsOrder(rs: seq<Render>, r: Render, sheet: string)
    ensures WithSheet(Insert(rs, r), sheet) == WithSheet(rs, sheet) + (if r.sheet == sheet then [r] else [])
  {
    hide Less;
    if rs == [] || !Less(r, rs[|rs| - 1]) {
      assert (rs + [r])[..|rs|] == rs;
    } else {
      var init, last := rs[..|rs| - 1], rs[|rs| - 1];
      InsertKeepsOrder(init, r, sheet);
      var t := Insert(init, r) + [last];
      assert t[..|t| - 1] == Insert(init, r);
      LessMeansOther(r, last);
    }
  }

  lemma LessMeansOther(a: Render, b: Render)
    ensures Less(a, b) ==> a.sheet != b.sheet
  {
    TextLessOrder(a.sheet, b.sheet, a.sheet);
  }

  /** Renders with the same sheet keep their order. */
  lemma {:induction false} StableSortIsStable(rs: seq<Render>, sheet: string)
    ensures WithSheet(StableSort(rs), sheet) == WithSheet(rs, sheet)
  {
    if rs != [] {
      StableSortIsStable(rs[..|rs| - 1], sheet);
      InsertKeepsOrder(StableSort(rs[..|rs| - 1]), rs[|rs| - 1], sheet);
    }
  }

  /* ------------------------------------------------- glob order */

  ghost predicate SheetDetermines(rs: seq<Render>) {
    forall x <- rs, y <- rs :: x.sheet == y.sheet ==> x == y
  }

  lemma LastIsLast(xs: seq<Render>, ys: seq<Render>)
    requires Sorted(xs) && Sorted(ys) && multiset(xs) == multiset(ys) && xs != []
    requires SheetDetermines(xs)
    ensures ys != [] && xs[|xs| - 1] == ys[|ys| - 1]
  {
    hide Less;
    assert |xs| == |multiset(xs)| == |ys|;
    var x, y := xs[|xs| - 1], ys[|ys| - 1];
    assert x in multiset(ys) && y in multiset(xs);
    var i :| 0 <= i < |ys| && ys[i] == x;
    var j :| 0 <= j < |xs| && xs[j] == y;
    NotLessTransitive(x, y, x);
    NotLessTransitive(y, x, y);
    SameSheet(x, y);
  }

  lemma SameSheet(a: Render, b: Render)
    ensures !Less(a, b) && !Less(b, a) ==> a.sheet == b.sheet
  {
    TextLessOrder(a.sheet, b.sheet, a.sheet);
  }

  lemma DropLast<T>(s: seq<T>)
    requires s != []
    ensures multiset(s[..|s| - 1]) == multiset(s) - multiset{s[|s| - 1]}
    ensures s == s[..|s| - 1] + [s[|s| - 1]]
  {
    assert s == s[..|s| - 1] + [s[|s| - 1]];
  }

  lemma SortedInit(rs: seq<Render>)
    requires rs != [] && Sorted(rs)
    ensures Sorted(rs[..|rs| - 1])
    ensures SheetDetermines(rs) ==> SheetDetermines(rs[..|rs| - 1])
  {
    hide Less;
    assert forall x <- rs[..|rs| - 1] :: x in rs;
  }

  /** There is one way to sort renders that their sheets tell apart. */
  lemma {:induction false} SortedIsUnique(xs: seq<Render>, ys: seq<Render>)
    requires Sorted(xs) && Sorted(ys) && multiset(xs) == multiset(ys) && SheetDetermines(xs)
    ensures xs == ys
  {
    hide Less, Sorted, SheetDetermines;
    if xs == [] {
      assert |ys| == |multiset(ys)| == 0;
    } else {
      LastIsLast(xs, ys);
      DropLast(xs);
      DropLast(ys);
      SortedInit(xs);
      SortedInit(ys);
      SortedIsUnique(xs[..|xs| - 1], ys[..|ys| - 1]);
    }
  }

  /** The manifest's schematic part. */
  function Schematics(project: string, bases: seq<string>, lower: char -> char): seq<Render> {
    StableSort(RendersOf(project, bases, lower))
  }

  /** Some occurrence of x, and the rest without it. */
  lemma TakeOut(s: seq<string>, x: string) returns (before: seq<string>, after: seq<string>)
    requires x in s
    ensures s == before + [x] + after
    ensures multiset(before + after) == multiset(s) - multiset{x}
  {
    var i :| 0 <= i < |s| && s[i] == x;
    before, after := s[..i], s[i + 1..];
    assert s == before + [x] + after;
  }

  lemma RendersAppend(project: string, a: seq<string>, b: seq<string>, lower: char -> char)
    ensures RendersOf(project, a + b, lower) == RendersOf(project, a, lower) + RendersOf(project, b, lower)
    ensures a != [] ==> |a| == 1 ==> RendersOf(project, a, lower) == [RenderOf(project, a[0], lower)]
  {
    hide RenderOf;
  }

  lemma {:induction false} SameRenders(project: string, a: seq<string>, b: seq<string>, lower: char -> char)
    requires multiset(a) == multiset(b)
    ensures multiset(RendersOf(project, a, lower)) == multiset(RendersOf(project, b, lower))
    decreases |a|
  {
    hide RendersOf, RenderOf;
    if a == [] {
      assert |b| == |multiset(b)| == 0;
    } else {
      var init, x := a[..|a| - 1], a[|a| - 1];
      DropLast(a);
      assert x in multiset(b);
      var before, after := TakeOut(b, x);
      SameRenders(project, init, before + after, lower);
      RendersAppend(project, init, [x], lower);
      RendersAppend(project, before, after, lower);
      RendersAppend(project, before, [x], lower);
      RendersAppend(project, [x], [], lower);
      RendersAppend(project, before + [x], after, lower);
    }
  }

  ghost predicate ChildrenNamed(project: string, bases: seq<string>, lower: char -> char) {
    forall base <- bases :: base != project ==> SheetOf(project, base, lower) != ""
  }

  lemma NamedChildrenDetermine(project: string, bases: seq<string>, lower: char -> char)
    requires ChildrenNamed(project, bases, lower) || project !in bases
    ensures SheetDetermines(RendersOf(project, bases, lower))
  {
    var rs := RendersOf(project, bases, lower);
    forall x <- rs, y <- rs | x.sheet == y.sheet
      ensures x == y
    {
      var i :| 0 <= i < |bases| && rs[i] == x;
      var j :| 0 <= j < |bases| && rs[j] == y;
      assert bases[i] in bases && bases[j] in bases;
    }
  }

  lemma {:induction false} WithSheetAppend(a: seq<Render>, b: seq<Render>, sheet: string)
    ensures WithSheet(a + b, sheet) == WithSheet(a, sheet) + WithSheet(b, sheet)
  {
    if b == [] {
      assert a + b == a;
    } else {
      assert (a + b)[..|a + b| - 1] == a + b[..|b| - 1];
      WithSheetAppend(a, b[..|b| - 1], sheet);
    }
  }

  lemma FirstRootWins(project: string, x: string, rest: seq<string>, lower: char -> char)
    requires SheetOf(project, x, lower) == ""
    ensures var w := WithSheet(Schematics(project, [x] + rest, lower), "");
            w != [] && w[0] == RenderOf(project, x, lower)
  {
    hide RendersOf, StableSort, WithSheet, SheetOf;
    var r := RenderOf(project, x, lower);
    StableSortIsStable(RendersOf(project, [x] + rest, lower), "");
    RendersAppend(project, [x], rest, lower);
    WithSheetAppend([r], RendersOf(project, rest, lower), "");
    OneWithSheet(r);
  }

  lemma OneWithSheet(r: Render)
    ensures WithSheet([r], r.sheet) == [r]
  {
    var one := [r];
    assert one[..0] == [] && WithSheet([], r.sheet) == [];
    assert WithSheet(one, r.sheet) == WithSheet(one[..0], r.sheet) + [one[0]];
  }

  /** The manifest does not depend on the order of the glob if and only if no
      child sheet's name slugifies to nothing, or the root is not listed. */
  lemma GlobOrderIrrelevant(project: string, bases: seq<string>, lower: char -> char)
    ensures (forall other :: multiset(other) == multiset(bases) ==>
               Schematics(project, other, lower) == Schematics(project, bases, lower))
            <==> ChildrenNamed(project, bases, lower) || project !in bases
  {
    if ChildrenNamed(project, bases, lower) || project !in bases {
      forall other | multiset(other) == multiset(bases)
        ensures Schematics(project, other, lower) == Schematics(project, bases, lower)
      {
        SameManifest(project, bases, other, lower);
      }
    } else {
      var child :| child in bases && child != project && SheetOf(project, child, lower) == "";
      var a, b := TwoManifests(project, bases, child, lower);
    }
  }

  /** Such a child: the sheet "-" of the project "kb". Its files sorted one way and
      the other give two manifests, with the same name first but not the same. */
  lemma UnnamedChild(lower: char -> char)
    requires IsLowering(lower)
    ensures !ChildrenNamed("kb", ["kb", "kb--"], lower)
    ensures Schematics("kb", ["kb", "kb--"], lower)[0] == Render("schematic", "schematic", "")
    ensures Schematics("kb", ["kb--", "kb"], lower)[0] == Render("schematic-", "schematic", "")
  {
    DashIsNothing(lower);
    FirstRender("kb", "kb", "kb--", lower);
    FirstRender("kb", "kb--", "kb", lower);
    assert "kb--" in ["kb", "kb--"];
  }

  lemma DashIsNothing(lower: char -> char)
    requires IsLowering(lower)
    ensures SheetOf("kb", "kb--", lower) == "" && SheetOf("kb", "kb", lower) == ""
  {
    assert "kb" + "-" == "kb-" && "kb-" <= "kb--" && "kb--"[3..] == "-";
    assert MapLower("-", lower) == "-";
    assert Runs("-") == Runs("-"[1..]) && "-"[1..] == "";
  }

  lemma FirstRender(project: string, x: string, y: string, lower: char -> char)
    requires SheetOf(project, x, lower) == "" && SheetOf(project, y, lower) == ""
    ensures var rs := Schematics(project, [x, y], lower); rs != [] && rs[0] == RenderOf(project, x, lower)
  {
    hide SheetOf, Less;
    var all := RendersOf(project, [x, y], lower);
    assert all == [RenderOf(project, x, lower), RenderOf(project, y, lower)];
    SortTwo(all[0], all[1]);
  }

  lemma SortTwo(a: Render, b: Render)
    requires a.sheet == "" && b.sheet == ""
    ensures StableSort([a, b]) == [a, b]
  {
    var s := [a, b];
    assert s[..1] == [a] && [a][..0] == [];
    assert StableSort([]) == [];
    assert StableSort([a]) == Insert([], a);
    assert !Less(b, a);
  }

  lemma SameManifest(project: string, bases: seq<string>, other: seq<string>, lower: char -> char)
    requires ChildrenNamed(project, bases, lower) || project !in bases
    requires multiset(other) == multiset(bases)
    ensures Schematics(project, other, lower) == Schematics(project, bases, lower)
  {
    hide RendersOf, StableSort, SheetOf, Sorted, ChildrenNamed;
    var rs, os := RendersOf(project, bases, lower), RendersOf(project, other, lower);
    SameRenders(project, bases, other, lower);
    NamedChildrenDetermine(project, bases, lower);
    StableSortSorts(rs);
    StableSortSorts(os);
    assert forall x <- StableSort(rs) :: x in multiset(StableSort(rs));
    SortedIsUnique(StableSort(rs), StableSort(os));
  }

  lemma TwoManifests(project: string, bases: seq<string>, child: string, lower: char -> char)
    returns (a: seq<string>, b: seq<string>)
    requires project in bases && child in bases && child != project && SheetOf(project, child, lower) == ""
    ensures multiset(a) == multiset(b) == multiset(bases)
    ensures Schematics(project, a, lower) != Schematics(project, b, lower)
  {
    hide Schematics, StableSort, SheetOf, RenderOf, WithSheet;
    RootAndChildDiffer(project, child, lower);
    var rest := TakeOutTwo(bases, project, child);
    a, b := [project] + ([child] + rest), [child] + ([project] + rest);
    FirstRootWins(project, project, [child] + rest, lower);
    FirstRootWins(project, child, [project] + rest, lower);
  }

  lemma TakeOutTwo(s: seq<string>, x: string, y: string) returns (rest: seq<string>)
    requires x in s && y in s && x != y
    ensures multiset([x] + ([y] + rest)) == multiset([y] + ([x] + rest)) == multiset(s)
  {
    var b0, a0 := TakeOut(s, x);
    assert y in multiset(b0 + a0);
    var b1, a1 := TakeOut(b0 + a0, y);
    rest := b1 + a1;
    ConsTwo(x, y, rest);
    ConsTwo(y, x, rest);
    PutBack(multiset(s), x, y);
  }

  lemma PutBack(m: multiset<string>, x: string, y: string)
    requires x in m && y in m && x != y
    ensures multiset{x} + multiset{y} + (m - multiset{x} - multiset{y}) == m
    ensures multiset{y} + multiset{x} + (m - multiset{x} - multiset{y}) == m
  {
  }

  lemma ConsTwo(x: string, y: string, rest: seq<string>)
    ensures multiset([x] + ([y] + rest)) == multiset{x} + multiset{y} + multiset(rest)
  {
  }

  lemma RootAndChildDiffer(project: string, child: string, lower: char -> char)
    requires child != project
    ensures RenderOf(project, project, lower) != RenderOf(project, child, lower)
    ensures SheetOf(project, project, lower) == ""
  {
    assert RenderOf(project, project, lower).name == "schematic";
    assert |RenderOf(project, child, lower).name| > |"schematic"|;
  }

  /** The root is in the manifest if and only if it is listed, and then comes first, unless
      a child's name slugifies to nothing. */
  lemma RootIsFirst(project: string, bases: seq<string>, lower: char -> char)
    ensures var rs := Schematics(project, bases, lower);
            && |rs| == |bases|
            && (RenderOf(project, project, lower) in rs <==> project in bases)
            && (project in bases ==> rs[0].sheet == "")
            && (project in bases && ChildrenNamed(project, bases, lower) ==> rs[0] == RenderOf(project, project, lower))
  {
    hide StableSort, SheetOf, RenderOf, RendersOf;
    var all, rs := RendersOf(project, bases, lower), Schematics(project, bases, lower);
    StableSortSorts(all);
    assert |rs| == |multiset(rs)| == |all|;
    assert forall x :: (x in rs <==> x in multiset(rs)) && (x in all <==> x in multiset(all));
    RootInRenders(project, bases, lower);
    if project in bases {
      LeastIsFirst(rs, RenderOf(project, project, lower));
      assert rs[0] in all;
      var k :| 0 <= k < |all| && all[k] == rs[0];
      NamedRoot(project, bases, lower, k);
    }
  }

  lemma RootInRenders(project: string, bases: seq<string>, lower: char -> char)
    ensures RenderOf(project, project, lower) in RendersOf(project, bases, lower) <==> project in bases
    ensures RenderOf(project, project, lower).sheet == ""
  {
    hide SheetOf;
    var rs := RendersOf(project, bases, lower);
    RootAndChildDiffer(project, project + "-", lower);
    if project in bases {
      var i :| 0 <= i < |bases| && bases[i] == project;
      assert rs[i] in rs;
    }
    forall i | 0 <= i < |bases| && bases[i] != project
      ensures rs[i] != RenderOf(project, project, lower)
    {
      RootAndChildDiffer(project, bases[i], lower);
    }
  }

  lemma LeastIsFirst(rs: seq<Render>, r: Render)
    requires Sorted(rs) && r in rs && r.sheet == ""
    ensures rs[0].sheet == ""
  {
    var j :| 0 <= j < |rs| && rs[j] == r;
  }

  lemma NamedRoot(project: string, bases: seq<string>, lower: char -> char, k: nat)
    requires k < |bases| && RendersOf(project, bases, lower)[k].sheet == ""
    ensures RendersOf(project, bases, lower)[k] == RenderOf(project, bases[k], lower)
    ensures ChildrenNamed(project, bases, lower) ==> bases[k] == project
  {
    hide SheetOf;
    assert bases[k] in bases;
  }

  /* --------------------------------------------------- names and files */

  predicate Distinct(bases: seq<string>) {
    forall i, j :: 0 <= i < j < |bases| ==> bases[i] != bases[j]
  }

  function FileOf(project: string, base: string, lower: char -> char): string {
    RenderOf(project, base, lower).name + ".svg"
  }

  /** The logs directory after the sheets were copied into it one by one. */
  function CopyAll(logs: map<string, string>, project: string, bases: seq<string>,
                   sheets: map<string, string>, lower: char -> char): map<string, string>
    requires forall base <- bases :: base in sheets
  {
    if bases == [] then logs
    else
      var init, last := bases[..|bases| - 1], bases[|bases| - 1];
      CopyAll(logs, project, init, sheets, lower)[FileOf(project, last, lower) := sheets[last]]
  }

  /** Why GenerateSchematicImage fails, short of errors of the file system. */
  datatype ImageError = NoRootSheet | BadPattern

  datatype Images = Images(renders: seq<Render>, logs: map<string, string>)

  /** GenerateSchematicImage, given the sheets kicad-cli wrote: `exported`, their base
      names in the order of the project directory, and their contents. The root
      is looked for by name, the sheets by a pattern. */
  method GenerateSchematicImage(project: string, exported: seq<string>, sheets: map<string, string>,
                                logs: map<string, string>, lower: char -> char)
    returns (result: Images, error: Option<ImageError>)
    requires forall base <- exported :: base in sheets
    ensures error == if project !in exported then Some(NoRootSheet)
                     else if Malformed(project) then Some(BadPattern) else None
    ensures error.Some? ==> result == Images([], logs)
    ensures error.None? ==>
              var glob := if '[' in project then [] else exported;
              && result.renders == Schematics(project, glob, lower)
              && result.logs == CopyAll(logs, project, glob, sheets, lower)
              && InOrder(result.renders) && multiset(result.renders) == multiset(RendersOf(project, glob, lower))
  {
    hide Slugified, StableSort, RendersOf, CopyAll, Match, Listing, Malformed, InOrder;
    ListedIfPlain(project, exported);
    BracketIsNeeded(project);
    if project !in exported {
      return Images([], logs), Some(NoRootSheet);
    }
    var sheetSVGs := Listing(project, WorkDir(project, exported));
    if sheetSVGs.None? {
      return Images([], logs), Some(BadPattern);
    }
    var rs, after := CopySheets(project, sheetSVGs.value, sheets, logs, lower);
    StableSortOrders(rs);
    return Images(StableSort(rs), after), None;
  }

  lemma BracketIsNeeded(project: string)
    ensures Malformed(project) ==> '[' in project
  {
  }

  method CopySheets(project: string, glob: seq<string>, sheets: map<string, string>,
                    logs: map<string, string>, lower: char -> char)
    returns (rs: seq<Render>, after: map<string, string>)
    requires forall base <- glob :: base in sheets
    ensures rs == RendersOf(project, glob, lower) && after == CopyAll(logs, project, glob, sheets, lower)
  {
    hide Slugified, RendersOf, CopyAll;
    after := logs;
    rs := [];
    NothingCopied(logs, project, sheets, lower);
    assert glob[..0] == [];
    for i := 0 to |glob|
      invariant rs == RendersOf(project, glob[..i], lower)
      invariant after == CopyAll(logs, project, glob[..i], sheets, lower)
    {
      CopyNext(logs, project, glob, sheets, lower, i);
      var base := glob[i];
      var name := "schematic";
      var sheet := "";
      if base != project {
        sheet := SlugifySheet(TrimPrefix(base, project + "-"), lower);
        name := "schematic-" + sheet;
      }
      after := after[name + ".svg" := sheets[base]];
      rs := rs + [Render(name, "schematic", sheet)];
    }
    assert glob[..|glob|] == glob;
  }

  lemma NothingCopied(logs: map<string, string>, project: string, sheets: map<string, string>, lower: char -> char)
    ensures RendersOf(project, [], lower) == [] && CopyAll(logs, project, [], sheets, lower) == logs
  {
  }

  lemma CopyNext(logs: map<string, string>, project: string, glob: seq<string>, sheets: map<string, string>,
                 lower: char -> char, i: nat)
    requires forall base <- glob :: base in sheets
    requires i < |glob|
    ensures RendersOf(project, glob[..i + 1], lower)
            == RendersOf(project, glob[..i], lower) + [RenderOf(project, glob[i], lower)]
    ensures CopyAll(logs, project, glob[..i + 1], sheets, lower)
            == CopyAll(logs, project, glob[..i], sheets, lower)[FileOf(project, glob[i], lower) := sheets[glob[i]]]
  {
    hide RenderOf, FileOf;
    assert glob[..i + 1][..i] == glob[..i];
  }

  /** Both are the root sheet, or both are children with the same token. */
  predicate SameSheetToken(project: string, x: string, y: string, lower: char -> char) {
    (x == project <==> y == project) && SheetOf(project, x, lower) == SheetOf(project, y, lower)
  }

  /** Render names clash exactly when sheet tokens do, and never with the PCB renders. */
  lemma NamesFollowSheets(project: string, x: string, y: string, lower: char -> char)
    ensures RenderOf(project, x, lower).name == RenderOf(project, y, lower).name
            <==> SameSheetToken(project, x, y, lower)
    ensures RenderOf(project, x, lower).name != "front" && RenderOf(project, x, lower).name != "back"
    ensures FileOf(project, x, lower) == FileOf(project, y, lower)
            <==> RenderOf(project, x, lower).name == RenderOf(project, y, lower).name
  {
    hide SheetOf;
    var a, b := SheetOf(project, x, lower), SheetOf(project, y, lower);
    assert ("schematic-" + a)[|"schematic-"|..] == a && ("schematic-" + b)[|"schematic-"|..] == b;
    assert |"schematic-" + a| > |"schematic"| && |"schematic-" + b| > |"schematic"|;
    var m, n := RenderOf(project, x, lower).name, RenderOf(project, y, lower).name;
    assert (m + ".svg")[..|m + ".svg"| - 4] == m && (n + ".svg")[..|n + ".svg"| - 4] == n;
    assert m[0] == 's';
  }

  ghost predicate HoldsOwnSheet(after: map<string, string>, project: string, base: string,
                                sheets: map<string, string>, lower: char -> char)
    requires base in sheets
  {
    FileOf(project, base, lower) in after && after[FileOf(project, base, lower)] == sheets[base]
  }

  /** A file holds the last sheet copied to it. */
  lemma {:induction false} CopyStays(logs: map<string, string>, project: string, bases: seq<string>,
                                     sheets: map<string, string>, lower: char -> char, i: nat)
    requires forall base <- bases :: base in sheets
    requires i < |bases|
    requires forall k {:trigger bases[k]} :: i < k < |bases| ==>
               FileOf(project, bases[k], lower) != FileOf(project, bases[i], lower)
               || sheets[bases[k]] == sheets[bases[i]]
    ensures HoldsOwnSheet(CopyAll(logs, project, bases, sheets, lower), project, bases[i], sheets, lower)
  {
    hide FileOf;
    var init, last := bases[..|bases| - 1], |bases| - 1;
    if FileOf(project, bases[last], lower) != FileOf(project, bases[i], lower) {
      CopyStays(logs, project, init, sheets, lower, i);
    }
  }

  predicate ShareName(project: string, x: string, y: string, lower: char -> char) {
    RenderOf(project, x, lower).name == RenderOf(project, y, lower).name
  }

  /** Every render's file holds its own sheet if and only if sheets that share a
      render name have the same content; so always, when the names are distinct. */
  lemma FilesHoldOwnSheets(logs: map<string, string>, project: string, bases: seq<string>,
                           sheets: map<string, string>, lower: char -> char)
    requires forall base <- bases :: base in sheets
    ensures (forall i :: 0 <= i < |bases| ==>
               HoldsOwnSheet(CopyAll(logs, project, bases, sheets, lower), project, bases[i], sheets, lower))
            <==> (forall i, j :: 0 <= i < j < |bases| && ShareName(project, bases[i], bases[j], lower) ==>
                    sheets[bases[i]] == sheets[bases[j]])
  {
    hide FileOf, CopyAll, RenderOf, ShareName;
    forall i, j | 0 <= i < j < |bases|
      ensures ShareName(project, bases[i], bases[j], lower)
              <==> FileOf(project, bases[i], lower) == FileOf(project, bases[j], lower)
    {
      NameIsFile(project, bases[i], bases[j], lower);
    }
    if forall i, j :: 0 <= i < j < |bases| && ShareName(project, bases[i], bases[j], lower) ==>
         sheets[bases[i]] == sheets[bases[j]] {
      forall i | 0 <= i < |bases|
        ensures HoldsOwnSheet(CopyAll(logs, project, bases, sheets, lower), project, bases[i], sheets, lower)
      {
        CopyStays(logs, project, bases, sheets, lower, i);
      }
    }
  }

  lemma NameIsFile(project: string, x: string, y: string, lower: char -> char)
    ensures ShareName(project, x, y, lower) <==> FileOf(project, x, lower) == FileOf(project, y, lower)
  {
    NamesFollowSheets(project, x, y, lower);
  }

  /** The names of the whole manifest of NewPCB, in upload order. */
  function ManifestNames(renders: seq<Render>): seq<string> {
    ["front", "back"] + seq(|renders|, i requires 0 <= i < |renders| => renders[i].name)
  }

  ghost predicate NamesApart(rs: seq<Render>) {
    forall i, j :: 0 <= i < j < |rs| ==> rs[i].name != rs[j].name
  }

  lemma {:induction false} InsertKeepsApart(rs: seq<Render>, r: Render)
    ensures NamesApart(Insert(rs, r)) <==> NamesApart(rs) && forall x <- rs :: x.name != r.name
    ensures forall x :: x in Insert(rs, r) <==> x in rs || x == r
  {
    hide Less;
    if rs == [] || !Less(r, rs[|rs| - 1]) {
      ApartSnoc(rs, r);
    } else {
      var init, last := rs[..|rs| - 1], rs[|rs| - 1];
      assert rs == init + [last];
      InsertKeepsApart(init, r);
      ApartSnoc(init, last);
      ApartSnoc(Insert(init, r), last);
    }
  }

  lemma ApartSnoc(rs: seq<Render>, r: Render)
    ensures NamesApart(rs + [r]) <==> NamesApart(rs) && forall x <- rs :: x.name != r.name
  {
    if NamesApart(rs + [r]) {
      assert forall i :: 0 <= i < |rs| ==> (rs + [r])[i] == rs[i] && rs[i].name != (rs + [r])[|rs|].name;
    }
  }

  lemma {:induction false} SortKeepsApart(rs: seq<Render>)
    ensures NamesApart(StableSort(rs)) <==> NamesApart(rs)
    ensures forall x :: x in StableSort(rs) <==> x in rs
  {
    if rs != [] {
      var init, last := rs[..|rs| - 1], rs[|rs| - 1];
      assert rs == init + [last];
      SortKeepsApart(init);
      ApartSnoc(init, last);
      InsertKeepsApart(StableSort(init), last);
    }
  }

  /** The names of the manifest are pairwise distinct, and so distinct objects in
      storage, if and only if the sheets have distinct tokens. */
  lemma NamesAreDistinct(project: string, bases: seq<string>, lower: char -> char)
    ensures Distinct(ManifestNames(Schematics(project, bases, lower)))
            <==> forall i, j :: 0 <= i < j < |bases| ==> !SameSheetToken(project, bases[i], bases[j], lower)
  {
    hide SheetOf, RenderOf, StableSort;
    var rs := RendersOf(project, bases, lower);
    SortKeepsApart(rs);
    forall i, j | 0 <= i < j < |rs|
      ensures rs[i].name == rs[j].name <==> SameSheetToken(project, bases[i], bases[j], lower)
    {
      NamesFollowSheets(project, bases[i], bases[j], lower);
    }
    forall x <- rs
      ensures x.name != "front" && x.name != "back"
    {
      var i :| 0 <= i < |rs| && rs[i] == x;
      NamesFollowSheets(project, bases[i], bases[i], lower);
    }
    FrontAndBack(Schematics(project, bases, lower));
  }

  lemma FrontAndBack(rs: seq<Render>)
    requires forall x <- rs :: x.name != "front" && x.name != "back"
    ensures Distinct(ManifestNames(rs)) <==> NamesApart(rs)
  {
    var names := ManifestNames(rs);
    assert forall i :: 0 <= i < |rs| ==> names[i + 2] == rs[i].name;
    assert names[0] == "front" && names[1] == "back" && "front"[0] != "back"[0];
    if NamesApart(rs) {
      forall i, j | 0 <= i < j < |names|
        ensures names[i] != names[j]
      {
        assert j >= 2 ==> names[j] == rs[j - 2].name;
        assert i >= 2 ==> names[i] == rs[i - 2].name;
      }
    } else {
      var i, j :| 0 <= i < j < |rs| && rs[i].name == rs[j].name;
      assert names[i + 2] == names[j + 2];
    }
  }
}
