/** filepath.Glob of "*.svg" in the project directory, whose name is a part of the
    pattern: backend/internal/kicad/kicad.go, GenerateSchematicImage. */
module Glob {
  import opened Decimal

  /* path/filepath.Match, for patterns without '*', '?' and '\\': these are not left
     in a project name. None is ErrBadPattern. */

  /** The next character of a class, and what follows it. */
  function GetEsc(p: string): Option<(char, string)> {
    if p == "" || p[0] == '-' || p[0] == ']' || |p| == 1 then None else Some((p[0], p[1..]))
  }

  /** Whether r is in the class that p goes on with, and what follows the class;
      `some`: it had a range already. */
  function InClass(p: string, r: char, some: bool, found: bool): Option<(bool, string)>
    decreases |p|
  {
    if p != "" && p[0] == ']' && some then Some((found, p[1..]))
    else match GetEsc(p)
         case None => None
         case Some(low) =>
           if low.1[0] != '-' then InClass(low.1, r, true, found || low.0 == r)
           else match GetEsc(low.1[1..])
                case None => None
                case Some(high) => InClass(high.1, r, true, found || low.0 <= r <= high.0)
  }

  /** A failed match still goes through the pattern, to find errors in it. */
  function Match(p: string, name: string, hasFailed: bool): Option<bool>
    decreases |p|
  {
    if p == "" then Some(!hasFailed && name == "")
    else
      var failed := hasFailed || name == "";
      var rest := if failed then name else name[1..];
      if p[0] == '[' then
        var negated := |p| > 1 && p[1] == '^';
        var (q, r) := (if negated then p[2..] else p[1..], if failed then '\0' else name[0]);
        ClassIsShorter(q, r, false, false);
        match InClass(q, r, false, false)
        case None => None
        case Some(c) => Match(c.1, rest, failed || c.0 == negated)
      else Match(p[1..], rest, failed || p[0] != name[0])
  }

  lemma {:induction false} ClassIsShorter(p: string, r: char, some: bool, found: bool)
    ensures var c := InClass(p, r, some, found);
            c.Some? ==> |c.value.1| < |p| - (if some then 0 else 1)
    decreases |p|
  {
    if !(p != "" && p[0] == ']' && some) && GetEsc(p).Some? {
      var low := GetEsc(p).value;
      if low.1[0] != '-' {
        ClassIsShorter(low.1, r, true, found || low.0 == r);
      } else if GetEsc(low.1[1..]).Some? {
        var high := GetEsc(low.1[1..]).value;
        ClassIsShorter(high.1, r, true, found || low.0 <= r <= high.0);
      }
    }
  }

  /** What matches is not longer than the pattern; a class stands for one character
      of the name and takes three at least of the pattern. */
  lemma {:induction false} MatchIsShorter(p: string, name: string, hasFailed: bool)
    requires Match(p, name, hasFailed) == Some(true)
    ensures !hasFailed && |name| <= |p| && ('[' in p ==> |name| < |p|)
    decreases |p|
  {
    if p != "" {
      var failed := hasFailed || name == "";
      var rest := if failed then name else name[1..];
      if p[0] == '[' {
        var negated := |p| > 1 && p[1] == '^';
        var q := if negated then p[2..] else p[1..];
        var r := if failed then '\0' else name[0];
        ClassIsShorter(q, r, false, false);
        var c := InClass(q, r, false, false).value;
        MatchIsShorter(c.1, rest, failed || c.0 == negated);
      } else {
        MatchIsShorter(p[1..], rest, failed || p[0] != name[0]);
        assert p == [p[0]] + p[1..];
      }
    }
  }

  /** A name with a '[' is a pattern that does not match itself. */
  lemma BracketNeverMatchesItself(p: string)
    requires '[' in p
    ensures Match(p, p, false) != Some(true)
  {
    if Match(p, p, false) == Some(true) {
      MatchIsShorter(p, p, false);
    }
  }

  lemma {:induction false} ClassErrs(p: string, r: char, s: char, some: bool, found: bool, seen: bool)
    ensures var c, d := InClass(p, r, some, found), InClass(p, s, some, seen);
            (c.Some? <==> d.Some?) && (c.Some? ==> c.value.1 == d.value.1)
    decreases |p|
  {
    if !(p != "" && p[0] == ']' && some) && GetEsc(p).Some? {
      var low := GetEsc(p).value;
      if low.1[0] != '-' {
        ClassErrs(low.1, r, s, true, found || low.0 == r, seen || low.0 == s);
      } else if GetEsc(low.1[1..]).Some? {
        var high := GetEsc(low.1[1..]).value;
        ClassErrs(high.1, r, s, true, found || low.0 <= r <= high.0, seen || low.0 <= s <= high.0);
      }
    }
  }

  /** Whether a pattern is in error does not depend on the name. */
  lemma {:induction false} ErrorsAreThePattern(p: string, a: string, b: string, f: bool, g: bool)
    ensures Match(p, a, f).None? <==> Match(p, b, g).None?
    decreases |p|
  {
    if p != "" {
      var fa, fb := f || a == "", g || b == "";
      var ra, rb := if fa then a else a[1..], if fb then b else b[1..];
      if p[0] == '[' {
        var negated := |p| > 1 && p[1] == '^';
        var q := if negated then p[2..] else p[1..];
        var ca, cb := if fa then '\0' else a[0], if fb then '\0' else b[0];
        ClassErrs(q, ca, cb, false, false, false);
        if InClass(q, ca, false, false).Some? {
          var x, y := InClass(q, ca, false, false).value, InClass(q, cb, false, false).value;
          ClassIsShorter(q, ca, false, false);
          ErrorsAreThePattern(x.1, ra, rb, fa || x.0 == negated, fb || y.0 == negated);
        }
      } else {
        ErrorsAreThePattern(p[1..], ra, rb, fa || p[0] != a[0], fb || p[0] != b[0]);
      }
    }
  }

  /* ------------------------------------------- what patterns stand for */

  /** Of a class: one character, or all from `low` to `high`. */
  datatype Item = One(low: char) | Span(low: char, high: char)
  {
    function Show(): string {
      match this
      case One(low) => [low]
      case Span(low, high) => [low, '-', high]
    }

    predicate Valid() {
      low !in {'-', ']'} && (Span? ==> high !in {'-', ']'})
    }

    predicate Has(c: char) {
      match this
      case One(low) => c == low
      case Span(low, high) => low <= c <= high
    }
  }

  /** A pattern stands for names of as many characters as it has pieces. */
  datatype Piece = Plain(c: char) | Class(negated: bool, items: seq<Item>)
  {
    function Show(): string {
      match this
      case Plain(c) => [c]
      case Class(negated, items) => (if negated then "[^" else "[") + ShowItems(items) + "]"
    }

    predicate Valid() {
      match this
      case Plain(c) => c != '['
      case Class(negated, items) =>
        items != [] && (forall item <- items :: item.Valid()) && (!negated ==> items[0].low != '^')
    }

    predicate StandsFor(d: char) {
      match this
      case Plain(c) => d == c
      case Class(negated, items) => (exists item <- items :: item.Has(d)) != negated
    }
  }

  function ShowItems(items: seq<Item>): string {
    if items == [] then "" else items[0].Show() + ShowItems(items[1..])
  }

  function ShowAll(pieces: seq<Piece>): string {
    if pieces == [] then "" else pieces[0].Show() + ShowAll(pieces[1..])
  }

  predicate AllValid(pieces: seq<Piece>) {
    forall piece <- pieces :: piece.Valid()
  }

  predicate StandFor(pieces: seq<Piece>, name: string) {
    |name| == |pieces| && forall i :: 0 <= i < |name| ==> pieces[i].StandsFor(name[i])
  }

  lemma {:induction false} InClassItems(items: seq<Item>, tail: string, r: char, some: bool, found: bool)
    requires (forall item <- items :: item.Valid()) && (some || items != [])
    ensures InClass(ShowItems(items) + "]" + tail, r, some, found)
         == Some((found || exists item <- items :: item.Has(r), tail))
  {
    var p := ShowItems(items) + "]" + tail;
    if items == [] {
      assert p[0] == ']' && p[1..] == tail;
    } else {
      var item, rest := items[0], ShowItems(items[1..]) + "]" + tail;
      assert items == [item] + items[1..];
      assert item in items && forall i <- items[1..] :: i in items;
      assert p == item.Show() + rest;
      InClassItems(items[1..], tail, r, true, found || item.Has(r));
      NextOfItem(items[1..], tail);
      InClassItem(item, rest, r, some, found);
    }
  }

  lemma NextOfItem(items: seq<Item>, tail: string)
    requires forall item <- items :: item.Valid()
    ensures var p := ShowItems(items) + "]" + tail; p != "" && p[0] != '-'
  {
    if items != [] {
      assert items[0] in items;
    }
  }

  lemma InClassItem(item: Item, rest: string, r: char, some: bool, found: bool)
    requires item.Valid() && rest != "" && rest[0] != '-'
    ensures InClass(item.Show() + rest, r, some, found) == InClass(rest, r, true, found || item.Has(r))
  {
    var p := item.Show() + rest;
    assert p[0] == item.low;
    if item.One? {
      assert p[1..] == rest;
    } else {
      assert p[1..][0] == '-' && p[1..][1..] == [item.high] + rest;
      assert ([item.high] + rest)[1..] == rest;
    }
  }

  /** A pattern made of pieces is matched by the names they stand for, and no others. */
  lemma {:induction false} PiecesMatch(pieces: seq<Piece>, name: string, hasFailed: bool)
    requires AllValid(pieces)
    ensures Match(ShowAll(pieces), name, hasFailed) == Some(!hasFailed && StandFor(pieces, name))
    decreases pieces
  {
    if pieces != [] {
      var piece, rest := pieces[0], pieces[1..];
      assert piece in pieces && forall x <- rest :: x in pieces;
      var failed := hasFailed || name == "" || !piece.StandsFor(name[0]);
      PiecesMatch(rest, if hasFailed || name == "" then name else name[1..], failed);
      PieceMatches(piece, ShowAll(rest), name, hasFailed);
      if name != "" {
        StandForFirst(pieces, name);
      }
    }
  }

  lemma StandForFirst(pieces: seq<Piece>, name: string)
    requires pieces != [] && name != ""
    ensures StandFor(pieces, name) <==> pieces[0].StandsFor(name[0]) && StandFor(pieces[1..], name[1..])
  {
    if pieces[0].StandsFor(name[0]) && StandFor(pieces[1..], name[1..]) {
      forall i | 0 <= i < |name|
        ensures pieces[i].StandsFor(name[i])
      {
        assert i > 0 ==> pieces[i] == pieces[1..][i - 1] && name[i] == name[1..][i - 1];
      }
    }
  }

  lemma PieceMatches(piece: Piece, rest: string, name: string, hasFailed: bool)
    requires piece.Valid()
    ensures var failed := hasFailed || name == "";
            Match(piece.Show() + rest, name, hasFailed)
            == Match(rest, if failed then name else name[1..], failed || !piece.StandsFor(name[0]))
  {
    hide Match, InClass, ShowItems, Item.Has;
    if piece.Plain? {
      MatchPlain(piece.c, rest, name, hasFailed);
    } else {
      var r := if hasFailed || name == "" then '\0' else name[0];
      FirstOfItems(piece.items);
      InClassItems(piece.items, rest, r, false, false);
      MatchClass(piece.negated, ShowItems(piece.items) + "]" + rest, rest, name, hasFailed);
      assert piece.Show() + rest
             == (if piece.negated then "[^" else "[") + (ShowItems(piece.items) + "]" + rest);
    }
  }

  lemma MatchPlain(c: char, rest: string, name: string, hasFailed: bool)
    requires c != '['
    ensures var failed := hasFailed || name == "";
            Match([c] + rest, name, hasFailed)
            == Match(rest, if failed then name else name[1..], failed || name[0] != c)
  {
    var p := [c] + rest;
    assert p[0] == c && p[1..] == rest;
  }

  lemma MatchClass(negated: bool, body: string, tail: string, name: string, hasFailed: bool)
    requires body != "" && (!negated ==> body[0] != '^')
    requires var c := InClass(body, if hasFailed || name == "" then '\0' else name[0], false, false);
             c.Some? && c.value.1 == tail
    ensures var failed := hasFailed || name == "";
            var c := InClass(body, if failed then '\0' else name[0], false, false).value;
            Match((if negated then "[^" else "[") + body, name, hasFailed)
            == Match(tail, if failed then name else name[1..], failed || c.0 == negated)
  {
    hide InClass;
    var p := (if negated then "[^" else "[") + body;
    assert p[0] == '[' && |p| > 1 && (p[1] == '^' <==> negated);
    assert (if negated then p[2..] else p[1..]) == body;
  }

  lemma FirstItem(p: string, r: char, some: bool, found: bool) returns (item: Item, rest: string)
    requires InClass(p, r, some, found).Some? && !(p != "" && p[0] == ']' && some)
    ensures item.Valid() && p == item.Show() + rest
    ensures InClass(rest, r, true, found || item.Has(r)) == InClass(p, r, some, found)
  {
    var low := GetEsc(p).value;
    if low.1[0] != '-' {
      item, rest := One(low.0), low.1;
    } else {
      var high := GetEsc(low.1[1..]).value;
      item, rest := Span(low.0, high.0), high.1;
      assert p == [low.0] + low.1 && low.1 == ['-'] + low.1[1..] && low.1[1..] == [high.0] + rest;
    }
  }

  lemma {:induction false} ClassHasItems(p: string, r: char, some: bool, found: bool)
    returns (items: seq<Item>, tail: string)
    requires InClass(p, r, some, found).Some?
    ensures (forall item <- items :: item.Valid()) && (some || items != [])
    ensures p == ShowItems(items) + "]" + tail && tail == InClass(p, r, some, found).value.1
    decreases |p|
  {
    if p != "" && p[0] == ']' && some {
      items, tail := [], p[1..];
      assert p == "" + "]" + tail;
    } else {
      hide InClass, Item.Has;
      var item, rest := FirstItem(p, r, some, found);
      var others;
      others, tail := ClassHasItems(rest, r, true, found || item.Has(r));
      items := [item] + others;
      assert items[1..] == others;
      assert p == item.Show() + (ShowItems(others) + "]" + tail);
    }
  }

  lemma ShowClass(negated: bool, items: seq<Item>, tail: string, q: string)
    requires q == ShowItems(items) + "]" + tail
    ensures (if negated then "[^" else "[") + q == Class(negated, items).Show() + tail
  {
    hide ShowItems;
  }

  lemma CutBracket(p: string, negated: bool, q: string)
    requires p != "" && p[0] == '[' && (negated <==> |p| > 1 && p[1] == '^') && q == if negated then p[2..] else p[1..]
    ensures p == (if negated then "[^" else "[") + q
    ensures !negated && q != "" ==> q[0] != '^'
  {
  }

  lemma MatchGoesOn(p: string, name: string, hasFailed: bool)
    returns (negated: bool, q: string, r: char, tail: string, rest: string, failed: bool)
    requires p != "" && p[0] == '[' && Match(p, name, hasFailed).Some?
    ensures (negated <==> |p| > 1 && p[1] == '^') && q == if negated then p[2..] else p[1..]
    ensures InClass(q, r, false, false).Some? && tail == InClass(q, r, false, false).value.1 && |tail| < |p|
    ensures Match(tail, rest, failed).Some?
  {
    hide InClass;
    failed := hasFailed || name == "";
    rest := if failed then name else name[1..];
    negated := |p| > 1 && p[1] == '^';
    q, r := if negated then p[2..] else p[1..], if failed then '\0' else name[0];
    ClassIsShorter(q, r, false, false);
    var c := InClass(q, r, false, false).value;
    tail, failed := c.1, failed || c.0 == negated;
  }

  lemma FirstPiece(p: string, name: string, hasFailed: bool)
    returns (piece: Piece, tail: string, rest: string, failed: bool)
    requires p != "" && Match(p, name, hasFailed).Some?
    ensures piece.Valid() && p == piece.Show() + tail && |tail| < |p|
    ensures Match(tail, rest, failed).Some?
  {
    hide InClass, ShowItems, Piece.Show;
    if p[0] == '[' {
      var negated, q, r;
      negated, q, r, tail, rest, failed := MatchGoesOn(p, name, hasFailed);
      var items, t := ClassHasItems(q, r, false, false);
      CutBracket(p, negated, q);
      FirstOfItems(items);
      ShowClass(negated, items, tail, q);
      piece := Class(negated, items);
    } else {
      failed := hasFailed || name == "" || p[0] != name[0];
      rest := if hasFailed || name == "" then name else name[1..];
      piece, tail := Plain(p[0]), p[1..];
      ShowPlain(p);
    }
  }

  lemma ShowPlain(p: string)
    requires p != ""
    ensures p == Plain(p[0]).Show() + p[1..]
  {
  }

  /** And every pattern that is in no error is made of pieces. */
  lemma {:induction false} PatternHasPieces(p: string, name: string, hasFailed: bool) returns (pieces: seq<Piece>)
    requires Match(p, name, hasFailed).Some?
    ensures AllValid(pieces) && ShowAll(pieces) == p
    decreases |p|
  {
    hide Match;
    if p == "" {
      pieces := [];
    } else {
      var piece, tail, rest, failed := FirstPiece(p, name, hasFailed);
      var more := PatternHasPieces(tail, rest, failed);
      pieces := [piece] + more;
      assert pieces[1..] == more;
    }
  }

  lemma FirstOfItems(items: seq<Item>)
    requires items != []
    ensures ShowItems(items) != "" && ShowItems(items)[0] == items[0].low
  {
  }

  /** A pattern is in error if and only if it is not made of pieces. */
  lemma BadPatterns(p: string, name: string)
    ensures Match(p, name, false).None? <==> forall pieces :: AllValid(pieces) ==> ShowAll(pieces) != p
  {
    hide Match, AllValid, ShowAll, StandFor;
    if Match(p, name, false).Some? {
      var pieces := PatternHasPieces(p, name, false);
    } else {
      forall pieces | AllValid(pieces)
        ensures ShowAll(pieces) != p
      {
        PiecesMatch(pieces, name, false);
      }
    }
  }

  ghost predicate Finds(pattern: string, name: string) {
    exists pieces :: AllValid(pieces) && ShowAll(pieces) == pattern && StandFor(pieces, name)
  }

  lemma MatchFinds(pattern: string, name: string)
    ensures Match(pattern, name, false) == Some(true) <==> Finds(pattern, name)
  {
    hide Match, AllValid, ShowAll, StandFor;
    if Match(pattern, name, false).Some? {
      var pieces := PatternHasPieces(pattern, name, false);
      PiecesMatch(pieces, name, false);
    }
    if Finds(pattern, name) {
      var pieces :| AllValid(pieces) && ShowAll(pieces) == pattern && StandFor(pieces, name);
      PiecesMatch(pieces, name, false);
    }
  }

  /* ------------------------------------------------------- filepath.Glob */

  /** A directory in the work directory, with the base names of its *.svg files in
      the order they are found. */
  datatype Dir = Dir(name: string, svgs: seq<string>)

  predicate Malformed(project: string) {
    '[' in project && Match(project, "", false).None?
  }

  function Matching(pattern: string, dirs: seq<Dir>): seq<string> {
    if dirs == [] then []
    else (if Match(pattern, dirs[0].name, false) == Some(true) then dirs[0].svgs else []) + Matching(pattern, dirs[1..])
  }

  function Named(name: string, dirs: seq<Dir>): seq<string> {
    if dirs == [] then []
    else (if dirs[0].name == name then dirs[0].svgs else []) + Named(name, dirs[1..])
  }

  /** The names found by Glob for the SVGs in <work directory>/<project>: a project name without
      '[' is just a name, one with it is a pattern for directories. */
  function Listing(project: string, dirs: seq<Dir>): Option<seq<string>> {
    if '[' !in project then Some(Named(project, dirs))
    else if Malformed(project) then None
    else Some(Matching(project, dirs))
  }

  /** With a '[' in it, and in no error, the project's name finds the SVGs of all
      directories whose names it stands for. */
  lemma {:induction false} MatchingFinds(pattern: string, dirs: seq<Dir>, svg: string)
    ensures svg in Matching(pattern, dirs) <==> exists dir <- dirs :: Finds(pattern, dir.name) && svg in dir.svgs
  {
    hide Match, Finds;
    if dirs != [] {
      MatchingFinds(pattern, dirs[1..], svg);
      MatchFinds(pattern, dirs[0].name);
      assert dirs == [dirs[0]] + dirs[1..];
    }
  }

  lemma {:induction false} NamedFinds(name: string, dirs: seq<Dir>, svg: string)
    ensures svg in Named(name, dirs) <==> exists dir <- dirs :: dir.name == name && svg in dir.svgs
  {
    if dirs != [] {
      NamedFinds(name, dirs[1..], svg);
      assert dirs == [dirs[0]] + dirs[1..];
    }
  }

  lemma ListingFinds(project: string, dirs: seq<Dir>, svg: string)
    ensures var list := Listing(project, dirs);
            && (list.None? <==> '[' in project && forall pieces :: AllValid(pieces) ==> ShowAll(pieces) != project)
            && (list.Some? ==>
                  (svg in list.value <==>
                   exists dir <- dirs ::
                     (if '[' in project then Finds(project, dir.name) else dir.name == project) && svg in dir.svgs))
  {
    hide Match, Finds, AllValid, ShowAll;
    BadPatterns(project, "");
    MatchingFinds(project, dirs, svg);
    NamedFinds(project, dirs, svg);
  }

  /** The work directory while the schematic is exported: no SVG is in logs yet. */
  function WorkDir(project: string, exported: seq<string>): seq<Dir> {
    [Dir(project, exported), Dir("logs", [])]
  }

  /** The listing is the exported sheets, or nothing of them: with a '[' in its name
      the project directory is not found. */
  lemma ListedIfPlain(project: string, exported: seq<string>)
    ensures var list := Listing(project, WorkDir(project, exported));
            && ('[' !in project ==> list == Some(exported))
            && ('[' in project ==> list == if Malformed(project) then None else Some([]))
  {
    hide Match;
    var dirs := WorkDir(project, exported);
    assert dirs[1..] == [Dir("logs", [])] && dirs[1..][1..] == [];
    if '[' in project {
      BracketNeverMatchesItself(project);
      assert Matching(project, dirs[1..]) == [];
    } else {
      assert Named(project, dirs[1..]) == [] && exported + [] == exported;
    }
  }

  /** The root sheet, once exported, is listed if and only if there is no '[' in the
      project's name. */
  lemma RootIsListed(project: string, exported: seq<string>)
    requires project in exported
    ensures var list := Listing(project, WorkDir(project, exported));
            list.Some? && project in list.value <==> '[' !in project
  {
    ListedIfPlain(project, exported);
  }

  /** One such name is a pattern for other names, one is in error. */
  lemma BracketNames(exported: seq<string>)
    ensures Match("Board [v2]", "Board v", false) == Some(true)
    ensures Listing("Board [v2]", WorkDir("Board [v2]", exported)) == Some([])
    ensures Listing("a[", WorkDir("a[", exported)) == None
  {
    hide Match, Listing;
    BoardMatches();
    UnclosedIsMalformed();
    assert "Board [v2]"[6] == '[' && "a["[1] == '[';
    ListedIfPlain("Board [v2]", exported);
    ListedIfPlain("a[", exported);
    ErrorsAreThePattern("Board [v2]", "", "Board v", false, false);
  }

  lemma UnclosedIsMalformed()
    ensures Malformed("a[")
  {
    assert "a["[1..] == "[" && "["[1..] == "";
    assert Match("[", "", true).None?;
  }

  lemma BoardMatches()
    ensures Match("Board [v2]", "Board v", false) == Some(true)
  {
    hide Match;
    ClassOfV();
    MatchNext("Board [v2]", "Board v", "oard [v2]", "oard v");
    MatchNext("oard [v2]", "oard v", "ard [v2]", "ard v");
    MatchNext("ard [v2]", "ard v", "rd [v2]", "rd v");
    MatchNext("rd [v2]", "rd v", "d [v2]", "d v");
    MatchNext("d [v2]", "d v", " [v2]", " v");
    MatchNext(" [v2]", " v", "[v2]", "v");
  }

  lemma MatchNext(p: string, name: string, q: string, rest: string)
    requires p != "" && name != "" && p[0] == name[0] && p[0] != '[' && p[1..] == q && name[1..] == rest
    ensures Match(p, name, false) == Match(q, rest, false)
  {
  }

  lemma ClassOfV()
    ensures Match("[v2]", "v", false) == Some(true)
  {
    assert GetEsc("v2]") == Some(('v', "2]"));
    assert GetEsc("2]") == Some(('2', "]"));
    assert InClass("]", 'v', true, true) == Some((true, ""));
    assert InClass("2]", 'v', true, true) == Some((true, ""));
    assert InClass("v2]", 'v', false, false) == Some((true, ""));
    assert "[v2]"[1..] == "v2]";
  }
}
