/** strings.Join, strings.Split and strings.SplitN as far as the settings use them. */
module Text {
  import opened Decimal

  function Join(parts: seq<string>, sep: char): string {
    if parts == [] then ""
    else if |parts| == 1 then parts[0]
    else parts[0] + [sep] + Join(parts[1..], sep)
  }

  /** strings.SplitN(s, sep, 2): what is before and after the first `sep`. */
  function Cut(s: string, sep: char): Option<(string, string)> {
    if s == "" then None
    else if s[0] == sep then Some(("", s[1..]))
    else match Cut(s[1..], sep)
         case None => None
         case Some(p) => Some(([s[0]] + p.0, p.1))
  }

  lemma {:induction false} CutIsFirst(s: string, sep: char)
    ensures Cut(s, sep).None? <==> sep !in s
    ensures Cut(s, sep).Some? ==>
              var (before, after) := Cut(s, sep).value;
              s == before + [sep] + after && sep !in before && |after| < |s|
  {
    if s != "" && s[0] != sep {
      CutIsFirst(s[1..], sep);
      assert s == [s[0]] + s[1..];
    }
  }

  lemma {:induction false} CutOf(before: string, sep: char, after: string)
    requires sep !in before
    ensures Cut(before + [sep] + after, sep) == Some((before, after))
  {
    var s := before + [sep] + after;
    if before == "" {
      assert s[1..] == after;
    } else {
      CutOf(before[1..], sep, after);
      assert s[1..] == before[1..] + [sep] + after;
      assert [before[0]] + before[1..] == before;
    }
  }

  /** strings.Split. */
  function SplitOn(s: string, sep: char): seq<string>
    decreases |s|
  {
    CutIsFirst(s, sep);
    match Cut(s, sep)
    case None => [s]
    case Some(p) => [p.0] + SplitOn(p.1, sep)
  }

  /** Splitting undoes joining if no part holds the separator. */
  lemma {:induction false} SplitOfJoin(parts: seq<string>, sep: char)
    requires parts != [] && forall p <- parts :: sep !in p
    ensures SplitOn(Join(parts, sep), sep) == parts
  {
    var s := Join(parts, sep);
    if |parts| == 1 {
      CutIsFirst(s, sep);
    } else {
      CutOf(parts[0], sep, Join(parts[1..], sep));
      SplitOfJoin(parts[1..], sep);
    }
  }

  /** Joining undoes splitting. */
  lemma {:induction false} JoinOfSplit(s: string, sep: char)
    ensures SplitOn(s, sep) != [] && Join(SplitOn(s, sep), sep) == s
    decreases |s|
  {
    CutIsFirst(s, sep);
    if Cut(s, sep).Some? {
      var after := Cut(s, sep).value.1;
      JoinOfSplit(after, sep);
      assert SplitOn(s, sep)[1..] == SplitOn(after, sep);
    }
  }

  lemma {:induction false} JoinAvoids(parts: seq<string>, sep: char, c: char)
    requires c != sep && forall p <- parts :: c !in p
    ensures c !in Join(parts, sep)
  {
    if |parts| > 1 {
      JoinAvoids(parts[1..], sep, c);
    }
  }
}
