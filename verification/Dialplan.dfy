/**
  The managed FreePBX dialplan: routes in sorted order, the file rendered from
  them, and the include line kept in the custom file. A file is its lines between
  newlines, so a file that ends in a newline has a blank last line.
 */
module Dialplan {
  datatype Route = Route(id: string, number: string)

  // -------------------------------------------------------------------- sorting

  datatype SortKey = ById | ByNumber

  function KeyOf(k: SortKey, r: Route): string { if k.ById? then r.id else r.number }

  /** `strcmp(a, b) < 0`. */
  predicate Before(a: string, b: string) {
    b != [] && (a == [] || a[0] < b[0] || (a[0] == b[0] && Before(a[1..], b[1..])))
  }

  lemma {:induction false} BeforeIsTotal(a: string, b: string)
    ensures Before(a, b) || Before(b, a) || a == b
    ensures !(Before(a, b) && Before(b, a))
    ensures !Before(a, a)
  {
    if a != [] && b != [] {
      BeforeIsTotal(a[1..], b[1..]);
      BeforeIsTotal(a[1..], a[1..]);
      assert a == [a[0]] + a[1..] && b == [b[0]] + b[1..];
    } else if a != [] {
      BeforeIsTotal(a[1..], a[1..]);
    }
  }

  lemma {:induction false} BeforeIsTransitive(a: string, b: string, c: string)
    requires Before(a, b) && Before(b, c)
    ensures Before(a, c)
  {
    if a != [] && a[0] == b[0] == c[0] {
      BeforeIsTransitive(a[1..], b[1..], c[1..]);
    }
  }

  /** The two agree on `n` characters, and then the first is at its end, or has the smaller character. */
  predicate FirstDiffersAt(a: string, b: string, n: int) {
    && 0 <= n <= |a| && n < |b| && a[..n] == b[..n]
    && (n == |a| || a[n] < b[n])
  }

  lemma {:induction false} BeforeIff(a: string, b: string)
    ensures Before(a, b) <==> exists n :: FirstDiffersAt(a, b, n)
  {
    if b == [] {
      assert forall n :: !FirstDiffersAt(a, b, n);
    } else if a == [] || a[0] != b[0] {
      assert FirstDiffersAt(a, b, 0) <==> Before(a, b);
      forall n | 0 < n <= |a| && n < |b|
        ensures !FirstDiffersAt(a, b, n)
      {
        assert a[..n][0] == a[0] && b[..n][0] == b[0];
      }
    } else {
      BeforeIff(a[1..], b[1..]);
      if Before(a, b) {
        var n :| FirstDiffersAt(a[1..], b[1..], n);
        assert a[..n + 1] == [a[0]] + a[1..][..n] && b[..n + 1] == [b[0]] + b[1..][..n];
        assert FirstDiffersAt(a, b, n + 1);
      }
      forall n | FirstDiffersAt(a, b, n)
        ensures Before(a, b)
      {
        assert n > 0;
        assert a[1..][..n - 1] == a[..n][1..] && b[1..][..n - 1] == b[..n][1..];
        assert FirstDiffersAt(a[1..], b[1..], n - 1);
      }
    }
  }

  function Insert(k: SortKey, r: Route, sorted: seq<Route>): seq<Route> {
    if sorted == [] || Before(KeyOf(k, r), KeyOf(k, sorted[0])) then [r] + sorted
    else [sorted[0]] + Insert(k, r, sorted[1..])
  }

  function SortBy(k: SortKey, routes: seq<Route>): seq<Route> {
    if routes == [] then [] else Insert(k, routes[0], SortBy(k, routes[1..]))
  }

  predicate Ascending(k: SortKey, routes: seq<Route>) {
    forall i, j | 0 <= i < j < |routes| :: Before(KeyOf(k, routes[i]), KeyOf(k, routes[j]))
  }

  predicate DistinctBy(k: SortKey, routes: seq<Route>) {
    forall i, j | 0 <= i < j < |routes| :: KeyOf(k, routes[i]) != KeyOf(k, routes[j])
  }

  ghost predicate SameRoutes(a: seq<Route>, b: seq<Route>) {
    forall r :: r in a <==> r in b
  }

  lemma {:induction false} InsertAdds(k: SortKey, r: Route, sorted: seq<Route>)
    ensures |Insert(k, r, sorted)| == |sorted| + 1
    ensures SameRoutes(Insert(k, r, sorted), [r] + sorted)
  {
    if sorted != [] && !Before(KeyOf(k, r), KeyOf(k, sorted[0])) {
      InsertAdds(k, r, sorted[1..]);
      hide Insert;
      var rest := Insert(k, r, sorted[1..]);
      assert SameRoutes(rest, [r] + sorted[1..]);
      assert forall x :: x in [sorted[0]] + rest <==> x == sorted[0] || x == r || x in sorted[1..];
      assert forall x :: x in sorted <==> x == sorted[0] || x in sorted[1..];
    }
  }

  lemma {:induction false} InsertKeepsOrder(k: SortKey, r: Route, sorted: seq<Route>)
    requires Ascending(k, sorted) && forall s | s in sorted :: KeyOf(k, s) != KeyOf(k, r)
    ensures Ascending(k, Insert(k, r, sorted))
  {
    hide Before, KeyOf;
    if sorted != [] {
      var first, rest := sorted[0], Insert(k, r, sorted[1..]);
      BeforeIsTotal(KeyOf(k, r), KeyOf(k, first));
      assert first in sorted;
      if Before(KeyOf(k, r), KeyOf(k, first)) {
        forall s | s in sorted ensures Before(KeyOf(k, r), KeyOf(k, s)) {
          var i :| 0 <= i < |sorted| && sorted[i] == s;
          if i > 0 {
            BeforeIsTransitive(KeyOf(k, r), KeyOf(k, first), KeyOf(k, s));
          }
        }
        AscendingCons(k, r, sorted);
      } else {
        InsertKeepsOrder(k, r, sorted[1..]);
        InsertAdds(k, r, sorted[1..]);
        forall s | s in rest ensures Before(KeyOf(k, first), KeyOf(k, s)) {
          assert s in [r] + sorted[1..];
        }
        AscendingCons(k, first, rest);
      }
    }
  }

  lemma AscendingCons(k: SortKey, r: Route, rest: seq<Route>)
    requires Ascending(k, rest) && forall s | s in rest :: Before(KeyOf(k, r), KeyOf(k, s))
    ensures Ascending(k, [r] + rest)
  {
    hide Before, KeyOf;
  }

  /** Sorting by a key without repetitions keeps the routes and puts them in strictly ascending order. */
  lemma {:induction false} SortSorts(k: SortKey, routes: seq<Route>)
    ensures |SortBy(k, routes)| == |routes| && SameRoutes(SortBy(k, routes), routes)
    ensures DistinctBy(k, routes) ==> Ascending(k, SortBy(k, routes))
  {
    if routes != [] {
      var sorted := SortBy(k, routes[1..]);
      SortSorts(k, routes[1..]);
      InsertAdds(k, routes[0], sorted);
      assert SameRoutes(Insert(k, routes[0], sorted), routes) by {
        assert forall x :: x in [routes[0]] + sorted <==> x == routes[0] || x in sorted;
        assert forall x :: x in routes <==> x == routes[0] || x in routes[1..];
      }
      if DistinctBy(k, routes) {
        assert DistinctBy(k, routes[1..]);
        assert forall s | s in sorted :: s in routes[1..];
        InsertKeepsOrder(k, routes[0], sorted);
      }
    }
  }

  /** Routes in strictly ascending order are determined by which routes they are. */
  lemma {:induction false} AscendingIsUnique(k: SortKey, a: seq<Route>, b: seq<Route>)
    requires Ascending(k, a) && Ascending(k, b) && SameRoutes(a, b)
    ensures a == b
  {
    hide Before, KeyOf;
    if a == [] {
      if b != [] {
        SomeRoute(b);
      }
    } else {
      assert a[0] in b;
      LeastIsFirst(k, a, b);
      assert SameRoutes(a[1..], b[1..]) by { TailsMatch(k, a, b); }
      AscendingIsUnique(k, a[1..], b[1..]);
      assert a == [a[0]] + a[1..] && b == [b[0]] + b[1..];
    }
  }

  lemma SomeRoute(routes: seq<Route>)
    requires routes != []
    ensures exists r :: r in routes
  {
    assert routes[0] in routes;
  }

  lemma LeastIsFirst(k: SortKey, a: seq<Route>, b: seq<Route>)
    requires a != [] && b != [] && Ascending(k, a) && Ascending(k, b) && SameRoutes(a, b)
    ensures a[0] == b[0]
  {
    hide Before, KeyOf;
    assert a[0] in b && b[0] in a;
    var i :| 0 <= i < |b| && b[i] == a[0];
    var j :| 0 <= j < |a| && a[j] == b[0];
    BeforeIsTotal(KeyOf(k, a[0]), KeyOf(k, b[0]));
  }

  lemma TailsMatch(k: SortKey, a: seq<Route>, b: seq<Route>)
    requires a != [] && b != [] && a[0] == b[0] && Ascending(k, a) && Ascending(k, b) && SameRoutes(a, b)
    ensures SameRoutes(a[1..], b[1..])
  {
    hide Before, KeyOf;
    FirstNotAgain(k, a);
    FirstNotAgain(k, b);
    assert forall x :: x in a <==> x == a[0] || x in a[1..];
    assert forall x :: x in b <==> x == b[0] || x in b[1..];
  }

  lemma FirstNotAgain(k: SortKey, a: seq<Route>)
    requires a != [] && Ascending(k, a)
    ensures a[0] !in a[1..]
  {
    hide Before, KeyOf;
    BeforeIsTotal(KeyOf(k, a[0]), KeyOf(k, a[0]));
  }

  /** Sorting by one key does not disturb the other: no repetition appears. */
  lemma SortKeepsDistinct(first: SortKey, k: SortKey, routes: seq<Route>)
    requires DistinctBy(first, routes) && DistinctBy(k, routes)
    ensures DistinctBy(k, SortBy(first, routes))
  {
    hide Before, KeyOf, SortBy;
    SortSorts(first, routes);
    var s := SortBy(first, routes);
    forall i, j | 0 <= i < j < |s| ensures KeyOf(k, s[i]) != KeyOf(k, s[j]) {
      BeforeIsTotal(KeyOf(first, s[i]), KeyOf(first, s[i]));
      assert s[i] in routes && s[j] in routes;
      var p :| 0 <= p < |routes| && routes[p] == s[i];
      var q :| 0 <= q < |routes| && routes[q] == s[j];
      assert p != q;
    }
  }

  /** Any order of the same routes sorts the same. */
  lemma SortIgnoresOrder(k: SortKey, a: seq<Route>, b: seq<Route>)
    requires DistinctBy(k, a) && DistinctBy(k, b) && SameRoutes(a, b)
    ensures SortBy(k, a) == SortBy(k, b)
  {
    hide SortBy, Ascending, DistinctBy;
    SortSorts(k, a);
    SortSorts(k, b);
    AscendingIsUnique(k, SortBy(k, a), SortBy(k, b));
  }

  // ------------------------------------------------------------------ file contents

  /** A line that includes the managed file, however spelled, or any other line. */
  datatype Line = Include(spelling: string) | Other(text: string)

  type Contents = seq<Line>

  const CANONICAL: Line := Include("#include extensions_gateway_managed.conf")

  const BLANK: Line := Other("")

  const HEADING: Contents := [
    Other("; Managed by Asterisk AI Agent Gateway. Changes are generated from route state."),
    Other("[from-ai-gateway-managed]")
  ]

  function RouteLines(r: Route): Contents {
    [ Other("exten => " + r.number + ",1,NoOp(Asterisk AI Agent Gateway managed DID)"),
      Other(" same => n,Set(AI_GATEWAY_DID=" + r.number + ")"),
      Other(" same => n,Stasis(asterisk-ai-gateway)"),
      Other(" same => n,Hangup()") ]
  }

  function AllRouteLines(routes: seq<Route>): Contents {
    if routes == [] then [] else AllRouteLines(routes[..|routes| - 1]) + RouteLines(routes[|routes| - 1])
  }

  function Rendered(routes: seq<Route>): Contents {
    HEADING + AllRouteLines(SortBy(ByNumber, routes)) + [BLANK]
  }

  method Render(routes: seq<Route>) returns (contents: Contents)
    ensures contents == Rendered(routes)
  {
    hide SortBy, HEADING, RouteLines;
    var lines, sorted := HEADING, SortBy(ByNumber, routes);
    for k := 0 to |sorted|
      invariant lines == HEADING + AllRouteLines(sorted[..k])
    {
      assert sorted[..k + 1][..k] == sorted[..k];
      lines := lines + RouteLines(sorted[k]);
    }
    assert sorted[..|sorted|] == sorted;
    contents := lines + [BLANK];
  }

  /** The managed file does not depend on the order routes are listed in. */
  lemma RenderIgnoresOrder(a: seq<Route>, b: seq<Route>)
    requires DistinctBy(ByNumber, a) && DistinctBy(ByNumber, b) && SameRoutes(a, b)
    ensures Rendered(a) == Rendered(b)
  {
    SortIgnoresOrder(ByNumber, a, b);
  }

  lemma {:induction false} BlockAt(routes: seq<Route>, i: nat)
    requires i < |routes|
    ensures |AllRouteLines(routes)| == 4 * |routes|
    ensures AllRouteLines(routes)[4 * i..4 * i + 4] == RouteLines(routes[i])
  {
    hide RouteLines;
    var before, last := routes[..|routes| - 1], routes[|routes| - 1];
    assert |RouteLines(last)| == 4 by { FourLines(last); }
    if i < |before| {
      BlockAt(before, i);
    } else if before != [] {
      BlockAt(before, 0);
    }
  }

  lemma FourLines(r: Route)
    ensures |RouteLines(r)| == 4
  {}

  /** The lines at place `i` of the rendered file are those of this route. */
  predicate RendersAt(contents: Contents, r: Route, i: nat) {
    4 * i + 6 <= |contents| && contents[4 * i + 2..4 * i + 6] == RouteLines(r)
  }

  /** The file is the heading, the four lines of each route once, and the final newline; no route is left out. */
  lemma RenderListsEachRoute(routes: seq<Route>, r: Route) returns (i: nat)
    requires r in routes
    ensures |Rendered(routes)| == 4 * |routes| + 3 && Rendered(routes)[..2] == HEADING
    ensures i < |SortBy(ByNumber, routes)| == |routes|
    ensures SortBy(ByNumber, routes)[i] == r && RendersAt(Rendered(routes), r, i)
  {
    hide SortBy, RouteLines, AllRouteLines;
    var sorted := SortBy(ByNumber, routes);
    SortSorts(ByNumber, routes);
    assert r in sorted;
    i :| 0 <= i < |sorted| && sorted[i] == r;
    BlockAt(sorted, i);
    assert Rendered(routes)[4 * i + 2..4 * i + 6] == AllRouteLines(sorted)[4 * i..4 * i + 4];
  }

  /** Place `i` of the file shows the extension of this number, answered by the gateway. */
  predicate ShowsNumber(contents: Contents, number: string, i: nat) {
    && 4 * i + 6 <= |contents|
    && contents[4 * i + 2] == Other("exten => " + number + ",1,NoOp(Asterisk AI Agent Gateway managed DID)")
    && contents[4 * i + 3] == Other(" same => n,Set(AI_GATEWAY_DID=" + number + ")")
    && contents[4 * i + 4] == Other(" same => n,Stasis(asterisk-ai-gateway)")
    && contents[4 * i + 5] == Other(" same => n,Hangup()")
  }

  /** Line by line: the managed context, a place for each number, and the final newline. */
  lemma RenderedLineByLine(routes: seq<Route>, r: Route) returns (i: nat)
    requires r in routes
    ensures var contents := Rendered(routes);
            && |contents| == 4 * |routes| + 3 && contents[|contents| - 1] == Other("")
            && contents[0] == Other("; Managed by Asterisk AI Agent Gateway. Changes are generated from route state.")
            && contents[1] == Other("[from-ai-gateway-managed]")
            && i < |routes| && ShowsNumber(contents, r.number, i)
  {
    i := RenderListsEachRoute(routes, r);
    var contents := Rendered(routes);
    PlaceShows(contents, r, i);
    RenderedEnds(routes);
    hide Rendered, ShowsNumber;
    assert contents[0] == contents[..2][0] && contents[1] == contents[..2][1];
  }

  lemma RenderedEnds(routes: seq<Route>)
    ensures Rendered(routes)[|Rendered(routes)| - 1] == Other("")
  {}

  /** The smaller number comes first. */
  lemma RenderedInNumberOrder(routes: seq<Route>, r: Route, s: Route) returns (i: nat, j: nat)
    requires DistinctBy(ByNumber, routes) && r in routes && s in routes && Before(r.number, s.number)
    ensures i < j && ShowsNumber(Rendered(routes), r.number, i) && ShowsNumber(Rendered(routes), s.number, j)
  {
    i := RenderListsEachRoute(routes, r);
    j := RenderListsEachRoute(routes, s);
    SortSorts(ByNumber, routes);
    BeforeIsTotal(r.number, s.number);
    BeforeIsTotal(r.number, r.number);
    PlaceShows(Rendered(routes), r, i);
    PlaceShows(Rendered(routes), s, j);
    hide Rendered, SortBy, Before, RouteLines, ShowsNumber;
  }

  lemma PlaceShows(contents: Contents, r: Route, i: nat)
    requires RendersAt(contents, r, i)
    ensures ShowsNumber(contents, r.number, i)
  {
    var lines := contents[4 * i + 2..4 * i + 6];
    assert contents[4 * i + 2] == lines[0] && contents[4 * i + 3] == lines[1];
    assert contents[4 * i + 4] == lines[2] && contents[4 * i + 5] == lines[3];
  }

  // ---------------------------------------------------------------- the include line

  function Trimmed(lines: Contents): (t: Contents)
    ensures t <= lines && (t == [] || t[|t| - 1] != BLANK)
  {
    if lines != [] && lines[|lines| - 1] == BLANK then Trimmed(lines[..|lines| - 1]) else lines
  }

  predicate HasInclude(lines: Contents) { exists l :: l in lines && l.Include? }

  /** Other lines kept; the first include made canonical, unless one was `seen`; later ones dropped. */
  function Folded(lines: Contents, seen: bool): Contents {
    if lines == [] then []
    else if lines[0].Other? then [lines[0]] + Folded(lines[1..], seen)
    else (if seen then [] else [CANONICAL]) + Folded(lines[1..], true)
  }

  function Ensured(contents: Contents): Contents {
    Trimmed(Folded(contents, false) + if HasInclude(contents) then [] else [CANONICAL]) + [BLANK]
  }

  method EnsureInclude(contents: Contents) returns (r: Contents)
    ensures r == Ensured(contents)
  {
    hide Trimmed, Folded, HasInclude;
    var result: Contents, seen := [], false;
    assert !HasInclude(contents[..0]) by { NothingIncluded(); }
    assert contents[0..] == contents && [] + Folded(contents, false) == Folded(contents, false);
    for k := 0 to |contents|
      invariant seen <==> HasInclude(contents[..k])
      invariant Folded(contents, false) == result + Folded(contents[k..], seen)
    {
      var line := contents[k];
      FoldedStep(contents, k, seen);
      assert contents[..k + 1] == contents[..k] + [line];
      HasIncludeSnoc(contents[..k], line);
      ghost var was, later := result, Folded(contents[k + 1..], seen || line.Include?);
      if line.Include? {
        if !seen {
          result := result + [CANONICAL];
          seen := true;
        }
      } else {
        result := result + [line];
      }
      Regroup(was, line, later);
      Regroup(was, CANONICAL, later);
    }
    assert contents[..|contents|] == contents;
    assert Folded(contents, false) == result by {
      FoldedNothing(contents, seen);
      assert result + [] == result;
    }
    assert result + [] == result;
    if !seen {
      result := result + [CANONICAL];
    }
    r := PopBlanks(result);
    r := r + [BLANK];
  }

  lemma Regroup(before: Contents, line: Line, after: Contents)
    ensures before + ([line] + after) == (before + [line]) + after
  {}

  lemma NothingIncluded()
    ensures !HasInclude([])
  {}

  lemma FoldedNothing(contents: Contents, seen: bool)
    ensures Folded(contents[|contents|..], seen) == []
  {}

  lemma FoldedStep(contents: Contents, k: nat, seen: bool)
    requires k < |contents|
    ensures var line := contents[k];
            Folded(contents[k..], seen)
            == if line.Other? then [line] + Folded(contents[k + 1..], seen)
               else if seen then Folded(contents[k + 1..], true)
               else [CANONICAL] + Folded(contents[k + 1..], true)
  {
    assert contents[k..][1..] == contents[k + 1..] && contents[k..][0] == contents[k];
    assert [] + Folded(contents[k + 1..], true) == Folded(contents[k + 1..], true);
  }

  lemma HasIncludeSnoc(lines: Contents, line: Line)
    ensures HasInclude(lines + [line]) <==> HasInclude(lines) || line.Include?
  {
    assert line in lines + [line];
    if HasInclude(lines) {
      var l :| l in lines && l.Include?;
      assert l in lines + [line];
    }
  }

  method PopBlanks(lines: Contents) returns (r: Contents)
    ensures r == Trimmed(lines)
  {
    r := lines;
    while r != [] && r[|r| - 1] == BLANK
      invariant Trimmed(r) == Trimmed(lines)
    {
      r := r[..|r| - 1];
    }
  }

  /** The lines that include nothing. */
  function Others(lines: Contents): Contents {
    if lines == [] then []
    else (if lines[0].Other? then [lines[0]] else []) + Others(lines[1..])
  }

  function Includes(lines: Contents): Contents {
    if lines == [] then []
    else (if lines[0].Include? then [lines[0]] else []) + Includes(lines[1..])
  }

  lemma {:induction false} FoldedParts(lines: Contents, seen: bool)
    ensures Others(Folded(lines, seen)) == Others(lines)
    ensures Includes(Folded(lines, seen)) == if HasInclude(lines) && !seen then [CANONICAL] else []
  {
    if lines != [] {
      var later := seen || lines[0].Include?;
      FoldedParts(lines[1..], later);
      assert lines == [lines[0]] + lines[1..];
      HasIncludeCons(lines);
      hide HasInclude;
      var rest := Folded(lines[1..], later);
      assert ([CANONICAL] + rest)[1..] == rest && ([lines[0]] + rest)[1..] == rest;
      assert [] + rest == rest;
    }
  }

  lemma HasIncludeCons(lines: Contents)
    requires lines != []
    ensures HasInclude(lines) <==> lines[0].Include? || HasInclude(lines[1..])
  {
    assert lines[0] in lines;
    assert forall l :: l in lines <==> l == lines[0] || l in lines[1..];
  }

  lemma PartsOfSum(a: Contents, b: Contents)
    ensures Others(a + b) == Others(a) + Others(b) && Includes(a + b) == Includes(a) + Includes(b)
  {
    OthersOfSum(a, b);
    IncludesOfSum(a, b);
  }

  lemma OthersCons(line: Line, rest: Contents)
    ensures Others([line] + rest) == (if line.Other? then [line] else []) + Others(rest)
  {
    assert ([line] + rest)[1..] == rest;
  }

  lemma {:induction false} OthersOfSum(a: Contents, b: Contents)
    ensures Others(a + b) == Others(a) + Others(b)
  {
    NoParts();
    hide Others;
    if a == [] {
      assert a + b == b;
    } else {
      OthersOfSum(a[1..], b);
      OthersCons(a[0], a[1..]);
      OthersCons(a[0], a[1..] + b);
      assert a == [a[0]] + a[1..] && a + b == [a[0]] + (a[1..] + b);
    }
  }

  lemma IncludesCons(line: Line, rest: Contents)
    ensures Includes([line] + rest) == (if line.Include? then [line] else []) + Includes(rest)
  {
    assert ([line] + rest)[1..] == rest;
  }

  lemma {:induction false} IncludesOfSum(a: Contents, b: Contents)
    ensures Includes(a + b) == Includes(a) + Includes(b)
  {
    NoParts();
    hide Includes;
    if a == [] {
      assert a + b == b;
    } else {
      IncludesOfSum(a[1..], b);
      IncludesCons(a[0], a[1..]);
      IncludesCons(a[0], a[1..] + b);
      assert a == [a[0]] + a[1..] && a + b == [a[0]] + (a[1..] + b);
    }
  }

  lemma {:induction false} TrimmedParts(lines: Contents)
    ensures Includes(Trimmed(lines)) == Includes(lines)
    ensures Trimmed(Others(Trimmed(lines))) == Trimmed(Others(lines))
  {
    hide Others, Includes;
    if lines != [] && lines[|lines| - 1] == BLANK {
      var before := lines[..|lines| - 1];
      TrimmedParts(before);
      assert Trimmed(lines) == Trimmed(before);
      BlankParts();
      TrimmedSnoc(Others(before));
      PartsOfSum(before, [BLANK]);
      hide Trimmed;
      assert lines == before + [BLANK] && Includes(before) + [] == Includes(before);
    }
  }

  lemma BlankParts()
    ensures Others([BLANK]) == [BLANK] && Includes([BLANK]) == []
    ensures Others([CANONICAL]) == [] && Includes([CANONICAL]) == [CANONICAL]
  {
    assert [BLANK][1..] == [] && [CANONICAL][1..] == [];
  }

  lemma TrimmedSnoc(lines: Contents)
    ensures Trimmed(lines + [BLANK]) == Trimmed(lines)
  {
    assert (lines + [BLANK])[..|lines|] == lines;
  }

  /** The result includes the managed file once, in the canonical spelling, and keeps every other line in order. */
  lemma EnsuredKeepsTheRest(contents: Contents)
    ensures Includes(Ensured(contents)) == [CANONICAL]
    ensures Trimmed(Others(Ensured(contents))) == Trimmed(Others(contents))
  {
    hide Trimmed, Folded, HasInclude, Others, Includes;
    var extra := if HasInclude(contents) then [] else [CANONICAL];
    var folded := Folded(contents, false) + extra;
    FoldedParts(contents, false);
    BlankParts();
    NoParts();
    PartsOfSum(Folded(contents, false), extra);
    TrimmedParts(folded);
    PartsOfSum(Trimmed(folded), [BLANK]);
    TrimmedSnoc(Others(Trimmed(folded)));
    assert Others(contents) + [] == Others(contents);
  }

  lemma NoParts()
    ensures Others([]) == [] && Includes([]) == []
  {}

  /** Contents already in order: one include, spelled canonically, and exactly one blank line at the end. */
  predicate InOrder(contents: Contents) {
    && Includes(contents) == [CANONICAL]
    && |contents| >= 2 && contents[|contents| - 1] == BLANK && contents[|contents| - 2] != BLANK
  }

  lemma EnsuredIsInOrder(contents: Contents)
    ensures InOrder(Ensured(contents))
  {
    EnsuredKeepsTheRest(contents);
    hide Folded, HasInclude, Includes;
    var r := Ensured(contents);
    if |r| < 2 {
      assert r == [BLANK];
      BlankParts();
    }
  }

  lemma {:induction false} FoldedOrdered(contents: Contents)
    requires Includes(contents) == [CANONICAL]
    ensures Folded(contents, false) == contents && HasInclude(contents)
  {
    HasIncludeCons(contents);
    if contents[0].Include? {
      NoIncludeFolds(contents[1..]);
    } else {
      FoldedOrdered(contents[1..]);
    }
    assert contents == [contents[0]] + contents[1..];
  }

  lemma {:induction false} NoIncludeFolds(contents: Contents)
    requires Includes(contents) == []
    ensures Folded(contents, true) == contents
  {
    if contents != [] {
      NoIncludeFolds(contents[1..]);
      assert contents == [contents[0]] + contents[1..];
    }
  }

  /** Writing the include line again changes nothing, exactly when the contents are in order. */
  lemma EnsuredIsFixpointIff(contents: Contents)
    ensures Ensured(contents) == contents <==> InOrder(contents)
    ensures Ensured(Ensured(contents)) == Ensured(contents)
  {
    EnsuredIsInOrder(contents);
    if InOrder(contents) {
      OrderedIsFixpoint(contents);
    }
    OrderedIsFixpoint(Ensured(contents));
  }

  lemma OneBlankTrims(contents: Contents)
    requires |contents| >= 2 && contents[|contents| - 1] == BLANK && contents[|contents| - 2] != BLANK
    ensures Trimmed(contents) + [BLANK] == contents
  {
    assert Trimmed(contents[..|contents| - 1]) == contents[..|contents| - 1];
  }

  lemma OrderedIsFixpoint(contents: Contents)
    requires InOrder(contents)
    ensures Ensured(contents) == contents
  {
    FoldedOrdered(contents);
    hide Folded, HasInclude, Includes;
    assert Ensured(contents) == Trimmed(contents) + [BLANK] by {
      assert contents + [] == contents;
    }
    hide Ensured;
    OneBlankTrims(contents);
  }

  lemma {:induction false} FoldedPrefix(contents: Contents, k: nat)
    requires k <= |contents| && forall i | 0 <= i < k :: contents[i].Other?
    ensures Folded(contents, false) == contents[..k] + Folded(contents[k..], false)
  {
    if k > 0 {
      FoldedPrefix(contents[1..], k - 1);
      assert contents[..k] == [contents[0]] + contents[1..][..k - 1];
    }
  }

  /**
    The include line stands where the first one stood, in its canonical spelling, behind the
    very lines that were there; if there was none, it is added at the end.
   */
  lemma IncludeStandsInPlace(contents: Contents, k: nat)
    requires k <= |contents| && forall i | 0 <= i < k :: contents[i].Other?
    requires k < |contents| ==> contents[k].Include?
    ensures var canonical := Include("#include extensions_gateway_managed.conf");
            if k == |contents| then Ensured(contents) == contents + [canonical, Other("")]
            else k < |Ensured(contents)| && Ensured(contents)[..k] == contents[..k] && Ensured(contents)[k] == canonical
  {
    FoldedPrefix(contents, k);
    if k == |contents| {
      assert !HasInclude(contents);
      assert contents[..k] == contents && Folded(contents, false) == contents;
      assert Trimmed(contents + [CANONICAL]) == contents + [CANONICAL];
      assert contents + [CANONICAL] + [BLANK] == contents + [CANONICAL, BLANK];
    } else {
      assert contents[k] in contents && HasInclude(contents);
      var head, rest := contents[..k] + [CANONICAL], Folded(contents[k + 1..], true);
      assert contents[k..][1..] == contents[k + 1..];
      assert Folded(contents, false) == head + rest;
      assert Folded(contents, false) + [] == head + rest;
      TrimmedKeepsHead(head, rest);
      var t := Trimmed(head + rest);
      assert (t + [BLANK])[..k] == t[..|head|][..k] && (t + [BLANK])[k] == t[..|head|][k];
    }
  }

  lemma {:induction false} TrimmedKeepsHead(head: Contents, rest: Contents)
    requires head != [] && head[|head| - 1] != BLANK
    ensures var t := Trimmed(head + rest);
            |t| >= |head| && t[..|head|] == head
  {
    if rest == [] {
      assert head + rest == head;
    } else {
      TrimmedKeepsHead(head, rest[..|rest| - 1]);
      assert (head + rest)[..|head + rest| - 1] == head + rest[..|rest| - 1];
    }
  }
}
