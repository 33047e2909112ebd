/** Finding the tool calls in a text and sorting them by position. */
module ToolOrder {
  import opened Prelude

  type Args = map<string, string>

  const DONE := "done"

  /** A match of a tool's pattern; without captures it is skipped. */
  datatype Match = Match(position: nat, captured: Option<Args>)

  datatype Invocation = Invocation(name: string, args: Args, position: nat)

  /** The matches that a parser's pattern finds in a text. */
  type Pattern = string -> seq<Match>

  // ---- Stable sort by position ----

  function Inserted(s: seq<Invocation>, x: Invocation): seq<Invocation> {
    if s != [] && s[|s| - 1].position > x.position
    then Inserted(s[..|s| - 1], x) + [s[|s| - 1]]
    else s + [x]
  }

  function Sorted(s: seq<Invocation>): seq<Invocation> {
    if s == [] then [] else Inserted(Sorted(s[..|s| - 1]), s[|s| - 1])
  }

  ghost predicate Ordered(s: seq<Invocation>) {
    forall i, j :: 0 <= i < j < |s| ==> s[i].position <= s[j].position
  }

  lemma {:induction false} InsertedHolds(s: seq<Invocation>, x: Invocation)
    ensures multiset(Inserted(s, x)) == multiset(s) + multiset{x}
    ensures forall y :: y in Inserted(s, x) <==> y in s || y == x
  {
    if s != [] && s[|s| - 1].position > x.position {
      var n := |s| - 1;
      InsertedHolds(s[..n], x);
      assert s == s[..n] + [s[n]];
    }
    forall y ensures y in Inserted(s, x) <==> y in s || y == x {
      assert y in Inserted(s, x) <==> y in multiset(Inserted(s, x));
    }
  }

  lemma {:induction false} InsertedOrders(s: seq<Invocation>, x: Invocation)
    requires Ordered(s)
    ensures Ordered(Inserted(s, x))
  {
    if s != [] && s[|s| - 1].position > x.position {
      var n := |s| - 1;
      InsertedOrders(s[..n], x);
      InsertedHolds(s[..n], x);
      var r := Inserted(s[..n], x);
      forall i | 0 <= i < |r| ensures r[i].position <= s[n].position {
        assert r[i] in r;
        assert r[i] == x || r[i] in s[..n];
      }
    }
  }

  lemma {:induction false} SortedOrders(s: seq<Invocation>)
    ensures Ordered(Sorted(s)) && multiset(Sorted(s)) == multiset(s)
  {
    if s != [] {
      SortedOrders(s[..|s| - 1]);
      InsertedOrders(Sorted(s[..|s| - 1]), s[|s| - 1]);
      InsertedHolds(Sorted(s[..|s| - 1]), s[|s| - 1]);
      assert s == s[..|s| - 1] + [s[|s| - 1]];
    }
  }

  /** The invocations at position `p`, in order, and those before it. */
  function At(s: seq<Invocation>, p: nat): seq<Invocation> {
    if s == [] then []
    else At(s[..|s| - 1], p) + if s[|s| - 1].position == p then [s[|s| - 1]] else []
  }

  function Before(s: seq<Invocation>, p: nat): seq<Invocation> {
    if s == [] then []
    else Before(s[..|s| - 1], p) + if s[|s| - 1].position < p then [s[|s| - 1]] else []
  }

  lemma {:induction false} AtConcat(a: seq<Invocation>, b: seq<Invocation>, p: nat)
    ensures At(a + b, p) == At(a, p) + At(b, p)
    ensures |Before(a + b, p)| == |Before(a, p)| + |Before(b, p)|
  {
    if b == [] {
      assert a + b == a;
    } else {
      AtConcat(a, b[..|b| - 1], p);
      assert (a + b)[..|a + b| - 1] == a + b[..|b| - 1];
    }
  }

  lemma {:induction false} AtHolds(s: seq<Invocation>, p: nat)
    ensures forall x :: x in At(s, p) <==> x in s && x.position == p
  {
    if s != [] {
      AtHolds(s[..|s| - 1], p);
      assert s == s[..|s| - 1] + [s[|s| - 1]];
    }
  }

  lemma AtSnoc(s: seq<Invocation>, x: Invocation, p: nat)
    ensures At(s + [x], p) == At(s, p) + if x.position == p then [x] else []
    ensures |Before(s + [x], p)| == |Before(s, p)| + if x.position < p then 1 else 0
  {
    assert (s + [x])[..|s|] == s;
  }

  lemma EmptySwaps(s: seq<Invocation>, a: seq<Invocation>, b: seq<Invocation>)
    requires a == [] || b == []
    ensures s + a + b == s + b + a
  {}

  /** Inserting puts `x` behind the others at its position and moves no two of them. */
  lemma {:induction false} InsertedStays(s: seq<Invocation>, x: Invocation, p: nat)
    ensures At(Inserted(s, x), p) == At(s, p) + if x.position == p then [x] else []
  {
    if s != [] && s[|s| - 1].position > x.position {
      var init, last := s[..|s| - 1], s[|s| - 1];
      InsertedStays(init, x, p);
      AtSnoc(Inserted(init, x), last, p);
      EmptySwaps(At(init, p), if x.position == p then [x] else [], if last.position == p then [last] else []);
    } else {
      AtSnoc(s, x, p);
    }
  }

  lemma {:induction false} InsertedBefore(s: seq<Invocation>, x: Invocation, p: nat)
    ensures |Before(Inserted(s, x), p)| == |Before(s, p)| + if x.position < p then 1 else 0
  {
    if s != [] && s[|s| - 1].position > x.position {
      InsertedBefore(s[..|s| - 1], x, p);
      AtSnoc(Inserted(s[..|s| - 1], x), s[|s| - 1], p);
    } else {
      AtSnoc(s, x, p);
    }
  }

  /** The sort is stable. */
  lemma {:induction false} SortedStays(s: seq<Invocation>, p: nat)
    ensures At(Sorted(s), p) == At(s, p)
    ensures |Before(Sorted(s), p)| == |Before(s, p)|
  {
    if s != [] {
      var init, last := s[..|s| - 1], s[|s| - 1];
      SortedStays(init, p);
      InsertedStays(Sorted(init), last, p);
      InsertedBefore(Sorted(init), last, p);
      AtSnoc(init, last, p);
      assert s == init + [last];
    }
  }

  /** An ordered list is determined by what it has at each position. */
  lemma {:induction false} OneOrder(a: seq<Invocation>, b: seq<Invocation>)
    requires Ordered(a) && Ordered(b) && forall p :: At(a, p) == At(b, p)
    ensures a == b
    decreases |a| + |b|
  {
    if a != [] || b != [] {
      LastsAgree(a, b);
      var m, n := |a| - 1, |b| - 1;
      assert a == a[..m] + [a[m]] && b == b[..n] + [b[n]];
      forall p ensures At(a[..m], p) == At(b[..n], p) {
        AtSnoc(a[..m], a[m], p);
        AtSnoc(b[..n], b[n], p);
        assert At(a, p) == At(b, p);
        if a[m].position == p {
          assert At(a[..m], p) == At(a, p)[..|At(a, p)| - 1];
          assert At(b[..n], p) == At(b, p)[..|At(b, p)| - 1];
        } else {
          assert At(a[..m], p) + [] == At(a[..m], p) && At(b[..n], p) + [] == At(b[..n], p);
        }
      }
      OneOrder(a[..m], b[..n]);
    }
  }

  lemma LastsAgree(a: seq<Invocation>, b: seq<Invocation>)
    requires Ordered(a) && Ordered(b) && (a != [] || b != []) && forall p :: At(a, p) == At(b, p)
    ensures a != [] && b != [] && a[|a| - 1] == b[|b| - 1]
  {
    if a != [] {
      LastIsIn(a, b);
    }
    if b != [] {
      LastIsIn(b, a);
    }
    var p := a[|a| - 1].position;
    assert At(a, p)[|At(a, p)| - 1] == a[|a| - 1];
    assert At(b, p)[|At(b, p)| - 1] == b[|b| - 1];
  }

  lemma LastIsIn(a: seq<Invocation>, b: seq<Invocation>)
    requires Ordered(b) && a != [] && At(a, a[|a| - 1].position) == At(b, a[|a| - 1].position)
    ensures b != [] && a[|a| - 1].position <= b[|b| - 1].position
  {
    var x := a[|a| - 1];
    AtHolds(a, x.position);
    AtHolds(b, x.position);
    assert x in At(b, x.position) && x in b;
  }

  /** Where the invocations at `p` are in an ordered list. */
  lemma {:induction false} AtPlaced(s: seq<Invocation>, p: nat, i: nat)
    requires Ordered(s) && i < |At(s, p)|
    ensures |Before(s, p)| + i < |s| && s[|Before(s, p)| + i] == At(s, p)[i]
  {
    var init, last := s[..|s| - 1], s[|s| - 1];
    AtHolds(init, p);
    if i < |At(init, p)| {
      AtPlaced(init, p, i);
      assert At(init, p)[i] in init;
    } else {
      forall k | 0 <= k < |init| ensures init[k].position <= p {
        assert init[k] == s[k];
      }
      AllPlaced(init, p);
    }
  }

  lemma {:induction false} AllPlaced(s: seq<Invocation>, p: nat)
    requires forall i :: 0 <= i < |s| ==> s[i].position <= p
    ensures |Before(s, p)| + |At(s, p)| == |s|
  {
    if s != [] {
      AllPlaced(s[..|s| - 1], p);
    }
  }

  lemma {:induction false} BeforeHolds(s: seq<Invocation>, p: nat)
    ensures forall x :: x in Before(s, p) <==> x in s && x.position < p
  {
    if s != [] {
      BeforeHolds(s[..|s| - 1], p);
      assert s == s[..|s| - 1] + [s[|s| - 1]];
    }
  }

  /** In an ordered list the invocations before `p` are a prefix. */
  lemma {:induction false} BeforeIsPrefix(s: seq<Invocation>, p: nat)
    requires Ordered(s)
    ensures Before(s, p) <= s
  {
    if s != [] {
      if s[|s| - 1].position < p {
        BeforeIsAll(s, p);
      } else {
        BeforeIsPrefix(s[..|s| - 1], p);
      }
    }
  }

  /** Ordered lists that agree at each position up to `p` agree up to there. */
  lemma PrefixOnce(a: seq<Invocation>, b: seq<Invocation>, p: nat)
    requires Ordered(a) && Ordered(b) && forall q: nat :: q <= p ==> At(a, q) == At(b, q)
    ensures Before(a, p + 1) == Before(b, p + 1)
  {
    var c, d := Before(a, p + 1), Before(b, p + 1);
    BeforeIsPrefix(a, p + 1);
    BeforeIsPrefix(b, p + 1);
    forall q: nat ensures At(c, q) == At(d, q) {
      AtOfBefore(a, p + 1, q);
      AtOfBefore(b, p + 1, q);
    }
    OneOrder(c, d);
  }

  lemma {:induction false} BeforeIsAll(s: seq<Invocation>, p: nat)
    requires forall i :: 0 <= i < |s| ==> s[i].position < p
    ensures Before(s, p) == s
  {
    if s != [] {
      BeforeIsAll(s[..|s| - 1], p);
      assert s == s[..|s| - 1] + [s[|s| - 1]];
    }
  }

  lemma {:induction false} AtOfBefore(s: seq<Invocation>, p: nat, q: nat)
    ensures At(Before(s, p), q) == if q < p then At(s, q) else []
  {
    if s != [] {
      var init, last := s[..|s| - 1], s[|s| - 1];
      AtOfBefore(init, p, q);
      AtSnoc(Before(init, p), last, q);
      assert Before(init, p) + [] == Before(init, p);
    }
  }

  // ---- Collecting ----

  function Parsed(name: string, matches: seq<Match>): (r: seq<Invocation>)
    ensures forall x :: x in r ==> x.name == name
  {
    if matches == [] then []
    else
      var m := matches[|matches| - 1];
      Parsed(name, matches[..|matches| - 1])
      + if m.captured.Some? then [Invocation(name, m.captured.value, m.position)] else []
  }

  /** `from` are the positions, in order, of the matches with captures. */
  ghost predicate Captures(matches: seq<Match>, from: seq<nat>) {
    && (forall i, j :: 0 <= i < j < |from| ==> from[i] < from[j])
    && forall k: nat :: k in from <==> k < |matches| && matches[k].captured.Some?
  }

  lemma CapturesSnoc(matches: seq<Match>, m: Match, from: seq<nat>)
    requires Captures(matches, from)
    ensures Captures(matches + [m], if m.captured.Some? then from + [|matches|] else from)
  {
    var from' := if m.captured.Some? then from + [|matches|] else from;
    forall i | 0 <= i < |from| ensures from[i] < |matches| {
      assert from[i] in from;
    }
    forall k: nat ensures k in from' <==> k < |matches + [m]| && (matches + [m])[k].captured.Some? {
      if k < |matches| {
        assert k in from <==> matches[k].captured.Some?;
      } else {
        assert k !in from;
      }
    }
  }

  ghost predicate ParsedFrom(name: string, matches: seq<Match>, from: seq<nat>, found: seq<Invocation>) {
    && |found| == |from|
    && forall k :: 0 <= k < |from| ==>
         from[k] < |matches|
         && matches[from[k]] == Match(found[k].position, Some(found[k].args)) && found[k].name == name
  }

  /** There is one invocation for each match with captures, in the order of the matches. */
  lemma {:induction false} ParsedIsCaptured(name: string, matches: seq<Match>) returns (from: seq<nat>)
    ensures Captures(matches, from) && ParsedFrom(name, matches, from, Parsed(name, matches))
  {
    if matches == [] {
      from := [];
    } else {
      var init, m := matches[..|matches| - 1], matches[|matches| - 1];
      from := ParsedIsCaptured(name, init);
      assert matches == init + [m];
      CapturesSnoc(init, m, from);
      from := if m.captured.Some? then from + [|init|] else from;
    }
  }

  /** What one parser finds, under the name it is registered with. */
  function Found(patterns: map<string, Pattern>, input: string, name: string): seq<Invocation>
    requires name in patterns
  {
    Sorted(Parsed(name, patterns[name](input)))
  }

  predicate Known(visit: seq<string>, patterns: map<string, Pattern>) {
    forall n :: n in visit ==> n in patterns
  }

  /** The invocations of all parsers, in the order in which the parsers are visited. */
  function Collected(patterns: map<string, Pattern>, input: string, visit: seq<string>): seq<Invocation>
    requires Known(visit, patterns)
  {
    if visit == [] then []
    else Collected(patterns, input, visit[..|visit| - 1]) + Found(patterns, input, visit[|visit| - 1])
  }

  /** An iteration order of the parser map. */
  ghost predicate Visits(visit: seq<string>, patterns: map<string, Pattern>) {
    NoDup(visit) && forall n :: n in visit <==> n in patterns
  }

  lemma FoundHolds(patterns: map<string, Pattern>, input: string, name: string)
    requires name in patterns
    ensures forall x :: x in Found(patterns, input, name) <==> x in Parsed(name, patterns[name](input))
  {
    var s := Parsed(name, patterns[name](input));
    SortedOrders(s);
    forall x ensures x in Sorted(s) <==> x in s {
      assert x in Sorted(s) <==> x in multiset(Sorted(s));
    }
  }

  /** An invocation is collected if and only if the parser of its name is visited and finds it. */
  lemma {:induction false} CollectedHolds(patterns: map<string, Pattern>, input: string, visit: seq<string>,
                                          x: Invocation)
    requires Known(visit, patterns)
    ensures x in Collected(patterns, input, visit)
       <==> x.name in visit && x in Parsed(x.name, patterns[x.name](input))
  {
    if visit != [] {
      var n := |visit| - 1;
      CollectedHolds(patterns, input, visit[..n], x);
      FoundHolds(patterns, input, visit[n]);
      assert visit == visit[..n] + [visit[n]];
    }
  }

  /** And it is collected as often as that parser finds it. */
  lemma {:induction false} CollectedCounts(patterns: map<string, Pattern>, input: string, visit: seq<string>,
                                           x: Invocation)
    requires Known(visit, patterns) && NoDup(visit)
    ensures multiset(Collected(patterns, input, visit))[x]
         == if x.name in visit then multiset(Parsed(x.name, patterns[x.name](input)))[x] else 0
  {
    if visit != [] {
      var init, n := visit[..|visit| - 1], visit[|visit| - 1];
      assert visit == init + [n] && n !in init;
      CollectedCounts(patterns, input, init, x);
      SortedOrders(Parsed(n, patterns[n](input)));
      assert x in multiset(Parsed(n, patterns[n](input))) ==> x in Parsed(n, patterns[n](input));
    }
  }

  /** Parser `n` has a match at position `p`. */
  ghost predicate Hits(patterns: map<string, Pattern>, input: string, n: string, p: nat) {
    n in patterns && At(Found(patterns, input, n), p) != []
  }

  /** No two parsers share a position; one of them may match there more than once. */
  ghost predicate NoTies(patterns: map<string, Pattern>, input: string) {
    forall m, n, p :: Hits(patterns, input, m, p) && Hits(patterns, input, n, p) ==> m == n
  }

  /** Where only parser `n` hits, the others leave no trace. */
  lemma {:induction false} CollectedAt(patterns: map<string, Pattern>, input: string, visit: seq<string>, n: string,
                                       p: nat)
    requires NoDup(visit) && n in patterns && Known(visit, patterns)
    requires forall m :: Hits(patterns, input, m, p) ==> m == n
    ensures At(Collected(patterns, input, visit), p) == if n in visit then At(Found(patterns, input, n), p) else []
  {
    if visit != [] {
      var init, m := visit[..|visit| - 1], visit[|visit| - 1];
      assert visit == init + [m] && m !in init;
      CollectedAt(patterns, input, init, n, p);
      AtConcat(Collected(patterns, input, init), Found(patterns, input, m), p);
      assert m != n ==> !Hits(patterns, input, m, p);
    }
  }

  /** Where at most one parser hits, all iteration orders agree. */
  lemma SameAt(patterns: map<string, Pattern>, input: string, v: seq<string>, u: seq<string>, p: nat)
    requires Visits(v, patterns) && Visits(u, patterns)
    requires forall m, n :: Hits(patterns, input, m, p) && Hits(patterns, input, n, p) ==> m == n
    ensures At(Sorted(Collected(patterns, input, v)), p) == At(Sorted(Collected(patterns, input, u)), p)
  {
    SortedStays(Collected(patterns, input, v), p);
    SortedStays(Collected(patterns, input, u), p);
    if u != [] {
      assert u[0] in u;
    }
    if n :| Hits(patterns, input, n, p) {
      CollectedAt(patterns, input, v, n, p);
      CollectedAt(patterns, input, u, n, p);
    } else if v != [] {
      assert v[0] in v;
      CollectedAt(patterns, input, v, v[0], p);
      CollectedAt(patterns, input, u, v[0], p);
    }
  }

  /** Without ties there is only one sorted list. */
  lemma SortedOnce(patterns: map<string, Pattern>, input: string, v: seq<string>, u: seq<string>)
    requires Visits(v, patterns) && Visits(u, patterns) && NoTies(patterns, input)
    ensures Sorted(Collected(patterns, input, v)) == Sorted(Collected(patterns, input, u))
  {
    SortedOrders(Collected(patterns, input, v));
    SortedOrders(Collected(patterns, input, u));
    forall p ensures At(Sorted(Collected(patterns, input, v)), p) == At(Sorted(Collected(patterns, input, u)), p) {
      SameAt(patterns, input, v, u, p);
    }
    OneOrder(Sorted(Collected(patterns, input, v)), Sorted(Collected(patterns, input, u)));
  }

  lemma CollectedSnoc(patterns: map<string, Pattern>, input: string, v: seq<string>, n: string)
    requires Known(v, patterns) && n in patterns
    ensures Known(v + [n], patterns)
    ensures Collected(patterns, input, v + [n]) == Collected(patterns, input, v) + Found(patterns, input, n)
  {
    assert (v + [n])[..|v|] == v;
  }

  /** An iteration order of the remaining parsers. */
  lemma {:induction false} Enumerated(names: set<string>) returns (s: seq<string>)
    ensures NoDup(s) && forall n :: n in s <==> n in names
    decreases names
  {
    if names == {} {
      s := [];
    } else {
      var n :| n in names;
      s := Enumerated(names - {n});
      s := s + [n];
    }
  }

  /** Where the invocations of `a` at `p` begin once those of `r` and `b` are sorted in. */
  function Place(r: seq<Invocation>, a: seq<Invocation>, b: seq<Invocation>, p: nat): nat {
    |Before(r, p)| + |Before(a, p)| + |Before(b, p)| + |At(r, p)|
  }

  lemma EarlierIsFirst(r: seq<Invocation>, a: seq<Invocation>, b: seq<Invocation>, p: nat)
    requires At(a, p) != []
    ensures Place(r, a, b, p) < |Sorted(r + a + b)| && Sorted(r + a + b)[Place(r, a, b, p)] in a
  {
    var s, k := Sorted(r + a + b), |At(r, p)|;
    MiddleAt(r, a, b, p);
    SortedStays(r + a + b, p);
    SortedIsOrdered(r + a + b);
    AtPlaced(s, p, k);
    assert s[|Before(s, p)| + k] == At(r + a + b, p)[k];
  }

  lemma SortedIsOrdered(s: seq<Invocation>)
    ensures Ordered(Sorted(s))
  {
    SortedOrders(s);
  }

  lemma MiddleAt(r: seq<Invocation>, a: seq<Invocation>, b: seq<Invocation>, p: nat)
    requires At(a, p) != []
    ensures |Before(r + a + b, p)| + |At(r, p)| == Place(r, a, b, p)
    ensures |At(r, p)| < |At(r + a + b, p)| && At(r + a + b, p)[|At(r, p)|] in a
  {
    AtConcat(r + a, b, p);
    AtConcat(r, a, p);
    AtHolds(a, p);
    assert At(a, p)[0] in At(a, p);
  }

  predicate NamedAt(s: seq<Invocation>, k: nat, name: string) {
    k < |s| && s[k].name == name
  }

  /** Of the last two parsers to be visited, the earlier one comes first at a position. */
  lemma EarlierVisitedIsFirst(patterns: map<string, Pattern>, input: string, m: string, n: string, rest: seq<string>,
                              p: nat)
    requires Hits(patterns, input, m, p) && n in patterns && Known(rest, patterns)
    ensures Known(rest + [m] + [n], patterns)
    ensures NamedAt(Sorted(Collected(patterns, input, rest + [m] + [n])),
                    Place(Collected(patterns, input, rest), Found(patterns, input, m), Found(patterns, input, n), p), m)
  {
    var a, b, r := Found(patterns, input, m), Found(patterns, input, n), Collected(patterns, input, rest);
    CollectedSnoc(patterns, input, rest, m);
    CollectedSnoc(patterns, input, rest + [m], n);
    EarlierIsFirst(r, a, b, p);
    FoundHolds(patterns, input, m);
  }

  /** The names of the invocations, in order. */
  function Names(s: seq<Invocation>): seq<string> {
    seq(|s|, i requires 0 <= i < |s| => s[i].name)
  }

  /** An iteration order of all parsers but two. */
  lemma OtherParsers(patterns: map<string, Pattern>, m: string, n: string) returns (rest: seq<string>)
    requires m in patterns && n in patterns && m != n
    ensures Known(rest, patterns) && Visits(rest + [m] + [n], patterns) && Visits(rest + [n] + [m], patterns)
    ensures m !in rest && n !in rest
  {
    rest := Enumerated(patterns.Keys - {m, n});
    VisitsLast(patterns, m, n, rest);
    VisitsLast(patterns, n, m, rest);
  }

  lemma VisitsLast(patterns: map<string, Pattern>, m: string, n: string, rest: seq<string>)
    requires m in patterns && n in patterns && m != n
    requires NoDup(rest) && forall k :: k in rest <==> k in patterns.Keys - {m, n}
    ensures Visits(rest + [m] + [n], patterns)
  {
    NoDupConcat(rest, [m]);
    NoDupConcat(rest + [m], [n]);
  }

  lemma NamesDiffer(a: seq<Invocation>, b: seq<Invocation>, k: nat, m: string, n: string)
    requires NamedAt(a, k, m) && NamedAt(b, k, n) && m != n
    ensures Names(a) != Names(b)
  {
    assert Names(a)[k] == a[k].name && (k < |Names(b)| ==> Names(b)[k] == b[k].name);
  }

  /** Two iteration orders that disagree about parsers `m` and `n`, which share a position. */
  lemma TiedOrdersDiffer(patterns: map<string, Pattern>, input: string, m: string, n: string, p: nat)
    returns (v: seq<string>, u: seq<string>)
    requires m != n && Hits(patterns, input, m, p) && Hits(patterns, input, n, p)
    ensures Visits(v, patterns) && Visits(u, patterns)
    ensures Names(Sorted(Collected(patterns, input, v))) != Names(Sorted(Collected(patterns, input, u)))
  {
    var rest := OtherParsers(patterns, m, n);
    v, u := rest + [m] + [n], rest + [n] + [m];
    EarlierVisitedIsFirst(patterns, input, m, n, rest, p);
    EarlierVisitedIsFirst(patterns, input, n, m, rest, p);
    var r, a, b := Collected(patterns, input, rest), Found(patterns, input, m), Found(patterns, input, n);
    assert Place(r, a, b, p) == Place(r, b, a, p);
    NamesDiffer(Sorted(Collected(patterns, input, v)), Sorted(Collected(patterns, input, u)), Place(r, a, b, p), m, n);
  }

  /** All iteration orders give one sorted list if and only if no two parsers share a
      position. */
  lemma OneListExactly(patterns: map<string, Pattern>, input: string)
    ensures NoTies(patterns, input)
       <==> forall v, u :: Visits(v, patterns) && Visits(u, patterns) ==>
              Sorted(Collected(patterns, input, v)) == Sorted(Collected(patterns, input, u))
  {
    if NoTies(patterns, input) {
      forall v, u | Visits(v, patterns) && Visits(u, patterns)
        ensures Sorted(Collected(patterns, input, v)) == Sorted(Collected(patterns, input, u))
      {
        SortedOnce(patterns, input, v, u);
      }
    } else {
      var m, n, p :| Hits(patterns, input, m, p) && Hits(patterns, input, n, p) && m != n;
      var v, u := TiedOrdersDiffer(patterns, input, m, n, p);
    }
  }
}
