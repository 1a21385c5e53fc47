/**
 * Codes split over several inputs: which inputs form a group (extension/src/lib/detection/split-input-detector.ts),
 * what code length the group stands for (extension/src/contents/watch-session.ts:787-810), and how a code is written
 * into it (extension/src/contents/autofill.ts:196-253).
 */
module SplitInput {
  import opened Prelude

  /** A name or id that ends in a number, cut there. */
  datatype Ident = Ident(prefix: string, index: nat)

  /**
   * An input with what the detector looks at. The path lists its ancestors from its parent outwards. hidden,
   * suppressed, numericCue and evidence stand for the style, pattern and text checks of one element.
   */
  datatype Input = Input(
    node: nat, kind: string, relevant: bool, maxLength: int, size: nat, disabled: bool, readOnly: bool, hidden: bool,
    suppressed: bool, name: string, ident: Option<Ident>, evidence: bool, numericCue: bool, path: seq<nat>)

  /** The inputs in document order, the elements a search stops at, and those whose text speaks of a code. */
  datatype Page = Page(inputs: seq<Input>, barriers: set<nat>, evidence: set<nat>)

  datatype Pattern = MaxLength1 | SequentialName | AdjacentSiblings | AsymmetricLeader

  datatype Group = Group(inputs: seq<Input>, pattern: Pattern)

  function Filter(s: seq<Input>, keep: Input -> bool): seq<Input> {
    if s == [] then [] else (if keep(s[0]) then [s[0]] else []) + Filter(s[1..], keep)
  }

  lemma {:induction false} FilterHas(s: seq<Input>, keep: Input -> bool, x: Input)
    requires x in s && keep(x)
    ensures x in Filter(s, keep)
  {
    if x != s[0] { FilterHas(s[1..], keep, x); }
  }

  predicate Enabled(x: Input) {
    !x.disabled && !x.readOnly
  }

  predicate LeaderSize(m: int) {
    4 <= m <= 8
  }

  // ------------------------------------------------------------------ candidates

  predicate MatchesMaxLength(f: int, x: int) {
    x == f || (LeaderSize(f) && x == 1) || (f == 1 && LeaderSize(x))
  }

  predicate MatchesField(f: Input, x: Input) {
    && x.kind == f.kind && Enabled(x) && x.relevant && MatchesMaxLength(f.maxLength, x.maxLength)
    && (x != f ==> !x.hidden && !x.suppressed)
  }

  function Inside(page: Page, element: nat): seq<Input> {
    Filter(page.inputs, (x: Input) => element in x.path)
  }

  function Candidates(page: Page, f: Input, element: nat): seq<Input> {
    Filter(Inside(page, element), (x: Input) => MatchesField(f, x))
  }

  // ------------------------------------------------------------------ coherence

  /** The nearest of the first input's lowest ancestors that holds all inputs. */
  function CommonAncestor(xs: seq<Input>, from: nat, levels: nat): Option<nat>
    requires xs != []
    decreases levels - from
  {
    if from >= levels || from >= |xs[0].path| then None
    else if forall i :: 0 <= i < |xs| ==> xs[0].path[from] in xs[i].path then Some(xs[0].path[from])
    else CommonAncestor(xs, from + 1, levels)
  }

  predicate HasOtpEvidence(page: Page, xs: seq<Input>)
    requires xs != []
  {
    || (exists i :: 0 <= i < |xs| && (xs[i].evidence || (xs[i].path != [] && xs[i].path[0] in page.evidence)))
    || (var top := CommonAncestor(xs, 0, 4); top.Some? && top.value in page.evidence)
  }

  predicate HasSequentialIdentifiers(xs: seq<Input>)
    requires xs != []
  {
    && (forall i :: 0 <= i < |xs| ==> xs[i].ident.Some?)
    && (var first := xs[0].ident.value;
        forall i :: 0 <= i < |xs| ==>
          var ident := xs[i].ident.value;
          ident.prefix == first.prefix && ident.index in {first.index + i, i, i + 1})
  }

  function Near(x: Input): seq<nat> {
    x.path[..Min(8, |x.path|)]
  }

  predicate CommonCoherence(xs: seq<Input>)
    requires xs != []
  {
    && (forall i :: 0 <= i < |xs| ==> xs[i].kind == xs[0].kind && Enabled(xs[i]))
    && (forall i :: 0 < i < |xs| ==> ShareAncestor(xs[i], xs[0]))
  }

  predicate ShareAncestor(x: Input, y: Input) {
    exists e :: e in Near(x) && e in Near(y)
  }

  predicate SharedMaxLength(xs: seq<Input>, m: int) {
    forall i :: 0 <= i < |xs| ==> xs[i].maxLength == m
  }

  predicate ShapeA(xs: seq<Input>)
    requires xs != []
  {
    SharedMaxLength(xs, xs[0].maxLength) && 1 <= xs[0].maxLength <= 6
  }

  predicate ShapeB(page: Page, xs: seq<Input>)
    requires xs != []
  {
    && SharedMaxLength(xs, -1)
    && (forall i, j :: 0 <= i < j < |xs| ==> xs[i].path[..Min(1, |xs[i].path|)] != xs[j].path[..Min(1, |xs[j].path|)])
    && (HasSequentialIdentifiers(xs) ||
        (HasOtpEvidence(page, xs) && forall i :: 0 <= i < |xs| ==> xs[i].numericCue))
  }

  /** One leader as long as the group, first in the document, and single-character cells; nothing else around. */
  predicate ShapeC(page: Page, xs: seq<Input>)
    requires xs != []
  {
    && LeaderSize(xs[0].maxLength) && xs[0].maxLength == |xs|
    && (forall i :: 0 < i < |xs| ==> xs[i].maxLength == 1)
    && (HasSequentialIdentifiers(xs) || HasOtpEvidence(page, xs))
    && (var top := CommonAncestor(xs, 0, 3);
        top.Some? ==> |Filter(Inside(page, top.value), (x: Input) => x.relevant && Enabled(x) && !x.hidden)| <= |xs|)
  }

  predicate Coherent(page: Page, xs: seq<Input>) {
    |xs| >= 4 && CommonCoherence(xs) && (ShapeA(xs) || ShapeB(page, xs) || ShapeC(page, xs))
  }

  // ------------------------------------------------------------------ the search

  predicate WorthChecking(page: Page, xs: seq<Input>) {
    |xs| >= 4 && (|xs| <= 12 || HasOtpEvidence(page, xs))
  }

  /** getSimilarSiblings from the given depth on. */
  function Similar(page: Page, f: Input, depth: nat, fallback: seq<Input>): seq<Input>
    decreases 8 - depth
  {
    if depth >= 8 || depth >= |f.path| then fallback else
      var xs := Candidates(page, f, f.path[depth]);
      if WorthChecking(page, xs) && Coherent(page, xs) then xs else
        var next := if WorthChecking(page, xs) then xs else fallback;
        if f.path[depth] in page.barriers then next else Similar(page, f, depth + 1, next)
  }

  method GetSimilarSiblings(page: Page, f: Input) returns (siblings: seq<Input>)
    ensures siblings == Similar(page, f, 0, [])
  {
    siblings := [];
    var depth := 0;
    while depth < |f.path| && depth < 8
      invariant 0 <= depth <= 8
      invariant Similar(page, f, 0, []) == Similar(page, f, depth, siblings)
      decreases 8 - depth
    {
      var unique := Candidates(page, f, f.path[depth]);
      if |unique| >= 4 && (|unique| <= 12 || HasOtpEvidence(page, unique)) {
        if Coherent(page, unique) { return unique; }
        siblings := unique;
      }
      if f.path[depth] in page.barriers { return; }
      depth := depth + 1;
    }
  }

  function PatternOf(xs: seq<Input>): Pattern
    requires xs != []
  {
    var leaders := Filter(xs, (x: Input) => LeaderSize(x.maxLength));
    if |leaders| == 1 && LeaderSize(xs[0].maxLength) && xs[0].maxLength == |xs| then AsymmetricLeader
    else if SharedMaxLength(xs, 1) then MaxLength1
    else if HasSequentialIdentifiers(xs) then SequentialName
    else AdjacentSiblings
  }

  /** detectSplitInputGroup. */
  function Detect(page: Page, f: Input): Option<Group> {
    if !f.relevant || f.maxLength > 8 || f.suppressed then None else
      var siblings := Similar(page, f, 0, []);
      if Coherent(page, siblings) then Some(Group(siblings, PatternOf(siblings))) else None
  }

  /** Depth d gives the group: its candidates pass, nothing nearer does, and no barrier lies below. */
  ghost predicate NearestCoherent(page: Page, f: Input, d: nat) {
    && d < 8 && d < |f.path| && Passes(page, f, d)
    && forall k :: 0 <= k < d ==> !Passes(page, f, k) && f.path[k] !in page.barriers
  }

  ghost predicate Passes(page: Page, f: Input, d: nat)
    requires d < |f.path|
  {
    var xs := Candidates(page, f, f.path[d]);
    WorthChecking(page, xs) && Coherent(page, xs)
  }

  lemma {:induction false} SimilarStops(page: Page, f: Input, depth: nat, fallback: seq<Input>, d: nat)
    requires NearestCoherent(page, f, d) && depth <= d
    ensures Similar(page, f, depth, fallback) == Candidates(page, f, f.path[d])
    decreases d - depth
  {
    hide Coherent, WorthChecking, Candidates;
    if depth < d {
      var xs := Candidates(page, f, f.path[depth]);
      assert !Passes(page, f, depth);
      SimilarStops(page, f, depth + 1, if WorthChecking(page, xs) then xs else fallback, d);
    }
  }

  /** The fallback never makes a group: what comes back coherent is the nearest coherent container's. */
  lemma {:induction false} SimilarComesFrom(page: Page, f: Input, depth: nat, fallback: seq<Input>) returns (d: nat)
    requires !Coherent(page, fallback) && Coherent(page, Similar(page, f, depth, fallback))
    requires forall k :: 0 <= k < depth && k < |f.path| ==> !Passes(page, f, k) && f.path[k] !in page.barriers
    ensures NearestCoherent(page, f, d)
    decreases 8 - depth
  {
    hide Coherent, WorthChecking, Candidates;
    if depth < 8 && depth < |f.path| {
      var xs := Candidates(page, f, f.path[depth]);
      if Passes(page, f, depth) {
        d := depth;
      } else {
        d := SimilarComesFrom(page, f, depth + 1, if WorthChecking(page, xs) then xs else fallback);
      }
    }
  }

  lemma EmptyIsNoGroup(page: Page)
    ensures !Coherent(page, [])
  {
  }

  /** Detection without its loop: a field has a group exactly when a nearest coherent container exists. */
  lemma DetectIff(page: Page, f: Input, xs: seq<Input>)
    ensures Detect(page, f).Some? && Detect(page, f).value.inputs == xs <==>
      && f.relevant && f.maxLength <= 8 && !f.suppressed
      && exists d: nat :: NearestCoherent(page, f, d) && xs == Candidates(page, f, f.path[d])
  {
    hide Coherent, WorthChecking, Candidates, Similar;
    EmptyIsNoGroup(page);
    if Detect(page, f).Some? {
      var d := SimilarComesFrom(page, f, 0, []);
      SimilarStops(page, f, 0, [], d);
    }
    forall d: nat | NearestCoherent(page, f, d)
      ensures Similar(page, f, 0, []) == Candidates(page, f, f.path[d]) && Coherent(page, Similar(page, f, 0, []))
    {
      SimilarStops(page, f, 0, [], d);
    }
  }

  // ------------------------------------------------------------------ the expected length

  /** deriveExpectedShape, the length part. */
  function ExpectedLength(page: Page, f: Input): Option<nat> {
    var group := Detect(page, f);
    var groupSize := if group.Some? && |group.value.inputs| > 1 then |group.value.inputs| else 1;
    if f.maxLength > 0 then
      if f.maxLength == 1 && groupSize > 1 then Some(groupSize) else Some(f.maxLength)
    else if groupSize > 1 then Some(groupSize)
    else if f.size > 0 then Some(f.size)
    else None
  }

  /** Boxes that all take the same 2 to 6 characters, but not as many as there are boxes. */
  ghost predicate WideBoxes(xs: seq<Input>) {
    exists m :: 2 <= m <= 6 && m != |xs| && SharedMaxLength(xs, m)
  }

  lemma FieldInItsGroup(page: Page, f: Input)
    requires f in page.inputs && Enabled(f) && Detect(page, f).Some?
    ensures f in Detect(page, f).value.inputs && Coherent(page, Detect(page, f).value.inputs)
  {
    DetectIff(page, f, Detect(page, f).value.inputs);
    var d: nat :| NearestCoherent(page, f, d) && Detect(page, f).value.inputs == Candidates(page, f, f.path[d]);
    var element := f.path[d];
    FilterHas(page.inputs, (x: Input) => element in x.path, f);
    FilterHas(Inside(page, element), (x: Input) => MatchesField(f, x), f);
  }

  /**
   * The length derived from a member of a group is the number of boxes that can be filled, except when the boxes share
   * a size above 1 that is not the size of the group.
   */
  lemma ExpectedLengthIff(page: Page, f: Input)
    requires f in page.inputs && Enabled(f) && Detect(page, f).Some?
    ensures var xs := Detect(page, f).value.inputs;
      && |Filter(xs, Enabled)| == |xs|
      && (ExpectedLength(page, f) == Some(|Filter(xs, Enabled)|) <==> !WideBoxes(xs))
  {
    var xs := Detect(page, f).value.inputs;
    FieldInItsGroup(page, f);
    FilterKeepsAll(xs, Enabled);
    hide Detect, HasOtpEvidence, HasSequentialIdentifiers, CommonAncestor;
    var i :| 0 <= i < |xs| && xs[i] == f;
    if ShapeA(xs) {
      assert SharedMaxLength(xs, f.maxLength);
      WideMeans(xs, f.maxLength);
    } else if ShapeB(page, xs) {
      assert xs[0].maxLength == -1;
    } else {
      assert xs[0].maxLength == |xs| && xs[1].maxLength == 1;
    }
  }

  lemma WideMeans(xs: seq<Input>, m: int)
    requires xs != [] && SharedMaxLength(xs, m)
    ensures WideBoxes(xs) <==> 2 <= m <= 6 && m != |xs|
  {
    if 2 <= m <= 6 && m != |xs| { assert SharedMaxLength(xs, m); }
    forall n | SharedMaxLength(xs, n) ensures n == m { assert xs[0].maxLength == n; }
  }

  lemma {:induction false} FilterKeepsAll(s: seq<Input>, keep: Input -> bool)
    requires forall x :: x in s ==> keep(x)
    ensures Filter(s, keep) == s
  {
    if s != [] {
      FilterKeepsAll(s[1..], keep);
      assert s == [s[0]] + s[1..];
    }
  }

  lemma {:induction false} FilterKeepsNone(s: seq<Input>, keep: Input -> bool)
    requires forall x :: x in s ==> !keep(x)
    ensures Filter(s, keep) == []
  {
    if s != [] {
      assert s[0] in s;
      FilterKeepsNone(s[1..], keep);
    }
  }

  /** The pattern given to a group tells its shape: a leader and cells, or equal boxes. */
  lemma LeaderPatternIff(page: Page, xs: seq<Input>)
    requires Coherent(page, xs)
    ensures PatternOf(xs).AsymmetricLeader? <==> !SharedMaxLength(xs, xs[0].maxLength)
    ensures PatternOf(xs).AsymmetricLeader? ==> xs[0].maxLength == |xs|
  {
    hide HasOtpEvidence, HasSequentialIdentifiers, CommonAncestor, CommonCoherence;
    var leader := (x: Input) => LeaderSize(x.maxLength);
    if SharedMaxLength(xs, xs[0].maxLength) {
      if LeaderSize(xs[0].maxLength) { FilterKeepsAll(xs, leader); }
    } else {
      assert LeaderSize(xs[0].maxLength) && xs[1].maxLength == 1;
      FilterKeepsNone(xs[1..], leader);
      assert Filter(xs, leader) == [xs[0]];
    }
  }

  lemma AllCandidates(page: Page, f: Input, element: nat)
    requires forall x :: x in page.inputs ==> element in x.path && MatchesField(f, x)
    ensures Candidates(page, f, element) == page.inputs
  {
    FilterKeepsAll(page.inputs, (x: Input) => element in x.path);
    FilterKeepsAll(page.inputs, (x: Input) => MatchesField(f, x));
  }

  function TwoCharBox(node: nat): Input {
    Input(node, "text", true, 2, 20, false, false, false, false, "", None, false, false, [9])
  }

  lemma BoxesCohere(xs: seq<Input>)
    requires xs != [] && forall i :: 0 <= i < |xs| ==> xs[i] == TwoCharBox(i)
    ensures CommonCoherence(xs)
  {
    forall i | 0 <= i < |xs| ensures ShareAncestor(xs[i], xs[0]) {
      assert Near(xs[i])[0] == 9 && Near(xs[0])[0] == 9;
      assert 9 in Near(xs[i]) && 9 in Near(xs[0]);
    }
  }

  /** Such boxes do occur: four of two characters each make a group, but the length derived is 2. */
  lemma WideBoxesOccur()
    ensures var xs := [TwoCharBox(0), TwoCharBox(1), TwoCharBox(2), TwoCharBox(3)];
      var page := Page(xs, {}, {});
      && Detect(page, xs[0]).Some? && Detect(page, xs[0]).value.inputs == xs
      && WideBoxes(xs) && ExpectedLength(page, xs[0]) == Some(2)
  {
    hide HasOtpEvidence, HasSequentialIdentifiers, CommonAncestor, Filter;
    var xs := [TwoCharBox(0), TwoCharBox(1), TwoCharBox(2), TwoCharBox(3)];
    var page, f := Page(xs, {}, {}), xs[0];
    AllCandidates(page, f, 9);
    assert forall i :: 0 <= i < |xs| ==> xs[i] == TwoCharBox(i);
    BoxesCohere(xs);
    assert SharedMaxLength(xs, 2) && Coherent(page, xs);
    assert Similar(page, f, 0, []) == xs;
  }

  // ------------------------------------------------------------------ the same group from every member?

  /** Paths come from one tree: an element has one chain of ancestors. */
  ghost predicate Tree(page: Page) {
    forall x, y, i, j | x in page.inputs && y in page.inputs && 0 <= i < |x.path| && 0 <= j < |y.path| ::
      x.path[i] == y.path[j] ==> x.path[i..] == y.path[j..]
  }

  lemma {:induction false} FilterIsIn(s: seq<Input>, keep: Input -> bool)
    ensures forall x :: x in Filter(s, keep) ==> x in s && keep(x)
  {
    if s != [] { FilterIsIn(s[1..], keep); }
  }

  lemma {:induction false} FilterTwice(s: seq<Input>, p: Input -> bool, q: Input -> bool, both: Input -> bool)
    requires forall x :: both(x) <==> p(x) && q(x)
    ensures Filter(Filter(s, p), q) == Filter(s, both)
  {
    if s != [] {
      FilterTwice(s[1..], p, q, both);
      var rest := Filter(s[1..], p);
      assert both(s[0]) <==> p(s[0]) && q(s[0]);
      if p(s[0]) {
        assert Filter(s, p) == [s[0]] + rest && ([s[0]] + rest)[1..] == rest;
      } else {
        assert Filter(s, p) == rest && Filter(s, both) == Filter(s[1..], both);
      }
    }
  }

  lemma {:induction false} FilterSame(s: seq<Input>, p: Input -> bool, q: Input -> bool)
    requires forall x :: x in s ==> (p(x) <==> q(x))
    ensures Filter(s, p) == Filter(s, q)
  {
    if s != [] {
      FilterSame(s[1..], p, q);
      assert s[0] in s;
    }
  }

  /** Who a candidate is. */
  lemma CandidateIff(page: Page, f: Input, element: nat, x: Input)
    ensures x in Candidates(page, f, element) <==> x in page.inputs && element in x.path && MatchesField(f, x)
  {
    var inside := (y: Input) => element in y.path;
    var matches := (y: Input) => MatchesField(f, y);
    FilterIsIn(page.inputs, inside);
    FilterIsIn(Inside(page, element), matches);
    if x in page.inputs && element in x.path && MatchesField(f, x) {
      FilterHas(page.inputs, inside, x);
      FilterHas(Inside(page, element), matches, x);
    }
  }

  /** Candidates are a list of the page's inputs in document order, so who they are says what they are. */
  lemma CandidatesSame(page: Page, f: Input, c: nat, g: Input, d: nat)
    requires forall x :: x in page.inputs ==> (c in x.path && MatchesField(f, x) <==> d in x.path && MatchesField(g, x))
    ensures Candidates(page, f, c) == Candidates(page, g, d)
  {
    var p := (x: Input) => c in x.path && MatchesField(f, x);
    var q := (x: Input) => d in x.path && MatchesField(g, x);
    FilterTwice(page.inputs, (x: Input) => c in x.path, (x: Input) => MatchesField(f, x), p);
    FilterTwice(page.inputs, (x: Input) => d in x.path, (x: Input) => MatchesField(g, x), q);
    FilterSame(page.inputs, p, q);
  }

  /** In c the two fields take the same inputs for candidates. */
  ghost predicate MatchAlike(page: Page, f: Input, g: Input, c: nat) {
    forall x :: x in page.inputs && c in x.path ==> (MatchesField(f, x) <==> MatchesField(g, x))
  }

  /** The search from g comes to c, its ancestor at depth e, with nothing found and no barrier on the way. */
  ghost predicate SearchReaches(page: Page, g: Input, e: nat, c: nat) {
    && e < 8 && e < |g.path| && g.path[e] == c
    && forall k :: 0 <= k < e ==> !Passes(page, g, k) && g.path[k] !in page.barriers
  }

  lemma AncestorsNest(page: Page, x: Input, y: Input, i: nat, j: nat, inner: nat, outer: nat)
    requires Tree(page) && x in page.inputs && y in page.inputs && i <= j < |x.path|
    requires x.path[i] == inner && x.path[j] == outer && inner in y.path
    ensures outer in y.path
  {
    var k :| 0 <= k < |y.path| && y.path[k] == inner;
    assert x.path[i..] == y.path[k..];
    assert x.path[j] == x.path[i..][j - i] == y.path[k..][j - i];
  }

  lemma NearerIsSame(page: Page, g: Input, a: nat, e: nat)
    requires Tree(page) && g in page.inputs && a <= e < |g.path|
    requires forall x :: x in Candidates(page, g, g.path[e]) ==> g.path[a] in x.path
    ensures Candidates(page, g, g.path[a]) == Candidates(page, g, g.path[e])
  {
    hide MatchesField, Candidates, Tree;
    var inner, outer := g.path[a], g.path[e];
    forall x | x in page.inputs
      ensures inner in x.path && MatchesField(g, x) <==> outer in x.path && MatchesField(g, x)
    {
      CandidateIff(page, g, outer, x);
      if inner in x.path { AncestorsNest(page, g, x, a, e, inner, outer); }
    }
    CandidatesSame(page, g, inner, g, outer);
  }

  /** The nearest coherent container is the smallest that holds its candidates. */
  lemma NotNearer(page: Page, g: Input, a: nat, e: nat)
    requires Tree(page) && g in page.inputs && a < |g.path| && NearestCoherent(page, g, e)
    requires forall x :: x in Candidates(page, g, g.path[e]) ==> g.path[a] in x.path
    ensures e <= a
  {
    hide Coherent, WorthChecking, Candidates;
    if a <= e { NearerIsSame(page, g, a, e); }
  }

  /** Two fields that find the same list find it in the same container. */
  lemma SameListSameContainer(page: Page, f: Input, d: nat, g: Input, e: nat)
    requires Tree(page) && f in page.inputs && g in page.inputs
    requires NearestCoherent(page, f, d) && NearestCoherent(page, g, e)
    requires Candidates(page, f, f.path[d]) == Candidates(page, g, g.path[e])
    requires f in Candidates(page, f, f.path[d]) && g in Candidates(page, f, f.path[d])
    ensures f.path[d] == g.path[e]
  {
    hide Coherent, WorthChecking, Candidates, MatchesField;
    var c, c', xs := f.path[d], g.path[e], Candidates(page, f, f.path[d]);
    forall x | x in xs ensures c in x.path && c' in x.path {
      CandidateIff(page, f, c, x);
      CandidateIff(page, g, c', x);
    }
    var a :| 0 <= a < |g.path| && g.path[a] == c;
    var b :| 0 <= b < |f.path| && f.path[b] == c';
    NotNearer(page, g, a, e);
    NotNearer(page, f, b, d);
    SameDepth(page, f, d, b, g, a, e);
  }

  /** On one chain of ancestors the order of two containers is the same for both fields. */
  lemma SameDepth(page: Page, f: Input, d: nat, b: nat, g: Input, a: nat, e: nat)
    requires Tree(page) && f in page.inputs && g in page.inputs
    requires e <= a < |g.path| && d <= b < |f.path| && f.path[d] == g.path[a] && f.path[b] == g.path[e]
    ensures a == e
  {
    assert f.path[d..] == g.path[a..] && f.path[b..] == g.path[e..];
  }

  /** A member of a group passes the detector's first gates. */
  lemma MemberPassesGates(page: Page, f: Input, g: Input)
    requires Detect(page, f).Some? && g in Detect(page, f).value.inputs
    ensures g in page.inputs && g.relevant && g.maxLength <= 8 && !g.suppressed
  {
    hide Coherent, WorthChecking, Candidates, Detect;
    DetectIff(page, f, Detect(page, f).value.inputs);
    var d: nat :| NearestCoherent(page, f, d) && Detect(page, f).value.inputs == Candidates(page, f, f.path[d]);
    CandidateIff(page, f, f.path[d], g);
    DetectGates(page, f);
  }

  lemma DetectGates(page: Page, f: Input)
    requires Detect(page, f).Some?
    ensures f.relevant && f.maxLength <= 8 && !f.suppressed
  {
  }

  /**
   * A member g of f's group leads to the same group exactly when the search from g comes to the group's container c
   * with nothing found and no barrier on the way, and in c the two fields match alike.
   */
  lemma SameGroupIff(page: Page, f: Input, d: nat, g: Input)
    requires Tree(page) && f in page.inputs && Enabled(f) && Detect(page, f).Some?
    requires NearestCoherent(page, f, d) && g in Detect(page, f).value.inputs
    ensures Detect(page, g).Some? && Detect(page, g).value.inputs == Detect(page, f).value.inputs <==>
      MatchAlike(page, f, g, f.path[d]) && exists e: nat :: SearchReaches(page, g, e, f.path[d])
  {
    hide Coherent, WorthChecking, Candidates, Detect, MatchesField, Tree;
    var c, xs := f.path[d], Detect(page, f).value.inputs;
    DetectIff(page, f, Candidates(page, f, c));
    DetectGates(page, f);
    assert xs == Candidates(page, f, c);
    FieldInItsGroup(page, f);
    MemberPassesGates(page, f, g);
    DetectIff(page, g, xs);
    if Detect(page, g).Some? && Detect(page, g).value.inputs == xs {
      var e: nat :| NearestCoherent(page, g, e) && xs == Candidates(page, g, g.path[e]);
      SameListSameContainer(page, f, d, g, e);
      SameCandidatesMatchAlike(page, f, g, c);
      assert SearchReaches(page, g, e, c);
    }
    if MatchAlike(page, f, g, c) && exists e: nat :: SearchReaches(page, g, e, c) {
      var e: nat :| SearchReaches(page, g, e, c);
      CandidatesSame(page, f, c, g, c);
      assert NearestCoherent(page, g, e);
    }
  }

  lemma SameCandidatesMatchAlike(page: Page, f: Input, g: Input, c: nat)
    requires Candidates(page, f, c) == Candidates(page, g, c)
    ensures MatchAlike(page, f, g, c)
  {
    hide Candidates, MatchesField;
    forall x | x in page.inputs && c in x.path ensures MatchesField(f, x) <==> MatchesField(g, x) {
      CandidateIff(page, f, c, x);
      CandidateIff(page, g, c, x);
    }
  }

  /** Visible fields of one kind and size match alike everywhere. */
  lemma EqualFieldsMatchAlike(page: Page, f: Input, g: Input, c: nat)
    requires f.kind == g.kind && f.maxLength == g.maxLength
    requires !f.hidden && !f.suppressed && !g.hidden && !g.suppressed
    ensures MatchAlike(page, f, g, c)
  {
  }

  // ------------------------------------------------------------------ what a group is, attribute by attribute

  /** Who is in the group found in the container at depth d. */
  lemma MembersIff(page: Page, f: Input, d: nat, x: Input)
    requires Detect(page, f).Some? && NearestCoherent(page, f, d)
    ensures x in Detect(page, f).value.inputs <==>
      && x in page.inputs && f.path[d] in x.path && x.kind == f.kind && x.relevant && !x.disabled && !x.readOnly
      && (|| x.maxLength == f.maxLength
          || (x.maxLength == 1 && 4 <= f.maxLength <= 8)
          || (f.maxLength == 1 && 4 <= x.maxLength <= 8))
      && (x == f || (!x.hidden && !x.suppressed))
  {
    hide Coherent, WorthChecking, Candidates, Similar;
    var xs := Candidates(page, f, f.path[d]);
    DetectGates(page, f);
    DetectIff(page, f, xs);
    CandidateIff(page, f, f.path[d], x);
  }

  /** The boxes of a group: all of one size from 1 to 6, or without a size, or a leader as long as the group. */
  lemma GroupMeans(page: Page, f: Input)
    requires Detect(page, f).Some?
    ensures var xs := Detect(page, f).value.inputs;
      && |xs| >= 4
      && (|| (1 <= xs[0].maxLength <= 6 && forall i :: 0 <= i < |xs| ==> xs[i].maxLength == xs[0].maxLength)
          || ((forall i :: 0 <= i < |xs| ==> xs[i].maxLength == -1)
              && forall i, j :: 0 <= i < j < |xs| && xs[i].path != [] && xs[j].path != [] ==>
                xs[i].path[0] != xs[j].path[0])
          || (4 <= xs[0].maxLength <= 8 && xs[0].maxLength == |xs|
              && forall i :: 0 < i < |xs| ==> xs[i].maxLength == 1))
  {
    hide HasOtpEvidence, HasSequentialIdentifiers, CommonAncestor, CommonCoherence, Similar;
    var xs := Detect(page, f).value.inputs;
    assert Coherent(page, xs);
    if ShapeB(page, xs) {
      forall i, j | 0 <= i < j < |xs| && xs[i].path != [] && xs[j].path != [] ensures xs[i].path[0] != xs[j].path[0] {
        assert xs[i].path[..1] == [xs[i].path[0]] && xs[j].path[..1] == [xs[j].path[0]];
      }
    }
  }

  /** Visible, fillable inputs of one kind and size, and nothing else on the page. */
  ghost predicate OnlyCells(page: Page, size: int) {
    && 4 <= |page.inputs| <= 12
    && forall i :: 0 <= i < |page.inputs| ==> var x := page.inputs[i];
      && x.kind == page.inputs[0].kind && x.relevant && x.maxLength == size
      && !x.disabled && !x.readOnly && !x.hidden && !x.suppressed && |x.path| <= 8
  }

  lemma CellsMatch(page: Page, f: Input, element: nat, size: int)
    requires OnlyCells(page, size) && f in page.inputs && forall x :: x in page.inputs ==> element in x.path
    ensures Candidates(page, f, element) == page.inputs && CommonCoherence(page.inputs)
  {
    forall x | x in page.inputs ensures element in x.path && MatchesField(f, x) {}
    AllCandidates(page, f, element);
    Nested(page.inputs, element);
  }

  /** Sized boxes side by side in one element are found from each of them. */
  lemma SizedCellsAreDetected(page: Page, f: Input, parent: nat, size: int)
    requires OnlyCells(page, size) && 1 <= size <= 6 && f in page.inputs
    requires forall x :: x in page.inputs ==> x.path != [] && x.path[0] == parent
    ensures Detect(page, f).Some? && Detect(page, f).value.inputs == page.inputs
  {
    hide HasOtpEvidence, Candidates, ShapeB, ShapeC, PatternOf, CommonCoherence;
    CellsMatch(page, f, parent, size);
    assert SharedMaxLength(page.inputs, size);
    assert Coherent(page, page.inputs);
    assert Similar(page, f, 0, []) == page.inputs;
  }

  lemma {:induction false} FilterAtMostOne(s: seq<Input>, keep: Input -> bool)
    requires forall i, j :: 0 <= i < j < |s| ==> !(keep(s[i]) && keep(s[j]))
    ensures |Filter(s, keep)| <= 1
  {
    if s != [] {
      if keep(s[0]) {
        FilterKeepsNone(s[1..], keep);
      } else {
        FilterAtMostOne(s[1..], keep);
      }
    }
  }

  /** Boxes without a size, each in a wrapper of its own, are found by their numbered names. */
  lemma WrappedCellsAreDetected(page: Page, f: Input, outer: nat, prefix: string, first: nat)
    requires OnlyCells(page, -1) && f in page.inputs && f.path != [] && f.path[0] !in page.barriers
    requires forall x :: x in page.inputs ==> |x.path| >= 2 && x.path[1] == outer
    requires forall i, j :: 0 <= i < |page.inputs| && 0 <= j < |page.inputs| && i != j ==>
      page.inputs[i].path[0] !in page.inputs[j].path
    requires forall i :: 0 <= i < |page.inputs| ==> page.inputs[i].ident == Some(Ident(prefix, first + i))
    ensures Detect(page, f).Some? && Detect(page, f).value.inputs == page.inputs
  {
    hide HasOtpEvidence, Candidates, ShapeA, ShapeB, ShapeC, PatternOf, CommonCoherence;
    var xs := page.inputs;
    CellsMatch(page, f, outer, -1);
    WrappedShape(page, prefix, first);
    NearestHoldsOne(page, f);
    assert Coherent(page, xs);
    assert f.path[1] == outer;
    assert Similar(page, f, 1, []) == xs;
  }

  lemma WrappedShape(page: Page, prefix: string, first: nat)
    requires OnlyCells(page, -1)
    requires forall x :: x in page.inputs ==> x.path != []
    requires forall i, j :: 0 <= i < |page.inputs| && 0 <= j < |page.inputs| && i != j ==>
      page.inputs[i].path[0] !in page.inputs[j].path
    requires forall i :: 0 <= i < |page.inputs| ==> page.inputs[i].ident == Some(Ident(prefix, first + i))
    ensures ShapeB(page, page.inputs)
  {
    hide HasOtpEvidence;
    var xs := page.inputs;
    forall i, j | 0 <= i < j < |xs| ensures xs[i].path[..1] != xs[j].path[..1] {
      assert xs[i].path[..1][0] == xs[i].path[0] && xs[j].path[..1][0] == xs[j].path[0];
      assert xs[i].path[0] !in xs[j].path;
    }
    assert HasSequentialIdentifiers(xs);
  }

  /** The wrapper of one box holds no other box. */
  lemma NearestHoldsOne(page: Page, f: Input)
    requires f in page.inputs && forall x :: x in page.inputs ==> x.path != []
    requires forall i, j :: 0 <= i < |page.inputs| && 0 <= j < |page.inputs| && i != j ==>
      page.inputs[i].path[0] !in page.inputs[j].path
    ensures |Candidates(page, f, f.path[0])| <= 1
  {
    var p := (x: Input) => f.path[0] in x.path && MatchesField(f, x);
    var at :| 0 <= at < |page.inputs| && page.inputs[at] == f;
    forall j | 0 <= j < |page.inputs| && j != at ensures !p(page.inputs[j]) {
      assert page.inputs[at].path[0] !in page.inputs[j].path;
    }
    FilterTwice(page.inputs, (x: Input) => f.path[0] in x.path, (x: Input) => MatchesField(f, x), p);
    FilterAtMostOne(page.inputs, p);
  }

  function LeaderInput(): Input {
    Input(0, "text", true, 5, 20, false, false, false, false, "num1", Some(Ident("num", 1)), false, false, [1])
  }

  function CellInput(i: nat): Input {
    Input(i, "text", true, 1, 20, false, false, false, false, "", Some(Ident("num", i + 1)), false, false, [2, 1])
  }

  const CELLS := [CellInput(1), CellInput(2), CellInput(3), CellInput(4)]
  const LEADER_PAGE := Page([LeaderInput()] + CELLS, {}, {})

  /** It does not hold of every group: a leader above a container of its own for the cells. */
  lemma EntryPointMatters()
    ensures var leader := LeaderInput();
      && Tree(LEADER_PAGE)
      && Detect(LEADER_PAGE, leader).Some? && Detect(LEADER_PAGE, leader).value.inputs == [leader] + CELLS
      && ExpectedLength(LEADER_PAGE, leader) == Some(5)
      && Detect(LEADER_PAGE, CELLS[0]).Some? && Detect(LEADER_PAGE, CELLS[0]).value.inputs == CELLS
      && ExpectedLength(LEADER_PAGE, CELLS[0]) == Some(4)
  {
    LeaderFindsAll();
    CellFindsCells();
    LeaderPageIsTree();
  }

  lemma LeaderPageIsTree()
    ensures Tree(LEADER_PAGE)
  {
    forall x | x in LEADER_PAGE.inputs ensures x.path == [1] || x.path == [2, 1] {}
    assert [2, 1][1..] == [1] && [1][0..] == [1] && [2, 1][0..] == [2, 1];
  }

  lemma {:induction false} FilterShortens(s: seq<Input>, keep: Input -> bool)
    ensures |Filter(s, keep)| <= |s|
  {
    if s != [] { FilterShortens(s[1..], keep); }
  }

  lemma LeaderFindsAll()
    ensures Similar(LEADER_PAGE, LeaderInput(), 0, []) == [LeaderInput()] + CELLS
    ensures Coherent(LEADER_PAGE, [LeaderInput()] + CELLS)
  {
    hide Filter, HasOtpEvidence, HasSequentialIdentifiers, CommonAncestor, ShapeC;
    var page, xs := LEADER_PAGE, [LeaderInput()] + CELLS;
    LeaderAndCells();
    AllCandidates(page, LeaderInput(), 1);
    Nested(xs, 1);
    assert CommonCoherence(xs);
  }

  lemma LeaderAndCells()
    ensures ShapeC(LEADER_PAGE, [LeaderInput()] + CELLS)
  {
    hide Filter, HasOtpEvidence;
    var page, xs := LEADER_PAGE, [LeaderInput()] + CELLS;
    assert forall i :: 0 < i < |xs| ==> xs[i] == CellInput(i);
    AllInside(page, 1);
    FilterShortens(Inside(page, 1), (x: Input) => x.relevant && Enabled(x) && !x.hidden);
    assert CommonAncestor(xs, 0, 3) == Some(1);
    assert HasSequentialIdentifiers(xs);
  }

  lemma AllInside(page: Page, element: nat)
    requires forall x :: x in page.inputs ==> element in x.path
    ensures Inside(page, element) == page.inputs
  {
    FilterKeepsAll(page.inputs, (x: Input) => element in x.path);
  }

  /** Inputs with an ancestor in common within reach share one. */
  lemma Nested(xs: seq<Input>, element: nat)
    requires xs != [] && forall i :: 0 <= i < |xs| ==> |xs[i].path| <= 8 && element in xs[i].path
    ensures forall i :: 0 <= i < |xs| ==> ShareAncestor(xs[i], xs[0])
  {
    forall i | 0 <= i < |xs| ensures ShareAncestor(xs[i], xs[0]) {
      assert Near(xs[i]) == xs[i].path && Near(xs[0]) == xs[0].path;
      assert element in Near(xs[i]) && element in Near(xs[0]);
    }
  }

  lemma CellFindsCells()
    ensures Similar(LEADER_PAGE, CELLS[0], 0, []) == CELLS && Coherent(LEADER_PAGE, CELLS)
  {
    hide Filter, HasOtpEvidence, HasSequentialIdentifiers, CommonAncestor;
    var page, f := LEADER_PAGE, CELLS[0];
    assert forall i :: 0 <= i < |CELLS| ==> CELLS[i] == CellInput(i + 1);
    CellsInside();
    FilterKeepsAll(CELLS, (x: Input) => MatchesField(f, x));
    Nested(CELLS, 2);
    assert Candidates(page, f, 2) == CELLS;
    assert SharedMaxLength(CELLS, 1) && Coherent(page, CELLS);
  }

  lemma CellsInside()
    ensures Inside(LEADER_PAGE, 2) == CELLS
  {
    var element := 2;
    FilterKeepsAll(CELLS, (x: Input) => element in x.path);
    assert LEADER_PAGE.inputs[1..] == CELLS;
  }

  // ------------------------------------------------------------------ writing the code

  /** An input as the page holds it: the attributes the detector read, and what filling changes. */
  class Box {
    const input: Input
    var value: string
    var marked: bool

    constructor (input: Input)
      ensures this.input == input && value == "" && !marked
    {
      this.input, value, marked := input, "", false;
    }

    /** setNativeInputValue and the data-inboxkey attributes. */
    method Write(text: string)
      modifies this
      ensures value == text && marked
    {
      value, marked := text, true;
    }
  }

  function Fillable(boxes: seq<Box>): (r: seq<Box>)
    ensures forall i :: 0 <= i < |r| ==> r[i] in boxes && Enabled(r[i].input)
    ensures forall b :: b in boxes && Enabled(b.input) ==> b in r
  {
    if boxes == [] then [] else
      var last := boxes[|boxes| - 1];
      assert boxes == boxes[..|boxes| - 1] + [last];
      Fillable(boxes[..|boxes| - 1]) + (if Enabled(last.input) then [last] else [])
  }

  ghost predicate Distinct(boxes: seq<Box>) {
    forall i, j :: 0 <= i < j < |boxes| ==> boxes[i] != boxes[j]
  }

  lemma {:induction false} FillableDistinct(boxes: seq<Box>)
    requires Distinct(boxes)
    ensures Distinct(Fillable(boxes))
  {
    if boxes != [] {
      var last := boxes[|boxes| - 1];
      var front := boxes[..|boxes| - 1];
      FillableDistinct(front);
      assert forall i :: 0 <= i < |Fillable(front)| ==> Fillable(front)[i] in front;
      assert last !in front;
    }
  }

  /** Only the leader has a name, so only its value is submitted. */
  predicate LeaderOnly(boxes: seq<Box>, pattern: Pattern)
    requires boxes != []
  {
    pattern.AsymmetricLeader? && boxes[0].input.name != "" && forall i :: 0 < i < |boxes| ==> boxes[i].input.name == ""
  }

  /** What stands in the boxes, read from the first to the last. */
  function Joined(boxes: seq<Box>): string
    reads boxes
  {
    if boxes == [] then "" else boxes[0].value + Joined(boxes[1..])
  }

  lemma {:induction false} JoinedIsCode(boxes: seq<Box>, code: string)
    requires |boxes| == |code| && forall k :: 0 <= k < |code| ==> boxes[k].value == [code[k]]
    ensures Joined(boxes) == code
  {
    if boxes != [] {
      JoinedIsCode(boxes[1..], code[1..]);
      assert code == [code[0]] + code[1..];
    }
  }

  /** autofillSplitInputs. */
  method AutofillSplitInputs(code: string, boxes: seq<Box>, pattern: Pattern) returns (ok: bool)
    requires code != "" && |boxes| > 1 && Distinct(boxes)
    modifies boxes
    ensures ok <==> LeaderOnly(boxes, pattern) || |code| == |Fillable(boxes)|
    ensures !ok ==> forall b :: b in boxes ==> unchanged(b)
    ensures LeaderOnly(boxes, pattern) ==>
      && boxes[0].value == code && boxes[0].marked
      && forall i :: 0 < i < |boxes| ==> unchanged(boxes[i])
    ensures ok && !LeaderOnly(boxes, pattern) ==>
      && Joined(Fillable(boxes)) == code
      && (forall b :: b in Fillable(boxes) ==> |b.value| == 1 && b.marked)
      && (forall b :: b in boxes && !Enabled(b.input) ==> unchanged(b))
  {
    if LeaderOnly(boxes, pattern) {
      boxes[0].Write(code);
      return true;
    }
    var fillable := Fillable(boxes);
    if |code| != |fillable| { return false; }
    FillableDistinct(boxes);
    for i := 0 to |fillable|
      invariant forall k :: 0 <= k < i ==> fillable[k].value == [code[k]] && fillable[k].marked
      invariant forall b :: b in boxes && b !in fillable ==> unchanged(b)
      modifies boxes
    {
      fillable[i].Write([code[i]]);
    }
    JoinedIsCode(fillable, code);
    ok := true;
  }

  /** The boxes on the page behind a list of inputs. */
  ghost predicate Shows(boxes: seq<Box>, inputs: seq<Input>) {
    |boxes| == |inputs| && Distinct(boxes) && forall i :: 0 <= i < |inputs| ==> boxes[i].input == inputs[i]
  }

  lemma {:induction false} AllFillable(boxes: seq<Box>)
    requires forall i :: 0 <= i < |boxes| ==> Enabled(boxes[i].input)
    ensures Fillable(boxes) == boxes
  {
    if boxes != [] {
      AllFillable(boxes[..|boxes| - 1]);
    }
  }

  /**
   * From the field to the page: a code of the length derived from the field is written whole exactly when the group has
   * no wide boxes; otherwise nothing is written.
   */
  method FillDerivedLength(page: Page, f: Input, boxes: seq<Box>, code: string) returns (ok: bool)
    requires f in page.inputs && Enabled(f) && Detect(page, f).Some? && Shows(boxes, Detect(page, f).value.inputs)
    requires code != "" && ExpectedLength(page, f) == Some(|code|)
    modifies boxes
    ensures ok <==> !WideBoxes(Detect(page, f).value.inputs)
    ensures ok ==>
      Joined(boxes) == code || (boxes[0].value == code && forall i :: 0 < i < |boxes| ==> unchanged(boxes[i]))
    ensures !ok ==> forall b :: b in boxes ==> unchanged(b)
  {
    var group := Detect(page, f).value;
    FieldInItsGroup(page, f);
    ExpectedLengthIff(page, f);
    LeaderPatternIff(page, group.inputs);
    AllFillable(boxes);
    ok := AutofillSplitInputs(code, boxes, group.pattern);
  }
}
