/**
 * Choosing the code to fill (extension/src/lib/matching/code-matcher.ts). The points a code earns come from
 * domain affinity, recency and shape helpers that are not part of this model, so a scored list is the input;
 * what is modelled is the stable descending sort, the head and the acceptance threshold.
 */
module CodeMatcher {
  import opened Prelude

  /** One scored code; pos says which entry of the caller's list it is. */
  datatype Scored = Scored(pos: nat, score: real)

  const ACCEPT_MIN := 10.0

  /** Inserts x in front of the first entry that scores strictly less: x follows its equals. */
  function Place(x: Scored, sorted: seq<Scored>): seq<Scored> {
    if sorted == [] || sorted[0].score < x.score then [x] + sorted
    else [sorted[0]] + Place(x, sorted[1..])
  }

  /** Stable sort by falling score. */
  function SortDesc(s: seq<Scored>): seq<Scored> {
    if s == [] then [] else Place(s[|s| - 1], SortDesc(s[..|s| - 1]))
  }

  function FindBest(s: seq<Scored>): (r: Option<nat>)
    ensures r.Some? ==> exists i :: 0 <= i < |s| && s[i].pos == r.value
  {
    var sorted := SortDesc(s);
    SortDescKeepsEntries(s);
    assert sorted != [] ==> sorted[0] in multiset(sorted) && sorted[0] in s;
    if sorted == [] || sorted[0].score < ACCEPT_MIN then None else Some(sorted[0].pos)
  }

  /** No entry scores more, and no earlier one scores as much. */
  ghost predicate FirstMax(s: seq<Scored>, k: nat) {
    k < |s| && forall i :: 0 <= i < |s| ==>
      s[i].score <= s[k].score && (i < k ==> s[i].score < s[k].score)
  }

  lemma {:induction false} HeadIsFirstMax(s: seq<Scored>) returns (k: nat)
    requires s != []
    ensures FirstMax(s, k) && SortDesc(s) != [] && SortDesc(s)[0] == s[k]
  {
    var last := |s| - 1;
    if last == 0 {
      k := 0;
    } else {
      var front := s[..last];
      k := HeadIsFirstMax(front);
      if front[k].score < s[last].score {
        k := last;
      }
    }
  }

  /** The answer is the first entry with the maximal score, and there is one exactly when that score is accepted. */
  lemma {:induction false} FindBestIsFirstMax(s: seq<Scored>)
    ensures FindBest(s).Some? <==> exists k: nat :: FirstMax(s, k) && s[k].score >= ACCEPT_MIN
    ensures FindBest(s).Some? ==>
      exists k: nat :: FirstMax(s, k) && s[k].score >= ACCEPT_MIN && s[k].pos == FindBest(s).value
  {
    if s != [] {
      var k := HeadIsFirstMax(s);
      forall j: nat | FirstMax(s, j) ensures j == k {
        assert s[j].score <= s[k].score && s[k].score <= s[j].score;
      }
    }
  }

  /** The sort drops and invents nothing. */
  lemma {:induction false} SortDescKeepsEntries(s: seq<Scored>)
    ensures multiset(SortDesc(s)) == multiset(s)
  {
    if s != [] {
      var last := |s| - 1;
      SortDescKeepsEntries(s[..last]);
      PlaceAdds(s[last], SortDesc(s[..last]));
      assert s == s[..last] + [s[last]];
    }
  }

  lemma {:induction false} PlaceAdds(x: Scored, sorted: seq<Scored>)
    ensures multiset(Place(x, sorted)) == multiset(sorted) + multiset{x}
  {
    if sorted != [] && sorted[0].score >= x.score {
      PlaceAdds(x, sorted[1..]);
      assert sorted == [sorted[0]] + sorted[1..];
    }
  }

  ghost predicate Descending(s: seq<Scored>) {
    forall i, j :: 0 <= i < j < |s| ==> s[i].score >= s[j].score
  }

  lemma {:induction false} SortDescSorts(s: seq<Scored>)
    ensures Descending(SortDesc(s))
  {
    if s != [] {
      var last := |s| - 1;
      SortDescSorts(s[..last]);
      PlaceKeepsOrder(s[last], SortDesc(s[..last]));
    }
  }

  lemma {:induction false} PlaceKeepsOrder(x: Scored, sorted: seq<Scored>)
    requires Descending(sorted)
    ensures Descending(Place(x, sorted))
  {
    if sorted != [] && sorted[0].score >= x.score {
      PlaceKeepsOrder(x, sorted[1..]);
      PlaceAdds(x, sorted[1..]);
      var rest := Place(x, sorted[1..]);
      forall j | 0 <= j < |rest| ensures sorted[0].score >= rest[j].score {
        assert rest[j] in multiset(rest);
        assert rest[j] == x || rest[j] in sorted[1..];
      }
    }
  }
}
