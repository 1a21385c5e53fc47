/**
 * Which messages a fetch returns (inboxbridge/src/imap_client.rs:160-259, inboxbridge/src/dispatcher.rs:420-437). RFC
 * 3501 fixes neither the order of a SEARCH result (section 6.4.4) nor that of FETCH replies (sections 6.4.5 and 6.4.8).
 */
module MailSelection {
  import opened Prelude

  /** A message: its UID, INTERNALDATE in milliseconds when the server sent one, and its size once serialized. */
  datatype Mail = Mail(uid: nat, date: Option<int>, size: nat)

  const RESPONSE_BUDGET_BYTES := 921_600

  function FetchLimit(limit: nat): nat {
    Min(limit * 2, 50)
  }

  predicate InWindow(m: Mail, cutoff: int) {
    m.date.None? || m.date.value >= cutoff
  }

  function Filter(s: seq<Mail>, cutoff: int): seq<Mail> {
    if s == [] then [] else
      var last := s[|s| - 1];
      Filter(s[..|s| - 1], cutoff) + (if InWindow(last, cutoff) then [last] else [])
  }

  function Take<T>(s: seq<T>, n: nat): seq<T> {
    if n < |s| then s[..n] else s
  }

  function Uids(s: seq<Mail>): (r: seq<nat>)
    ensures |r| == |s| && forall i :: 0 <= i < |s| ==> r[i] == s[i].uid
  {
    seq(|s|, i requires 0 <= i < |s| => s[i].uid)
  }

  ghost predicate Distinct(s: seq<nat>) {
    forall i, j :: 0 <= i < j < |s| ==> s[i] != s[j]
  }

  ghost predicate Descending(s: seq<nat>) {
    forall i, j :: 0 <= i < j < |s| ==> s[i] > s[j]
  }

  // ------------------------------------------------------------------ sorting

  function PlaceUid(u: nat, s: seq<nat>): seq<nat> {
    if s == [] || s[0] < u then [u] + s else [s[0]] + PlaceUid(u, s[1..])
  }

  /** sort_unstable_by, newest UID first. */
  function SortUids(s: seq<nat>): seq<nat> {
    if s == [] then [] else PlaceUid(s[|s| - 1], SortUids(s[..|s| - 1]))
  }

  function PlaceMail(m: Mail, s: seq<Mail>): seq<Mail> {
    if s == [] || s[0].uid < m.uid then [m] + s else [s[0]] + PlaceMail(m, s[1..])
  }

  function SortMails(s: seq<Mail>): seq<Mail> {
    if s == [] then [] else PlaceMail(s[|s| - 1], SortMails(s[..|s| - 1]))
  }

  lemma {:induction false} PlaceMailAdds(m: Mail, s: seq<Mail>)
    ensures multiset(PlaceMail(m, s)) == multiset(s) + multiset{m}
    ensures Uids(PlaceMail(m, s)) == PlaceUid(m.uid, Uids(s))
  {
    if s != [] && s[0].uid >= m.uid {
      PlaceMailAdds(m, s[1..]);
      assert s == [s[0]] + s[1..] && Uids(s)[1..] == Uids(s[1..]);
    }
  }

  /** Sorting messages permutes them, and sorts their UIDs. */
  lemma {:induction false} SortMailsPermutes(s: seq<Mail>)
    ensures multiset(SortMails(s)) == multiset(s)
    ensures Uids(SortMails(s)) == SortUids(Uids(s))
  {
    if s != [] {
      var last := |s| - 1;
      SortMailsPermutes(s[..last]);
      PlaceMailAdds(s[last], SortMails(s[..last]));
      assert s == s[..last] + [s[last]] && Uids(s)[..last] == Uids(s[..last]);
    }
  }

  lemma {:induction false} PlaceUidAdds(u: nat, s: seq<nat>)
    ensures multiset(PlaceUid(u, s)) == multiset(s) + multiset{u}
  {
    if s != [] && s[0] >= u {
      PlaceUidAdds(u, s[1..]);
      assert s == [s[0]] + s[1..];
    }
  }

  lemma {:induction false} PlaceUidSorts(u: nat, s: seq<nat>)
    requires Descending(s) && u !in s
    ensures Descending(PlaceUid(u, s))
  {
    if s != [] && s[0] >= u {
      assert s[0] in s;
      var rest := PlaceUid(u, s[1..]);
      PlaceUidSorts(u, s[1..]);
      PlaceUidAdds(u, s[1..]);
      forall j | 0 <= j < |rest| ensures s[0] > rest[j] {
        assert rest[j] in multiset(rest);
        assert rest[j] == u || rest[j] in s[1..];
      }
    }
  }

  /** Distinct UIDs come out in strictly falling order. */
  lemma {:induction false} SortUidsSorts(s: seq<nat>)
    requires Distinct(s)
    ensures Descending(SortUids(s)) && multiset(SortUids(s)) == multiset(s)
  {
    if s != [] {
      var last := |s| - 1;
      SortUidsSorts(s[..last]);
      assert s == s[..last] + [s[last]];
      assert forall x :: x in SortUids(s[..last]) ==> x in multiset(s[..last]);
      PlaceUidSorts(s[last], SortUids(s[..last]));
      PlaceUidAdds(s[last], SortUids(s[..last]));
    }
  }

  ghost predicate Falls<T>(s: seq<T>, uid: T -> nat) {
    forall i, j :: 0 <= i < j < |s| ==> uid(s[i]) > uid(s[j])
  }

  /** Two lists with the same contents and strictly falling UIDs are in the same order. */
  lemma {:induction false} OneOrder<T>(a: seq<T>, b: seq<T>, uid: T -> nat)
    requires multiset(a) == multiset(b) && Falls(a, uid) && Falls(b, uid)
    ensures a == b
  {
    if a == [] {
      assert |multiset(b)| == 0;
    } else {
      assert |multiset(a)| > 0;
      HeadIsLargest(a, b, uid);
      HeadIsLargest(b, a, uid);
      TailContents(a);
      TailContents(b);
      OneOrder(a[1..], b[1..], uid);
      assert a == [a[0]] + a[1..] && b == [b[0]] + b[1..];
    }
  }

  lemma HeadIsLargest<T>(a: seq<T>, b: seq<T>, uid: T -> nat)
    requires a != [] && b != [] && multiset(a) == multiset(b) && Falls(b, uid)
    ensures uid(a[0]) <= uid(b[0]) && (uid(a[0]) == uid(b[0]) ==> a[0] == b[0])
  {
    assert a[0] in multiset(b);
  }

  lemma TailContents<T>(s: seq<T>)
    requires s != []
    ensures multiset(s[1..]) == multiset(s) - multiset{s[0]}
  {
    assert s == [s[0]] + s[1..];
  }

  lemma OneMailOrder(a: seq<Mail>, b: seq<Mail>)
    requires multiset(a) == multiset(b) && Descending(Uids(a)) && Descending(Uids(b))
    ensures a == b
  {
    forall i, j | 0 <= i < j < |a| ensures a[i].uid > a[j].uid { assert Uids(a)[i] > Uids(a)[j]; }
    forall i, j | 0 <= i < j < |b| ensures b[i].uid > b[j].uid { assert Uids(b)[i] > Uids(b)[j]; }
    OneOrder(a, b, (m: Mail) => m.uid);
  }

  lemma SortedStays(s: seq<Mail>)
    requires Descending(Uids(s))
    ensures SortMails(s) == s
  {
    SortMailsPermutes(s);
    SortUidsSorts(Uids(s));
    OneMailOrder(SortMails(s), s);
  }

  // ------------------------------------------------------------------ the pipeline

  /** The UIDs asked for: the newest of what the search found. */
  function UidsToFetch(found: seq<nat>, limit: nat): seq<nat> {
    Take(SortUids(found), FetchLimit(limit))
  }

  /** From the replies: keep the window, sort newest first, cut. */
  method SelectRecent(replies: seq<Mail>, cutoff: int, limit: nat) returns (messages: seq<Mail>)
    ensures messages == Take(SortMails(Filter(replies, cutoff)), limit)
  {
    var decoded: seq<Mail> := [];
    for i := 0 to |replies|
      invariant decoded == Filter(replies[..i], cutoff)
    {
      assert replies[..i + 1][..i] == replies[..i];
      var m := replies[i];
      if m.date.Some? && m.date.value < cutoff { continue; }
      decoded := decoded + [m];
    }
    assert replies[..|replies|] == replies;
    decoded := SortMails(decoded);
    messages := if limit < |decoded| then decoded[..limit] else decoded;
  }

  /** The length of {"messages":[...]}. */
  function PayloadSize(messages: seq<Mail>): nat {
    if messages == [] then 15
    else if |messages| == 1 then 15 + messages[0].size
    else PayloadSize(messages[..|messages| - 1]) + 1 + messages[|messages| - 1].size
  }

  /** k messages fit and no more do; or not even one does and k is 0. */
  ghost predicate LongestFit(messages: seq<Mail>, k: nat) {
    && k <= |messages|
    && (k > 0 ==> PayloadSize(messages[..k]) <= RESPONSE_BUDGET_BYTES)
    && forall j :: k < j <= |messages| ==> PayloadSize(messages[..j]) > RESPONSE_BUDGET_BYTES
  }

  /** Pops the oldest message until the payload fits. */
  method EnforceBudget(messages: seq<Mail>) returns (kept: seq<Mail>)
    ensures |kept| <= |messages| && kept == messages[..|kept|] && LongestFit(messages, |kept|)
  {
    kept := messages;
    while kept != []
      invariant |kept| <= |messages| && kept == messages[..|kept|]
      invariant forall j :: |kept| < j <= |messages| ==> PayloadSize(messages[..j]) > RESPONSE_BUDGET_BYTES
      decreases |kept|
    {
      assert messages[..|kept|] == kept;
      if PayloadSize(kept) <= RESPONSE_BUDGET_BYTES { break; }
      kept := kept[..|kept| - 1];
    }
  }

  lemma {:induction false} SizeGrows(messages: seq<Mail>, i: nat, j: nat)
    requires i <= j <= |messages|
    ensures PayloadSize(messages[..i]) <= PayloadSize(messages[..j])
    decreases j
  {
    if i < j {
      SizeGrows(messages, i, j - 1);
      assert messages[..j][..j - 1] == messages[..j - 1];
    }
  }

  /** The text of {"messages":[...]} for the texts of its messages. */
  function Payload(texts: seq<string>): string {
    "{\"messages\":[" + Joined(texts) + "]}"
  }

  function Joined(texts: seq<string>): string {
    if texts == [] then ""
    else if |texts| == 1 then texts[0]
    else Joined(texts[..|texts| - 1]) + "," + texts[|texts| - 1]
  }

  /** The sizes add up to the length of that text. */
  lemma PayloadSizeIsLength(messages: seq<Mail>, texts: seq<string>)
    requires |texts| == |messages| && forall i :: 0 <= i < |texts| ==> |texts[i]| == messages[i].size
    ensures PayloadSize(messages) == |Payload(texts)|
  {
    JoinedLength(messages, texts);
    assert |"{\"messages\":["| == 13;
  }

  lemma {:induction false} JoinedLength(messages: seq<Mail>, texts: seq<string>)
    requires |texts| == |messages| && forall i :: 0 <= i < |texts| ==> |texts[i]| == messages[i].size
    ensures PayloadSize(messages) == 15 + |Joined(texts)|
  {
    if |messages| > 1 { JoinedLength(messages[..|messages| - 1], texts[..|texts| - 1]); }
  }

  /** The longest fit in bytes: a nonempty one has at most 921600, and one message more would have had more. */
  lemma FitInBytes(messages: seq<Mail>, k: nat, texts: seq<string>)
    requires LongestFit(messages, k)
    requires |texts| == |messages| && forall i :: 0 <= i < |texts| ==> |texts[i]| == messages[i].size
    ensures k > 0 ==> |Payload(texts[..k])| <= 921_600
    ensures k < |messages| ==> |Payload(texts[..k + 1])| > 921_600
  {
    PayloadSizeIsLength(messages[..k], texts[..k]);
    if k < |messages| { PayloadSizeIsLength(messages[..k + 1], texts[..k + 1]); }
  }

  /** There is one longest fit, and every shorter prefix fits as well. */
  lemma LongestFitIsUnique(messages: seq<Mail>, k: nat, n: nat)
    requires LongestFit(messages, k) && LongestFit(messages, n)
    ensures k == n && forall j :: 0 < j <= k ==> PayloadSize(messages[..j]) <= RESPONSE_BUDGET_BYTES
  {
    forall j | 0 < j <= k ensures PayloadSize(messages[..j]) <= RESPONSE_BUDGET_BYTES { SizeGrows(messages, j, k); }
  }

  // ------------------------------------------------------------------ order independence

  /** The messages of the mailbox with the UIDs asked for. */
  function Fetched(box: seq<Mail>, uids: seq<nat>): seq<Mail> {
    if box == [] then [] else
      var last := box[|box| - 1];
      Fetched(box[..|box| - 1], uids) + (if last.uid in uids then [last] else [])
  }

  /** The newest n messages of the mailbox, newest first. */
  function Newest(box: seq<Mail>, n: nat): seq<Mail> {
    Take(SortMails(box), n)
  }

  /** Any order of the same UIDs is sorted the same way. */
  lemma {:induction false} SortUidsCanonical(a: seq<nat>, b: seq<nat>)
    requires multiset(a) == multiset(b) && Distinct(a) && Distinct(b)
    ensures SortUids(a) == SortUids(b)
  {
    SortUidsSorts(a);
    SortUidsSorts(b);
    OneOrder(SortUids(a), SortUids(b), (u: nat) => u);
  }

  lemma {:induction false} FilterKeeps(s: seq<Mail>, cutoff: int)
    ensures forall m :: multiset(Filter(s, cutoff))[m] == if InWindow(m, cutoff) then multiset(s)[m] else 0
  {
    if s != [] {
      FilterKeeps(s[..|s| - 1], cutoff);
      assert s == s[..|s| - 1] + [s[|s| - 1]];
    }
  }

  lemma {:induction false} FilterAppends(a: seq<Mail>, b: seq<Mail>, cutoff: int)
    ensures Filter(a + b, cutoff) == Filter(a, cutoff) + Filter(b, cutoff)
  {
    if b == [] {
      assert a + b == a;
    } else {
      var last := |b| - 1;
      assert (a + b)[..|a + b| - 1] == a + b[..last];
      FilterAppends(a, b[..last], cutoff);
    }
  }

  /** Filtering a falling list keeps it falling. */
  lemma {:induction false} FilterDescends(s: seq<Mail>, cutoff: int)
    requires Descending(Uids(s))
    ensures Descending(Uids(Filter(s, cutoff))) && forall m :: m in Filter(s, cutoff) ==> m in s
  {
    if s != [] {
      var last := |s| - 1;
      assert Uids(s[..last]) == Uids(s)[..last];
      FilterDescends(s[..last], cutoff);
      var front := Filter(s[..last], cutoff);
      forall i | 0 <= i < |front| ensures front[i].uid > s[last].uid {
        assert front[i] in front;
        var j :| 0 <= j < last && s[..last][j] == front[i];
        assert Uids(s)[j] > Uids(s)[last];
      }
    }
  }

  /** Filtering and sorting commute, in whatever order the messages came. */
  lemma FilterThenSort(s: seq<Mail>, t: seq<Mail>, cutoff: int)
    requires multiset(s) == multiset(t) && Descending(Uids(t))
    ensures SortMails(Filter(s, cutoff)) == Filter(t, cutoff)
  {
    FilterKeeps(s, cutoff);
    FilterKeeps(t, cutoff);
    FilterDescends(t, cutoff);
    var a, b := Filter(s, cutoff), Filter(t, cutoff);
    assert multiset(a) == multiset(b);
    SortMailsPermutes(a);
    SamePermutationDistinct(a, b);
    SortUidsSorts(Uids(a));
    OneMailOrder(SortMails(a), b);
  }

  lemma SamePermutationDistinct(a: seq<Mail>, b: seq<Mail>)
    requires multiset(a) == multiset(b) && Descending(Uids(b))
    ensures Distinct(Uids(a))
  {
    forall i, j | 0 <= i < j < |a| ensures a[i].uid != a[j].uid { TwoInA(a, b, i, j); }
  }

  /** Two positions of one UID would be two positions in every permutation. */
  lemma TwoInA(a: seq<Mail>, b: seq<Mail>, i: nat, j: nat)
    requires multiset(a) == multiset(b) && Descending(Uids(b)) && i < j < |a|
    ensures a[i].uid != a[j].uid
  {
    assert a[i] in multiset(b) && a[j] in multiset(b);
    var p :| 0 <= p < |b| && b[p] == a[i];
    var q :| 0 <= q < |b| && b[q] == a[j];
    if p == q {
      Twice(a, i, j);
      Once(b, p);
    } else if p < q {
      assert Uids(b)[p] > Uids(b)[q];
    } else {
      assert Uids(b)[q] > Uids(b)[p];
    }
  }

  lemma Twice(a: seq<Mail>, i: nat, j: nat)
    requires i < j < |a| && a[i] == a[j]
    ensures multiset(a)[a[i]] >= 2
  {
    assert a == a[..i] + [a[i]] + a[i + 1..j] + [a[j]] + a[j + 1..];
  }

  lemma Once(b: seq<Mail>, p: nat)
    requires p < |b| && Descending(Uids(b))
    ensures multiset(b)[b[p]] == 1
  {
    assert b == b[..p] + [b[p]] + b[p + 1..];
    forall k | 0 <= k < |b| && k != p ensures b[k] != b[p] {
      if k < p { assert Uids(b)[k] > Uids(b)[p]; } else { assert Uids(b)[p] > Uids(b)[k]; }
    }
    assert b[p] !in b[..p] && b[p] !in b[p + 1..];
  }

  /** What a server holding box may answer to a fetch: those messages, in any order. */
  ghost predicate Answers(box: seq<Mail>, uids: seq<nat>, replies: seq<Mail>) {
    multiset(replies) == multiset(Fetched(box, uids))
  }

  /** Fetching the newest UIDs fetches the newest messages. */
  lemma FetchesNewest(box: seq<Mail>, found: seq<nat>, limit: nat)
    requires Distinct(Uids(box)) && Distinct(found) && multiset(found) == multiset(Uids(box))
    ensures Descending(Uids(SortMails(box)))
    ensures multiset(Fetched(box, UidsToFetch(found, limit))) == multiset(Newest(box, FetchLimit(limit)))
  {
    hide Fetched, Uids, Distinct, Take, SortMails, SortUids;
    var sorted := SortMails(box);
    SortMailsPermutes(box);
    SortUidsSorts(Uids(box));
    AsksForNewest(box, found, limit);
    var newest := Newest(box, FetchLimit(limit));
    FetchedPermutes(box, sorted, Uids(newest));
    TakeIsPrefix(sorted, FetchLimit(limit));
    FetchedPrefix(sorted, |newest|, Uids(newest));
  }

  lemma AsksForNewest(box: seq<Mail>, found: seq<nat>, limit: nat)
    requires Distinct(Uids(box)) && Distinct(found) && multiset(found) == multiset(Uids(box))
    ensures UidsToFetch(found, limit) == Uids(Newest(box, FetchLimit(limit)))
  {
    SortMailsPermutes(box);
    SortUidsCanonical(found, Uids(box));
    TakeUids(SortMails(box), FetchLimit(limit));
  }

  lemma TakeIsPrefix<T>(s: seq<T>, n: nat)
    ensures |Take(s, n)| <= |s| && Take(s, n) == s[..|Take(s, n)|]
  {
  }

  lemma TakeUids(s: seq<Mail>, n: nat)
    ensures Uids(Take(s, n)) == Take(Uids(s), n)
  {
  }

  lemma {:induction false} FetchedKeeps(s: seq<Mail>, uids: seq<nat>)
    ensures forall m :: multiset(Fetched(s, uids))[m] == if m.uid in uids then multiset(s)[m] else 0
  {
    if s != [] {
      FetchedKeeps(s[..|s| - 1], uids);
      assert s == s[..|s| - 1] + [s[|s| - 1]];
    }
  }

  lemma FetchedPermutes(a: seq<Mail>, b: seq<Mail>, uids: seq<nat>)
    requires multiset(a) == multiset(b)
    ensures multiset(Fetched(a, uids)) == multiset(Fetched(b, uids))
  {
    FetchedKeeps(a, uids);
    FetchedKeeps(b, uids);
  }

  /** From a falling list, the UIDs of a prefix fetch that prefix. */
  lemma {:induction false} FetchedPrefix(s: seq<Mail>, n: nat, uids: seq<nat>)
    requires Descending(Uids(s)) && n <= |s| && uids == Uids(s[..n])
    ensures Fetched(s, uids) == s[..n]
  {
    forall k | 0 <= k <= |s| ensures Fetched(s[..k], uids) == s[..Min(k, n)] { FetchedUpTo(s, n, uids, k); }
    assert s[..|s|] == s;
  }

  lemma {:induction false} FetchedUpTo(s: seq<Mail>, n: nat, uids: seq<nat>, k: nat)
    requires Descending(Uids(s)) && n <= |s| && uids == Uids(s[..n]) && k <= |s|
    ensures Fetched(s[..k], uids) == s[..Min(k, n)]
    decreases k
  {
    if k > 0 {
      FetchedUpTo(s, n, uids, k - 1);
      assert s[..k][..k - 1] == s[..k - 1];
      if k <= n {
        assert uids[k - 1] == s[k - 1].uid;
      } else {
        forall i | 0 <= i < n ensures uids[i] != s[k - 1].uid { assert Uids(s)[i] > Uids(s)[k - 1]; }
      }
    }
  }

  /** The list the response is cut from: what is in the window among the newest messages fetched, newest first. */
  function Reference(box: seq<Mail>, cutoff: int, limit: nat): seq<Mail> {
    Take(Filter(Newest(box, FetchLimit(limit)), cutoff), limit)
  }

  /**
   * Order independence: for distinct UIDs, whatever order the search listed them in and the server replied in, the
   * selection is the reference list.
   */
  lemma SelectionIsOrderIndependent(box: seq<Mail>, found: seq<nat>, replies: seq<Mail>, cutoff: int, limit: nat)
    requires Distinct(Uids(box)) && Distinct(found) && multiset(found) == multiset(Uids(box))
    requires Answers(box, UidsToFetch(found, limit), replies)
    ensures Take(SortMails(Filter(replies, cutoff)), limit) == Reference(box, cutoff, limit)
  {
    FetchesNewest(box, found, limit);
    var newest := Newest(box, FetchLimit(limit));
    assert Uids(newest) == Take(Uids(SortMails(box)), FetchLimit(limit));
    FilterThenSort(replies, newest, cutoff);
  }

  /** From the search result to the response; the replies are what the server sends for the UIDs asked for. */
  method FetchRecent(ghost box: seq<Mail>, found: seq<nat>, replies: seq<Mail>, cutoff: int, limit: nat)
    returns (response: seq<Mail>)
    requires Distinct(Uids(box)) && Distinct(found) && multiset(found) == multiset(Uids(box))
    requires Answers(box, UidsToFetch(found, limit), replies)
    ensures var reference := Reference(box, cutoff, limit);
      |response| <= |reference| && response == reference[..|response|] && LongestFit(reference, |response|)
  {
    if UidsToFetch(found, limit) == [] {
      AsksForNewest(box, found, limit);
      return [];
    }
    SelectionIsOrderIndependent(box, found, replies, cutoff, limit);
    var messages := SelectRecent(replies, cutoff, limit);
    response := EnforceBudget(messages);
  }

  // ------------------------------------------------------------------ when the cap on the fetch shows

  /**
   * The caller asked for the newest `limit` messages of the window. It gets them exactly when the fetched ones already
   * fill the limit or nothing in the window was left unfetched.
   */
  lemma GetsTheNewestInWindowIff(box: seq<Mail>, cutoff: int, limit: nat)
    ensures var sorted := SortMails(box);
      var n := Min(Min(2 * limit, 50), |sorted|);
      Reference(box, cutoff, limit) == Take(Filter(sorted, cutoff), limit) <==>
        |Filter(sorted[..n], cutoff)| >= limit || Filter(sorted[n..], cutoff) == []
  {
    var sorted := SortMails(box);
    var n := Min(FetchLimit(limit), |sorted|);
    assert Newest(box, FetchLimit(limit)) == sorted[..n];
    assert sorted == sorted[..n] + sorted[n..];
    FilterAppends(sorted[..n], sorted[n..], cutoff);
  }

  /** With at most twice the limit of hits, and at most 50, it always does. */
  lemma FewHitsLoseNothing(box: seq<Mail>, cutoff: int, limit: nat)
    requires |box| <= 2 * limit && |box| <= 50
    ensures Reference(box, cutoff, limit) == Take(Filter(SortMails(box), cutoff), limit)
  {
    SortMailsPermutes(box);
    assert |multiset(SortMails(box))| == |multiset(box)|;
  }

  /** What is asked for is never more than twice the limit, nor more than 50, and is that many when there are. */
  lemma AsksForAtMost(found: seq<nat>, limit: nat)
    requires Distinct(found)
    ensures |UidsToFetch(found, limit)| == if |found| <= 2 * limit && |found| <= 50 then |found|
                                           else if 2 * limit <= 50 then 2 * limit else 50
  {
    SortUidsSorts(found);
    assert |multiset(SortUids(found))| == |multiset(found)|;
  }

  /** Undated, or received no earlier than the cutoff. */
  predicate Wanted(m: Mail, cutoff: int) {
    m.date.None? || m.date.value >= cutoff
  }

  /**
   * What that is, without the pipeline: messages of the mailbox that are wanted, in strictly falling UID order, at most
   * `limit` of them; and a wanted message that is missing is older than all of them, and there are `limit`.
   */
  lemma TopInWindow(box: seq<Mail>, cutoff: int, limit: nat)
    requires Distinct(Uids(box)) && |box| <= 2 * limit && |box| <= 50
    ensures var r := Reference(box, cutoff, limit);
      && |r| <= limit && (forall i, j :: 0 <= i < j < |r| ==> r[i].uid > r[j].uid)
      && (forall m :: m in r ==> m in box && Wanted(m, cutoff))
      && forall m :: m in box && Wanted(m, cutoff) && m !in r ==> |r| == limit && forall k :: k in r ==> k.uid > m.uid
  {
    hide Filter, SortMails, Wanted, Newest, Uids, Distinct;
    FewHitsLoseNothing(box, cutoff, limit);
    var wanted := Filter(SortMails(box), cutoff);
    WantedFalls(box, cutoff);
    forall m | m in box && Wanted(m, cutoff) && m !in Take(wanted, limit)
      ensures |Take(wanted, limit)| == limit && forall k :: k in Take(wanted, limit) ==> k.uid > m.uid
    {
      WantedIff(box, cutoff, m);
      var p :| 0 <= p < |wanted| && wanted[p] == m;
      assert p >= limit;
    }
    forall m | m in Take(wanted, limit) ensures m in box && Wanted(m, cutoff) { WantedIff(box, cutoff, m); }
  }

  /** The window's messages are listed whole, newest first. */
  lemma WantedIff(box: seq<Mail>, cutoff: int, m: Mail)
    ensures m in Filter(SortMails(box), cutoff) <==> m in box && Wanted(m, cutoff)
  {
    SortMailsPermutes(box);
    FilterKeeps(SortMails(box), cutoff);
    var wanted := Filter(SortMails(box), cutoff);
    assert m in wanted <==> multiset(wanted)[m] > 0;
    assert m in box <==> multiset(box)[m] > 0;
  }

  lemma WantedFalls(box: seq<Mail>, cutoff: int)
    requires Distinct(Uids(box))
    ensures var wanted := Filter(SortMails(box), cutoff);
      forall i, j :: 0 <= i < j < |wanted| ==> wanted[i].uid > wanted[j].uid
  {
    SortMailsPermutes(box);
    SortUidsSorts(Uids(box));
    FilterDescends(SortMails(box), cutoff);
    var wanted := Filter(SortMails(box), cutoff);
    forall i, j | 0 <= i < j < |wanted| ensures wanted[i].uid > wanted[j].uid {
      assert Uids(wanted)[i] > Uids(wanted)[j];
    }
  }

  /** Otherwise it may not: one message wanted, two old ones with higher UIDs in front of the one in the window. */
  lemma CapCanHideMail()
    ensures exists box: seq<Mail>, cutoff: int, limit: nat ::
      Distinct(Uids(box)) && Reference(box, cutoff, limit) == [] && Take(Filter(SortMails(box), cutoff), limit) != []
  {
    var a, b, c := Mail(3, Some(0), 1), Mail(2, Some(0), 1), Mail(1, Some(9), 1);
    var box := [a, b, c];
    SortedStays(box);
    assert box[..2] == [a, b];
    OldOnesGo(a, b, c, 5);
    assert Reference(box, 5, 1) == [] && Take(Filter(SortMails(box), 5), 1) != [] by { hide Filter, SortMails; }
    assert Distinct(Uids(box));
  }

  lemma OldOnesGo(a: Mail, b: Mail, c: Mail, cutoff: int)
    requires !InWindow(a, cutoff) && !InWindow(b, cutoff) && InWindow(c, cutoff)
    ensures Filter([a, b], cutoff) == [] && Filter([a, b, c], cutoff) == [c]
  {
    assert [a, b, c][..2] == [a, b] && [a, b][..1] == [a] && [a][..0] == [];
    assert Filter([a], cutoff) == [];
  }
}
