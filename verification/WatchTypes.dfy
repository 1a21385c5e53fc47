/**
 * The values a watch session is made of, and the pure decisions taken about them
 * (extension/src/background/session-controller.ts). Times are milliseconds.
 */
module WatchTypes {
  import opened Prelude
  import CodeMatcher

  /** A session id: crypto.randomUUID() text, compared only for equality. */
  datatype SessionId = SessionId(uuid: string)

  datatype Provider = Imap | ImapBridge | GoogleMessages

  function ProviderName(p: Provider): string {
    match p
    case Imap => "imap"
    case ImapBridge => "imap-bridge"
    case GoogleMessages => "google-messages"
  }

  /** A mailbox never changes its provider, so the provider travels with the id. */
  datatype Mailbox = Mailbox(id: string, provider: Provider)

  predicate IsSms(m: Mailbox) {
    m.provider.GoogleMessages?
  }

  const SNAPSHOT_TTL_MS := 600_000
  const PRESESSION_GRACE_MS := 120_000
  const SETTLE_MS := 5_000

  /** WATCH_SESSION_SCORING.pollTimesMs. */
  const POLL_TIMES_MS: seq<int> :=
    [0, 5000, 10000, 15000, 20000, 30000, 40000, 50000, 60000, 70000, 80000, 90000, 100000, 110000, 120000]

  function KeepUpTo(times: seq<int>, limit: int): seq<int> {
    if times == [] then []
    else (if times[0] <= limit then [times[0]] else []) + KeepUpTo(times[1..], limit)
  }

  /** The offsets polled within the timeout; a poll at 0 when none is. */
  function PollTimes(timeoutSeconds: int): (r: seq<int>)
    ensures |r| > 0
  {
    var kept := KeepUpTo(POLL_TIMES_MS, timeoutSeconds * 1000);
    if kept == [] then [0] else kept
  }

  ghost predicate Rising(times: seq<int>) {
    forall i, j :: 0 <= i < j < |times| ==> times[i] < times[j]
  }

  lemma {:induction false} KeepUpToIsPrefix(times: seq<int>, limit: int) returns (k: nat)
    requires Rising(times)
    ensures k <= |times| && KeepUpTo(times, limit) == times[..k]
    ensures forall i :: 0 <= i < |times| ==> (i < k <==> times[i] <= limit)
  {
    k := 0;
    if times != [] {
      var rest := KeepUpToIsPrefix(times[1..], limit);
      if times[0] <= limit {
        k := rest + 1;
        assert times[..k] == [times[0]] + times[1..][..rest];
      }
    }
  }

  /** The offsets polled are those up to the timeout, in order, and just 0 when there are none. */
  lemma PollTimesKept(timeoutSeconds: int) returns (k: nat)
    ensures k <= |POLL_TIMES_MS| && (k > 0 <==> timeoutSeconds >= 0)
    ensures forall i :: 0 <= i < |POLL_TIMES_MS| ==> (i < k <==> POLL_TIMES_MS[i] <= timeoutSeconds * 1000)
    ensures PollTimes(timeoutSeconds) == if timeoutSeconds >= 0 then POLL_TIMES_MS[..k] else [0]
  {
    k := KeepUpToIsPrefix(POLL_TIMES_MS, timeoutSeconds * 1000);
    assert POLL_TIMES_MS[0] == 0;
  }

  /** The schedule itself. */
  lemma FullSchedule()
    ensures POLL_TIMES_MS ==
      [0, 5000, 10000, 15000, 20000, 30000, 40000, 50000, 60000, 70000, 80000, 90000, 100000, 110000, 120000]
  {
  }

  // ------------------------------------------------------------------ messages

  /** A message of an adapter's batch, as the baseline hook sees it; "" stands for a missing field. */
  datatype Message = Message(id: string, href: string, hash: string, unread: bool)

  /** One Google Messages conversation row of a baseline or snapshot. */
  datatype Row = Row(href: string, hash: string, unread: bool)

  /** What the extractor made of one message. code and link are the two optional findings. */
  datatype Candidate = Candidate(
    mailbox: Mailbox, messageId: string, received: Option<int>,
    href: string, hash: string, unread: bool,
    code: Option<string>, link: Option<string>)

  /** provider:mailboxId:messageId, the identity of a message across polls. */
  function ProvenanceKey(m: Mailbox, messageId: string): string {
    ProviderName(m.provider) + ":" + m.id + ":" + messageId
  }

  const MAGIC_LINK := "magic-link:"

  /** The text to fill. An empty code is no code, and it hides the link. */
  function CodeValue(c: Candidate): Option<string> {
    if c.code.Some? then (if c.code.value == "" then None else c.code)
    else if c.link.Some? then Some(MAGIC_LINK + c.link.value)
    else None
  }

  // ------------------------------------------------------------------ sessions

  /** Where an SMS baseline came from. The program forgets this; the model keeps it to state what each kind promises. */
  datatype Seed = FromSnapshot(observedAt: int) | FromBatch

  datatype SmsBaseline = SmsBaseline(rows: seq<Row>, seed: Seed)

  datatype Snapshot = Snapshot(observedAt: int, rows: seq<Row>)

  /**
   * One entry of newArrivalCodes, kept as the candidate it was built from and the clock reading that stands in
   * for a missing receipt time.
   */
  datatype Arrival = Arrival(candidate: Candidate, stamp: int)

  function ReceivedAt(a: Arrival): int {
    if a.candidate.received.Some? then a.candidate.received.value else a.stamp
  }

  /** The request of a session: what never changes once it has started. */
  datatype Info = Info(tab: int, start: int, timeout: int, polls: nat, sms: bool, email: bool)

  datatype Status = Active | Filled | TimedOut | Canceled

  /**
   * The matcher's pick: an entry of the arrivals, the time of the decision, and the verdicts of the eligibility
   * filter and the scorer on every arrival at that time.
   */
  datatype Choice = Choice(pos: nat, at: int, eligible: seq<bool>, scores: seq<real>)

  datatype Session = Session(
    info: Info, status: Status, completed: seq<nat>,
    sms: map<Mailbox, SmsBaseline>, email: map<Mailbox, seq<string>>,
    arrivals: seq<Arrival>, lastCode: Option<Choice>)

  function NewSession(info: Info): Session {
    Session(info, Active, [], map[], map[], [], None)
  }

  // ------------------------------------------------------------------ provenance

  /** Dated, and no older than the grace before the session started. */
  predicate Fresh(c: Candidate, start: int) {
    c.received.Some? && c.received.value >= start - PRESESSION_GRACE_MS
  }

  /** Array.find on the conversation reference. */
  function FindRow(rows: seq<Row>, href: string): (r: Option<Row>)
    ensures r.Some? ==> r.value in rows && r.value.href == href
    ensures r.None? <==> forall e :: e in rows ==> e.href != href
  {
    if rows == [] then None
    else if rows[0].href == href then Some(rows[0])
    else FindRow(rows[1..], href)
  }

  /** A conversation the baseline does not know, or whose text changed, or that turned unread. */
  predicate NewRow(c: Candidate, rows: seq<Row>) {
    c.href != "" &&
    var prior := FindRow(rows, c.href);
    prior.None? || prior.value.hash != c.hash || (!prior.value.unread && c.unread)
  }

  predicate IsNewArrival(c: Candidate, s: Session) {
    if IsSms(c.mailbox) then c.mailbox in s.sms && NewRow(c, s.sms[c.mailbox].rows)
    else c.mailbox in s.email && ProvenanceKey(c.mailbox, c.messageId) !in s.email[c.mailbox]
  }

  /**
   * The whole filter a candidate passes to become an arrival; current holds the mailboxes baselined from this batch.
   */
  predicate Admit(s: Session, current: set<Mailbox>, c: Candidate) {
    && (if c.mailbox in current then Fresh(c, s.info.start)
        else IsNewArrival(c, s) && (IsSms(c.mailbox) ==> Fresh(c, s.info.start)))
    && CodeValue(c).Some?
  }

  function NewArrivals(s: Session, current: set<Mailbox>, cs: seq<Candidate>, now: int): (r: seq<Arrival>)
    ensures forall a :: a in r ==> a.candidate in cs && Admit(s, current, a.candidate)
  {
    if cs == [] then []
    else
      var last := |cs| - 1;
      NewArrivals(s, current, cs[..last], now)
      + (if Admit(s, current, cs[last]) then [Arrival(cs[last], now)] else [])
  }

  /** loadSmsSnapshot: a snapshot from the future or past its time to live is ignored. */
  function UsableSnapshot(stored: Option<Snapshot>, start: int): Option<Snapshot> {
    if stored.None? || stored.value.observedAt > start || start - stored.value.observedAt > SNAPSHOT_TTL_MS
    then None else stored
  }

  /** The rows the baseline hook keeps: both fields are needed to take part in a comparison. */
  function BatchRows(batch: seq<Message>): seq<Row> {
    if batch == [] then []
    else
      var m := batch[|batch| - 1];
      BatchRows(batch[..|batch| - 1]) + (if m.href != "" && m.hash != "" then [Row(m.href, m.hash, m.unread)] else [])
  }

  /** A row is kept exactly for a message that has both fields. */
  lemma {:induction false} BatchRowsIff(batch: seq<Message>, row: Row)
    ensures row in BatchRows(batch) <==>
      row.href != "" && row.hash != "" &&
      exists m :: m in batch && m.href == row.href && m.hash == row.hash && m.unread == row.unread
  {
    if batch != [] {
      var last := batch[|batch| - 1];
      BatchRowsIff(batch[..|batch| - 1], row);
      assert batch == batch[..|batch| - 1] + [last];
      assert forall m :: m in batch <==> m in batch[..|batch| - 1] || m == last;
    }
  }

  /** Rows come in the order of their messages. */
  lemma {:induction false} BatchRowsInOrder(a: seq<Message>, b: seq<Message>)
    ensures BatchRows(a + b) == BatchRows(a) + BatchRows(b)
  {
    if b == [] {
      assert a + b == a && BatchRows(a) + [] == BatchRows(a);
    } else {
      var front := b[..|b| - 1];
      assert (a + b)[..|a + b| - 1] == a + front;
      BatchRowsInOrder(a, front);
    }
  }

  function BatchKeys(mailbox: Mailbox, batch: seq<Message>): (r: seq<string>)
    ensures |r| == |batch|
    ensures forall i :: 0 <= i < |batch| ==> r[i] == ProvenanceKey(mailbox, batch[i].id)
  {
    seq(|batch|, i requires 0 <= i < |batch| => ProvenanceKey(mailbox, batch[i].id))
  }

  // ------------------------------------------------------------------ decision

  predicate IsMagicLink(a: Arrival) {
    CodeValue(a.candidate).Some? && MAGIC_LINK <= CodeValue(a.candidate).value
  }

  /** shouldDeferFreshSmsAutofill */
  predicate MustSettle(a: Arrival, now: int) {
    IsSms(a.candidate.mailbox) && !IsMagicLink(a) && now - ReceivedAt(a) < SETTLE_MS
  }

  /** The eligible entries with their scores, in the order of the arrivals. */
  function EligibleScores(eligible: seq<bool>, scores: seq<real>): (r: seq<CodeMatcher.Scored>)
    requires |eligible| == |scores|
    ensures forall k :: 0 <= k < |r| ==>
      r[k].pos < |scores| && eligible[r[k].pos] && r[k].score == scores[r[k].pos]
  {
    if eligible == [] then []
    else
      var last := |eligible| - 1;
      EligibleScores(eligible[..last], scores[..last])
      + (if eligible[last] then [CodeMatcher.Scored(last, scores[last])] else [])
  }

  /** The decision at the end of a poll: the best eligible arrival, unless it must settle or is suppressed. */
  function Decide(arrivals: seq<Arrival>, eligible: seq<bool>, scores: seq<real>, suppressed: bool,
      now: int): (r: Option<Choice>)
    requires |eligible| == |scores| == |arrivals|
  {
    var best := CodeMatcher.FindBest(EligibleScores(eligible, scores));
    if best.None? || MustSettle(arrivals[best.value], now) || suppressed then None
    else Some(Choice(best.value, now, eligible, scores))
  }

  // ------------------------------------------------------------------ what a record promises

  /** Every eligible entry scores at most as much as entry p, earlier ones strictly less. */
  ghost predicate FirstBest(eligible: seq<bool>, scores: seq<real>, p: nat) {
    && p < |eligible| == |scores| && eligible[p]
    && forall q :: 0 <= q < |eligible| && eligible[q] ==>
         scores[q] <= scores[p] && (q < p ==> scores[q] < scores[p])
  }

  /** A fill is allowed: the first best eligible arrival, accepted, and settled when it is an SMS code. */
  ghost predicate GoodChoice(arrivals: seq<Arrival>, ch: Choice) {
    && FirstBest(ch.eligible, ch.scores, ch.pos)
    && |ch.eligible| <= |arrivals|
    && ch.scores[ch.pos] >= CodeMatcher.ACCEPT_MIN
    && !MustSettle(arrivals[ch.pos], ch.at)
  }

  /** Where an arrival may come from. */
  ghost predicate Provenance(s: Session, a: Arrival) {
    var c := a.candidate;
    && CodeValue(c).Some?
    && (if IsSms(c.mailbox) then
          && Fresh(c, s.info.start)
          && c.mailbox in s.sms
          && (s.sms[c.mailbox].seed.FromSnapshot? ==> NewRow(c, s.sms[c.mailbox].rows))
        else
          && c.mailbox in s.email
          && (Fresh(c, s.info.start) || ProvenanceKey(c.mailbox, c.messageId) !in s.email[c.mailbox]))
  }

  ghost predicate SeedOk(info: Info, b: SmsBaseline) {
    b.seed.FromSnapshot? ==> info.start - SNAPSHOT_TTL_MS <= b.seed.observedAt <= info.start
  }

  ghost predicate ProgressOk(s: Session) {
    && s.info.polls > 0
    && Increasing(s.completed)
    && (forall i :: i in s.completed ==> i < s.info.polls)
    && (s.status.Active? ==> |s.completed| < s.info.polls)
  }

  ghost predicate ProvenanceOk(s: Session) {
    && (forall a :: a in s.arrivals ==> Provenance(s, a))
    && (forall m :: m in s.sms ==> SeedOk(s.info, s.sms[m]))
  }

  ghost predicate FillOk(s: Session) {
    s.status.Filled? ==> s.lastCode.Some? && GoodChoice(s.arrivals, s.lastCode.value)
  }

  /** What every session record satisfies, in memory and on disk. */
  ghost predicate RecordOk(s: Session) {
    ProgressOk(s) && ProvenanceOk(s) && FillOk(s)
  }

  /** How a record may change: progress only grows, baselines are written once, a terminal status is final. */
  ghost predicate Evolves(a: Session, b: Session) {
    && a.info == b.info
    && (forall i :: i in a.completed ==> i in b.completed)
    && (!a.status.Active? ==> b.status == a.status && b.completed == a.completed && b.lastCode == a.lastCode)
    && (forall m :: m in a.sms ==> m in b.sms && b.sms[m] == a.sms[m])
    && (forall m :: m in a.email ==> m in b.email && b.email[m] == a.email[m])
    && a.arrivals <= b.arrivals
  }

  lemma EvolvesTransitive(a: Session, b: Session, c: Session)
    requires Evolves(a, b) && Evolves(b, c)
    ensures Evolves(a, c)
  {
  }

  // ------------------------------------------------------------------ lemmas

  lemma {:induction false} DecideIsGood(arrivals: seq<Arrival>, eligible: seq<bool>, scores: seq<real>,
      suppressed: bool, now: int)
    requires |eligible| == |scores| == |arrivals|
    ensures var r := Decide(arrivals, eligible, scores, suppressed, now);
      r.Some? ==> GoodChoice(arrivals, r.value) && r.value.at == now && !suppressed
  {
    var list := EligibleScores(eligible, scores);
    if list != [] {
      CodeMatcher.FindBestIsFirstMax(list);
      var k := CodeMatcher.HeadIsFirstMax(list);
      var p := list[k].pos;
      forall q | 0 <= q < |eligible| && eligible[q]
        ensures scores[q] <= scores[p] && (q < p ==> scores[q] < scores[p])
      {
        var j := EligibleScoresComplete(eligible, scores, q);
        assert list[j].score == scores[q];
        if k < j { EligibleScoresOrdered(eligible, scores, k, j); }
      }
    }
  }

  /** What is filled is a link. */
  predicate IsLink(a: Arrival) {
    CodeValue(a.candidate).Some? && "magic-link:" <= CodeValue(a.candidate).value
  }

  /** How long ago it was received, or seen when its receipt is undated. */
  function Age(a: Arrival, now: int): int {
    now - (if a.candidate.received.Some? then a.candidate.received.value else a.stamp)
  }

  /** Only a text message's code is deferred, and only in its first five seconds: never an email, never a link. */
  lemma DeferredIff(a: Arrival, now: int)
    ensures MustSettle(a, now) <==> a.candidate.mailbox.provider.GoogleMessages? && !IsLink(a) && Age(a, now) < 5_000
  {
  }

  /**
   * A poll decides to fill exactly when some eligible arrival is first best, accepted and settled, and nothing
   * suppresses the fill; it then fills that one.
   */
  lemma DecideIff(arrivals: seq<Arrival>, eligible: seq<bool>, scores: seq<real>, suppressed: bool, now: int, p: nat)
    requires |eligible| == |scores| == |arrivals|
    ensures Decide(arrivals, eligible, scores, suppressed, now) == Some(Choice(p, now, eligible, scores)) <==>
      && FirstBest(eligible, scores, p) && scores[p] >= 10.0 && !suppressed
      && !(&& arrivals[p].candidate.mailbox.provider.GoogleMessages? && !IsLink(arrivals[p])
           && Age(arrivals[p], now) < 5_000)
  {
    DecideIsGood(arrivals, eligible, scores, suppressed, now);
    if p < |arrivals| { DeferredIff(arrivals[p], now); }
    hide MustSettle, IsLink, Age;
    var list := EligibleScores(eligible, scores);
    if FirstBest(eligible, scores, p) {
      var j := EligibleScoresComplete(eligible, scores, p);
      var k := CodeMatcher.HeadIsFirstMax(list);
      assert scores[list[k].pos] <= scores[p] && list[j].score <= list[k].score;
      if k < j { EligibleScoresOrdered(eligible, scores, k, j); }
      if j < k { EligibleScoresOrdered(eligible, scores, j, k); }
      assert k == j;
    }
  }

  /** Every admitted candidate becomes an arrival. */
  lemma {:induction false} NewArrivalsComplete(s: Session, current: set<Mailbox>, cs: seq<Candidate>, now: int,
      c: Candidate)
    requires c in cs && Admit(s, current, c)
    ensures Arrival(c, now) in NewArrivals(s, current, cs, now)
  {
    var last := |cs| - 1;
    if c != cs[last] {
      assert c in cs[..last];
      NewArrivalsComplete(s, current, cs[..last], now, c);
    }
  }

  /** Every eligible entry is listed. */
  lemma {:induction false} EligibleScoresComplete(eligible: seq<bool>, scores: seq<real>, q: nat) returns (j: nat)
    requires |eligible| == |scores| && q < |eligible| && eligible[q]
    ensures j < |EligibleScores(eligible, scores)| && EligibleScores(eligible, scores)[j].pos == q
  {
    var last := |eligible| - 1;
    if q == last {
      j := |EligibleScores(eligible[..last], scores[..last])|;
    } else {
      j := EligibleScoresComplete(eligible[..last], scores[..last], q);
    }
  }

  /** ... in order. */
  lemma {:induction false} EligibleScoresOrdered(eligible: seq<bool>, scores: seq<real>, i: nat, j: nat)
    requires |eligible| == |scores| && i < j < |EligibleScores(eligible, scores)|
    ensures EligibleScores(eligible, scores)[i].pos < EligibleScores(eligible, scores)[j].pos
  {
    var last := |eligible| - 1;
    var front := EligibleScores(eligible[..last], scores[..last]);
    if j < |front| { EligibleScoresOrdered(eligible[..last], scores[..last], i, j); }
  }

  /** An admitted candidate has lawful provenance once its mailbox's baseline is in place. */
  lemma AdmitGivesProvenance(s: Session, current: set<Mailbox>, c: Candidate, stamp: int)
    requires Admit(s, current, c)
    requires c.mailbox in current ==>
      if IsSms(c.mailbox) then c.mailbox in s.sms && s.sms[c.mailbox].seed.FromBatch? else c.mailbox in s.email
    ensures Provenance(s, Arrival(c, stamp))
  {
  }
}
