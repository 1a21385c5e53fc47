/**
 * The limiter of automatic polls (extension/src/background/auto-poll-rate-limiter.ts). A call either leads (reads the
 * stored time, checks it, writes a new one) or follows the leader in flight. Every await is a place where other calls
 * come in, storage may fail and the service worker may be restarted.
 */
module RateLimiter {
  import opened Prelude

  const AUTO_POLL_COOLDOWN_MS := 30_000

  datatype Leader =
    | Reading(who: nat)
    | Writing(who: nat, stamp: nat, applied: bool)    // applied: storage holds the stamp already

  /** How a call ended: allowed, refused by the cooldown, told no as a follower, or storage threw. */
  datatype Outcome =
    | Granted(who: nat, stamp: nat)
    | Refused(who: nat, at: nat)
    | Followed(who: nat)
    | Failed(who: nat)

  datatype World = World(
    clock: nat,
    stored: nat,                 // 0 when nothing is stored: the code reads both as "never"
    leader: Option<Leader>,      // what acquirePromise stands for
    waiting: map<nat, nat>,      // follower to the leader it awaits
    calls: nat,
    joined: set<nat>,            // history: calls that found a leader in flight
    issued: set<nat>,            // history: times handed to storage to record
    outcomes: seq<Outcome>)

  function Start(clock: nat): World {
    World(clock, 0, None, map[], 0, {}, {}, [])
  }

  datatype Step =
    | Tick(ms: nat)
    | Call
    | ReadDone(later: nat)       // later: what passes between the two readings of the clock
    | StorageFailed
    | WriteApplied
    | WriteDone
    | Wake(who: nat)
    | Restart

  predicate Enabled(w: World, s: Step) {
    match s
    case Tick(_) => true
    case Call => true
    case ReadDone(_) => w.leader.Some? && w.leader.value.Reading?
    case StorageFailed => w.leader.Some?
    case WriteApplied => w.leader.Some? && w.leader.value.Writing? && !w.leader.value.applied
    case WriteDone => w.leader.Some? && w.leader.value.Writing? && w.leader.value.applied
    case Wake(who) => who in w.waiting && !(w.leader.Some? && w.leader.value.who == w.waiting[who])
    case Restart => true
  }

  function Enter(w: World): World {
    var who := w.calls;
    if w.leader.Some? then
      w.(calls := who + 1, waiting := w.waiting[who := w.leader.value.who], joined := w.joined + {who})
    else
      w.(calls := who + 1, leader := Some(Reading(who)))
  }

  predicate CoolingDown(stored: nat, clock: nat) {
    stored != 0 && clock - stored < AUTO_POLL_COOLDOWN_MS
  }

  function Check(w: World, later: nat): World
    requires w.leader.Some?
  {
    var who := w.leader.value.who;
    if CoolingDown(w.stored, w.clock) then w.(leader := None, outcomes := w.outcomes + [Refused(who, w.clock)])
    else
      var stamp := w.clock + later;
      w.(clock := stamp, leader := Some(Writing(who, stamp, false)), issued := w.issued + {stamp})
  }

  function Apply(w: World, s: Step): World
    requires Enabled(w, s)
  {
    match s
    case Tick(ms) => w.(clock := w.clock + ms)
    case Call => Enter(w)
    case ReadDone(later) => Check(w, later)
    case StorageFailed => w.(leader := None, outcomes := w.outcomes + [Failed(w.leader.value.who)])
    case WriteApplied => w.(stored := w.leader.value.stamp, leader := Some(w.leader.value.(applied := true)))
    case WriteDone =>
      w.(leader := None, outcomes := w.outcomes + [Granted(w.leader.value.who, w.leader.value.stamp)])
    case Wake(who) => w.(waiting := w.waiting - {who}, outcomes := w.outcomes + [Followed(who)])
    case Restart => w.(leader := None, waiting := map[])
  }

  ghost predicate Run(w: World, steps: seq<Step>)
    decreases |steps|
  {
    steps == [] || (Enabled(w, steps[0]) && Run(Apply(w, steps[0]), steps[1..]))
  }

  function After(w: World, steps: seq<Step>): World
    requires Run(w, steps)
    decreases |steps|
  {
    if steps == [] then w else After(Apply(w, steps[0]), steps[1..])
  }

  // ------------------------------------------------------------------ what is claimed

  /** Any two grants recorded times at least the cooldown of 30 seconds apart. */
  ghost predicate Spaced(outcomes: seq<Outcome>) {
    forall i, j :: 0 <= i < j < |outcomes| && outcomes[i].Granted? && outcomes[j].Granted? ==>
      outcomes[j].stamp - outcomes[i].stamp >= 30_000
  }

  /** A call that found a leader in flight is told no, and only such a call is told no without a look at the clock. */
  ghost predicate FollowersRefused(outcomes: seq<Outcome>, joined: set<nat>) {
    forall i :: 0 <= i < |outcomes| ==> (outcomes[i].who in joined <==> outcomes[i].Followed?)
  }

  ghost predicate OneAnswerEach(outcomes: seq<Outcome>) {
    forall i, j :: 0 <= i < j < |outcomes| ==> outcomes[i].who != outcomes[j].who
  }

  /** A leader is refused only within the cooldown of a poll somebody started to record. */
  ghost predicate RefusalsJustified(outcomes: seq<Outcome>, issued: set<nat>) {
    forall i :: 0 <= i < |outcomes| && outcomes[i].Refused? ==> Recent(outcomes[i].at, issued)
  }

  ghost predicate Recent(at: nat, issued: set<nat>) {
    exists stamp :: stamp in issued && at - 30_000 < stamp <= at
  }

  ghost predicate Claims(w: World) {
    && Spaced(w.outcomes) && FollowersRefused(w.outcomes, w.joined) && OneAnswerEach(w.outcomes)
    && RefusalsJustified(w.outcomes, w.issued)
  }

  // ------------------------------------------------------------------ the invariant

  ghost predicate StampsBelow(outcomes: seq<Outcome>, bound: int) {
    forall i :: 0 <= i < |outcomes| && outcomes[i].Granted? ==> 0 < outcomes[i].stamp <= bound
  }

  ghost predicate Unanswered(outcomes: seq<Outcome>, who: nat) {
    forall i :: 0 <= i < |outcomes| ==> outcomes[i].who != who
  }

  ghost predicate LeaderOk(w: World, leader: Leader) {
    && leader.who !in w.joined && leader.who < w.calls && Unanswered(w.outcomes, leader.who)
    && (leader.Writing? ==>
          && 0 < leader.stamp <= w.clock && leader.stamp in w.issued
          && StampsBelow(w.outcomes, leader.stamp - AUTO_POLL_COOLDOWN_MS)
          && (leader.applied ==> w.stored == leader.stamp))
  }

  ghost predicate CallsOk(w: World) {
    && (forall who :: who in w.waiting ==> who in w.joined && Unanswered(w.outcomes, who))
    && (forall i :: 0 <= i < |w.outcomes| ==> w.outcomes[i].who < w.calls)
    && (forall who :: who in w.joined ==> who < w.calls)
    && (w.leader.Some? ==> w.leader.value.who !in w.waiting)
  }

  ghost predicate Inv(w: World) {
    && w.clock > 0 && w.stored <= w.clock && (w.stored != 0 ==> w.stored in w.issued)
    && StampsBelow(w.outcomes, w.stored)
    && (w.leader.Some? ==> LeaderOk(w, w.leader.value))
    && CallsOk(w) && Claims(w)
  }

  /** An answer to a call that had none keeps the claims when it is justified. */
  lemma AnswerKeepsClaims(w: World, o: Outcome)
    requires Claims(w) && Unanswered(w.outcomes, o.who) && (o.who in w.joined <==> o.Followed?)
    requires o.Granted? ==> StampsBelow(w.outcomes, o.stamp - AUTO_POLL_COOLDOWN_MS)
    requires o.Refused? ==> Recent(o.at, w.issued)
    ensures Claims(w.(outcomes := w.outcomes + [o]))
  {
  }

  lemma CheckKeepsInv(w: World, later: nat)
    requires Inv(w) && Enabled(w, ReadDone(later))
    ensures Inv(Check(w, later))
  {
    hide Claims;
    if CoolingDown(w.stored, w.clock) {
      var o := Refused(w.leader.value.who, w.clock);
      AnswerKeepsClaims(w, o);
      ClaimsIgnore(w.(outcomes := w.outcomes + [o]), Check(w, later));
    } else {
      ClaimsIgnore(w, Check(w, later));
    }
  }

  lemma LeaderAnswerKeepsInv(w: World, o: Outcome)
    requires Inv(w) && w.leader.Some? && o.who == w.leader.value.who
    requires o.Failed? || (o.Granted? && w.leader.value.Writing? && w.leader.value.applied && o.stamp == w.stored)
    ensures Inv(w.(leader := None, outcomes := w.outcomes + [o]))
  {
    hide Claims;
    AnswerKeepsClaims(w, o);
    ClaimsIgnore(w.(outcomes := w.outcomes + [o]), w.(leader := None, outcomes := w.outcomes + [o]));
  }

  lemma WakeKeepsInv(w: World, who: nat)
    requires Inv(w) && who in w.waiting
    ensures Inv(w.(waiting := w.waiting - {who}, outcomes := w.outcomes + [Followed(who)]))
  {
    hide Claims;
    var o := Followed(who);
    AnswerKeepsClaims(w, o);
    ClaimsIgnore(w.(outcomes := w.outcomes + [o]), w.(waiting := w.waiting - {who}, outcomes := w.outcomes + [o]));
  }

  lemma ClaimsIgnore(w: World, v: World)
    requires Claims(w) && v.outcomes == w.outcomes && v.joined == w.joined && v.issued >= w.issued
    ensures Claims(v)
  {
  }

  lemma CallKeepsInv(w: World)
    requires Inv(w)
    ensures Inv(Enter(w))
  {
  }

  lemma StepKeepsInv(w: World, s: Step)
    requires Inv(w) && Enabled(w, s)
    ensures Inv(Apply(w, s))
  {
    match s
    case Call => CallKeepsInv(w);
    case ReadDone(later) => CheckKeepsInv(w, later);
    case StorageFailed => LeaderAnswerKeepsInv(w, Failed(w.leader.value.who));
    case WriteDone => LeaderAnswerKeepsInv(w, Granted(w.leader.value.who, w.leader.value.stamp));
    case Wake(who) => WakeKeepsInv(w, who);
    case Tick(_) =>
    case WriteApplied =>
    case Restart =>
  }

  lemma {:induction false} RunKeepsInv(w: World, steps: seq<Step>)
    requires Inv(w) && Run(w, steps)
    ensures Inv(After(w, steps))
    decreases |steps|
  {
    if steps != [] {
      StepKeepsInv(w, steps[0]);
      RunKeepsInv(Apply(w, steps[0]), steps[1..]);
    }
  }

  // ------------------------------------------------------------------ theorems

  /** Whatever calls, failures and restarts come in whatever order: grants are spaced, followers get no. */
  lemma GrantsAreSpaced(start: nat, steps: seq<Step>)
    requires start > 0 && Run(Start(start), steps)
    ensures var w := After(Start(start), steps);
      && Spaced(w.outcomes) && FollowersRefused(w.outcomes, w.joined)
      && OneAnswerEach(w.outcomes) && RefusalsJustified(w.outcomes, w.issued)
  {
    RunKeepsInv(Start(start), steps);
  }

  /** The positive clock is needed: a time of 0 is stored, then read back as "never". */
  lemma SpacedIffClockPositive(start: nat)
    ensures start > 0 <==> forall steps :: Run(Start(start), steps) ==> Spaced(After(Start(start), steps).outcomes)
  {
    if start > 0 {
      forall steps | Run(Start(start), steps) ensures Spaced(After(Start(start), steps).outcomes) {
        GrantsAreSpaced(start, steps);
      }
    } else {
      TwoGrantsAtZero(ONE_POLL + ONE_POLL);
    }
  }

  const ONE_POLL := [Call, ReadDone(0), WriteApplied, WriteDone]

  lemma TwoGrantsAtZero(steps: seq<Step>)
    requires steps == ONE_POLL + ONE_POLL
    ensures Run(Start(0), steps) && !Spaced(After(Start(0), steps).outcomes)
  {
    var w1 := OnePoll(Start(0), ONE_POLL);
    var w2 := OnePoll(w1, []);
    assert ONE_POLL + [] == ONE_POLL;
    assert w2.outcomes[1].stamp - w2.outcomes[0].stamp == 0;
  }

  /** Liveness of one call: with no leader, working storage and the cooldown over, it is allowed. */
  lemma OnePoll(w: World, rest: seq<Step>) returns (after: World)
    requires w.leader.None? && (w.stored == 0 || w.clock - w.stored >= 30_000)
    ensures after == w.(stored := w.clock, calls := w.calls + 1, issued := w.issued + {w.clock},
                        outcomes := w.outcomes + [Granted(w.calls, w.clock)])
    ensures Run(w, ONE_POLL + rest) <==> Run(after, rest)
    ensures Run(after, rest) ==> After(w, ONE_POLL + rest) == After(after, rest)
  {
    var a := Apply(w, Call);
    var b := Apply(a, ReadDone(0));
    var c := Apply(b, WriteApplied);
    after := Apply(c, WriteDone);
    var steps := ONE_POLL + rest;
    assert steps[1..][1..][1..][1..] == rest;
    assert steps[0] == Call && steps[1..][0] == ReadDone(0);
    assert steps[1..][1..][0] == WriteApplied && steps[1..][1..][1..][0] == WriteDone;
    Unfold(w, steps);
    Unfold(a, steps[1..]);
    Unfold(b, steps[1..][1..]);
    Unfold(c, steps[1..][1..][1..]);
  }

  lemma Unfold(w: World, steps: seq<Step>)
    requires steps != [] && Enabled(w, steps[0])
    ensures Run(w, steps) <==> Run(Apply(w, steps[0]), steps[1..])
    ensures Run(w, steps) ==> After(w, steps) == After(Apply(w, steps[0]), steps[1..])
  {
  }

  // ------------------------------------------------------------------ the object

  /** acquirePromise with the storage area behind it; the methods are the stretches between two awaits. */
  class AutoPollRateLimiter {
    var acquirePromise: Option<Leader>
    var awaiting: map<nat, nat>
    var lastAutoPollTime: nat
    var clock: nat
    var calls: nat
    ghost var joined: set<nat>
    ghost var issued: set<nat>
    ghost var outcomes: seq<Outcome>

    ghost function State(): World
      reads this
    {
      World(clock, lastAutoPollTime, acquirePromise, awaiting, calls, joined, issued, outcomes)
    }

    constructor (now: nat)
      requires now > 0
      ensures State() == Start(now) && Inv(State())
    {
      acquirePromise, awaiting, lastAutoPollTime, clock, calls := None, map[], 0, now, 0;
      joined, issued, outcomes := {}, {}, [];
    }

    /** tryAcquirePoll up to its first await. */
    method TryAcquirePoll() returns (who: nat)
      requires Inv(State())
      modifies this
      ensures State() == Apply(old(State()), Call) && Inv(State()) && who == old(calls)
    {
      StepKeepsInv(State(), Call);
      who := calls;
      calls := calls + 1;
      if acquirePromise.Some? {
        awaiting := awaiting[who := acquirePromise.value.who];
        joined := joined + {who};
      } else {
        acquirePromise := Some(Reading(who));
      }
    }

    /** The leader has read the stored time: refuse, or start to record the present one. */
    method LastPollTimeRead(later: nat) returns (refused: bool)
      requires Inv(State()) && Enabled(State(), ReadDone(later))
      modifies this
      ensures State() == Apply(old(State()), ReadDone(later)) && Inv(State())
      ensures refused <==> old(lastAutoPollTime) != 0 && old(clock) - old(lastAutoPollTime) < 30_000
    {
      StepKeepsInv(State(), ReadDone(later));
      var who := acquirePromise.value.who;
      if lastAutoPollTime != 0 && clock - lastAutoPollTime < AUTO_POLL_COOLDOWN_MS {
        acquirePromise := None;
        outcomes := outcomes + [Refused(who, clock)];
        return true;
      }
      clock := clock + later;
      acquirePromise := Some(Writing(who, clock, false));
      issued := issued + {clock};
      return false;
    }

    /** The leader's write is done: allowed. */
    method Recorded()
      requires Inv(State()) && Enabled(State(), WriteDone)
      modifies this
      ensures State() == Apply(old(State()), WriteDone) && Inv(State())
    {
      StepKeepsInv(State(), WriteDone);
      outcomes := outcomes + [Granted(acquirePromise.value.who, acquirePromise.value.stamp)];
      acquirePromise := None;
    }

    /** Reading or writing threw: finally clears the promise, the leader's caller sees the error. */
    method StorageThrew()
      requires Inv(State()) && Enabled(State(), StorageFailed)
      modifies this
      ensures State() == Apply(old(State()), StorageFailed) && Inv(State())
    {
      StepKeepsInv(State(), StorageFailed);
      outcomes := outcomes + [Failed(acquirePromise.value.who)];
      acquirePromise := None;
    }

    /** A follower whose leader has finished, one way or the other. */
    method LeaderFinished(who: nat) returns (allowed: bool)
      requires Inv(State()) && Enabled(State(), Wake(who))
      modifies this
      ensures State() == Apply(old(State()), Wake(who)) && Inv(State()) && !allowed
    {
      StepKeepsInv(State(), Wake(who));
      awaiting := awaiting - {who};
      outcomes := outcomes + [Followed(who)];
      allowed := false;
    }
  }
}
