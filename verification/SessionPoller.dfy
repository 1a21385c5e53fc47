/** Names of poll alarms and their parsing (extension/src/background/session-poller.ts:251-285). */
module AlarmNames {
  import opened Prelude

  const PREFIX := "session-poll-"

  const DIGITS := "0123456789"

  predicate IsDigit(c: char) {
    '0' <= c <= '9'
  }

  /** Line terminators, which the dot of a regular expression does not match. */
  predicate IsLineBreak(c: char) {
    c == '\n' || c == '\r' || c as int == 0x2028 || c as int == 0x2029
  }

  predicate OneLine(s: string) {
    forall i :: 0 <= i < |s| ==> !IsLineBreak(s[i])
  }

  predicate AllDigits(s: string) {
    |s| > 0 && forall i :: 0 <= i < |s| ==> IsDigit(s[i])
  }

  function Decimal(n: nat): (s: string)
    ensures AllDigits(s)
  {
    if n < 10 then [DIGITS[n]] else Decimal(n / 10) + [DIGITS[n % 10]]
  }

  function Value(s: string): nat
    requires AllDigits(s)
    decreases |s|
  {
    var d := s[|s| - 1] as int - '0' as int;
    if |s| == 1 then d else 10 * Value(s[..|s| - 1]) + d
  }

  function AlarmName(sid: string, index: nat): string {
    PREFIX + sid + "-" + Decimal(index)
  }

  /** The regular expression: prefix, a nonempty one-line id, a dash, digits to the end. */
  ghost predicate Matches(name: string, sid: string, digits: string) {
    sid != "" && OneLine(sid) && AllDigits(digits) && name == PREFIX + sid + "-" + digits
  }

  predicate SplitsAt(rest: string, k: nat) {
    0 < k < |rest| - 1 && rest[k] == '-' && AllDigits(rest[k + 1..])
  }

  /** The lazy group: the shortest id after which the rest matches, or the length when none does. */
  function Split(rest: string, k: nat): (r: nat)
    requires k <= |rest|
    ensures k <= r <= |rest|
    ensures r < |rest| ==> SplitsAt(rest, r)
    ensures forall i :: k <= i < r ==> !SplitsAt(rest, i)
    decreases |rest| - k
  {
    if k == |rest| || SplitsAt(rest, k) then k else Split(rest, k + 1)
  }

  function ParseAlarmName(name: string): Option<(string, nat)> {
    if !(PREFIX <= name) then None
    else
      var rest := name[|PREFIX|..];
      var k := Split(rest, 0);
      if k == |rest| || !OneLine(rest[..k]) then None
      else Some((rest[..k], Value(rest[k + 1..])))
  }

  /** The name of the poll before the tenth and of those behind: the digits of the index without leading zeros. */
  lemma NameSpelledOut(sid: string, index: nat)
    ensures index < 10 ==> AlarmName(sid, index) == "session-poll-" + sid + "-" + [('0' as int + index) as char]
    ensures index >= 10 ==>
      AlarmName(sid, index) == AlarmName(sid, index / 10) + [('0' as int + index % 10) as char]
  {
    assert forall d :: 0 <= d < 10 ==> DIGITS[d] == ('0' as int + d) as char;
    if index >= 10 {
      Joins(PREFIX + sid + "-", Decimal(index / 10), [DIGITS[index % 10]]);
    }
  }

  lemma Joins(a: string, b: string, c: string)
    ensures a + (b + c) == (a + b) + c
  {
  }

  lemma {:induction false} ValueOfDecimal(n: nat)
    ensures Value(Decimal(n)) == n
  {
    if n >= 10 {
      ValueOfDecimal(n / 10);
      var s := Decimal(n);
      assert s[..|s| - 1] == Decimal(n / 10);
      assert s[|s| - 1] == DIGITS[n % 10];
    }
  }

  /** The dash before the digits is the last one, so a name splits in one way only. */
  lemma OneSplit(rest: string, i: nat, j: nat)
    requires SplitsAt(rest, i) && SplitsAt(rest, j)
    ensures i == j
  {
    if i < j { NoDashBehind(rest, i, j); }
    if j < i { NoDashBehind(rest, j, i); }
  }

  lemma NoDashBehind(rest: string, i: nat, k: nat)
    requires i < k < |rest| && AllDigits(rest[i + 1..])
    ensures rest[k] != '-'
  {
    assert rest[k] == rest[i + 1..][k - i - 1];
  }

  lemma ParseOfMatch(name: string, sid: string, digits: string)
    requires Matches(name, sid, digits)
    ensures ParseAlarmName(name) == Some((sid, Value(digits)))
  {
    var rest := name[|PREFIX|..];
    assert rest == sid + "-" + digits;
    assert rest[|sid| + 1..] == digits;
    assert SplitsAt(rest, |sid|);
    OneSplit(rest, |sid|, Split(rest, 0));
    assert rest[..|sid|] == sid;
  }

  /** Parsing undoes printing, also for ids that end in a dash and digits. */
  lemma ParseOfPrint(sid: string, index: nat)
    requires sid != "" && OneLine(sid)
    ensures ParseAlarmName(AlarmName(sid, index)) == Some((sid, index))
  {
    ParseOfMatch(AlarmName(sid, index), sid, Decimal(index));
    ValueOfDecimal(index);
  }

  /** What parses is exactly what the regular expression matches. */
  lemma ParsesIffMatches(name: string, sid: string, index: nat)
    ensures ParseAlarmName(name) == Some((sid, index)) <==>
      exists digits :: Matches(name, sid, digits) && Value(digits) == index
  {
    if ParseAlarmName(name) == Some((sid, index)) {
      var rest := name[|PREFIX|..];
      var k := Split(rest, 0);
      assert rest == rest[..k] + "-" + rest[k + 1..];
      assert Matches(name, sid, rest[k + 1..]);
    }
    forall digits | Matches(name, sid, digits) && Value(digits) == index
      ensures ParseAlarmName(name) == Some((sid, index))
    {
      ParseOfMatch(name, sid, digits);
    }
  }

  /** Printing is injective for all ids, one-line or not. */
  lemma PrintInjective(s: string, i: nat, t: string, j: nat)
    requires AlarmName(s, i) == AlarmName(t, j)
    ensures s == t && i == j
  {
    var name := AlarmName(s, i);
    var a, b := "-" + Decimal(i), "-" + Decimal(j);
    assert name == (PREFIX + s) + a && name == (PREFIX + t) + b;
    LastDash(PREFIX + s, Decimal(i), PREFIX + t, Decimal(j));
    assert s == (PREFIX + s)[|PREFIX|..] && t == (PREFIX + t)[|PREFIX|..];
    ValueOfDecimal(i);
    ValueOfDecimal(j);
  }

  lemma LastDash(x: string, a: string, y: string, b: string)
    requires AllDigits(a) && AllDigits(b) && x + "-" + a == y + "-" + b
    ensures x == y && a == b
  {
    var name := x + "-" + a;
    var i: nat, j: nat := |x|, |y|;
    assert name[|x|] == '-' && name[|x| + 1..] == a;
    assert (y + "-" + b)[|y|] == '-' && (y + "-" + b)[|y| + 1..] == b;
    if i < j { NoDashBehind(name, i, j); }
    if j < i { NoDashBehind(name, j, i); }
    assert x == name[..|x|] && y == (y + "-" + b)[..|y|];
  }
}

/** The dual-timer scheduler (extension/src/background/session-poller.ts). */
module SessionPollerClass {
  import opened Prelude
  import opened AlarmNames

  /** The names of the first n polls of a session. */
  function Names(sid: string, n: nat): set<string> {
    set i | 0 <= i < n :: AlarmName(sid, i)
  }

  lemma NamesGrow(sid: string, n: nat)
    ensures Names(sid, n + 1) == Names(sid, n) + {AlarmName(sid, n)} && Names(sid, 0) == {}
  {
  }

  lemma OthersNotNamed(sid: string, n: nat)
    ensures forall other: string, i: nat :: other != sid ==> AlarmName(other, i) !in Names(sid, n)
  {
    forall other: string, i: nat | other != sid ensures AlarmName(other, i) !in Names(sid, n) {
      NamesOfOthers(sid, n, other, i);
    }
  }

  lemma NamesOfOthers(sid: string, n: nat, other: string, index: nat)
    ensures AlarmName(other, index) in Names(sid, n) <==> other == sid && index < n
  {
    if AlarmName(other, index) in Names(sid, n) {
      var i :| 0 <= i < n && AlarmName(other, index) == AlarmName(sid, i);
      PrintInjective(other, index, sid, i);
    }
  }

  lemma EarlierNamesDiffer(sid: string, n: nat)
    ensures forall k :: 0 <= k < n ==> AlarmName(sid, k) != AlarmName(sid, n)
  {
    forall k | 0 <= k < n ensures AlarmName(sid, k) != AlarmName(sid, n) {
      if AlarmName(sid, k) == AlarmName(sid, n) { PrintInjective(sid, k, sid, n); }
    }
  }

  class SessionPoller {
    var activeSchedules: map<string, seq<int>>
    var timeoutIds: map<string, int>
    var executedPolls: set<string>
    var alarms: map<string, int>       // chrome.alarms: name and due time
    var nextTimeout: int

    constructor ()
      ensures activeSchedules == map[] && timeoutIds == map[] && executedPolls == {} && alarms == map[]
    {
      activeSchedules, timeoutIds, executedPolls, alarms, nextTimeout := map[], map[], {}, map[], 1;
    }

    /** Every poll gets a timeout and an alarm at its due time; nothing else changes. */
    method SchedulePolls(sid: string, startedAt: int, pollTimes: seq<int>)
      modifies this
      ensures activeSchedules == old(activeSchedules)[sid := pollTimes]
      ensures executedPolls == old(executedPolls)
      ensures timeoutIds.Keys == old(timeoutIds).Keys + Names(sid, |pollTimes|)
      ensures alarms.Keys == old(alarms).Keys + Names(sid, |pollTimes|)
      ensures forall i :: 0 <= i < |pollTimes| ==>
        AlarmName(sid, i) in alarms && alarms[AlarmName(sid, i)] == startedAt + pollTimes[i]
      ensures forall name :: name in old(alarms) && name !in Names(sid, |pollTimes|) ==>
        name in alarms && alarms[name] == old(alarms)[name]
      ensures forall name :: name in old(timeoutIds) && name !in Names(sid, |pollTimes|) ==>
        name in timeoutIds && timeoutIds[name] == old(timeoutIds)[name]
    {
      hide Names, AlarmName;
      activeSchedules := activeSchedules[sid := pollTimes];
      NamesGrow(sid, 0);
      for i := 0 to |pollTimes|
        invariant activeSchedules == old(activeSchedules)[sid := pollTimes]
        invariant executedPolls == old(executedPolls)
        invariant timeoutIds.Keys == old(timeoutIds).Keys + Names(sid, i)
        invariant alarms.Keys == old(alarms).Keys + Names(sid, i)
        invariant forall k :: 0 <= k < i ==>
          AlarmName(sid, k) in alarms && alarms[AlarmName(sid, k)] == startedAt + pollTimes[k]
        invariant forall name :: name in old(alarms) && name !in Names(sid, i) ==>
          name in alarms && alarms[name] == old(alarms)[name]
        invariant forall name :: name in old(timeoutIds) && name !in Names(sid, i) ==>
          name in timeoutIds && timeoutIds[name] == old(timeoutIds)[name]
      {
        var name := AlarmName(sid, i);
        NamesGrow(sid, i);
        EarlierNamesDiffer(sid, i);
        timeoutIds, nextTimeout := timeoutIds[name := nextTimeout], nextTimeout + 1;
        alarms := alarms[name := startedAt + pollTimes[i]];
      }
    }

    /** The session's timers, alarms and execution marks go; no other session's poll is touched. */
    method CancelPolls(sid: string)
      modifies this
      ensures sid !in old(activeSchedules) ==>
        && activeSchedules == old(activeSchedules) && timeoutIds == old(timeoutIds)
        && alarms == old(alarms) && executedPolls == old(executedPolls)
      ensures sid in old(activeSchedules) ==>
        var gone := Names(sid, |old(activeSchedules)[sid]|);
        && activeSchedules == old(activeSchedules) - {sid}
        && timeoutIds == old(timeoutIds) - gone && alarms == old(alarms) - gone
        && executedPolls == old(executedPolls) - gone
      ensures forall other: string, i: nat :: other != sid ==>
        && (AlarmName(other, i) in timeoutIds <==> AlarmName(other, i) in old(timeoutIds))
        && (AlarmName(other, i) in alarms <==> AlarmName(other, i) in old(alarms))
        && (AlarmName(other, i) in executedPolls <==> AlarmName(other, i) in old(executedPolls))
    {
      hide Names, AlarmName;
      if sid !in activeSchedules { return; }
      var polls := |activeSchedules[sid]|;
      NamesGrow(sid, 0);
      for i := 0 to polls
        invariant activeSchedules == old(activeSchedules)
        invariant timeoutIds == old(timeoutIds) - Names(sid, i)
        invariant alarms == old(alarms) - Names(sid, i)
        invariant executedPolls == old(executedPolls) - Names(sid, i)
      {
        var name := AlarmName(sid, i);
        NamesGrow(sid, i);
        if name in timeoutIds { timeoutIds := timeoutIds - {name}; }
        alarms := alarms - {name};
        executedPolls := executedPolls - {name};
      }
      activeSchedules := activeSchedules - {sid};
      OthersNotNamed(sid, polls);
    }

    /** The poll runs unless this process has already run it; either way its timers are cleared when it runs. */
    method ExecutePoll(name: string) returns (run: bool)
      modifies this
      ensures run <==> name !in old(executedPolls)
      ensures !run ==> executedPolls == old(executedPolls) && timeoutIds == old(timeoutIds) && alarms == old(alarms)
      ensures run ==>
        && executedPolls == old(executedPolls) + {name}
        && timeoutIds == old(timeoutIds) - {name} && alarms == old(alarms) - {name}
      ensures activeSchedules == old(activeSchedules)
    {
      if name in executedPolls { return false; }
      executedPolls := executedPolls + {name};
      if name in timeoutIds { timeoutIds := timeoutIds - {name}; }
      alarms := alarms - {name};
      return true;
    }

    /** An alarm runs the poll it was created for, and is ignored when it names none. */
    method OnAlarm(name: string) returns (poll: Option<(string, nat)>)
      modifies this
      ensures poll.Some? ==> ParseAlarmName(name) == poll && name !in old(executedPolls) && name in executedPolls
      ensures poll.None? ==>
        executedPolls == old(executedPolls) && timeoutIds == old(timeoutIds) && alarms == old(alarms)
      ensures poll.None? ==> ParseAlarmName(name).None? || name in old(executedPolls)
      ensures forall sid: string, i: nat :: sid != "" && OneLine(sid) && name == AlarmName(sid, i) ==>
        poll == if name in old(executedPolls) then None else Some((sid, i))
    {
      forall sid: string, i: nat | sid != "" && OneLine(sid) && name == AlarmName(sid, i)
        ensures ParseAlarmName(name) == Some((sid, i))
      {
        ParseOfPrint(sid, i);
      }
      poll := ParseAlarmName(name);
      if poll.None? { return; }
      var run := ExecutePoll(name);
      if !run { poll := None; }
    }
  }
}

/**
 * The scheduler keeps names where the protocol keeps pairs of a session and an index; its operations are the
 * protocol's.
 */
module PollerRefinement {
  import opened AlarmNames
  import opened SessionPollerClass
  import opened WatchTypes
  import opened WatchProtocol

  /**
   * The scheduler's marks and schedules are the protocol's, and every timeout or alarm it has set is one the protocol
   * expects. timers holds the names of both kinds.
   */
  ghost predicate Tracks(marks: set<string>, schedules: map<string, seq<int>>, timers: set<string>, w: World) {
    && (forall sid: SessionId, i: nat :: AlarmName(sid.uuid, i) in marks <==> (sid, i) in w.executed)
    && (forall sid: SessionId :: sid.uuid in schedules <==> sid in w.schedules)
    && (forall sid: SessionId :: sid in w.schedules ==> |schedules[sid.uuid]| == w.schedules[sid])
    && (forall sid: SessionId, i: nat :: AlarmName(sid.uuid, i) in timers ==> (sid, i) in w.timers)
  }

  lemma SameName(a: SessionId, i: nat, b: SessionId, j: nat)
    ensures AlarmName(a.uuid, i) == AlarmName(b.uuid, j) <==> (a, i) == (b, j)
  {
    if AlarmName(a.uuid, i) == AlarmName(b.uuid, j) { PrintInjective(a.uuid, i, b.uuid, j); }
  }

  lemma MarkedDoesNotFire(w: World, t: nat, sid: SessionId, index: nat)
    requires (sid, index) in w.executed
    ensures Fire(w, t, sid, index) == w
  {
  }

  lemma FireMarks(w: World, t: nat, sid: SessionId, index: nat)
    requires (sid, index) !in w.executed
    ensures var v := Fire(w, t, sid, index);
      v.executed == w.executed + {(sid, index)} && v.timers == w.timers && v.schedules == w.schedules
  {
    var w1 := w.(executed := w.executed + {(sid, index)});
    assert Fire(w, t, sid, index) == w1 ||
      Fire(w, t, sid, index) == Log(SetTask(w1, t, Polling(sid, index)), Passed(w.epoch, sid, index));
  }

  /** executePoll does nothing where Fire does nothing, and marks and clears one name where Fire marks one pair. */
  lemma ExecutePollIsFire(
      marks: set<string>, schedules: map<string, seq<int>>, timers: set<string>,
      w: World, t: nat, sid: SessionId, index: nat)
    requires Tracks(marks, schedules, timers, w)
    ensures var name := AlarmName(sid.uuid, index);
      if name in marks then Fire(w, t, sid, index) == w
      else Tracks(marks + {name}, schedules, timers - {name}, Fire(w, t, sid, index))
  {
    hide AlarmName, Fire;
    var name := AlarmName(sid.uuid, index);
    var v := Fire(w, t, sid, index);
    if name in marks {
      MarkedDoesNotFire(w, t, sid, index);
    } else {
      FireMarks(w, t, sid, index);
      forall s: SessionId, i: nat
        ensures AlarmName(s.uuid, i) in marks + {name} <==> (s, i) in v.executed
        ensures AlarmName(s.uuid, i) in timers - {name} ==> (s, i) in v.timers
      {
        SameName(s, i, sid, index);
      }
    }
  }

  /** cancelPolls drops the names of the pairs CancelPolls drops. */
  lemma CancelPollsIsCancelPolls(
      marks: set<string>, schedules: map<string, seq<int>>, timers: set<string>, w: World, sid: SessionId)
    requires Tracks(marks, schedules, timers, w)
    ensures
      if sid.uuid !in schedules then CancelPolls(w, sid) == w
      else
        var gone := Names(sid.uuid, |schedules[sid.uuid]|);
        Tracks(marks - gone, schedules - {sid.uuid}, timers - gone, CancelPolls(w, sid))
  {
    hide AlarmName, Names;
    if sid.uuid in schedules {
      var n := |schedules[sid.uuid]|;
      var v := CancelPolls(w, sid);
      forall s: SessionId, i: nat
        ensures AlarmName(s.uuid, i) in marks - Names(sid.uuid, n) <==> (s, i) in v.executed
        ensures AlarmName(s.uuid, i) in timers - Names(sid.uuid, n) ==> (s, i) in v.timers
      {
        NamesOfOthers(sid.uuid, n, s.uuid, i);
      }
    }
  }

  /** schedulePolls sets timers for the pairs SchedulePolls adds. */
  lemma SchedulePollsIsSchedulePolls(
      marks: set<string>, schedules: map<string, seq<int>>, timers: set<string>,
      w: World, sid: SessionId, times: seq<int>)
    requires Tracks(marks, schedules, timers, w)
    ensures Tracks(marks, schedules[sid.uuid := times], timers + Names(sid.uuid, |times|),
                   SchedulePolls(w, sid, |times|))
  {
    hide AlarmName, Names;
    var v := SchedulePolls(w, sid, |times|);
    forall s: SessionId, i: nat
      ensures AlarmName(s.uuid, i) in timers + Names(sid.uuid, |times|) ==> (s, i) in v.timers
    {
      NamesOfOthers(sid.uuid, |times|, s.uuid, i);
    }
  }
}
