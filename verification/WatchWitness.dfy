/** Runs from an empty browser that reach the worlds the theorems about exceptions speak of. */
module WatchWitness {
  import opened Prelude
  import opened WatchTypes
  import opened WatchProtocol
  import opened WatchInvariant
  import opened WatchTheorems
  import opened WatchStall

  function InfoOf(request: Request): Info {
    Info(request.tab, 0, request.timeout, |PollTimes(request.timeout)|, request.sms, request.email)
  }

  /** A tab has started a session, storage has it, its timers are set. */
  ghost predicate JustStarted(w: World, id: SessionId, info: Info) {
    && w.now == 0 && w.epoch == 0 && w.history == [] && w.tasks == map[] && w.capturing == {} && w.executed == {}
    && w.objs == map[id := NewSession(info)] && w.live == {id} && w.requests == map[id := info]
    && w.applied < |w.writes| && Disk(w) == w.objs
    && forall i: nat :: i < info.polls ==> (id, i) in w.timers
  }

  lemma StoresIt(w: World, id: SessionId)
    requires w.live == {id} && w.objs.Keys == {id}
    ensures (map sid | sid in w.live && sid in w.objs :: w.objs[sid]) == w.objs
  {
  }

  lemma Inserts(id: SessionId, request: Request) returns (w: World)
    ensures Reachable(w) && w.now == 0 && w.epoch == 0 && w.history == [] && w.capturing == {} && w.executed == {}
    ensures w.tasks == map[0 := StartSaved(id, 1)] && w.live == {id} && w.requests == map[id := InfoOf(request)]
    ensures w.objs == map[id := NewSession(InfoOf(request))] && w.writes == [map[], w.objs] && w.applied == 0
  {
    hide PollTimes;
    var none: seq<Step> := [];
    assert Run(EMPTY, none) && After(EMPTY, none) == EMPTY;
    hide Reachable;
    var w1 := Apply(EMPTY, CallStart(0, request));
    ReachStep(EMPTY, CallStart(0, request));
    w := Apply(w1, ScanSlots(0, id));
    ReachStep(w1, ScanSlots(0, id));
    assert w.objs == map[id := NewSession(InfoOf(request))] && w.live == {id};
    StoresIt(w, id);
  }

  lemma StartsSession(id: SessionId, request: Request) returns (w: World)
    ensures Reachable(w) && JustStarted(w, id, InfoOf(request))
  {
    hide PollTimes, Reachable;
    var w2 := Inserts(id, request);
    var w3 := Apply(w2, ApplyWrite);
    ReachStep(w2, ApplyWrite);
    w := Apply(w3, StartDone(0));
    ReachStep(w3, StartDone(0));
  }

  /** A poll of the session can pass the guards now. */
  ghost predicate Pollable(w: World, t: nat, sid: SessionId, index: nat) {
    && t !in w.tasks && (sid, index) in w.timers && (sid, index) !in w.executed
    && sid in w.live && sid in w.objs && w.objs[sid].status.Active? && index !in w.objs[sid].completed
  }

  /** A poll that finds the sentinel down takes it and waits for its adapters. */
  lemma PollBlocks(w: World, t: nat, sid: SessionId, index: nat) returns (v: World)
    requires Reachable(w) && Pollable(w, t, sid, index) && sid !in w.capturing
    ensures Reachable(v)
    ensures v == w.(executed := w.executed + {(sid, index)}, history := w.history + [Passed(w.epoch, sid, index)],
                    capturing := w.capturing + {sid},
                    tasks := w.tasks[t := Capturing(sid, index, Fetching, map[], map[])])
  {
    var u := Apply(w, TimerFires(t, sid, index));
    ReachStep(w, TimerFires(t, sid, index));
    v := Apply(u, PollEnters(t));
    ReachStep(u, PollEnters(t));
  }

  lemma PollFindsBusy(w: World, t: nat, sid: SessionId, index: nat) returns (v: World)
    requires Reachable(w) && Pollable(w, t, sid, index) && sid in w.capturing
    ensures Reachable(v)
    ensures v == w.(executed := w.executed + {(sid, index)}, history := w.history + [Passed(w.epoch, sid, index)],
                    tasks := w.tasks[t := Returning(sid, index, Skipped)])
  {
    hide Reachable;
    var u := Apply(w, TimerFires(t, sid, index));
    ReachStep(w, TimerFires(t, sid, index));
    v := Apply(u, PollEnters(t));
    ReachStep(u, PollEnters(t));
  }

  lemma SkipAnswered(w: World, t: nat, sid: SessionId, index: nat) returns (v: World)
    requires Reachable(w) && t in w.tasks && w.tasks[t] == Returning(sid, index, Skipped)
    requires sid in w.objs && w.objs[sid].status.Active? && !MustStall(w.objs[sid].info, index, w.now)
    ensures Reachable(v)
    ensures v == w.(tasks := w.tasks - {t}, history := w.history + [SkippedPoll(w.epoch, sid, index, w.now)])
  {
    hide Reachable;
    v := Apply(w, PollReturns(t));
    ReachStep(w, PollReturns(t));
  }

  /** A poll that finds it up is skipped, and no net catches it. */
  lemma PollSkips(w: World, t: nat, sid: SessionId, index: nat) returns (v: World)
    requires Reachable(w) && Pollable(w, t, sid, index) && sid in w.capturing
    requires !MustStall(w.objs[sid].info, index, w.now)
    ensures Reachable(v)
    ensures v == w.(executed := w.executed + {(sid, index)},
                    history := w.history + [Passed(w.epoch, sid, index)] + [SkippedPoll(w.epoch, sid, index, w.now)])
  {
    hide Reachable;
    var u := PollFindsBusy(w, t, sid, index);
    v := SkipAnswered(u, t, sid, index);
    assert w.tasks[t := Returning(sid, index, Skipped)] - {t} == w.tasks;
  }

  /** A waiting poll comes back without a code and uses up its index. */
  lemma PollComesBack(w: World, t: nat, sid: SessionId, index: nat) returns (v: World)
    requires Reachable(w) && t in w.tasks && w.tasks[t] == Capturing(sid, index, Fetching, map[], map[])
    requires sid in w.objs && w.objs[sid].status.Active?
    requires |InsertSorted(w.objs[sid].completed, index)| < w.objs[sid].info.polls
    ensures Reachable(v)
    ensures var s := w.objs[sid].(completed := InsertSorted(w.objs[sid].completed, index));
      && v.objs == w.objs[sid := s] && v.capturing == w.capturing - {sid} && v.live == w.live && v.now == w.now
      && v.tasks == w.tasks[t := Updating(sid, |w.writes|)] && v.timers == w.timers && v.executed == w.executed
      && v.history == w.history && v.epoch == w.epoch
  {
    hide InsertSorted, Reachable;
    var u := Apply(w, PollGivesUp(t));
    ReachStep(w, PollGivesUp(t));
    assert u == w.(capturing := w.capturing - {sid}, tasks := w.tasks[t := Returning(sid, index, NoCode)]);
    v := Apply(u, PollReturns(t));
    ReachStep(u, PollReturns(t));
  }

  lemma Wait(w: World, ms: nat) returns (v: World)
    requires Reachable(w)
    ensures Reachable(v) && v == w.(now := w.now + ms)
  {
    v := Apply(w, Tick(ms));
    ReachStep(w, Tick(ms));
  }

  lemma ThreePolls()
    ensures |PollTimes(10)| == 3
  {
    var k := PollTimesKept(10);
    assert POLL_TIMES_MS[2] == 10_000 && POLL_TIMES_MS[3] == 15_000;
  }

  /**
   * Three polls within ten seconds. The first is slow; the second, at five seconds, finds it still at work and is
   * skipped; the first and the third come back without a code. No poll is left, and the session is active.
   */
  lemma SkipLeavesSessionActive(sid: SessionId) returns (w: World)
    ensures Reachable(w) && AllReturned(w, sid) && w.objs[sid].status.Active?
  {
    hide Reachable, PollTimes;
    ThreePolls();
    var w0 := StartsSession(sid, Request(1, 10, false, true));
    var w1 := PollBlocks(w0, 1, sid, 0);
    var w2 := Wait(w1, 5_000);
    var w3 := PollSkips(w2, 2, sid, 1);
    var w4 := PollComesBack(w3, 1, sid, 0);
    assert w4.objs[sid].completed == [0];
    var w5 := Wait(w4, 5_000);
    var w6 := PollBlocks(w5, 3, sid, 2);
    w := PollComesBack(w6, 3, sid, 2);
    assert w.objs[sid].completed == [0, 2];
    assert IsSkip(w.history[2], w.epoch, sid, 1);
  }

  /**
   * A world in which a start before the load leaves two active sessions: storage holds an active session of the tab.
   */
  lemma StoredSessionReachable(sid: SessionId, request: Request) returns (w: World)
    ensures Reachable(w) && w.applied < |w.writes| && sid in Disk(w) && Disk(w)[sid].status.Active?
    ensures request.tab == Disk(w)[sid].info.tab && w.requests.Keys == {sid}
  {
    w := StartsSession(sid, request);
  }
}
