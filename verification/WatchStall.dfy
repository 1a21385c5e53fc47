/**
 * Sessions whose polls have all returned (extension/src/background/session-controller.ts:459-541). Skipped polls are
 * what can leave such a session active; the two safety nets of handlePoll catch some of these, and this module says
 * which.
 */
module WatchStall {
  import opened Prelude
  import opened WatchTypes
  import opened WatchProtocol
  import opened WatchInvariant
  import opened WatchSteps
  import opened WatchTheorems

  ghost predicate SkippedNow(w: World, sid: SessionId, index: nat) {
    exists k :: 0 <= k < |w.history| && IsSkip(w.history[k], w.epoch, sid, index)
  }

  /** In this process some poll of the session was skipped as the last one scheduled, or after its time was up. */
  ghost predicate NetCaught(w: World, sid: SessionId) {
    exists k :: 0 <= k < |w.history| && IsCaught(w, w.history[k], sid)
  }

  ghost predicate IsCaught(w: World, e: Event, sid: SessionId) {
    && e.SkippedPoll? && e.epoch == w.epoch && e.sid == sid && sid in w.objs
    && (e.index + 1 == w.objs[sid].info.polls || e.at >= w.objs[sid].info.start + 1000 * w.objs[sid].info.timeout)
  }

  /** Every poll of the session has been answered: completed, or skipped in this process. */
  ghost predicate AllReturned(w: World, sid: SessionId) {
    sid in w.objs && forall i: nat :: i < w.objs[sid].info.polls ==> i in w.objs[sid].completed || SkippedNow(w, sid, i)
  }

  /** A poll this process skipped does not use up its index. */
  lemma SkipConsumesNothing(w: World, sid: SessionId, index: nat)
    requires Reachable(w) && SkippedNow(w, sid, index)
    ensures sid in w.objs && index !in w.objs[sid].completed
  {
    hide DataOk, TasksOk;
    ReachableInv(w);
    var k :| 0 <= k < |w.history| && IsSkip(w.history[k], w.epoch, sid, index);
    EventAt(w, k);
  }

  /** No skip that a net catches leaves the session active. */
  lemma CaughtIsOver(w: World, sid: SessionId)
    requires Inv(w) && NetCaught(w, sid)
    ensures !w.objs[sid].status.Active?
  {
    hide DataOk, TasksOk;
    var k :| 0 <= k < |w.history| && IsCaught(w, w.history[k], sid);
    EventAt(w, k);
  }

  /** Pigeonhole: a list that contains every index below n has at least n entries. */
  lemma {:induction false} CoversAll(s: seq<nat>, n: nat)
    requires forall i :: 0 <= i < n ==> i in s
    ensures |s| >= n
  {
    if n > 0 {
      assert n - 1 in s;
      var k :| 0 <= k < |s| && s[k] == n - 1;
      var rest := s[..k] + s[k + 1..];
      forall i | 0 <= i < n - 1 ensures i in rest {
        assert i in s;
        var j :| 0 <= j < |s| && s[j] == i;
        if j < k { assert rest[j] == i; } else { assert rest[j - 1] == i; }
      }
      CoversAll(rest, n - 1);
    }
  }

  // ------------------------------------------------------------------ every timeout has a reason

  ghost predicate TimedOutIn(store: Store, sid: SessionId) {
    sid in store && store[sid].status.TimedOut?
  }

  /** A session that timed out has completed all its polls, or a net caught it. */
  ghost predicate Explained(w: World) {
    forall sid :: TimedOutIn(w.objs, sid) ==> |w.objs[sid].completed| >= w.objs[sid].info.polls || NetCaught(w, sid)
  }

  ghost predicate VerdictIn(store: Store, sid: SessionId) {
    sid in store && (store[sid].status.TimedOut? || store[sid].status.Filled?)
  }

  /** Events are only added, and no session times out or is filled. */
  ghost predicate NoVerdict(w: World, v: World) {
    && w.history <= v.history && v.epoch == w.epoch
    && forall sid :: VerdictIn(v.objs, sid) ==> VerdictIn(w.objs, sid) && w.objs[sid].status == v.objs[sid].status
  }

  lemma NetCaughtStays(w: World, v: World, sid: SessionId)
    requires w.history <= v.history && v.epoch == w.epoch && MemoryEvolves(w, v) && NetCaught(w, sid)
    ensures NetCaught(v, sid)
  {
    var k :| 0 <= k < |w.history| && IsCaught(w, w.history[k], sid);
    assert IsCaught(v, v.history[k], sid);
  }

  lemma NoVerdictKeeps(w: World, v: World)
    requires Explained(w) && NoVerdict(w, v) && MemoryEvolves(w, v)
    ensures Explained(v)
  {
    hide NetCaught;
    forall sid | TimedOutIn(v.objs, sid)
      ensures |v.objs[sid].completed| >= v.objs[sid].info.polls || NetCaught(v, sid)
    {
      assert VerdictIn(v.objs, sid) && TimedOutIn(w.objs, sid) && Evolves(w.objs[sid], v.objs[sid]);
      if NetCaught(w, sid) { NetCaughtStays(w, v, sid); }
    }
  }

  lemma CancelGivesNoVerdict(w: World, t: nat, sid: SessionId, ret: Return)
    requires sid in w.objs
    ensures NoVerdict(w, BeginCancel(w, t, sid, ret))
  {
  }

  lemma ScanGivesNoVerdict(w: World, t: nat, request: Request, cursor: nat, id: SessionId)
    requires cursor <= |w.slots|
    ensures NoVerdict(w, Scan(w, t, request, cursor, id))
  {
    hide BeginCancel;
    var k := NextToCancel(w, request.tab, cursor);
    if k < |w.slots| {
      hide NoVerdict;
      CancelGivesNoVerdict(w, t, w.slots[k], BackToStart(request, k + 1));
    }
  }

  lemma BaselineGivesNoVerdict(w: World, t: nat, task: Task, saved: bool)
    requires task.Capturing? && task.phase.Baselining? && task.phase.next < |task.phase.results| && task.sid in w.objs
    ensures NoVerdict(w, BaselineResult(w, t, task, saved))
  {
    hide FinishLoad, SaveSnapshot, NoVerdict;
    FinishLoadGivesNoVerdict(w, t, task, saved);
    var v := BaselineResult(w, t, task, saved);
    var r := task.phase.results[task.phase.next];
    SnapshotIsAside(w, r.mailbox, task.rows, saved);
    if !(r.success && r.known && IsSms(r.mailbox) && task.phase.loading) { SameStatusNoVerdict(w, v, task.sid); }
  }

  lemma SameStatusNoVerdict(w: World, v: World, sid: SessionId)
    requires v.history == w.history && v.epoch == w.epoch && sid in w.objs && sid in v.objs
    requires v.objs == w.objs[sid := v.objs[sid]] && v.objs[sid].status == w.objs[sid].status
    ensures NoVerdict(w, v)
  {
  }

  lemma SnapshotIsAside(w: World, mailbox: Mailbox, rows: map<Mailbox, seq<Row>>, saved: bool)
    ensures var v := SaveSnapshot(w, mailbox, rows, saved); v == w.(snapshots := v.snapshots)
  {
  }

  lemma FinishLoadGivesNoVerdict(w: World, t: nat, task: Task, saved: bool)
    requires task.Capturing? && task.phase.Baselining? && task.phase.next < |task.phase.results| && task.sid in w.objs
    ensures NoVerdict(w, FinishLoad(w, t, task, saved))
  {
  }

  lemma ClassifyGivesNoVerdict(w: World, t: nat, task: Task)
    requires task.Capturing? && task.phase.Baselining? && task.sid in w.objs
    ensures NoVerdict(w, Classify(w, t, task))
  {
  }

  lemma PollStepGivesNoVerdict(w: World, step: Step)
    requires Enabled(w, step) && IsPollStep(step) && !step.PollReturns?
    ensures NoVerdict(w, Apply(w, step))
  {
    hide BaselineResult, Classify, NoVerdict, Decide, BufferBatch, Choose, Fire;
    if step.PollBaselines? {
      BaselineGivesNoVerdict(w, step.t, w.tasks[step.t], step.saved);
    } else if step.PollClassifies? {
      ClassifyGivesNoVerdict(w, step.t, w.tasks[step.t]);
    } else if step.AdapterBatch? {
      BufferGivesNoVerdict(w, step.t, step.mailbox, step.batch);
    } else if step.TimerFires? {
      FireGivesNoVerdict(w, step.t, step.target, step.index);
    } else if step.PollDecides? {
      ChooseGivesNoVerdict(w, step.t, step.eligible, step.scores, step.suppressed);
    } else {
      SameObjectsNoVerdict(w, Apply(w, step));
    }
  }

  lemma BufferGivesNoVerdict(w: World, t: nat, mailbox: Mailbox, batch: seq<Message>)
    requires t in w.tasks && w.tasks[t].Capturing? && w.tasks[t].sid in w.objs
    ensures NoVerdict(w, BufferBatch(w, t, w.tasks[t], mailbox, batch))
  {
    SameObjectsNoVerdict(w, BufferBatch(w, t, w.tasks[t], mailbox, batch));
  }

  lemma FireGivesNoVerdict(w: World, t: nat, sid: SessionId, index: nat)
    ensures NoVerdict(w, Fire(w, t, sid, index))
  {
    SameObjectsNoVerdict(w, Fire(w, t, sid, index));
  }

  lemma ChooseGivesNoVerdict(w: World, t: nat, eligible: seq<bool>, scores: seq<real>, suppressed: bool)
    requires t in w.tasks && w.tasks[t].Capturing? && w.tasks[t].sid in w.objs
    requires |eligible| == |scores| == |w.objs[w.tasks[t].sid].arrivals|
    ensures NoVerdict(w, Choose(w, t, w.tasks[t], eligible, scores, suppressed))
  {
    SameObjectsNoVerdict(w, Choose(w, t, w.tasks[t], eligible, scores, suppressed));
  }

  lemma SameObjectsNoVerdict(w: World, v: World)
    requires v.objs == w.objs && w.history <= v.history && v.epoch == w.epoch
    ensures NoVerdict(w, v)
  {
  }

  lemma OtherStepGivesNoVerdict(w: World, step: Step)
    requires Enabled(w, step) && !IsPollStep(step) && !step.WorkerRestarts?
    ensures NoVerdict(w, Apply(w, step))
  {
    hide Scan, NoVerdict;
    if step.ScanSlots? {
      ScanGivesNoVerdict(w, step.t, w.tasks[step.t].request, w.tasks[step.t].cursor, step.id);
    } else if step.CallCancel? {
      CancelGivesNoVerdict(w, step.t, step.target, Alone);
    } else {
      SameObjectsNoVerdict(w, Apply(w, step));
    }
  }

  /** A poll's answer gives a verdict on its own session only, and for a reason. */
  lemma OutcomeIsExplained(w: World, t: nat, sid: SessionId, index: nat, outcome: Outcome)
    requires sid in w.objs
    ensures var v := HandleOutcome(w, t, sid, index, outcome);
      && w.history <= v.history && v.epoch == w.epoch
      && (forall s :: s != sid ==> (TimedOutIn(v.objs, s) ==> TimedOutIn(w.objs, s)))
      && (TimedOutIn(v.objs, sid) ==>
            TimedOutIn(w.objs, sid) || |v.objs[sid].completed| >= v.objs[sid].info.polls || NetCaught(v, sid))
  {
    var s, v := w.objs[sid], HandleOutcome(w, t, sid, index, outcome);
    if s.status.Active? && outcome.Skipped? && MustStall(s.info, index, w.now) {
      assert v.history[|w.history|] == SkippedPoll(w.epoch, sid, index, w.now);
      assert IsCaught(v, v.history[|w.history|], sid);
    }
  }

  lemma ReturnKeepsExplained(w: World, t: nat)
    requires Explained(w) && Inv(w) && Enabled(w, PollReturns(t))
    ensures Explained(Apply(w, PollReturns(t)))
  {
    hide Inv, HandleOutcome, NetCaught;
    var task, v := w.tasks[t], Apply(w, PollReturns(t));
    OutcomeIsExplained(w, t, task.sid, task.index, task.outcome);
    StepEvolves(w, PollReturns(t));
    forall sid | TimedOutIn(v.objs, sid)
      ensures |v.objs[sid].completed| >= v.objs[sid].info.polls || NetCaught(v, sid)
    {
      if TimedOutIn(w.objs, sid) {
        assert Evolves(w.objs[sid], v.objs[sid]);
        if NetCaught(w, sid) { NetCaughtStays(w, v, sid); }
      }
    }
  }

  lemma RestartIsExplained(w: World, k: nat, order: seq<SessionId>)
    requires k < |w.writes|
    ensures Explained(Restart(w, k, order))
  {
  }

  lemma StepKeepsExplained(w: World, step: Step)
    requires Explained(w) && Inv(w) && Enabled(w, step)
    ensures Explained(Apply(w, step))
  {
    hide Explained, Inv, Enabled, MemoryEvolves, NoVerdict;
    if step.PollReturns? {
      ReturnKeepsExplained(w, step.t);
    } else if step.WorkerRestarts? {
      RestartKeepsExplained(w, step.k, step.order);
    } else {
      hide Apply;
      StepEvolves(w, step);
      if IsPollStep(step) { PollStepGivesNoVerdict(w, step); } else { OtherStepGivesNoVerdict(w, step); }
      NoVerdictKeeps(w, Apply(w, step));
    }
  }

  lemma RestartKeepsExplained(w: World, k: nat, order: seq<SessionId>)
    requires Enabled(w, WorkerRestarts(k, order))
    ensures Explained(Apply(w, WorkerRestarts(k, order)))
  {
    hide Explained, Restart;
    RestartIsExplained(w, k, order);
  }

  lemma {:induction false} RunKeepsExplained(w: World, steps: seq<Step>)
    requires Explained(w) && Inv(w) && Run(w, steps)
    ensures Explained(After(w, steps))
    decreases |steps|
  {
    hide Explained, Inv;
    if steps != [] {
      StepKeepsInv(w, steps[0]);
      StepKeepsExplained(w, steps[0]);
      RunKeepsExplained(Apply(w, steps[0]), steps[1..]);
    }
  }

  lemma ReachableExplained(w: World)
    requires Reachable(w)
    ensures Inv(w) && Explained(w)
  {
    var steps :| Run(EMPTY, steps) && After(EMPTY, steps) == w;
    InitInv();
    assert Explained(EMPTY);
    hide Explained, Inv;
    RunKeepsInv(EMPTY, steps);
    RunKeepsExplained(EMPTY, steps);
  }

  /**
   * A session that has timed out has completed as many polls as it had, or a poll of it was skipped that was its last,
   * or that came back no earlier than `timeout` seconds after its start.
   */
  lemma TimeoutHasReason(w: World, sid: SessionId)
    requires Reachable(w) && sid in w.objs && w.objs[sid].status.TimedOut?
    ensures var info := w.objs[sid].info;
      || w.objs[sid].completed == UpTo(info.polls)
      || exists k :: 0 <= k < |w.history| && w.history[k].SkippedPoll? && w.history[k].epoch == w.epoch
           && w.history[k].sid == sid
           && (w.history[k].index + 1 == info.polls || w.history[k].at >= info.start + 1000 * info.timeout)
  {
    hide DataOk, TasksOk;
    ReachableExplained(w);
    RecordAt(w, sid);
    assert TimedOutIn(w.objs, sid);
    FullMeansUpTo(w.objs[sid].completed, w.objs[sid].info.polls);
    if NetCaught(w, sid) {
      var k :| 0 <= k < |w.history| && IsCaught(w, w.history[k], sid);
    }
  }

  // ------------------------------------------------------------------ which sessions stay active

  /**
   * When every poll of a session has returned and neither a code nor a cancellation has ended it, it is still active
   * exactly when some poll was skipped and no net caught a skip: none was the last scheduled poll, and all came before
   * the session's time was up.
   */
  lemma StillActiveIff(w: World, sid: SessionId)
    requires Reachable(w) && AllReturned(w, sid)
    requires w.objs[sid].status.Active? || w.objs[sid].status.TimedOut?
    ensures var info := w.objs[sid].info;
      w.objs[sid].status.Active? <==>
        && (exists i :: 0 <= i < info.polls && SkippedNow(w, sid, i))
        && forall k :: (0 <= k < |w.history| && w.history[k].SkippedPoll? && w.history[k].epoch == w.epoch
                        && w.history[k].sid == sid) ==>
             w.history[k].index + 1 != info.polls && w.history[k].at < info.start + 1000 * info.timeout
  {
    hide DataOk, TasksOk, SkippedNow;
    assert NetCaught(w, sid) <==> exists k :: 0 <= k < |w.history| && IsCaught(w, w.history[k], sid);
    hide NetCaught;
    ReachableExplained(w);
    RecordAt(w, sid);
    var s := w.objs[sid];
    if s.status.Active? {
      if NetCaught(w, sid) { CaughtIsOver(w, sid); }
      if forall i: nat :: i < s.info.polls ==> i in s.completed { CoversAll(s.completed, s.info.polls); }
    } else {
      assert TimedOutIn(w.objs, sid);
      if !NetCaught(w, sid) {
        FullMeansUpTo(s.completed, s.info.polls);
        forall i: nat | i < s.info.polls ensures !SkippedNow(w, sid, i) {
          assert s.completed[i] == i;
          if SkippedNow(w, sid, i) { SkipConsumesNothing(w, sid, i); }
        }
      }
    }
  }

  // ------------------------------------------------------------------ a session left active stays so

  /** Events from k on let no poll of the session pass. */
  ghost predicate NoPassSince(w: World, k: nat, sid: SessionId) {
    forall i :: k <= i < |w.history| && w.history[i].Passed? ==> w.history[i].sid != sid
  }

  lemma AllReturnedStays(w: World, v: World, sid: SessionId)
    requires w.history <= v.history && v.epoch == w.epoch && MemoryEvolves(w, v) && AllReturned(w, sid)
    ensures AllReturned(v, sid)
  {
    assert Evolves(w.objs[sid], v.objs[sid]);
    forall i: nat | i < v.objs[sid].info.polls ensures i in v.objs[sid].completed || SkippedNow(v, sid, i) {
      if SkippedNow(w, sid, i) {
        var k :| 0 <= k < |w.history| && IsSkip(w.history[k], w.epoch, sid, i);
        assert IsSkip(v.history[k], v.epoch, sid, i);
      }
    }
  }

  /** All its indices are marked or completed, so its timers do nothing. */
  lemma TimersDoNothing(w: World, t: nat, sid: SessionId, index: nat)
    requires Inv(w) && AllReturned(w, sid) && (sid, index) in w.timers
    ensures Fire(w, t, sid, index).history == w.history
  {
    hide DataOk, TasksOk;
    TimerAt(w, (sid, index));
    RecordAt(w, sid);
    if SkippedNow(w, sid, index) {
      var k :| 0 <= k < |w.history| && IsSkip(w.history[k], w.epoch, sid, index);
      EventAt(w, k);
    }
  }

  /** No poll of it is waiting for an answer. */
  lemma NoPollWaits(w: World, t: nat, sid: SessionId)
    requires Inv(w) && AllReturned(w, sid) && w.objs[sid].status.Active?
    requires t in w.tasks && InFlight(w.tasks[t])
    ensures w.tasks[t].sid != sid
  {
    hide DataOk, TasksOk;
    TaskAt(w, t);
    assert w.tasks[t].sid == sid ==> InFlightOk(w, sid, w.tasks[t].index);
  }

  ghost predicate AddsNoPass(w: World, v: World) {
    forall i :: |w.history| <= i < |v.history| ==> !v.history[i].Passed?
  }

  lemma BaselineAddsNoPass(w: World, t: nat, task: Task, saved: bool)
    requires task.Capturing? && task.phase.Baselining? && task.phase.next < |task.phase.results| && task.sid in w.objs
    ensures AddsNoPass(w, BaselineResult(w, t, task, saved))
  {
  }

  lemma OutcomeAddsNoPass(w: World, t: nat, sid: SessionId, index: nat, outcome: Outcome)
    requires sid in w.objs
    ensures AddsNoPass(w, HandleOutcome(w, t, sid, index, outcome))
  {
  }

  lemma PollStepAddsNoPass(w: World, step: Step)
    requires Enabled(w, step) && IsPollStep(step) && !step.TimerFires?
    ensures AddsNoPass(w, Apply(w, step))
  {
    hide BaselineResult, HandleOutcome;
    if step.PollBaselines? {
      BaselineAddsNoPass(w, step.t, w.tasks[step.t], step.saved);
    } else if step.PollReturns? {
      var task := w.tasks[step.t];
      OutcomeAddsNoPass(w, step.t, task.sid, task.index, task.outcome);
    }
  }

  lemma OtherStepAddsNoPass(w: World, step: Step)
    requires Enabled(w, step) && !IsPollStep(step) && !step.WorkerRestarts?
    ensures AddsNoPass(w, Apply(w, step))
  {
  }

  /** The session is active, or somebody has canceled it. */
  ghost predicate Undecided(w: World, sid: SessionId) {
    sid in w.objs && (w.objs[sid].status.Active? || w.objs[sid].status.Canceled?)
  }

  lemma NoVerdictLeavesUndecided(w: World, v: World, sid: SessionId)
    requires Undecided(w, sid) && sid in v.objs && NoVerdict(w, v)
    ensures Undecided(v, sid)
  {
    assert VerdictIn(v.objs, sid) ==> VerdictIn(w.objs, sid);
  }

  lemma ReturnLeavesUndecided(w: World, t: nat, sid: SessionId)
    requires Inv(w) && Enabled(w, PollReturns(t)) && AllReturned(w, sid) && Undecided(w, sid)
    ensures var v := Apply(w, PollReturns(t));
      Undecided(v, sid) && w.history <= v.history && v.epoch == w.epoch
  {
    hide Inv, AllReturned, HandleOutcome;
    var task := w.tasks[t];
    OtherOutcomes(w, t, task.sid, task.index, task.outcome, sid);
    if w.objs[sid].status.Active? { NoPollWaits(w, t, sid); }
  }

  lemma OtherOutcomes(w: World, t: nat, sid: SessionId, index: nat, outcome: Outcome, other: SessionId)
    requires sid in w.objs && other in w.objs
    ensures var v := HandleOutcome(w, t, sid, index, outcome);
      && w.history <= v.history && v.epoch == w.epoch && other in v.objs
      && (other != sid || !w.objs[sid].status.Active? ==> v.objs[other] == w.objs[other])
  {
    hide InsertSorted, Persist;
    var s, v := w.objs[sid], HandleOutcome(w, t, sid, index, outcome);
    if !s.status.Active? {
      assert v == EndTask(w, t);
    } else if outcome.Skipped? {
      assert v.objs == w.objs || v.objs == w.objs[sid := s.(status := TimedOut)];
    } else {
      hide HandleOutcome;
      CompletionTouchesOne(w, t, sid, index, outcome);
    }
  }

  lemma CompletionTouchesOne(w: World, t: nat, sid: SessionId, index: nat, outcome: Outcome)
    requires sid in w.objs && w.objs[sid].status.Active? && !outcome.Skipped?
    ensures var v := HandleOutcome(w, t, sid, index, outcome);
      && v.history == w.history && v.epoch == w.epoch && sid in v.objs && v.objs == w.objs[sid := v.objs[sid]]
  {
    hide InsertSorted;
  }

  lemma FireLeavesReturned(w: World, t: nat, target: SessionId, index: nat, sid: SessionId)
    requires Inv(w) && AllReturned(w, sid) && (target, index) in w.timers
    ensures NoPassSince(Fire(w, t, target, index), |w.history|, sid)
  {
    hide Inv, AllReturned;
    if target == sid { TimersDoNothing(w, t, sid, index); }
  }

  lemma StepLeavesReturned(w: World, step: Step, sid: SessionId)
    requires Inv(w) && Enabled(w, step) && !step.WorkerRestarts? && AllReturned(w, sid) && Undecided(w, sid)
    ensures var v := Apply(w, step);
      && AllReturned(v, sid) && Undecided(v, sid) && w.history <= v.history && NoPassSince(v, |w.history|, sid)
  {
    hide Inv, AllReturned, MemoryEvolves, NoVerdict, Undecided, Fire, HandleOutcome;
    var v := Apply(w, step);
    StepEvolves(w, step);
    if step.PollReturns? {
      ReturnLeavesUndecided(w, step.t, sid);
    } else {
      hide Apply, Enabled;
      if IsPollStep(step) { PollStepGivesNoVerdict(w, step); } else { OtherStepGivesNoVerdict(w, step); }
      VerdictFree(w, v, sid);
    }
    AllReturnedStays(w, v, sid);
    if step.TimerFires? {
      FireLeavesReturned(w, step.t, step.target, step.index, sid);
    } else if IsPollStep(step) {
      PollStepAddsNoPass(w, step);
    } else {
      OtherStepAddsNoPass(w, step);
    }
  }

  lemma VerdictFree(w: World, v: World, sid: SessionId)
    requires Undecided(w, sid) && NoVerdict(w, v) && MemoryEvolves(w, v)
    ensures Undecided(v, sid) && w.history <= v.history && v.epoch == w.epoch
  {
    NoVerdictLeavesUndecided(w, v, sid);
  }

  /**
   * A session left active that way is not polled again in this process: whatever happens until the worker restarts, no
   * poll of it passes, and it stays active unless it is canceled.
   */
  lemma {:induction false} LeftActiveForGood(w: World, steps: seq<Step>, sid: SessionId)
    requires Inv(w) && AllReturned(w, sid) && Undecided(w, sid) && Run(w, steps) && SameProcess(steps)
    ensures var v := After(w, steps);
      && AllReturned(v, sid) && Undecided(v, sid) && w.history <= v.history && NoPassSince(v, |w.history|, sid)
    decreases |steps|
  {
    hide Inv, AllReturned, Undecided, NoPassSince;
    if steps == [] {
      NoPassAtEnd(w, sid);
    } else {
      var v := Apply(w, steps[0]);
      assert !steps[0].WorkerRestarts?;
      StepKeepsInv(w, steps[0]);
      StepLeavesReturned(w, steps[0], sid);
      forall i | 0 <= i < |steps[1..]| ensures !steps[1..][i].WorkerRestarts? {
        assert steps[1..][i] == steps[i + 1];
      }
      LeftActiveForGood(v, steps[1..], sid);
      NoPassJoins(v, After(w, steps), |w.history|, sid);
    }
  }

  lemma NoPassAtEnd(w: World, sid: SessionId)
    ensures NoPassSince(w, |w.history|, sid)
  {
  }

  lemma NoPassJoins(v: World, u: World, k: nat, sid: SessionId)
    requires k <= |v.history| && v.history <= u.history && NoPassSince(v, k, sid) && NoPassSince(u, |v.history|, sid)
    ensures NoPassSince(u, k, sid)
  {
    forall i | k <= i < |u.history| && u.history[i].Passed? ensures u.history[i].sid != sid {
      if i < |v.history| { assert v.history[i] == u.history[i]; }
    }
  }
}
