/** What the watch-session protocol guarantees in every run: any interleaving, any number of worker restarts. */
module WatchTheorems {
  import opened Prelude
  import opened WatchTypes
  import opened WatchProtocol
  import opened WatchInvariant
  import opened WatchSteps

  /** Some run from an empty browser session leads here. */
  ghost predicate Reachable(w: World) {
    exists steps :: Run(EMPTY, steps) && After(EMPTY, steps) == w
  }

  lemma ReachableInv(w: World)
    requires Reachable(w)
    ensures Inv(w)
  {
    hide Inv;
    var steps :| Run(EMPTY, steps) && After(EMPTY, steps) == w;
    InitInv();
    RunKeepsInv(EMPTY, steps);
  }

  lemma {:induction false} OneMore(w: World, steps: seq<Step>, step: Step)
    requires Run(w, steps) && Enabled(After(w, steps), step)
    ensures Run(w, steps + [step]) && After(w, steps + [step]) == Apply(After(w, steps), step)
    decreases |steps|
  {
    hide Enabled, Apply;
    if steps == [] {
      assert [step][1..] == [];
    } else {
      OneMore(Apply(w, steps[0]), steps[1..], step);
      assert (steps + [step])[1..] == steps[1..] + [step];
    }
  }

  lemma ReachStep(w: World, step: Step)
    requires Reachable(w) && Enabled(w, step)
    ensures Reachable(Apply(w, step))
  {
    hide Enabled, Apply;
    var steps :| Run(EMPTY, steps) && After(EMPTY, steps) == w;
    OneMore(EMPTY, steps, step);
  }

  /** Whatever runs from a reachable world leads to one. */
  lemma {:induction false} ReachRun(w: World, steps: seq<Step>)
    requires Reachable(w) && Run(w, steps)
    ensures Reachable(After(w, steps))
    decreases |steps|
  {
    hide Reachable, Enabled, Apply;
    if steps != [] {
      ReachStep(w, steps[0]);
      ReachRun(Apply(w, steps[0]), steps[1..]);
    }
  }

  // ------------------------------------------------------------------ one session per tab

  /**
   * Two active sessions of one tab are the same session, in memory and in every store that has been or may still be
   * written, whatever starts, cancellations, polls and restarts interleave.
   */
  lemma OneActiveSessionPerTab(w: World, a: SessionId, b: SessionId)
    requires Reachable(w) && a in w.objs && b in w.objs
    requires w.objs[a].status.Active? && w.objs[b].status.Active? && w.objs[a].info.tab == w.objs[b].info.tab
    ensures a == b && a in w.live
    ensures forall k :: 0 <= k < |w.writes| ==> OneActivePerTab(w.writes[k])
  {
    ReachableInv(w);
    assert StoresOk(w);
  }

  // ------------------------------------------------------------------ announcements

  /** The poll path announces a session at most once in the whole history, restarts included. */
  lemma AnnouncedAtMostOnce(w: World, i: nat, j: nat)
    requires Reachable(w) && i < j < |w.history|
    requires w.history[i].Announced? && w.history[j].Announced?
    ensures w.history[i].sid != w.history[j].sid
  {
    ReachableInv(w);
    assert HistoryOk(w) && !Clash(w.history[i], w.history[j]);
  }

  /** An announced session is over for good: on disk, in every queued write and in memory. */
  lemma AnnouncedIsOver(w: World, k: nat)
    requires Reachable(w) && k < |w.history| && w.history[k].Announced?
    ensures var sid := w.history[k].sid;
      && w.applied < |w.writes| && Over(Disk(w), sid) && Over(w.objs, sid)
      && forall j :: w.applied <= j < |w.writes| ==> Over(w.writes[j], sid)
  {
    ReachableInv(w);
    EventAt(w, k);
  }

  // ------------------------------------------------------------------ polls

  /** Within a process, a poll index of a session passes handlePoll's guards at most once, however often timers fire. */
  lemma EachPollOncePerProcess(w: World, i: nat, j: nat)
    requires Reachable(w) && i < j < |w.history| && w.history[i].Passed?
    ensures w.history[i] != w.history[j]
  {
    ReachableInv(w);
    assert HistoryOk(w) && !Clash(w.history[i], w.history[j]);
  }

  /** pollsCompleted is strictly increasing, in range and, while the session is active, never full. */
  lemma ProgressIsSound(w: World, sid: SessionId)
    requires Reachable(w)
    ensures sid in w.objs ==> ProgressOk(w.objs[sid])
    ensures forall k :: 0 <= k < |w.writes| && sid in w.writes[k] ==> ProgressOk(w.writes[k][sid])
  {
    ReachableInv(w);
    assert StoresOk(w);
    forall k | 0 <= k < |w.writes| && sid in w.writes[k] ensures ProgressOk(w.writes[k][sid]) {
      assert StoreOk(w.writes[k]);
    }
  }

  /** A timeout that is not a skip stall is announced only when exactly the polls 0, ..., n-1 have completed. */
  lemma ExhaustedMeansEveryPoll(w: World, k: nat)
    requires Reachable(w) && k < |w.history| && w.history[k].Announced? && w.history[k].verdict.Exhausted?
    ensures w.history[k].session.completed == UpTo(w.history[k].session.info.polls)
  {
    ReachableInv(w);
    EventAt(w, k);
  }

  // ------------------------------------------------------------------ baselines

  /** Some waiting poll of the session is in its critical section. */
  ghost predicate HeldBy(w: World, sid: SessionId, t: nat) {
    t in w.tasks && w.tasks[t].Capturing? && w.tasks[t].sid == sid
  }

  ghost predicate Held(w: World) {
    forall sid :: sid in w.capturing ==> exists t :: HeldBy(w, sid, t)
  }

  /** The sentinel does not change and no poll leaves its critical section. */
  lemma HeldFrame(w: World, v: World)
    requires Held(w) && v.capturing <= w.capturing
    requires forall t, sid :: HeldBy(w, sid, t) && sid in v.capturing ==> HeldBy(v, sid, t)
    ensures Held(v)
  {
    forall sid | sid in v.capturing ensures exists t :: HeldBy(v, sid, t) {
      var t :| HeldBy(w, sid, t);
      assert HeldBy(v, sid, t);
    }
  }

  /** Only task t changes, from one stage to another of the same critical section, or outside of any. */
  ghost predicate SameStage(w: World, v: World, t: nat) {
    && v.capturing == w.capturing
    && (forall u, sid :: u != t && HeldBy(w, sid, u) ==> HeldBy(v, sid, u))
    && (forall sid :: HeldBy(w, sid, t) ==> HeldBy(v, sid, t))
  }

  lemma SameStageKeepsHeld(w: World, v: World, t: nat)
    requires Held(w) && SameStage(w, v, t)
    ensures Held(v)
  {
    HeldFrame(w, v);
  }

  lemma EnterKeepsHeld(w: World, t: nat)
    requires Held(w) && t in w.tasks && w.tasks[t].Polling?
    ensures Held(EnterCapture(w, t, w.tasks[t].sid, w.tasks[t].index))
  {
    var v := EnterCapture(w, t, w.tasks[t].sid, w.tasks[t].index);
    forall sid | sid in v.capturing ensures exists u :: HeldBy(v, sid, u) {
      if sid in w.capturing {
        var u :| HeldBy(w, sid, u);
        assert HeldBy(v, sid, u);
      } else {
        assert HeldBy(v, sid, t);
      }
    }
  }

  lemma LeaveKeepsHeld(w: World, t: nat, outcome: Outcome)
    requires Held(w) && t in w.tasks && w.tasks[t].Capturing?
    ensures Held(LeaveCapture(w, t, w.tasks[t].sid, w.tasks[t].index, outcome))
  {
    HeldFrame(w, LeaveCapture(w, t, w.tasks[t].sid, w.tasks[t].index, outcome));
  }

  lemma BaselineKeepsHeld(w: World, t: nat, saved: bool)
    requires Held(w) && t in w.tasks && w.tasks[t].Capturing? && w.tasks[t].phase.Baselining?
    requires w.tasks[t].sid in w.objs
    requires w.tasks[t].phase.next < |w.tasks[t].phase.results|
    ensures Held(BaselineResult(w, t, w.tasks[t], saved))
  {
    hide Held, BaselineResult;
    SameStageKeepsHeld(w, BaselineResult(w, t, w.tasks[t], saved), t);
  }

  lemma OutcomeKeepsHeld(w: World, t: nat)
    requires Held(w) && t in w.tasks && w.tasks[t].Returning? && w.tasks[t].sid in w.objs
    ensures Held(HandleOutcome(w, t, w.tasks[t].sid, w.tasks[t].index, w.tasks[t].outcome))
  {
    SameStageKeepsHeld(w, HandleOutcome(w, t, w.tasks[t].sid, w.tasks[t].index, w.tasks[t].outcome), t);
  }

  lemma ClassifyKeepsHeld(w: World, t: nat)
    requires Held(w) && t in w.tasks && w.tasks[t].Capturing? && w.tasks[t].phase.Baselining?
    requires w.tasks[t].sid in w.objs
    ensures Held(Classify(w, t, w.tasks[t]))
  {
    SameStageKeepsHeld(w, Classify(w, t, w.tasks[t]), t);
  }

  lemma BufferKeepsHeld(w: World, t: nat, mailbox: Mailbox, batch: seq<Message>)
    requires Held(w) && t in w.tasks && w.tasks[t].Capturing? && w.tasks[t].sid in w.objs
    ensures Held(BufferBatch(w, t, w.tasks[t], mailbox, batch))
  {
    SameStageKeepsHeld(w, BufferBatch(w, t, w.tasks[t], mailbox, batch), t);
  }

  lemma FireKeepsHeld(w: World, t: nat, sid: SessionId, index: nat)
    requires Held(w) && t !in w.tasks
    ensures Held(Fire(w, t, sid, index))
  {
    SameStageKeepsHeld(w, Fire(w, t, sid, index), t);
  }

  lemma PollStepKeepsHeld(w: World, step: Step)
    requires Held(w) && Enabled(w, step) && IsPollStep(step)
    ensures Held(Apply(w, step))
  {
    hide Held, Fire, LeaveCapture, EnterCapture, BufferBatch, BaselineResult, Classify, HandleOutcome;
    var t := step.t;
    if step.TimerFires? {
      FireKeepsHeld(w, t, step.target, step.index);
    } else if step.PollEnters? {
      EnterKeepsHeld(w, t);
    } else if step.AdapterBatch? {
      BufferKeepsHeld(w, t, step.mailbox, step.batch);
    } else if step.PollBaselines? {
      BaselineKeepsHeld(w, t, step.saved);
    } else if step.PollClassifies? {
      ClassifyKeepsHeld(w, t);
    } else if step.PollReturns? {
      OutcomeKeepsHeld(w, t);
    } else if step.PollLeaves? || (step.PollGivesUp? && w.tasks[t].Capturing?) {
      LeaveKeepsHeld(w, t, if step.PollLeaves? then w.tasks[t].phase.outcome else NoCode);
    } else {
      SameStageKeepsHeld(w, Apply(w, step), t);
    }
  }

  lemma ScanKeepsHeld(w: World, t: nat, request: Request, cursor: nat, id: SessionId)
    requires Held(w) && t in w.tasks && w.tasks[t].Starting? && cursor <= |w.slots|
    ensures Held(Scan(w, t, request, cursor, id))
  {
    SameStageKeepsHeld(w, Scan(w, t, request, cursor, id), t);
  }

  lemma OtherStepKeepsHeld(w: World, step: Step)
    requires Held(w) && Enabled(w, step) && !IsPollStep(step) && !step.ScanSlots? && !step.WorkerRestarts?
    ensures Held(Apply(w, step))
  {
    hide Held;
    var v := Apply(w, step);
    var t := if step.Tick? || step.ApplyWrite? || step.Resume? then 0 else step.t;
    SameStageKeepsHeld(w, v, t);
  }

  lemma StepKeepsHeld(w: World, step: Step)
    requires Held(w) && Enabled(w, step)
    ensures Held(Apply(w, step))
  {
    if IsPollStep(step) {
      hide Held, Apply;
      PollStepKeepsHeld(w, step);
    } else if step.ScanSlots? {
      ScanKeepsHeld(w, step.t, w.tasks[step.t].request, w.tasks[step.t].cursor, step.id);
    } else if !step.WorkerRestarts? {
      hide Held, Apply;
      OtherStepKeepsHeld(w, step);
    }
  }

  lemma {:induction false} RunKeepsHeld(w: World, steps: seq<Step>)
    requires Held(w) && Run(w, steps)
    ensures Held(After(w, steps))
    decreases |steps|
  {
    hide Held;
    if steps != [] {
      StepKeepsHeld(w, steps[0]);
      RunKeepsHeld(Apply(w, steps[0]), steps[1..]);
    }
  }

  /** The capture sentinel of a session is up exactly while one poll, and only one, is in its critical section. */
  lemma CaptureIsExclusive(w: World, sid: SessionId)
    requires Reachable(w)
    ensures sid in w.capturing <==> exists t :: HeldBy(w, sid, t)
    ensures forall t, u :: HeldBy(w, sid, t) && HeldBy(w, sid, u) ==> t == u
  {
    var steps :| Run(EMPTY, steps) && After(EMPTY, steps) == w;
    InitInv();
    RunKeepsInv(EMPTY, steps);
    RunKeepsHeld(EMPTY, steps);
    forall t | HeldBy(w, sid, t) ensures sid in w.capturing { TaskAt(w, t); }
    forall t, u | HeldBy(w, sid, t) && HeldBy(w, sid, u) ensures t == u {
      if t != u { PairAt(w, t, u); }
    }
  }

  // ------------------------------------------------------------------ records only evolve

  ghost predicate MemoryEvolves(w: World, v: World) {
    forall sid :: sid in w.objs ==> sid in v.objs && Evolves(w.objs[sid], v.objs[sid])
  }

  /** Memory evolves and writes are only appended. */
  ghost predicate Grows(w: World, v: World) {
    MemoryEvolves(w, v) && w.writes <= v.writes && v.applied == w.applied
  }

  /** One record evolves. */
  lemma OneRecordGrows(w: World, v: World, sid: SessionId, s: Session)
    requires sid in w.objs && v.objs == w.objs[sid := s] && Evolves(w.objs[sid], s)
    requires w.writes <= v.writes && v.applied == w.applied
    ensures Grows(w, v)
  {
    SameRecordsGrow(w, w.(objs := w.objs));
  }

  lemma SameRecordsGrow(w: World, v: World)
    requires v.objs == w.objs && w.writes <= v.writes && v.applied == w.applied
    ensures Grows(w, v)
  {
    forall sid | sid in w.objs ensures Evolves(w.objs[sid], v.objs[sid]) { EvolvesReflexive(w.objs[sid]); }
  }

  lemma EvolvesReflexive(s: Session)
    ensures Evolves(s, s)
  {
  }

  lemma ScanGrows(w: World, t: nat, request: Request, cursor: nat, id: SessionId)
    requires cursor <= |w.slots| && id !in w.objs
    ensures Grows(w, Scan(w, t, request, cursor, id))
  {
    hide Evolves;
    var k := NextToCancel(w, request.tab, cursor);
    if k < |w.slots| {
      BeginCancelGrows(w, t, w.slots[k], BackToStart(request, k + 1));
    } else {
      SameRecordsGrow(w, w);
    }
  }

  lemma OutcomeGrows(w: World, t: nat, sid: SessionId, index: nat, outcome: Outcome)
    requires sid in w.objs
    ensures Grows(w, HandleOutcome(w, t, sid, index, outcome))
  {
    hide Evolves;
    var s := w.objs[sid];
    var v := HandleOutcome(w, t, sid, index, outcome);
    var s1 := s.(completed := InsertSorted(s.completed, index));
    if !s.status.Active? {
      SameRecordsGrow(w, v);
    } else if outcome.Skipped? {
      if MustStall(s.info, index, w.now) {
        CompletionEvolves(s, s.(status := TimedOut), index);
        OneRecordGrows(w, v, sid, s.(status := TimedOut));
      } else {
        SameRecordsGrow(w, v);
      }
    } else {
      CompletionGrows(w, t, sid, index, outcome);
    }
  }

  lemma CompletionGrows(w: World, t: nat, sid: SessionId, index: nat, outcome: Outcome)
    requires sid in w.objs && w.objs[sid].status.Active? && !outcome.Skipped?
    ensures Grows(w, HandleOutcome(w, t, sid, index, outcome))
  {
    hide Evolves;
    var s := w.objs[sid];
    var v := HandleOutcome(w, t, sid, index, outcome);
    var s1 := s.(completed := InsertSorted(s.completed, index));
    var s2 :=
      if outcome.Found? then s1.(status := Filled, lastCode := Some(outcome.choice))
      else if s.info.polls <= |s1.completed| then s1.(status := TimedOut)
      else s1;
    CompletionEvolves(s, s2, index);
    OneRecordGrows(w, v, sid, s2);
  }

  lemma CompletionEvolves(s: Session, s': Session, index: nat)
    requires s.status.Active?
    requires s' == s.(status := s'.status, completed := s'.completed, lastCode := s'.lastCode)
    requires s'.completed == s.completed || s'.completed == InsertSorted(s.completed, index)
    ensures Evolves(s, s')
  {
    InsertSortedMembers(s.completed, index);
  }

  /** The baseline of a mailbox is written only where there is none, although the load awaits in between. */
  lemma BaselineGrows(w: World, t: nat, saved: bool)
    requires Inv(w) && t in w.tasks && w.tasks[t].Capturing? && w.tasks[t].phase.Baselining? && w.tasks[t].sid in w.objs
    requires w.tasks[t].phase.next < |w.tasks[t].phase.results|
    ensures Grows(w, BaselineResult(w, t, w.tasks[t], saved))
  {
    hide DataOk, TasksOk, FinishLoad, Evolves;
    TaskAt(w, t);
    var task := w.tasks[t];
    var v := BaselineResult(w, t, task, saved);
    var r := task.phase.results[task.phase.next];
    if r.success && r.known && IsSms(r.mailbox) && task.phase.loading {
      LoadGrows(w, t, task, saved);
    } else if v.objs == w.objs {
      SameRecordsGrow(w, v);
    } else {
      KeysEvolve(w.objs[task.sid], v.objs[task.sid], r.mailbox);
      OneRecordGrows(w, v, task.sid, v.objs[task.sid]);
    }
  }

  lemma KeysEvolve(s: Session, s': Session, mailbox: Mailbox)
    requires mailbox !in s.email && mailbox in s'.email
    requires s' == s.(email := s.email[mailbox := s'.email[mailbox]])
    ensures Evolves(s, s')
  {
  }

  lemma LoadGrows(w: World, t: nat, task: Task, saved: bool)
    requires task.Capturing? && task.phase.Baselining? && task.phase.next < |task.phase.results| && task.sid in w.objs
    requires task.phase.results[task.phase.next].mailbox !in w.objs[task.sid].sms
    ensures Grows(w, FinishLoad(w, t, task, saved))
  {
    hide Evolves;
    var v := FinishLoad(w, t, task, saved);
    RowsEvolve(w.objs[task.sid], v.objs[task.sid], task.phase.results[task.phase.next].mailbox);
    OneRecordGrows(w, v, task.sid, v.objs[task.sid]);
  }

  lemma RowsEvolve(s: Session, s': Session, mailbox: Mailbox)
    requires mailbox !in s.sms && mailbox in s'.sms
    requires s' == s.(sms := s.sms[mailbox := s'.sms[mailbox]])
    ensures Evolves(s, s')
  {
  }

  lemma ClassifyGrows(w: World, t: nat, task: Task)
    requires task.Capturing? && task.phase.Baselining? && task.sid in w.objs
    ensures Grows(w, Classify(w, t, task))
  {
    hide Evolves;
    var v := Classify(w, t, task);
    AppendEvolves(w.objs[task.sid], v.objs[task.sid]);
    OneRecordGrows(w, v, task.sid, v.objs[task.sid]);
  }

  lemma AppendEvolves(s: Session, s': Session)
    requires s.arrivals <= s'.arrivals && s' == s.(arrivals := s'.arrivals)
    ensures Evolves(s, s')
  {
  }

  lemma BeginCancelGrows(w: World, t: nat, sid: SessionId, ret: Return)
    requires sid in w.objs
    ensures Grows(w, BeginCancel(w, t, sid, ret))
  {
    hide Evolves;
    var v := BeginCancel(w, t, sid, ret);
    EvolvesReflexive(w.objs[sid]);
    CompletionOrSame(w.objs[sid], v.objs[sid]);
    OneRecordGrows(w, v, sid, v.objs[sid]);
  }

  lemma CompletionOrSame(s: Session, s': Session)
    requires s' == s || (s.status.Active? && s' == s.(status := s'.status))
    ensures Evolves(s, s')
  {
  }

  lemma PollStepGrows(w: World, step: Step)
    requires Inv(w) && Enabled(w, step) && IsPollStep(step)
    ensures Grows(w, Apply(w, step))
  {
    hide DataOk, TasksOk, HandleOutcome, BaselineResult, Classify, Fire, LeaveCapture, EnterCapture, BufferBatch,
         Choose,
         Grows;
    if step.PollReturns? {
      var task := w.tasks[step.t];
      OutcomeGrows(w, step.t, task.sid, task.index, task.outcome);
    } else if step.PollBaselines? {
      BaselineGrows(w, step.t, step.saved);
    } else if step.PollClassifies? {
      ClassifyGrows(w, step.t, w.tasks[step.t]);
    } else {
      SameRecordsGrow(w, Apply(w, step));
    }
  }

  lemma StepGrows(w: World, step: Step)
    requires Inv(w) && Enabled(w, step) && !step.WorkerRestarts? && !step.ApplyWrite?
    ensures Grows(w, Apply(w, step))
  {
    hide DataOk, TasksOk, Scan, BeginCancel, SchedulePolls, FinishStart, NotifyCancel, Grows;
    if IsPollStep(step) {
      hide Apply, Enabled;
      PollStepGrows(w, step);
    } else if step.ScanSlots? {
      UnusedId(w, step.id);
      ScanGrows(w, step.t, w.tasks[step.t].request, w.tasks[step.t].cursor, step.id);
    } else if step.CallCancel? {
      BeginCancelGrows(w, step.t, step.target, Alone);
    } else {
      SameRecordsGrow(w, Apply(w, step));
    }
  }

  lemma UnusedId(w: World, id: SessionId)
    requires Inv(w) && id !in w.requests
    ensures id !in w.objs
  {
  }

  ghost predicate SameProcess(steps: seq<Step>) {
    forall i :: 0 <= i < |steps| ==> !steps[i].WorkerRestarts?
  }

  /**
   * Within a process a session's record only evolves: a terminal status is final, completed polls stay completed,
   * a mailbox's baseline never changes once it is written, and arrivals are only appended.
   */
  lemma {:induction false} MemoryOnlyEvolves(w: World, steps: seq<Step>)
    requires Inv(w) && Run(w, steps) && SameProcess(steps)
    ensures MemoryEvolves(w, After(w, steps))
    decreases |steps|
  {
    hide Inv, MemoryEvolves;
    if steps == [] {
      SameRecordsGrow(w, w);
    } else {
      assert !steps[0].WorkerRestarts?;
      StepKeepsInv(w, steps[0]);
      StepEvolves(w, steps[0]);
      assert SameProcess(steps[1..]) by {
        forall i | 0 <= i < |steps[1..]| ensures !steps[1..][i].WorkerRestarts? {
          assert steps[1..][i] == steps[i + 1];
        }
      }
      MemoryOnlyEvolves(Apply(w, steps[0]), steps[1..]);
      MemoryEvolvesTransitive(w, Apply(w, steps[0]), After(w, steps));
    }
  }

  lemma StepEvolves(w: World, step: Step)
    requires Inv(w) && Enabled(w, step) && !step.WorkerRestarts?
    ensures MemoryEvolves(w, Apply(w, step))
  {
    hide Inv, MemoryEvolves;
    if step.ApplyWrite? {
      SameRecordsGrow(w, w);
      SameObjects(w, w.(applied := w.applied + 1));
    } else {
      StepGrows(w, step);
    }
  }

  lemma SameObjects(w: World, v: World)
    requires v.objs == w.objs && MemoryEvolves(w, w)
    ensures MemoryEvolves(w, v)
  {
  }

  lemma MemoryEvolvesTransitive(a: World, b: World, c: World)
    requires MemoryEvolves(a, b) && MemoryEvolves(b, c)
    ensures MemoryEvolves(a, c)
  {
    hide Evolves;
    forall sid | sid in a.objs ensures Evolves(a.objs[sid], c.objs[sid]) {
      EvolvesTransitive(a.objs[sid], b.objs[sid], c.objs[sid]);
    }
  }

  /** What storage has applied is never taken back. */
  lemma {:induction false} AppliedStays(w: World, steps: seq<Step>)
    requires Inv(w) && Run(w, steps)
    ensures var v := After(w, steps);
      w.applied <= v.applied < |v.writes| && w.writes[..w.applied + 1] <= v.writes
    decreases |steps|
  {
    hide DataOk, TasksOk;
    AppliedInRange(w);
    if steps != [] {
      StepKeepsInv(w, steps[0]);
      StepKeepsApplied(w, steps[0]);
      AppliedStays(Apply(w, steps[0]), steps[1..]);
    }
  }

  lemma AppliedInRange(w: World)
    requires Inv(w)
    ensures w.applied < |w.writes|
  {
  }

  lemma StorageStepKeepsApplied(w: World, step: Step)
    requires Enabled(w, step) && (step.WorkerRestarts? || step.ApplyWrite?) && w.applied < |w.writes|
    ensures var v := Apply(w, step);
      w.applied <= v.applied < |v.writes| && w.writes[..w.applied + 1] <= v.writes[..v.applied + 1]
  {
  }

  lemma StepKeepsApplied(w: World, step: Step)
    requires Inv(w) && Enabled(w, step) && w.applied < |w.writes|
    ensures var v := Apply(w, step);
      w.applied <= v.applied < |v.writes| && w.writes[..w.applied + 1] <= v.writes[..v.applied + 1]
  {
    hide Inv, Enabled, Apply;
    if step.WorkerRestarts? || step.ApplyWrite? {
      StorageStepKeepsApplied(w, step);
    } else {
      StepGrows(w, step);
    }
  }

  /**
   * On disk a session's record only evolves too, over the whole run and every restart; and what is in memory later
   * has evolved from what was on disk. No later persist writes an active status back.
   */
  lemma DiskOnlyEvolves(w: World, steps: seq<Step>)
    requires Inv(w) && Run(w, steps)
    ensures var v := After(w, steps);
      && w.applied < |w.writes| && v.applied < |v.writes|
      && StoreEvolves(Disk(w), Disk(v)) && StoreEvolves(Disk(w), v.objs)
  {
    var v := After(w, steps);
    RunKeepsInv(w, steps);
    AppliedStays(w, steps);
    ChainAt(v, w.applied, v.applied);
    assert v.writes[w.applied] == w.writes[..w.applied + 1][w.applied];
  }

  lemma ChainAt(v: World, i: nat, j: nat)
    requires Inv(v) && i <= j < |v.writes|
    ensures StoreEvolves(v.writes[i], v.writes[j]) && StoreEvolves(v.writes[i], v.objs)
  {
    hide TasksOk, SessionsShape, SlotsShape, WritesShape, TimersShape, StoresOk, HistoryOk;
    assert Chain(v);
  }

  // ------------------------------------------------------------------ provenance

  /** Every arrival that may be filled is fresh, or is mail its mailbox's baseline did not know. */
  lemma ArrivalsAreFreshOrNew(w: World, sid: SessionId, a: Arrival)
    requires Reachable(w) && sid in w.objs && a in w.objs[sid].arrivals
    ensures var s, c := w.objs[sid], a.candidate;
      if IsSms(c.mailbox) then
        c.received.Some? && c.received.value >= s.info.start - 120_000
      else
        || (c.received.Some? && c.received.value >= s.info.start - 120_000)
        || (c.mailbox in s.email && ProvenanceKey(c.mailbox, c.messageId) !in s.email[c.mailbox])
  {
    ReachableInv(w);
    RecordAt(w, sid);
    assert Provenance(w.objs[sid], a);
  }

  /** A mailbox without a baseline contributes nothing. */
  lemma UnbaselinedContributesNothing(w: World, sid: SessionId, a: Arrival)
    requires Reachable(w) && sid in w.objs && a in w.objs[sid].arrivals
    ensures var m := a.candidate.mailbox; if IsSms(m) then m in w.objs[sid].sms else m in w.objs[sid].email
  {
    ReachableInv(w);
    RecordAt(w, sid);
    assert Provenance(w.objs[sid], a);
  }

  /** Undated, or older than the grace before the session. */
  ghost predicate Old(c: Candidate, s: Session) {
    c.received.None? || c.received.value < s.info.start - PRESESSION_GRACE_MS
  }

  /** Old mail a baseline recorded, or an old text message. */
  ghost predicate BaselinedOld(s: Session, c: Candidate) {
    && Old(c, s)
    && (IsSms(c.mailbox) ||
        (c.mailbox in s.email && ProvenanceKey(c.mailbox, c.messageId) in s.email[c.mailbox]))
  }

  /** The first row of the conversation shows the same text, and has not turned from read to unread. */
  ghost predicate ShowsNothingNew(rows: seq<Row>, c: Candidate) {
    exists k :: 0 <= k < |rows| &&
      FirstRowOf(rows, c.href, k) && rows[k].hash == c.hash && (c.unread ==> rows[k].unread)
  }

  ghost predicate FirstRowOf(rows: seq<Row>, href: string, k: nat) {
    k < |rows| && rows[k].href == href && forall j :: 0 <= j < k ==> rows[j].href != href
  }

  /** A candidate without a reference, or an unchanged conversation row, of a snapshot-seeded baseline. */
  ghost predicate UnchangedRow(s: Session, c: Candidate) {
    && IsSms(c.mailbox) && c.mailbox in s.sms && s.sms[c.mailbox].seed.FromSnapshot?
    && (c.href == "" || ShowsNothingNew(s.sms[c.mailbox].rows, c))
  }

  lemma {:induction false} FindsFirstRow(rows: seq<Row>, href: string, k: nat)
    requires FirstRowOf(rows, href, k)
    ensures FindRow(rows, href) == Some(rows[k])
  {
    if k > 0 { FindsFirstRow(rows[1..], href, k - 1); }
  }

  lemma NothingNewIsNoNewRow(c: Candidate, rows: seq<Row>)
    requires c.href == "" || ShowsNothingNew(rows, c)
    ensures !NewRow(c, rows)
  {
    if c.href != "" {
      var k :| 0 <= k < |rows| &&
        FirstRowOf(rows, c.href, k) && rows[k].hash == c.hash && (c.unread ==> rows[k].unread);
      FindsFirstRow(rows, c.href, k);
    }
  }

  ghost predicate NeverArrived(s: Session, c: Candidate) {
    forall a :: a in s.arrivals ==> a.candidate != c
  }

  lemma RecordExcludes(s: Session, c: Candidate)
    requires RecordOk(s) && (BaselinedOld(s, c) || UnchangedRow(s, c))
    ensures NeverArrived(s, c)
  {
    hide NewRow;
    if UnchangedRow(s, c) { NothingNewIsNoNewRow(c, s.sms[c.mailbox].rows); }
    forall a | a in s.arrivals ensures a.candidate != c { assert Provenance(s, a); }
  }

  /**
   * Baselined old mail never leaks: what a record on disk excludes is in no arrival of that session, on disk or in
   * memory, at any later time of the run, restarts included.
   */
  lemma BaselinedMailNeverLeaks(w: World, steps: seq<Step>, sid: SessionId, c: Candidate)
    requires Reachable(w) && Run(w, steps) && w.applied < |w.writes| && sid in Disk(w)
    requires BaselinedOld(Disk(w)[sid], c) || UnchangedRow(Disk(w)[sid], c)
    ensures var v := After(w, steps);
      && (sid in v.objs ==> NeverArrived(v.objs[sid], c))
      && v.applied < |v.writes| && (sid in Disk(v) ==> NeverArrived(Disk(v)[sid], c))
  {
    hide Inv;
    ReachableInv(w);
    DiskOnlyEvolves(w, steps);
    RunKeepsInv(w, steps);
    var v := After(w, steps);
    if sid in v.objs { RecordAt(v, sid); RecordExcludes(v.objs[sid], c); }
    if sid in Disk(v) { StoredRecordAt(v, v.applied, sid); RecordExcludes(Disk(v)[sid], c); }
  }

  lemma StoredRecordAt(w: World, k: nat, sid: SessionId)
    requires Inv(w) && k < |w.writes| && sid in w.writes[k]
    ensures RecordOk(w.writes[k][sid])
  {
    assert StoreOk(w.writes[k]);
  }

  /** The same within one process, from the moment the baseline is in memory. */
  lemma BaselinedMailNeverLeaksInMemory(w: World, steps: seq<Step>, sid: SessionId, c: Candidate)
    requires Reachable(w) && Run(w, steps) && SameProcess(steps) && sid in w.objs
    requires BaselinedOld(w.objs[sid], c) || UnchangedRow(w.objs[sid], c)
    ensures sid in After(w, steps).objs && NeverArrived(After(w, steps).objs[sid], c)
  {
    hide Inv;
    ReachableInv(w);
    MemoryOnlyEvolves(w, steps);
    RunKeepsInv(w, steps);
    RecordAt(After(w, steps), sid);
    RecordExcludes(After(w, steps).objs[sid], c);
  }

  // ------------------------------------------------------------------ fills

  /**
   * An announced fill names an arrival that was eligible and scored highest among the eligible ones, first among its
   * equals and at least the accepted minimum; a text-message code was at least five seconds old when it was chosen.
   */
  lemma AnnouncedFillIsSound(w: World, k: nat)
    requires Reachable(w) && k < |w.history| && w.history[k].Announced? && w.history[k].verdict.Fill?
    ensures var e := w.history[k];
      var ch := e.verdict.choice;
      && FirstBest(ch.eligible, ch.scores, ch.pos) && ch.scores[ch.pos] >= 10.0
      && |ch.eligible| <= |e.session.arrivals|
      && e.session.status.Filled? && e.session.lastCode == Some(ch) && ch.at <= e.at
      && (var a := e.session.arrivals[ch.pos];
          && Provenance(e.session, a)
          && (IsSms(a.candidate.mailbox) && !IsMagicLink(a) ==> ReceivedAt(a) <= ch.at - 5_000))
  {
    ReachableInv(w);
    EventAt(w, k);
    var e := w.history[k];
    assert RecordOk(e.session);
    assert e.session.arrivals[e.verdict.choice.pos] in e.session.arrivals;
  }

  // ------------------------------------------------------------------ starts that overtake initialize

  /**
   * initialize, finishing when the worker already holds sessions: it adds the stored active ones and cancels nothing.
   */
  function LateLoad(memory: Store, store: Store): Store {
    memory + ActiveOf(store)
  }

  /** A worker that has started but not loaded yet. */
  function Blank(w: World): World {
    w.(objs := map[], slots := [], live := {}, capturing := {}, executed := {}, schedules := map[], tasks := map[])
  }

  /**
   * A restart is one step of the model; this is why it must be. If a tab's start is handled after the worker came up
   * but before initialize has loaded the stored sessions, and storage holds an active session of that tab, then the
   * late load always leaves the tab with two.
   */
  lemma StartBeforeLoadBreaksTabs(w: World, stored: SessionId, t: nat, request: Request, id: SessionId)
    requires Reachable(w) && w.applied < |w.writes| && stored in Disk(w) && Disk(w)[stored].status.Active?
    requires request.tab == Disk(w)[stored].info.tab && id !in w.requests
    ensures !OneActivePerTab(LateLoad(Scan(Blank(w), t, request, 0, id).objs, Disk(w)))
  {
    ReachableInv(w);
    assert StoreShape(Disk(w), w.requests);
    var memory := Scan(Blank(w), t, request, 0, id).objs;
    assert id in memory && memory[id].status.Active? && id !in Disk(w);
    assert stored in LateLoad(memory, Disk(w));
  }

  /** At the call: such a start is harmless exactly when storage holds no active session of its tab. */
  lemma StartBeforeLoadKeepsTabsIff(w: World, t: nat, request: Request, id: SessionId)
    requires Reachable(w) && w.applied < |w.writes| && id !in w.requests
    ensures OneActivePerTab(LateLoad(Scan(Blank(w), t, request, 0, id).objs, Disk(w))) <==>
      forall stored :: stored in Disk(w) && Disk(w)[stored].status.Active? ==> Disk(w)[stored].info.tab != request.tab
  {
    hide Inv;
    var store, memory := Disk(w), Scan(Blank(w), t, request, 0, id).objs;
    forall stored | stored in store && store[stored].status.Active? && store[stored].info.tab == request.tab
      ensures !OneActivePerTab(LateLoad(memory, store))
    {
      StartBeforeLoadBreaksTabs(w, stored, t, request, id);
    }
    if forall stored :: stored in store && store[stored].status.Active? ==> store[stored].info.tab != request.tab {
      ReachableInv(w);
      StoredTabs(w);
      assert memory.Keys == {id} && memory[id].info.tab == request.tab;
      LateLoadKeepsTabsIff(memory, store);
    }
  }

  lemma StoredTabs(w: World)
    requires Inv(w) && w.applied < |w.writes|
    ensures OneActivePerTab(Disk(w)) && forall sid :: sid in Disk(w) ==> sid in w.requests
  {
    assert StoreOk(w.writes[w.applied]) && StoreShape(w.writes[w.applied], w.requests);
  }

  /** A late load is harmless exactly when no tab has one active session in memory and another one in storage. */
  lemma LateLoadKeepsTabsIff(memory: Store, store: Store)
    requires OneActivePerTab(memory) && OneActivePerTab(store)
    requires forall sid :: sid in memory && sid in store ==> memory[sid].info == store[sid].info
    ensures OneActivePerTab(LateLoad(memory, store)) <==>
      forall a, b :: a in memory && b in store && a != b && memory[a].status.Active? && store[b].status.Active?
        ==> memory[a].info.tab != store[b].info.tab
  {
    var late := LateLoad(memory, store);
    if OneActivePerTab(late) {
      forall a, b | a in memory && b in store && a != b && memory[a].status.Active? && store[b].status.Active?
        ensures memory[a].info.tab != store[b].info.tab
      {
        assert a in late && b in late && late[a].info == memory[a].info && late[a].status.Active?;
      }
    }
  }
}
