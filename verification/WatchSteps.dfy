/** Every step of the watch-session protocol keeps the invariant. */
module WatchSteps {
  import opened Prelude
  import opened WatchTypes
  import opened WatchProtocol
  import opened WatchInvariant

  lemma InitInv()
    ensures Inv(EMPTY)
  {
  }

  // ------------------------------------------------------------------ what the invariant says of one thing

  lemma TaskAt(w: World, t: nat)
    requires Inv(w) && t in w.tasks
    ensures TaskOk(w, w.tasks[t])
  {
  }

  lemma PairAt(w: World, t: nat, u: nat)
    requires Inv(w) && t in w.tasks && u in w.tasks && t != u
    ensures Compatible(w, w.tasks[t], w.tasks[u])
  {
  }

  lemma RecordAt(w: World, sid: SessionId)
    requires Inv(w) && sid in w.objs
    ensures RecordOk(w.objs[sid]) && sid in w.requests && w.objs[sid].info == w.requests[sid]
  {
  }

  lemma EventAt(w: World, k: nat)
    requires Inv(w) && k < |w.history|
    ensures EventOk(w, w.history[k])
  {
  }

  lemma SlotsAt(w: World)
    requires Inv(w)
    ensures SlotsShape(w) && SessionsShape(w)
  {
  }

  lemma TimerAt(w: World, p: (SessionId, nat))
    requires Inv(w) && p in w.timers
    ensures p.0 in w.requests && p.1 < w.requests[p.0].polls
  {
  }

  /** Replacing a waiting task is ending it and adding the new one. */
  lemma ReplaceTask(w: World, t: nat, task: Task)
    requires Inv(w) && TaskOk(w, task)
    requires forall u :: u in w.tasks && u != t ==> Compatible(w, w.tasks[u], task)
    ensures Inv(SetTask(w, t, task))
  {
    hide DataOk, TasksOk;
    EndTaskKeeps(w, t);
    var w0 := EndTask(w, t);
    SameDataTask(w, w0, task);
    AddTaskKeeps(w0, t, task);
    assert w0.tasks[t := task] == w.tasks[t := task];
    assert SetTask(w0, t, task) == SetTask(w, t, task);
  }

  // ------------------------------------------------------------------ startSession and cancelSession

  lemma BeginCancelKeeps(w: World, t: nat, sid: SessionId, ret: Return)
    requires Inv(w) && sid in w.objs
    requires ReturnOk(SetSession(w, sid, Stopped(w.objs[sid])), ret)
    ensures Inv(BeginCancel(w, t, sid, ret))
  {
    hide DataOk, TasksOk;
    var s := Stopped(w.objs[sid]);
    RecordAt(w, sid);
    SetSessionKeeps(w, sid, s);
    ReplaceTask(SetSession(w, sid, s), t, Canceling(sid, ret));
  }

  function Stopped(s: Session): Session {
    if s.status.Active? then s.(status := Canceled) else s
  }

  lemma ScanKeeps(w: World, t: nat, request: Request, cursor: nat, id: SessionId)
    requires Inv(w) && t in w.tasks && w.tasks[t] == Starting(request, cursor) && id !in w.requests
    ensures Inv(Scan(w, t, request, cursor, id))
  {
    hide DataOk, TasksOk;
    TaskAt(w, t);
    var k := NextToCancel(w, request.tab, cursor);
    PassedIsClean(w, request.tab, cursor);
    if k < |w.slots| {
      CancelNextKeeps(w, t, request, k);
    } else {
      ScanInserts(w, t, request, cursor, id);
    }
  }

  /** What the loop passes over holds no active session of the tab. */
  lemma PassedIsClean(w: World, tab: int, cursor: nat)
    requires Inv(w) && Clean(w, tab, cursor)
    ensures Clean(w, tab, NextToCancel(w, tab, cursor))
  {
    hide DataOk, TasksOk;
    SlotsAt(w);
    forall i | 0 <= i < NextToCancel(w, tab, cursor)
      ensures w.slots[i] in w.objs && (w.objs[w.slots[i]].info.tab == tab ==> !w.objs[w.slots[i]].status.Active?)
    {
      if i >= cursor { assert !ToCancel(w, tab, w.slots[i]); }
    }
  }

  /** The session to cancel stops at once, so the loop may go on behind its slot. */
  lemma CancelNextKeeps(w: World, t: nat, request: Request, k: nat)
    requires Inv(w) && k < |w.slots| && w.slots[k] in w.objs && Clean(w, request.tab, k)
    ensures Inv(BeginCancel(w, t, w.slots[k], BackToStart(request, k + 1)))
  {
    hide DataOk, TasksOk, BeginCancel;
    BeginCancelKeeps(w, t, w.slots[k], BackToStart(request, k + 1));
  }

  lemma ScanInserts(w: World, t: nat, request: Request, cursor: nat, id: SessionId)
    requires Inv(w) && cursor <= |w.slots| && id !in w.requests
    requires NextToCancel(w, request.tab, cursor) == |w.slots| && Clean(w, request.tab, |w.slots|)
    ensures Inv(Scan(w, t, request, cursor, id))
  {
    hide DataOk, TasksOk;
    var info := Info(request.tab, w.now, request.timeout, |PollTimes(request.timeout)|, request.sms, request.email);
    SlotsAt(w);
    forall sid | sid in w.objs && w.objs[sid].info.tab == info.tab ensures !w.objs[sid].status.Active? {
      assert sid in w.slots;
    }
    InsertKeeps(w, id, info);
    var w1 := Insert(w, id, info);
    PersistKeeps(w1);
    ReplaceTask(Persist(w1), t, StartSaved(id, |w.writes|));
  }

  lemma FinishStartKeeps(w: World, t: nat, sid: SessionId)
    requires Inv(w) && sid in w.objs
    ensures Inv(FinishStart(w, t, sid))
  {
    hide DataOk, TasksOk;
    var w1 := SchedulePolls(w, sid, w.objs[sid].info.polls);
    RecordAt(w, sid);
    SchedulePollsKeeps(w, sid, w.objs[sid].info.polls);
    EndTaskKeeps(w1, t);
  }

  lemma CommitCancelKeeps(w: World, t: nat, sid: SessionId, ret: Return)
    requires Inv(w) && t in w.tasks && w.tasks[t] == Canceling(sid, ret)
    ensures Inv(CommitCancel(w, t, sid, ret))
  {
    hide DataOk, TasksOk;
    TaskAt(w, t);
    CancelPollsKeeps(w, sid);
    var w1 := CancelPolls(w, sid);
    RemoveKeeps(w1, sid);
    var w2 := w1.(live := w1.live - {sid});
    PersistKeeps(w2);
    ReplaceTask(Persist(w2), t, CancelSaved(sid, ret, |w.writes|));
  }

  lemma NotifyCancelKeeps(w: World, t: nat, sid: SessionId, ret: Return)
    requires Inv(w) && t in w.tasks && w.tasks[t].CancelSaved? && w.tasks[t].ret == ret
    ensures Inv(NotifyCancel(w, t, sid, ret))
  {
    hide DataOk, TasksOk;
    TaskAt(w, t);
    LogKeeps(w, CancelNotice(sid));
    var w1 := Log(w, CancelNotice(sid));
    if ret.Alone? {
      EndTaskKeeps(w1, t);
    } else {
      ReplaceTask(w1, t, Starting(ret.request, ret.cursor));
    }
  }

  // ------------------------------------------------------------------ polls

  lemma FireKeeps(w: World, t: nat, sid: SessionId, index: nat)
    requires Inv(w) && t !in w.tasks && (sid, index) in w.timers
    ensures Inv(Fire(w, t, sid, index))
  {
    hide DataOk, TasksOk;
    if (sid, index) !in w.executed {
      MarkKeeps(w, (sid, index));
      var w1 := w.(executed := w.executed + {(sid, index)});
      if sid in w.live && sid in w.objs && w.objs[sid].status.Active? && index !in w.objs[sid].completed {
        FirePasses(w, t, sid, index);
      }
    }
  }

  lemma FirePasses(w: World, t: nat, sid: SessionId, index: nat)
    requires Inv(w) && t !in w.tasks && (sid, index) in w.timers && (sid, index) !in w.executed
    requires Inv(w.(executed := w.executed + {(sid, index)}))
    requires sid in w.objs && w.objs[sid].status.Active? && index !in w.objs[sid].completed
    ensures var w1 := w.(executed := w.executed + {(sid, index)});
      Inv(Log(SetTask(w1, t, Polling(sid, index)), Passed(w.epoch, sid, index)))
  {
    hide DataOk, TasksOk;
    var w1 := w.(executed := w.executed + {(sid, index)});
    var task := Polling(sid, index);
    RecordAt(w, sid);
    TimerAt(w, (sid, index));
    forall k | 0 <= k < |w.history| ensures !IsSkip(w.history[k], w.epoch, sid, index) {
      EventAt(w, k);
    }
    forall u | u in w1.tasks ensures Compatible(w1, w1.tasks[u], task) {
      TaskAt(w, u);
    }
    AddTaskKeeps(w1, t, task);
    var e := Passed(w.epoch, sid, index);
    forall k | 0 <= k < |w.history| ensures !Clash(w.history[k], e) {
      EventAt(w, k);
    }
    LogKeeps(SetTask(w1, t, task), e);
  }

  lemma PollGivesUpKeeps(w: World, t: nat)
    requires Inv(w) && t in w.tasks && w.tasks[t].Polling?
    ensures Inv(SetTask(w, t, Returning(w.tasks[t].sid, w.tasks[t].index, NoCode)))
  {
    hide DataOk, TasksOk;
    var task := w.tasks[t];
    TaskAt(w, t);
    StillInFlight(w, t, Returning(task.sid, task.index, NoCode));
    ReplaceTask(w, t, Returning(task.sid, task.index, NoCode));
  }

  /** Another stage of the same poll is as compatible as the stage before. */
  lemma StillInFlight(w: World, t: nat, task: Task)
    requires Inv(w) && t in w.tasks && InFlight(w.tasks[t]) && InFlight(task)
    requires task.sid == w.tasks[t].sid && task.index == w.tasks[t].index
    requires task.Capturing? ==> w.tasks[t].Capturing? || w.tasks[t].sid !in w.capturing
    ensures forall u :: u in w.tasks && u != t ==> Compatible(w, w.tasks[u], task)
  {
    hide DataOk, TasksOk;
    forall u | u in w.tasks && u != t ensures Compatible(w, w.tasks[u], task) {
      PairAt(w, u, t); TaskAt(w, u);
    }
  }

  lemma EnterCaptureKeeps(w: World, t: nat)
    requires Inv(w) && t in w.tasks && w.tasks[t].Polling?
    ensures Inv(EnterCapture(w, t, w.tasks[t].sid, w.tasks[t].index))
  {
    hide DataOk, TasksOk;
    var sid, index := w.tasks[t].sid, w.tasks[t].index;
    TaskAt(w, t);
    if sid in w.capturing {
      StillInFlight(w, t, Returning(sid, index, Skipped));
      ReplaceTask(w, t, Returning(sid, index, Skipped));
    } else {
      var task := Capturing(sid, index, Fetching, map[], map[]);
      StillInFlight(w, t, task);
      CaptureKeeps(w, sid);
      var w1 := w.(capturing := w.capturing + {sid});
      forall u | u in w1.tasks && u != t ensures Compatible(w1, w1.tasks[u], task) {
        assert Compatible(w, w.tasks[u], task);
      }
      ReplaceTask(w1, t, task);
    }
  }

  lemma LeaveCaptureKeeps(w: World, t: nat, outcome: Outcome)
    requires Inv(w) && t in w.tasks && w.tasks[t].Capturing?
    requires w.tasks[t].sid in w.objs && OutcomeOk(w, w.objs[w.tasks[t].sid], outcome)
    ensures Inv(LeaveCapture(w, t, w.tasks[t].sid, w.tasks[t].index, outcome))
  {
    hide DataOk, TasksOk;
    var sid, index := w.tasks[t].sid, w.tasks[t].index;
    var task := Returning(sid, index, outcome);
    TaskAt(w, t);
    StillInFlight(w, t, task);
    ReplaceTask(w, t, task);
    var w1 := SetTask(w, t, task);
    forall u | u in w1.tasks && w1.tasks[u].Capturing? ensures w1.tasks[u].sid != sid {
      PairAt(w, u, t);
    }
    ReleaseKeeps(w1, sid);
  }

  lemma CaptureFailsKeeps(w: World, t: nat)
    requires Inv(w) && t in w.tasks && w.tasks[t].Capturing?
    ensures Inv(LeaveCapture(w, t, w.tasks[t].sid, w.tasks[t].index, NoCode))
  {
    hide DataOk, TasksOk;
    TaskAt(w, t);
    LeaveCaptureKeeps(w, t, NoCode);
  }

  lemma LeavesKeeps(w: World, t: nat)
    requires Inv(w) && t in w.tasks && w.tasks[t].Capturing? && w.tasks[t].phase.Decided?
    ensures Inv(LeaveCapture(w, t, w.tasks[t].sid, w.tasks[t].index, w.tasks[t].phase.outcome))
  {
    hide DataOk, TasksOk;
    TaskAt(w, t);
    LeaveCaptureKeeps(w, t, w.tasks[t].phase.outcome);
  }

  /** Another phase of the same capture, the sessions being as they are. */
  lemma NextPhaseKeeps(w: World, t: nat, task: Task)
    requires Inv(w) && t in w.tasks && w.tasks[t].Capturing? && task.Capturing?
    requires task.sid == w.tasks[t].sid && task.index == w.tasks[t].index
    requires task.sid in w.objs && PhaseOk(w, w.objs[task.sid], task.phase)
    ensures Inv(SetTask(w, t, task))
  {
    hide DataOk, TasksOk;
    TaskAt(w, t);
    StillInFlight(w, t, task);
    ReplaceTask(w, t, task);
  }

  lemma FetchedKeeps(w: World, t: nat, results: seq<AdapterResult>, candidates: seq<Candidate>)
    requires Inv(w) && t in w.tasks && w.tasks[t].Capturing? && w.tasks[t].phase.Fetching?
    ensures Inv(SetTask(w, t, w.tasks[t].(phase := Baselining(results, candidates, 0, {}, false))))
  {
    hide DataOk, TasksOk;
    TaskAt(w, t);
    NextPhaseKeeps(w, t, w.tasks[t].(phase := Baselining(results, candidates, 0, {}, false)));
  }

  lemma BufferBatchKeeps(w: World, t: nat, mailbox: Mailbox, batch: seq<Message>)
    requires Inv(w) && t in w.tasks && w.tasks[t].Capturing? && w.tasks[t].phase.Fetching? && w.tasks[t].sid in w.objs
    ensures Inv(BufferBatch(w, t, w.tasks[t], mailbox, batch))
  {
    hide DataOk, TasksOk;
    var v := BufferBatch(w, t, w.tasks[t], mailbox, batch);
    if v != w { NextPhaseKeeps(w, t, v.tasks[t]); }
  }

  /**
   * A step of the poll that holds the sentinel: it writes its session's record, and no other poll of the session is
   * in its critical section.
   */
  lemma CaptureWriteKeeps(w: World, t: nat, s: Session)
    requires Inv(w) && t in w.tasks && w.tasks[t].Capturing? && w.tasks[t].sid in w.objs
    requires Evolves(w.objs[w.tasks[t].sid], s) && RecordOk(s)
    requires s.status == w.objs[w.tasks[t].sid].status && s.completed == w.objs[w.tasks[t].sid].completed
    ensures Inv(SetSession(EndTask(w, t), w.tasks[t].sid, s))
  {
    hide DataOk, TasksOk;
    var sid := w.tasks[t].sid;
    var w0 := EndTask(w, t);
    EndTaskKeeps(w, t);
    forall u | u in w0.tasks ensures Accepts(w0, w0.tasks[u], sid, s) {
      PairAt(w, u, t); TaskAt(w, u);
    }
    SetSessionKeeps(w0, sid, s);
  }

  /** ... and goes on to its next phase. */
  lemma CaptureOnward(w: World, t: nat, s: Session, task: Task)
    requires Inv(w) && t in w.tasks && w.tasks[t].Capturing? && w.tasks[t].sid in w.objs
    requires Evolves(w.objs[w.tasks[t].sid], s) && RecordOk(s)
    requires s.status == w.objs[w.tasks[t].sid].status && s.completed == w.objs[w.tasks[t].sid].completed
    requires task.Capturing? && task.sid == w.tasks[t].sid && task.index == w.tasks[t].index
    requires PhaseOk(w, s, task.phase)
    ensures Inv(SetTask(SetSession(w, task.sid, s), t, task))
  {
    hide DataOk, TasksOk;
    var sid := task.sid;
    CaptureWriteKeeps(w, t, s);
    var w1 := SetSession(EndTask(w, t), sid, s);
    TaskAt(w, t);
    forall u | u in w1.tasks ensures Compatible(w1, w1.tasks[u], task) {
      PairAt(w, u, t);
    }
    AddTaskKeeps(w1, t, task);
    assert (w.tasks - {t})[t := task] == w.tasks[t := task];
  }

  lemma BaselineResultKeeps(w: World, t: nat, saved: bool)
    requires Inv(w) && t in w.tasks && w.tasks[t].Capturing? && w.tasks[t].phase.Baselining? && w.tasks[t].sid in w.objs
    requires w.tasks[t].phase.next < |w.tasks[t].phase.results|
    ensures Inv(BaselineResult(w, t, w.tasks[t], saved))
  {
    hide DataOk, TasksOk;
    var task := w.tasks[t];
    TaskAt(w, t);
    var p := task.phase;
    var r := p.results[p.next];
    var s := w.objs[task.sid];
    var onward := task.(phase := p.(next := p.next + 1, loading := false));
    if !r.success || !r.known || (!IsSms(r.mailbox) && r.mailbox in s.email) {
      NextPhaseKeeps(w, t, onward);
    } else if !IsSms(r.mailbox) {
      var keys := if r.mailbox in task.keys then task.keys[r.mailbox] else [];
      EmailBaselineKeeps(w, t, onward, r.mailbox, keys);
    } else if r.mailbox in s.sms && !p.loading {
      SaveSnapshotKeeps(w, r.mailbox, task.rows, saved);
      NextPhaseKeeps(SaveSnapshot(w, r.mailbox, task.rows, saved), t, onward);
    } else if !p.loading {
      NextPhaseKeeps(w, t, task.(phase := p.(loading := true)));
    } else {
      FinishLoadKeeps(w, t, saved);
    }
  }

  lemma SaveSnapshotKeeps(w: World, mailbox: Mailbox, rows: map<Mailbox, seq<Row>>, saved: bool)
    requires Inv(w)
    ensures Inv(SaveSnapshot(w, mailbox, rows, saved))
  {
    hide DataOk, TasksOk;
    ClockAndSnapshotsKeep(w, SaveSnapshot(w, mailbox, rows, saved));
  }

  lemma EmailBaselineKeeps(w: World, t: nat, onward: Task, mailbox: Mailbox, keys: seq<string>)
    requires Inv(w) && t in w.tasks && w.tasks[t].Capturing? && w.tasks[t].sid in w.objs
    requires onward.Capturing? && onward.sid == w.tasks[t].sid && onward.index == w.tasks[t].index
    requires onward.phase.Baselining? && !onward.phase.loading && PhaseOk(w, w.objs[onward.sid], onward.phase)
    requires !IsSms(mailbox) && mailbox !in w.objs[onward.sid].email
    ensures var s := w.objs[onward.sid];
      Inv(SetTask(SetSession(w, onward.sid, s.(email := s.email[mailbox := keys])), t,
                  onward.(phase := onward.phase.(current := onward.phase.current + {mailbox}))))
  {
    hide DataOk, TasksOk;
    var s := w.objs[onward.sid];
    var s' := s.(email := s.email[mailbox := keys]);
    RecordAt(w, onward.sid);
    ProvenanceStays(s, s');
    CaptureOnward(w, t, s', onward.(phase := onward.phase.(current := onward.phase.current + {mailbox})));
  }

  /** Adding a baseline for a mailbox that had none keeps every arrival lawful. */
  lemma ProvenanceStays(s: Session, s': Session)
    requires (forall a :: a in s.arrivals ==> Provenance(s, a)) && s'.arrivals == s.arrivals && s'.info == s.info
    requires forall m :: m in s.sms ==> m in s'.sms && s'.sms[m] == s.sms[m]
    requires forall m :: m in s.email ==> m in s'.email && s'.email[m] == s.email[m]
    ensures forall a :: a in s'.arrivals ==> Provenance(s', a)
  {
    forall a | a in s'.arrivals ensures Provenance(s', a) { assert Provenance(s, a); }
  }

  lemma FinishLoadKeeps(w: World, t: nat, saved: bool)
    requires Inv(w) && t in w.tasks && w.tasks[t].Capturing? && w.tasks[t].phase.Baselining? && w.tasks[t].sid in w.objs
    requires w.tasks[t].phase.next < |w.tasks[t].phase.results| && w.tasks[t].phase.loading
    ensures Inv(FinishLoad(w, t, w.tasks[t], saved))
  {
    hide DataOk, TasksOk;
    var task := w.tasks[t];
    TaskAt(w, t);
    var p := task.phase;
    var mailbox := p.results[p.next].mailbox;
    var s := w.objs[task.sid];
    var snapshot := UsableSnapshot(if mailbox in w.snapshots then Some(w.snapshots[mailbox]) else None, s.info.start);
    var baseline :=
      if snapshot.Some? then SmsBaseline(snapshot.value.rows, FromSnapshot(snapshot.value.observedAt))
      else SmsBaseline(if mailbox in task.rows then task.rows[mailbox] else [], FromBatch);
    var s' := s.(sms := s.sms[mailbox := baseline]);
    RecordAt(w, task.sid);
    ProvenanceStays(s, s');
    var onward := task.(phase := p.(next := p.next + 1, loading := false,
      current := if snapshot.Some? then p.current else p.current + {mailbox}));
    CaptureOnward(w, t, s', onward);
    SaveSnapshotKeeps(SetTask(SetSession(w, task.sid, s'), t, onward), mailbox, task.rows, saved);
  }

  lemma ClassifyKeeps(w: World, t: nat)
    requires Inv(w) && t in w.tasks && w.tasks[t].Capturing? && w.tasks[t].phase.Baselining? && w.tasks[t].sid in w.objs
    ensures Inv(Classify(w, t, w.tasks[t]))
  {
    hide DataOk, TasksOk;
    var task := w.tasks[t];
    TaskAt(w, t);
    var s := w.objs[task.sid];
    var added := NewArrivals(s, task.phase.current, task.phase.candidates, w.now);
    var s' := s.(arrivals := s.arrivals + added);
    RecordAt(w, task.sid);
    ArrivalsOk(s, task.phase.current, task.phase.candidates, w.now);
    GoodChoiceStays(s.arrivals, s'.arrivals);
    CaptureWriteKeeps(w, t, s');
    var w1 := SetSession(EndTask(w, t), task.sid, s');
    PersistKeeps(w1);
    var w2 := Persist(w1);
    var onward := task.(phase := Recorded(|w.writes|));
    forall u | u in w2.tasks ensures Compatible(w2, w2.tasks[u], onward) {
      PairAt(w, u, t);
    }
    AddTaskKeeps(w2, t, onward);
    assert (w.tasks - {t})[t := onward] == w.tasks[t := onward];
  }

  lemma ArrivalsOk(s: Session, current: set<Mailbox>, cs: seq<Candidate>, now: int)
    requires RecordOk(s) && CurrentOk(s, current)
    ensures var s' := s.(arrivals := s.arrivals + NewArrivals(s, current, cs, now));
      forall a :: a in s'.arrivals ==> Provenance(s', a)
  {
    var added := NewArrivals(s, current, cs, now);
    var s' := s.(arrivals := s.arrivals + added);
    forall a | a in s'.arrivals ensures Provenance(s', a) {
      if a in s.arrivals {
        assert Provenance(s, a);
      } else {
        AdmitGivesProvenance(s, current, a.candidate, a.stamp);
      }
    }
  }

  lemma ChooseKeeps(w: World, t: nat, eligible: seq<bool>, scores: seq<real>, suppressed: bool)
    requires Inv(w) && t in w.tasks && w.tasks[t].Capturing? && w.tasks[t].sid in w.objs
    requires |eligible| == |scores| == |w.objs[w.tasks[t].sid].arrivals|
    ensures Inv(Choose(w, t, w.tasks[t], eligible, scores, suppressed))
  {
    hide DataOk, TasksOk;
    var s := w.objs[w.tasks[t].sid];
    DecideIsGood(s.arrivals, eligible, scores, suppressed, w.now);
    var choice := Decide(s.arrivals, eligible, scores, suppressed, w.now);
    NextPhaseKeeps(w, t, w.tasks[t].(phase := Decided(if choice.Some? then Found(choice.value) else NoCode)));
  }

  // ------------------------------------------------------------------ verdicts

  /** The poll ends its session: from here on only this task may announce it. */
  lemma TerminateKeeps(w: World, t: nat, s: Session, v: Verdict)
    requires Inv(w) && t in w.tasks && w.tasks[t].Returning? && w.tasks[t].sid in w.objs
    requires w.objs[w.tasks[t].sid].status.Active? && !s.status.Active?
    requires Evolves(w.objs[w.tasks[t].sid], s) && RecordOk(s) && VerdictHolds(s, v)
    requires s.sms == w.objs[w.tasks[t].sid].sms && (v.Fill? ==> v.choice.at <= w.now)
    requires CompletesUnskipped(w, w.tasks[t].sid, s)
    ensures Inv(Terminate(w, t, w.tasks[t].sid, s, v))
  {
    hide DataOk, TasksOk;
    var sid := w.tasks[t].sid;
    forall u | u in w.tasks ensures Accepts(w, w.tasks[u], sid, s) {}
    SetSessionKeeps(w, sid, s);
    var w1 := SetSession(w, sid, s);
    forall u | u in w1.tasks && u != t ensures Compatible(w1, w1.tasks[u], Closing(sid, v)) {
      TaskAt(w, u);
    }
    forall k | 0 <= k < |w.history| && w.history[k].Announced? ensures w.history[k].sid != sid {
      EventAt(w, k);
    }
    ReplaceTask(w1, t, Closing(sid, v));
  }

  lemma HandleOutcomeKeeps(w: World, t: nat)
    requires Inv(w) && t in w.tasks && w.tasks[t].Returning? && w.tasks[t].sid in w.objs
    ensures Inv(HandleOutcome(w, t, w.tasks[t].sid, w.tasks[t].index, w.tasks[t].outcome))
  {
    hide DataOk, TasksOk;
    var sid, index, outcome := w.tasks[t].sid, w.tasks[t].index, w.tasks[t].outcome;
    var s := w.objs[sid];
    RecordAt(w, sid); TaskAt(w, t);
    if !s.status.Active? {
      EndTaskKeeps(w, t);
    } else if outcome.Skipped? {
      SkipKeeps(w, t);
    } else {
      CompletedOk(s, index);
      var s1 := s.(completed := InsertSorted(s.completed, index));
      if outcome.Found? {
        TerminateKeeps(w, t, s1.(status := Filled, lastCode := Some(outcome.choice)), Fill(outcome.choice));
      } else if s.info.polls <= |s1.completed| {
        FullMeansUpTo(s1.completed, s.info.polls);
        TerminateKeeps(w, t, s1.(status := TimedOut), Exhausted);
      } else {
        ConsumeKeeps(w, t);
      }
    }
  }

  lemma CompletedOk(s: Session, index: nat)
    requires ProgressOk(s) && index < s.info.polls && index !in s.completed
    ensures var c := InsertSorted(s.completed, index);
      Increasing(c) && (forall i :: i in c <==> i == index || i in s.completed)
  {
    InsertSortedIncreasing(s.completed, index);
    InsertSortedMembers(s.completed, index);
  }

  lemma SkipKeeps(w: World, t: nat)
    requires Inv(w) && t in w.tasks && w.tasks[t].Returning? && w.tasks[t].sid in w.objs
    requires w.objs[w.tasks[t].sid].status.Active? && w.tasks[t].outcome.Skipped?
    ensures Inv(HandleOutcome(w, t, w.tasks[t].sid, w.tasks[t].index, Skipped))
  {
    hide DataOk, TasksOk;
    var sid, index := w.tasks[t].sid, w.tasks[t].index;
    var s := w.objs[sid];
    var e := SkippedPoll(w.epoch, sid, index, w.now);
    RecordAt(w, sid);
    TaskAt(w, t);
    if MustStall(s.info, index, w.now) {
      var s1 := s.(status := TimedOut);
      TerminateKeeps(w, t, s1, Stalled);
      var w1 := Terminate(w, t, sid, s1, Stalled);
      LogKeeps(w1, e);
    } else {
      EndTaskKeeps(w, t);
      var w0 := EndTask(w, t);
      forall u | u in w0.tasks ensures NotWaitingFor(w0, w0.tasks[u], sid, index) { PairAt(w, u, t); }
      LogKeeps(w0, e);
    }
  }

  /** A poll without a code uses up its index. */
  lemma ConsumeKeeps(w: World, t: nat)
    requires Inv(w) && t in w.tasks && w.tasks[t].Returning? && w.tasks[t].sid in w.objs
    requires var s := w.objs[w.tasks[t].sid];
      s.status.Active? && |InsertSorted(s.completed, w.tasks[t].index)| < s.info.polls
    ensures var s := w.objs[w.tasks[t].sid];
      var s1 := s.(completed := InsertSorted(s.completed, w.tasks[t].index));
      Inv(SetTask(Persist(SetSession(w, w.tasks[t].sid, s1)), t, Updating(w.tasks[t].sid, |w.writes|)))
  {
    hide DataOk, TasksOk;
    var sid, index := w.tasks[t].sid, w.tasks[t].index;
    var s := w.objs[sid];
    RecordAt(w, sid); TaskAt(w, t);
    CompletedOk(s, index);
    var s1 := s.(completed := InsertSorted(s.completed, index));
    EndTaskKeeps(w, t);
    var w0 := EndTask(w, t);
    forall u | u in w0.tasks ensures Accepts(w0, w0.tasks[u], sid, s1) {
      PairAt(w, u, t); TaskAt(w, u);
    }
    SetSessionKeeps(w0, sid, s1);
    var w1 := SetSession(w0, sid, s1);
    PersistKeeps(w1);
    AddTaskKeeps(Persist(w1), t, Updating(sid, |w.writes|));
    assert (w.tasks - {t})[t := Updating(sid, |w.writes|)] == w.tasks[t := Updating(sid, |w.writes|)];
  }

  lemma SaveVerdictKeeps(w: World, t: nat)
    requires Inv(w) && t in w.tasks && w.tasks[t].Closing?
    ensures Inv(SaveVerdict(w, t, w.tasks[t].sid, w.tasks[t].verdict))
  {
    hide DataOk, TasksOk;
    var sid, v := w.tasks[t].sid, w.tasks[t].verdict;
    TaskAt(w, t);
    PersistKeeps(w);
    var w1 := Persist(w);
    var task := Finishing(sid, v, |w.writes|);
    forall u | u in w1.tasks && u != t ensures Compatible(w1, w1.tasks[u], task) {
      PairAt(w, u, t);
    }
    ReplaceTask(w1, t, task);
  }

  lemma AnnounceKeeps(w: World, t: nat)
    requires Inv(w) && t in w.tasks && w.tasks[t].Finishing?
    requires w.tasks[t].ticket <= w.applied && w.tasks[t].sid in w.objs
    ensures Inv(Announce(w, t, w.tasks[t].sid, w.tasks[t].verdict))
  {
    hide DataOk, TasksOk;
    var sid, v := w.tasks[t].sid, w.tasks[t].verdict;
    TaskAt(w, t);
    EndTaskKeeps(w, t);
    var w0 := EndTask(w, t);
    CancelPollsKeeps(w0, sid);
    var w1 := CancelPolls(w0, sid);
    RecordAt(w, sid);
    var e := Announced(sid, w.objs[sid], v, w.now);
    forall u | u in w1.tasks && Deciding(w1.tasks[u]) ensures w1.tasks[u].sid != sid {
      PairAt(w, u, t);
    }
    LogKeeps(w1, e);
  }

  // ------------------------------------------------------------------ all steps

  ghost predicate IsPollStep(step: Step) {
    step.TimerFires? || step.PollGivesUp? || step.PollEnters? || step.AdapterBatch? || step.PollFetched? ||
    step.PollBaselines? || step.PollClassifies? || step.PollDecides? || step.PollLeaves? || step.PollReturns?
  }

  ghost predicate IsAnswerStep(step: Step) {
    step.PollBaselines? || step.PollClassifies? || step.PollDecides? || step.PollReturns?
  }

  lemma AnswerStepKeepsInv(w: World, step: Step)
    requires Inv(w) && Enabled(w, step) && IsAnswerStep(step)
    ensures Inv(Apply(w, step))
  {
    hide DataOk, TasksOk, TaskOk, SetTask, BaselineResult, Classify, Choose, HandleOutcome;
    if step.PollBaselines? {
      BaselineResultKeeps(w, step.t, step.saved);
    } else if step.PollClassifies? {
      ClassifyKeeps(w, step.t);
    } else if step.PollDecides? {
      ChooseKeeps(w, step.t, step.eligible, step.scores, step.suppressed);
    } else {
      HandleOutcomeKeeps(w, step.t);
    }
  }

  lemma PollStepKeepsInv(w: World, step: Step)
    requires Inv(w) && Enabled(w, step) && IsPollStep(step)
    ensures Inv(Apply(w, step))
  {
    hide DataOk, TasksOk, TaskOk, SetTask, Fire, LeaveCapture, EnterCapture, BufferBatch;
    if IsAnswerStep(step) {
      hide Inv, Apply, Enabled;
      AnswerStepKeepsInv(w, step);
    } else if step.TimerFires? {
      FireKeeps(w, step.t, step.target, step.index);
    } else if step.PollGivesUp? {
      if w.tasks[step.t].Polling? { PollGivesUpKeeps(w, step.t); } else { CaptureFailsKeeps(w, step.t); }
    } else if step.PollEnters? {
      EnterCaptureKeeps(w, step.t);
    } else if step.AdapterBatch? {
      BufferBatchKeeps(w, step.t, step.mailbox, step.batch);
    } else if step.PollFetched? {
      FetchedKeeps(w, step.t, step.results, step.candidates);
    } else {
      LeavesKeeps(w, step.t);
    }
  }

  ghost predicate IsSessionStep(step: Step) {
    step.CallStart? || step.ScanSlots? || step.StartDone? || step.CallCancel? || step.CancelCommit? ||
    step.CancelDone? || step.Resume?
  }

  lemma SessionStepKeepsInv(w: World, step: Step)
    requires Inv(w) && Enabled(w, step) && IsSessionStep(step)
    ensures Inv(Apply(w, step))
  {
    hide DataOk, TasksOk, Scan, FinishStart, BeginCancel, CommitCancel, NotifyCancel, SchedulePolls;
    if step.CallStart? {
      AddTaskKeeps(w, step.t, Starting(step.request, 0));
    } else if step.ScanSlots? {
      ScanKeeps(w, step.t, w.tasks[step.t].request, w.tasks[step.t].cursor, step.id);
    } else if step.StartDone? {
      FinishStartKeeps(w, step.t, w.tasks[step.t].sid);
    } else if step.CallCancel? {
      BeginCancelKeeps(w, step.t, step.target, Alone);
    } else if step.CancelCommit? {
      CommitCancelKeeps(w, step.t, w.tasks[step.t].sid, w.tasks[step.t].ret);
    } else if step.CancelDone? {
      NotifyCancelKeeps(w, step.t, w.tasks[step.t].sid, w.tasks[step.t].ret);
    } else {
      RecordAt(w, step.target);
      SchedulePollsKeeps(w, step.target, w.objs[step.target].info.polls);
    }
  }

  lemma OtherStepKeepsInv(w: World, step: Step)
    requires Inv(w) && Enabled(w, step) && !IsPollStep(step) && !IsSessionStep(step)
    ensures Inv(Apply(w, step))
  {
    hide DataOk, TasksOk, SaveVerdict, Announce, Restart;
    if step.Tick? {
      ClockAndSnapshotsKeep(w, Apply(w, step));
    } else if step.ApplyWrite? {
      ApplyWriteKeeps(w);
    } else if step.TabClosed? {
      SaveVerdictKeeps(w, step.t);
    } else if step.VerdictSaved? {
      AnnounceKeeps(w, step.t);
    } else if step.UpdateSaved? {
      EndTaskKeeps(w, step.t);
    } else {
      RestartKeeps(w, step.k, step.order);
    }
  }

  lemma StepKeepsInv(w: World, step: Step)
    requires Inv(w) && Enabled(w, step)
    ensures Inv(Apply(w, step))
  {
    hide Inv, Apply, Enabled;
    if IsPollStep(step) {
      PollStepKeepsInv(w, step);
    } else if IsSessionStep(step) {
      SessionStepKeepsInv(w, step);
    } else {
      OtherStepKeepsInv(w, step);
    }
  }

  /** Every world a run reaches satisfies the invariant. */
  lemma {:induction false} RunKeepsInv(w: World, steps: seq<Step>)
    requires Inv(w) && Run(w, steps)
    ensures Inv(After(w, steps))
    decreases |steps|
  {
    if steps != [] {
      StepKeepsInv(w, steps[0]);
      RunKeepsInv(Apply(w, steps[0]), steps[1..]);
    }
  }
}
