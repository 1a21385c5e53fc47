/**
 * The life of a watch session (extension/src/background/session-controller.ts:273-425, 459-541): what a start, a
 * cancellation, an answer and a restart do to the records, the queued writes and the timers, field by field; and over
 * runs, that an active session keeps its polls and a cancelled one never comes back.
 */
module WatchLife {
  import opened Prelude
  import opened WatchTypes
  import opened WatchProtocol
  import opened WatchInvariant
  import opened WatchSteps
  import opened WatchTheorems

  // ------------------------------------------------------------------ start

  ghost predicate ActiveOn(w: World, tab: int, sid: SessionId) {
    sid in w.live && sid in w.objs && w.objs[sid].info.tab == tab && w.objs[sid].status.Active?
  }

  /** The last queued write holds exactly the live sessions, as they are. */
  ghost predicate JustSaved(w: World) {
    && w.writes != []
    && var last := w.writes[|w.writes| - 1];
      && (forall sid :: sid in last <==> sid in w.live && sid in w.objs)
      && forall sid :: sid in last ==> last[sid] == w.objs[sid]
  }

  /** A start that finds no active session of its tab any more: one new record, the rest as it was, all saved. */
  lemma StartInserts(w: World, t: nat, id: SessionId)
    requires Enabled(w, ScanSlots(t, id))
    requires var p := w.tasks[t];
      forall i :: p.cursor <= i < |w.slots| ==> !ActiveOn(w, p.request.tab, w.slots[i])
    ensures var request, v := w.tasks[t].request, Apply(w, ScanSlots(t, id));
      && v.live == w.live + {id} && id in v.objs && JustSaved(v)
      && v.objs[id].info.tab == request.tab && v.objs[id].info.start == w.now
      && v.objs[id].info.timeout == request.timeout && v.objs[id].info.polls == |PollTimes(request.timeout)|
      && v.objs[id].info.sms == request.sms && v.objs[id].info.email == request.email
      && v.objs[id].status.Active? && v.objs[id].completed == [] && v.objs[id].arrivals == []
      && v.objs[id].sms == map[] && v.objs[id].email == map[] && v.objs[id].lastCode.None?
      && (forall sid :: sid in w.objs && sid != id ==> sid in v.objs && v.objs[sid] == w.objs[sid])
      && v.tasks == w.tasks[t := StartSaved(id, |w.writes|)] && |v.writes| == |w.writes| + 1
  {
    hide PollTimes;
  }

  /** One that still finds one: the first is cancelled, nothing else changes, and the walk goes on behind it. */
  lemma StartCancelsFirst(w: World, t: nat, id: SessionId, k: nat)
    requires Enabled(w, ScanSlots(t, id)) && w.tasks[t].cursor <= k < |w.slots|
    requires ActiveOn(w, w.tasks[t].request.tab, w.slots[k])
    requires forall i :: w.tasks[t].cursor <= i < k ==> !ActiveOn(w, w.tasks[t].request.tab, w.slots[i])
    ensures var sid, request := w.slots[k], w.tasks[t].request;
      Apply(w, ScanSlots(t, id)) ==
        w.(objs := w.objs[sid := w.objs[sid].(status := Canceled)],
           tasks := w.tasks[t := Canceling(sid, BackToStart(request, k + 1))])
  {
  }

  // ------------------------------------------------------------------ answers

  /** No code, and polls left: the index is consumed and saved, and nothing else of the session changes. */
  lemma NoCodeConsumes(w: World, t: nat, i: nat)
    requires Enabled(w, PollReturns(t)) && w.tasks[t].outcome.NoCode? && w.objs[w.tasks[t].sid].status.Active?
    ensures var sid, v := w.tasks[t].sid, Apply(w, PollReturns(t));
      var s := w.objs[sid];
      && sid in v.objs && v.live == w.live && v.history == w.history
      && (i in v.objs[sid].completed <==> i in s.completed || i == w.tasks[t].index)
      && v.objs[sid] == s.(completed := v.objs[sid].completed, status := v.objs[sid].status)
      && (if |v.objs[sid].completed| < s.info.polls then
            v.objs[sid].status.Active? && JustSaved(v) && v.tasks == w.tasks[t := Updating(sid, |w.writes|)]
          else
            v.objs[sid].status.TimedOut? && v.writes == w.writes && v.tasks == w.tasks[t := Closing(sid, Exhausted)])
  {
    InsertSortedMembers(w.objs[w.tasks[t].sid].completed, w.tasks[t].index);
  }

  /** A code: the session is filled with it, its index consumed. */
  lemma CodeFills(w: World, t: nat, i: nat)
    requires Enabled(w, PollReturns(t)) && w.tasks[t].outcome.Found? && w.objs[w.tasks[t].sid].status.Active?
    ensures var sid, v, choice := w.tasks[t].sid, Apply(w, PollReturns(t)), w.tasks[t].outcome.choice;
      && sid in v.objs && v.writes == w.writes && v.tasks == w.tasks[t := Closing(sid, Fill(choice))]
      && (i in v.objs[sid].completed <==> i in w.objs[sid].completed || i == w.tasks[t].index)
      && v.objs[sid] == w.objs[sid].(status := Filled, lastCode := Some(choice), completed := v.objs[sid].completed)
  {
    InsertSortedMembers(w.objs[w.tasks[t].sid].completed, w.tasks[t].index);
  }

  /** The decision of a poll: which arrival is filled, if any. */
  lemma FillsIff(w: World, t: nat, eligible: seq<bool>, scores: seq<real>, suppressed: bool, p: nat)
    requires Enabled(w, PollDecides(t, eligible, scores, suppressed))
    ensures var arrivals, v := w.objs[w.tasks[t].sid].arrivals, Apply(w, PollDecides(t, eligible, scores, suppressed));
      && t in v.tasks && v.tasks[t].Capturing? && v.tasks[t].phase.Decided?
      && (v.tasks[t].phase.outcome == Found(Choice(p, w.now, eligible, scores)) <==>
            && p < |arrivals| && eligible[p] && scores[p] >= 10.0 && !suppressed
            && (forall q :: 0 <= q < |arrivals| && eligible[q] ==>
                  scores[q] <= scores[p] && (q < p ==> scores[q] < scores[p]))
            && !(&& arrivals[p].candidate.mailbox.provider.GoogleMessages? && !IsLink(arrivals[p])
                 && Age(arrivals[p], w.now) < 5_000))
  {
    hide Decide, IsLink, Age;
    DecideIff(w.objs[w.tasks[t].sid].arrivals, eligible, scores, suppressed, w.now, p);
  }

  /** The messages tab is closed: what is in memory is saved, the verdict waits for it. */
  lemma VerdictIsSaved(w: World, t: nat)
    requires Enabled(w, TabClosed(t))
    ensures var v := Apply(w, TabClosed(t));
      && JustSaved(v) && |v.writes| == |w.writes| + 1 && v.objs == w.objs && v.history == w.history
      && v.tasks == w.tasks[t := Finishing(w.tasks[t].sid, w.tasks[t].verdict, |w.writes|)]
  {
  }

  /** The end of a session is saved, and then announced once with its polls dropped. */
  lemma VerdictIsAnnounced(w: World, t: nat)
    requires Enabled(w, VerdictSaved(t))
    ensures var task, v := w.tasks[t], Apply(w, VerdictSaved(t));
      && v.history == w.history + [Announced(task.sid, w.objs[task.sid], task.verdict, w.now)]
      && task.sid !in v.schedules && v.tasks == w.tasks - {t} && v.objs == w.objs && v.writes == w.writes
      && forall other :: other != task.sid && other in w.schedules ==>
        other in v.schedules && v.schedules[other] == w.schedules[other]
  {
  }

  // ------------------------------------------------------------------ restart

  /** A new worker holds exactly the sessions stored as active, with a timer for every one of their polls. */
  lemma RestartLoadsActive(w: World, k: nat, order: seq<SessionId>, sid: SessionId)
    requires Enabled(w, WorkerRestarts(k, order))
    ensures var v := Apply(w, WorkerRestarts(k, order));
      && (sid in v.objs <==> sid in w.writes[k] && w.writes[k][sid].status.Active?)
      && (sid in v.objs ==>
            && v.objs[sid] == w.writes[k][sid] && sid in v.live && sid in v.slots
            && sid in v.schedules && v.schedules[sid] == v.objs[sid].info.polls
            && forall i :: 0 <= i < v.objs[sid].info.polls ==> (sid, i) in v.timers)
      && v.tasks == map[] && v.capturing == {} && v.executed == {} && v.history == w.history
  {
  }

  // ------------------------------------------------------------------ what a step of a poll may change

  /** Task t, one record, the sentinels, the marks, the snapshots; at most one write and one event are added. */
  ghost predicate OneRecord(w: World, v: World, t: nat, sid: SessionId) {
    && v == w.(objs := v.objs, capturing := v.capturing, executed := v.executed, tasks := v.tasks, writes := v.writes,
               snapshots := v.snapshots, history := v.history)
    && (v.tasks == w.tasks || v.tasks == w.tasks - {t} || (t in v.tasks && v.tasks == w.tasks[t := v.tasks[t]]))
    && (t in w.tasks ==> !w.tasks[t].StartSaved?) && (t in v.tasks ==> !v.tasks[t].CancelSaved?)
    && (|| v.objs == w.objs
        || (&& sid in w.objs && sid in v.objs && v.objs == w.objs[sid := v.objs[sid]]
            && v.objs[sid].info == w.objs[sid].info && (v.objs[sid].status.Active? ==> w.objs[sid].status.Active?)))
    && (|| v.writes == w.writes
        || (|v.writes| == |w.writes| + 1 && v.writes[..|w.writes|] == w.writes && JustSaved(v)))
    && (|| v.history == w.history
        || (|v.history| == |w.history| + 1 && v.history[..|w.history|] == w.history
            && !v.history[|w.history|].CancelNotice?))
  }

  lemma SavedNow(w: World)
    ensures var v := Persist(w);
      |v.writes| == |w.writes| + 1 && v.writes[..|w.writes|] == w.writes && JustSaved(v)
  {
  }

  lemma LoadChanges(w: World, t: nat, task: Task, saved: bool)
    requires task.Capturing? && task.phase.Baselining? && task.phase.next < |task.phase.results| && task.sid in w.objs
    requires t in w.tasks && w.tasks[t] == task
    ensures OneRecord(w, FinishLoad(w, t, task, saved), t, task.sid)
  {
  }

  ghost predicate AtBaseline(w: World, t: nat, task: Task) {
    && t in w.tasks && w.tasks[t] == task && task.Capturing? && task.phase.Baselining? && task.sid in w.objs
    && task.phase.next < |task.phase.results|
  }

  ghost predicate IsSmsResult(r: AdapterResult) {
    r.success && r.known && IsSms(r.mailbox)
  }

  lemma BaselineChanges(w: World, t: nat, task: Task, saved: bool)
    requires AtBaseline(w, t, task)
    ensures OneRecord(w, BaselineResult(w, t, task, saved), t, task.sid)
  {
    hide BaselineResult, OneRecord;
    if IsSmsResult(task.phase.results[task.phase.next]) {
      SmsResultChanges(w, t, task, saved);
    } else {
      EmailResultChanges(w, t, task, saved);
    }
  }

  lemma EmailResultChanges(w: World, t: nat, task: Task, saved: bool)
    requires AtBaseline(w, t, task) && !IsSmsResult(task.phase.results[task.phase.next])
    ensures OneRecord(w, BaselineResult(w, t, task, saved), t, task.sid)
  {
    hide FinishLoad, SaveSnapshot, OneRecord;
    EmailChanges(w, BaselineResult(w, t, task, saved), t, task.sid);
  }

  lemma SmsResultChanges(w: World, t: nat, task: Task, saved: bool)
    requires AtBaseline(w, t, task) && IsSmsResult(task.phase.results[task.phase.next])
    ensures OneRecord(w, BaselineResult(w, t, task, saved), t, task.sid)
  {
    hide FinishLoad, SaveSnapshot, OneRecord;
    if task.phase.loading {
      LoadChanges(w, t, task, saved);
    } else {
      var mailbox := task.phase.results[task.phase.next].mailbox;
      SnapshotChanges(w, BaselineResult(w, t, task, saved), t, task.sid, mailbox, task.rows, saved);
    }
  }

  lemma EmailChanges(w: World, v: World, t: nat, sid: SessionId)
    requires t in w.tasks && w.tasks[t].Capturing? && sid in w.objs && t in v.tasks && v.tasks[t].Capturing?
    requires sid in v.objs && v.objs[sid] == w.objs[sid].(email := v.objs[sid].email)
    requires v == w.(objs := v.objs, tasks := v.tasks) && v.tasks == w.tasks[t := v.tasks[t]]
    requires v.objs == w.objs || v.objs == w.objs[sid := v.objs[sid]]
    ensures OneRecord(w, v, t, sid)
  {
  }

  lemma SnapshotChanges(
      w: World, v: World, t: nat, sid: SessionId, mailbox: Mailbox, rows: map<Mailbox, seq<Row>>, saved: bool)
    requires t in w.tasks && w.tasks[t].Capturing? && t in v.tasks && v.tasks[t].Capturing?
    requires v == SetTask(w, t, v.tasks[t]) || v == SetTask(SaveSnapshot(w, mailbox, rows, saved), t, v.tasks[t])
    ensures OneRecord(w, v, t, sid)
  {
  }

  lemma TerminateChanges(w: World, w1: World, t: nat, sid: SessionId, s: Session, verdict: Verdict)
    requires sid in w.objs && s.info == w.objs[sid].info && !s.status.Active? && t in w.tasks && w.tasks[t].Returning?
    requires w1 == w || (exists e: Event :: w1 == Log(w, e) && !e.CancelNotice?)
    ensures OneRecord(w, Terminate(w1, t, sid, s, verdict), t, sid)
  {
  }

  lemma UpdateChanges(w: World, t: nat, sid: SessionId, s: Session)
    requires sid in w.objs && s.info == w.objs[sid].info && w.objs[sid].status.Active?
    requires t in w.tasks && w.tasks[t].Returning?
    ensures OneRecord(w, SetTask(Persist(SetSession(w, sid, s)), t, Updating(sid, |w.writes|)), t, sid)
  {
    hide Persist;
    PersistOnly(SetSession(w, sid, s));
    SavedNow(SetSession(w, sid, s));
  }

  lemma PersistOnly(w: World)
    ensures Persist(w) == w.(writes := Persist(w).writes)
  {
  }

  lemma OutcomeChanges(w: World, t: nat, sid: SessionId, index: nat, outcome: Outcome)
    requires sid in w.objs && t in w.tasks && w.tasks[t].Returning?
    ensures OneRecord(w, HandleOutcome(w, t, sid, index, outcome), t, sid)
  {
    var s := w.objs[sid];
    if !s.status.Active? {
      hide Terminate, Persist, InsertSorted, MustStall;
    } else if outcome.Skipped? {
      SkipChanges(w, t, sid, index);
    } else {
      hide OneRecord, Terminate, Persist, SetTask, SetSession, InsertSorted;
      var s1 := s.(completed := InsertSorted(s.completed, index));
      if outcome.Found? {
        TerminateChanges(
          w, w, t, sid, s1.(status := Filled, lastCode := Some(outcome.choice)), Fill(outcome.choice));
      } else if s.info.polls <= |s1.completed| {
        TerminateChanges(w, w, t, sid, s1.(status := TimedOut), Exhausted);
      } else {
        UpdateChanges(w, t, sid, s1);
      }
    }
  }

  lemma SkipChanges(w: World, t: nat, sid: SessionId, index: nat)
    requires sid in w.objs && t in w.tasks && w.tasks[t].Returning? && w.objs[sid].status.Active?
    ensures OneRecord(w, HandleOutcome(w, t, sid, index, Skipped), t, sid)
  {
    hide Terminate, MustStall;
    var s, e := w.objs[sid], SkippedPoll(w.epoch, sid, index, w.now);
    assert Log(w, e) == w.(history := w.history + [e]);
    if MustStall(s.info, index, w.now) {
      TerminateChanges(w, Log(w, e), t, sid, s.(status := TimedOut), Stalled);
    }
  }

  lemma ClassifyChanges(w: World, t: nat, task: Task)
    requires t in w.tasks && w.tasks[t] == task && task.Capturing? && task.phase.Baselining? && task.sid in w.objs
    ensures OneRecord(w, Classify(w, t, task), t, task.sid)
  {
    hide NewArrivals, Persist;
    var s := w.objs[task.sid];
    var w1 := SetSession(w, task.sid,
      s.(arrivals := s.arrivals + NewArrivals(s, task.phase.current, task.phase.candidates, w.now)));
    PersistOnly(w1);
    SavedNow(w1);
  }

  lemma FireChanges(w: World, t: nat, sid: SessionId, index: nat)
    requires t !in w.tasks
    ensures OneRecord(w, Fire(w, t, sid, index), t, sid)
  {
  }

  lemma BufferChanges(w: World, t: nat, mailbox: Mailbox, batch: seq<Message>)
    requires t in w.tasks && w.tasks[t].Capturing? && w.tasks[t].sid in w.objs
    ensures OneRecord(w, BufferBatch(w, t, w.tasks[t], mailbox, batch), t, w.tasks[t].sid)
  {
    hide BatchRows, BatchKeys;
  }

  lemma CaptureChanges(w: World, t: nat, sid: SessionId, index: nat, outcome: Outcome)
    requires t in w.tasks && (w.tasks[t].Polling? || w.tasks[t].Capturing?)
    ensures OneRecord(w, EnterCapture(w, t, sid, index), t, sid)
    ensures OneRecord(w, LeaveCapture(w, t, sid, index, outcome), t, sid)
  {
  }

  lemma TaskChanges(w: World, t: nat, task: Task)
    requires t in w.tasks && InFlight(w.tasks[t]) && InFlight(task)
    ensures OneRecord(w, SetTask(w, t, task), t, task.sid)
  {
  }

  lemma SectionStepChanges(w: World, step: Step)
    requires Enabled(w, step)
    requires step.PollGivesUp? || step.PollEnters? || step.PollFetched? || step.PollDecides? || step.PollLeaves?
    ensures OneRecord(w, Apply(w, step), step.t, w.tasks[step.t].sid)
  {
    hide Decide, OneRecord, EnterCapture, LeaveCapture, SetTask;
    var t := step.t;
    var task := w.tasks[t];
    if step.PollEnters? {
      CaptureChanges(w, t, task.sid, task.index, NoCode);
    } else if step.PollLeaves? {
      CaptureChanges(w, t, task.sid, task.index, task.phase.outcome);
    } else if step.PollGivesUp? {
      CaptureChanges(w, t, task.sid, task.index, NoCode);
      TaskChanges(w, t, Returning(task.sid, task.index, NoCode));
    } else if step.PollFetched? {
      TaskChanges(w, t, task.(phase := Baselining(step.results, step.candidates, 0, {}, false)));
    } else {
      var choice := Decide(w.objs[task.sid].arrivals, step.eligible, step.scores, step.suppressed, w.now);
      TaskChanges(w, t, task.(phase := Decided(if choice.Some? then Found(choice.value) else NoCode)));
    }
  }

  /** The session a poll step is about. */
  ghost function SessionOf(w: World, step: Step): SessionId
    requires Enabled(w, step) && IsPollStep(step)
  {
    if step.TimerFires? then step.target else w.tasks[step.t].sid
  }

  lemma PollStepChanges(w: World, step: Step)
    requires Enabled(w, step) && IsPollStep(step)
    ensures OneRecord(w, Apply(w, step), step.t, SessionOf(w, step))
  {
    hide OneRecord, Fire, BufferBatch, BaselineResult, Classify, HandleOutcome;
    var t := step.t;
    if step.PollBaselines? {
      BaselineChanges(w, t, w.tasks[t], step.saved);
    } else if step.PollReturns? {
      OutcomeChanges(w, t, w.tasks[t].sid, w.tasks[t].index, w.tasks[t].outcome);
    } else if step.TimerFires? {
      FireChanges(w, t, step.target, step.index);
    } else if step.PollClassifies? {
      ClassifyChanges(w, t, w.tasks[t]);
    } else if step.AdapterBatch? {
      BufferChanges(w, t, step.mailbox, step.batch);
    } else {
      SectionStepChanges(w, step);
    }
  }

  // ------------------------------------------------------------------ an active session keeps its polls

  ghost predicate ActiveIn(w: World, sid: SessionId) {
    sid in w.objs && w.objs[sid].status.Active?
  }

  /** Every poll of the session has been given a timer, and the poller knows the schedule. */
  ghost predicate IsScheduled(w: World, sid: SessionId) {
    && sid in w.objs && sid in w.schedules && w.schedules[sid] == w.objs[sid].info.polls
    && forall i :: 0 <= i < w.objs[sid].info.polls ==> (sid, i) in w.timers
  }

  /** Its start is waiting for the session to be stored. */
  ghost predicate BeingStarted(w: World, sid: SessionId, t: nat) {
    t in w.tasks && w.tasks[t].StartSaved? && w.tasks[t].sid == sid
  }

  ghost predicate Watched(w: World) {
    forall sid :: ActiveIn(w, sid) ==> IsScheduled(w, sid) || exists t :: BeingStarted(w, sid, t)
  }

  /** No session comes to life, schedules of living ones and starts under way stay. */
  ghost predicate KeepsWatch(w: World, v: World) {
    && w.timers <= v.timers
    && (forall sid :: ActiveIn(v, sid) ==> ActiveIn(w, sid) && v.objs[sid].info == w.objs[sid].info)
    && (forall sid :: ActiveIn(v, sid) && sid in w.schedules ==>
          sid in v.schedules && v.schedules[sid] == w.schedules[sid])
    && (forall sid, t :: BeingStarted(w, sid, t) ==> BeingStarted(v, sid, t))
  }

  lemma KeepsWatchKeeps(w: World, v: World)
    requires Watched(w) && KeepsWatch(w, v)
    ensures Watched(v)
  {
    forall sid | ActiveIn(v, sid) ensures IsScheduled(v, sid) || exists t :: BeingStarted(v, sid, t) {
      if !IsScheduled(w, sid) {
        var t :| BeingStarted(w, sid, t);
        assert BeingStarted(v, sid, t);
      }
    }
  }

  lemma BeginCancelWatches(w: World, t: nat, sid: SessionId, ret: Return)
    requires sid in w.objs && (t in w.tasks ==> !w.tasks[t].StartSaved?)
    ensures KeepsWatch(w, BeginCancel(w, t, sid, ret))
  {
  }

  lemma ScanWatches(w: World, t: nat, request: Request, cursor: nat, id: SessionId)
    requires Watched(w) && t in w.tasks && w.tasks[t].Starting? && cursor <= |w.slots| && id !in w.objs
    ensures Watched(Scan(w, t, request, cursor, id))
  {
    var v := Scan(w, t, request, cursor, id);
    var k := NextToCancel(w, request.tab, cursor);
    if k < |w.slots| {
      hide Watched, BeginCancel;
      BeginCancelWatches(w, t, w.slots[k], BackToStart(request, k + 1));
      KeepsWatchKeeps(w, v);
    } else {
      InsertWatches(w, v, id, t);
    }
  }

  lemma InsertWatches(w: World, v: World, id: SessionId, t: nat)
    requires Watched(w) && t in w.tasks && w.tasks[t].Starting? && id in v.objs
    requires v.objs == w.objs[id := v.objs[id]] && v.timers == w.timers && v.schedules == w.schedules
    requires t in v.tasks && v.tasks == w.tasks[t := v.tasks[t]] && v.tasks[t].StartSaved? && v.tasks[t].sid == id
    ensures Watched(v)
  {
    forall sid | ActiveIn(v, sid) ensures IsScheduled(v, sid) || exists u :: BeingStarted(v, sid, u) {
      if sid == id {
        assert BeingStarted(v, id, t);
      } else {
        assert ActiveIn(w, sid);
        if !IsScheduled(w, sid) {
          var u :| BeingStarted(w, sid, u);
          assert BeingStarted(v, sid, u);
        }
      }
    }
  }

  lemma ScheduleWatches(w: World, v: World, sid: SessionId)
    requires Watched(w) && sid in w.objs
    requires v == SchedulePolls(w, sid, w.objs[sid].info.polls).(tasks := v.tasks)
    requires forall other, t :: other != sid && BeingStarted(w, other, t) ==> BeingStarted(v, other, t)
    ensures Watched(v)
  {
    forall other | ActiveIn(v, other) ensures IsScheduled(v, other) || exists t :: BeingStarted(v, other, t) {
      assert ActiveIn(w, other);
      if other != sid && !IsScheduled(w, other) {
        var t :| BeingStarted(w, other, t);
        assert BeingStarted(v, other, t);
      }
    }
  }

  lemma CancelPollsWatches(w: World, sid: SessionId)
    requires Over(w.objs, sid)
    ensures KeepsWatch(w, CancelPolls(w, sid))
  {
  }

  /** Records keep their infos and do not come to life; the rest of the watch is as it was. */
  ghost predicate Quiet(w: World, v: World, t: nat) {
    && v.timers == w.timers && v.schedules == w.schedules
    && (t in w.tasks ==> !w.tasks[t].StartSaved?)
    && (forall u :: u in w.tasks && u != t ==> u in v.tasks && v.tasks[u] == w.tasks[u])
    && (forall sid :: ActiveIn(v, sid) ==> ActiveIn(w, sid) && v.objs[sid].info == w.objs[sid].info)
  }

  lemma QuietWatches(w: World, v: World, t: nat)
    requires Watched(w) && Quiet(w, v, t)
    ensures Watched(v)
  {
    assert KeepsWatch(w, v);
    KeepsWatchKeeps(w, v);
  }

  lemma PollIsQuiet(w: World, v: World, t: nat, sid: SessionId)
    requires OneRecord(w, v, t, sid)
    ensures Quiet(w, v, t)
  {
  }

  lemma CommitWatches(w: World, t: nat, sid: SessionId, ret: Return)
    requires Watched(w) && Over(w.objs, sid) && t in w.tasks && !w.tasks[t].StartSaved?
    ensures Watched(CommitCancel(w, t, sid, ret))
  {
    hide CancelPolls;
    CancelPollsWatches(w, sid);
    KeepsWatchKeeps(w, CancelPolls(w, sid));
    CancelKeepsTasks(w, sid);
    QuietWatches(CancelPolls(w, sid), CommitCancel(w, t, sid, ret), t);
  }

  lemma CancelKeepsTasks(w: World, sid: SessionId)
    ensures CancelPolls(w, sid).tasks == w.tasks && CancelPolls(w, sid).objs == w.objs
  {
  }

  lemma AnnounceWatches(w: World, t: nat, sid: SessionId, verdict: Verdict)
    requires Watched(w) && sid in w.objs && Over(w.objs, sid) && t in w.tasks && !w.tasks[t].StartSaved?
    ensures Watched(Announce(w, t, sid, verdict))
  {
    hide CancelPolls;
    CancelPollsWatches(w, sid);
    KeepsWatchKeeps(w, CancelPolls(w, sid));
    CancelKeepsTasks(w, sid);
    QuietWatches(CancelPolls(w, sid), Announce(w, t, sid, verdict), t);
  }

  lemma SessionStepWatches(w: World, step: Step)
    requires Inv(w) && Watched(w) && Enabled(w, step)
    requires step.ScanSlots? || step.StartDone? || step.CallCancel? || step.CancelCommit? || step.CancelDone?
    ensures Watched(Apply(w, step))
  {
    hide DataOk, TasksOk, Watched;
    var t := step.t;
    if step.ScanSlots? {
      hide Scan;
      UnusedId(w, step.id);
      ScanWatches(w, t, w.tasks[t].request, w.tasks[t].cursor, step.id);
    } else if step.StartDone? {
      ScheduleWatches(w, Apply(w, step), w.tasks[t].sid);
    } else if step.CallCancel? {
      BeginCancelWatches(w, t, step.target, Alone);
      KeepsWatchKeeps(w, Apply(w, step));
    } else if step.CancelCommit? {
      hide CommitCancel;
      TaskAt(w, t);
      CommitWatches(w, t, w.tasks[t].sid, w.tasks[t].ret);
    } else {
      QuietWatches(w, Apply(w, step), t);
    }
  }

  lemma OtherStepWatches(w: World, step: Step)
    requires Inv(w) && Watched(w) && Enabled(w, step) && !IsPollStep(step)
    requires step.Tick? || step.ApplyWrite? || step.CallStart? || step.TabClosed? || step.VerdictSaved?
      || step.UpdateSaved? || step.Resume?
    ensures Watched(Apply(w, step))
  {
    hide DataOk, TasksOk, Watched;
    if step.VerdictSaved? {
      hide Announce;
      TaskAt(w, step.t);
      AnnounceWatches(w, step.t, w.tasks[step.t].sid, w.tasks[step.t].verdict);
    } else if step.Resume? {
      ScheduleWatches(w, Apply(w, step), step.target);
    } else if step.Tick? || step.ApplyWrite? {
      var v := Apply(w, step);
      assert KeepsWatch(w, v);
      KeepsWatchKeeps(w, v);
    } else {
      QuietWatches(w, Apply(w, step), step.t);
    }
  }

  lemma RestartWatches(w: World, k: nat, order: seq<SessionId>)
    requires Enabled(w, WorkerRestarts(k, order))
    ensures Watched(Apply(w, WorkerRestarts(k, order)))
  {
    hide Apply, Enabled;
    var v := Apply(w, WorkerRestarts(k, order));
    forall sid | ActiveIn(v, sid) ensures IsScheduled(v, sid) { RestartLoadsActive(w, k, order, sid); }
  }

  lemma StepWatches(w: World, step: Step)
    requires Inv(w) && Watched(w) && Enabled(w, step)
    ensures Watched(Apply(w, step))
  {
    hide Inv, Watched, Apply, Enabled;
    if IsPollStep(step) {
      hide OneRecord, Quiet;
      PollStepChanges(w, step);
      PollIsQuiet(w, Apply(w, step), step.t, SessionOf(w, step));
      QuietWatches(w, Apply(w, step), step.t);
    } else if step.WorkerRestarts? {
      RestartWatches(w, step.k, step.order);
    } else if step.ScanSlots? || step.StartDone? || step.CallCancel? || step.CancelCommit? || step.CancelDone? {
      SessionStepWatches(w, step);
    } else {
      OtherStepWatches(w, step);
    }
  }

  lemma {:induction false} RunWatches(w: World, steps: seq<Step>)
    requires Inv(w) && Watched(w) && Run(w, steps)
    ensures Watched(After(w, steps))
    decreases |steps|
  {
    hide Inv, Watched, Apply, Enabled;
    if steps != [] {
      StepKeepsInv(w, steps[0]);
      StepWatches(w, steps[0]);
      RunWatches(Apply(w, steps[0]), steps[1..]);
    }
  }

  /**
   * No active session is left without its polls: each has a timer for every one of them, or its start is still waiting
   * for storage. Starts, cancellations, timeouts and restarts never take a living session's schedule away.
   */
  lemma ActiveSessionsAreWatched(w: World, sid: SessionId)
    requires Reachable(w) && sid in w.objs && w.objs[sid].status.Active?
    ensures
      || (&& sid in w.schedules && w.schedules[sid] == w.objs[sid].info.polls
          && forall i :: 0 <= i < w.objs[sid].info.polls ==> (sid, i) in w.timers)
      || exists t :: t in w.tasks && w.tasks[t].StartSaved? && w.tasks[t].sid == sid
  {
    hide Inv, Run, After;
    var steps :| Run(EMPTY, steps) && After(EMPTY, steps) == w;
    InitInv();
    RunWatches(EMPTY, steps);
    assert ActiveIn(w, sid);
    if !IsScheduled(w, sid) {
      var t :| BeingStarted(w, sid, t);
    }
  }

  // ------------------------------------------------------------------ a cancelled session never comes back

  /** The session is not in the map, and in no write from the n-th on. */
  ghost predicate GoneFrom(w: World, sid: SessionId, n: int) {
    && sid in w.requests && sid !in w.live
    && forall k :: 0 <= k < |w.writes| && n <= k ==> sid !in w.writes[k]
  }

  /** A cancellation's own write, and all after it, lack the session; once it is announced, so does storage. */
  ghost predicate Forgets(w: World) {
    && (forall t :: t in w.tasks && w.tasks[t].CancelSaved? ==> GoneFrom(w, w.tasks[t].sid, w.tasks[t].ticket))
    && forall k :: 0 <= k < |w.history| && w.history[k].CancelNotice? ==> GoneFrom(w, w.history[k].sid, w.applied)
  }

  /** Known sessions do not enter the map, writes are appended from the map, no cancellation moves on. */
  ghost predicate AddsNoKnown(w: World, v: World) {
    && w.applied <= v.applied && w.writes <= v.writes
    && (forall k :: |w.writes| <= k < |v.writes| ==> v.writes[k].Keys <= v.live)
    && (forall sid :: sid in w.requests ==> sid in v.requests && (sid in v.live ==> sid in w.live))
  }

  ghost predicate NoCancelMoves(w: World, v: World) {
    && (forall t :: t in v.tasks && v.tasks[t].CancelSaved? ==> t in w.tasks && w.tasks[t] == v.tasks[t])
    && forall k :: 0 <= k < |v.history| && v.history[k].CancelNotice? ==>
      k < |w.history| && w.history[k] == v.history[k]
  }

  lemma GoneStays(w: World, v: World, sid: SessionId, n: int, m: int)
    requires AddsNoKnown(w, v) && GoneFrom(w, sid, n) && n <= m
    ensures GoneFrom(v, sid, m)
  {
  }

  lemma FrameForgets(w: World, v: World)
    requires Forgets(w) && AddsNoKnown(w, v) && NoCancelMoves(w, v)
    ensures Forgets(v)
  {
    hide AddsNoKnown, GoneFrom;
    assert w.applied <= v.applied by { AppliedGrows(w, v); }
    forall t | t in v.tasks && v.tasks[t].CancelSaved? ensures GoneFrom(v, v.tasks[t].sid, v.tasks[t].ticket) {
      GoneStays(w, v, v.tasks[t].sid, v.tasks[t].ticket, v.tasks[t].ticket);
    }
    forall k | 0 <= k < |v.history| && v.history[k].CancelNotice? ensures GoneFrom(v, v.history[k].sid, v.applied) {
      GoneStays(w, v, v.history[k].sid, w.applied, v.applied);
    }
  }

  lemma AppliedGrows(w: World, v: World)
    requires AddsNoKnown(w, v)
    ensures w.applied <= v.applied
  {
  }

  lemma ScanForgets(w: World, t: nat, request: Request, cursor: nat, id: SessionId)
    requires cursor <= |w.slots| && id !in w.requests
    ensures var v := Scan(w, t, request, cursor, id); AddsNoKnown(w, v) && NoCancelMoves(w, v)
  {
  }

  lemma PollForgets(w: World, v: World, t: nat, sid: SessionId)
    requires OneRecord(w, v, t, sid)
    ensures AddsNoKnown(w, v) && NoCancelMoves(w, v)
  {
  }

  lemma ScanStepForgets(w: World, step: Step)
    requires Enabled(w, step) && step.ScanSlots?
    ensures AddsNoKnown(w, Apply(w, step)) && NoCancelMoves(w, Apply(w, step))
  {
    hide Scan, AddsNoKnown, NoCancelMoves;
    ScanForgets(w, step.t, w.tasks[step.t].request, w.tasks[step.t].cursor, step.id);
  }

  ghost predicate IsClosingStep(step: Step) {
    step.CallCancel? || step.TabClosed? || step.VerdictSaved?
  }

  lemma ClosingStepForgets(w: World, step: Step)
    requires Enabled(w, step) && IsClosingStep(step)
    ensures AddsNoKnown(w, Apply(w, step)) && NoCancelMoves(w, Apply(w, step))
  {
    hide CancelPolls, BeginCancel;
    if step.CallCancel? {
      hide AddsNoKnown, NoCancelMoves;
      CancelForgets(w, step.t, step.target);
    } else if step.VerdictSaved? {
      CancelPollsOnly(w, w.tasks[step.t].sid);
    }
  }

  lemma OtherStepForgets(w: World, step: Step)
    requires Enabled(w, step)
    requires step.Tick? || step.ApplyWrite? || step.CallStart? || step.StartDone? || step.UpdateSaved? || step.Resume?
    ensures AddsNoKnown(w, Apply(w, step)) && NoCancelMoves(w, Apply(w, step))
  {
    hide SchedulePolls;
    if step.StartDone? {
      SchedulePollsOnly(w, w.tasks[step.t].sid, w.objs[w.tasks[step.t].sid].info.polls);
    } else if step.Resume? {
      SchedulePollsOnly(w, step.target, w.objs[step.target].info.polls);
    }
  }

  lemma CancelForgets(w: World, t: nat, sid: SessionId)
    requires sid in w.objs
    ensures var v := BeginCancel(w, t, sid, Alone); AddsNoKnown(w, v) && NoCancelMoves(w, v)
  {
  }

  lemma CancelPollsOnly(w: World, sid: SessionId)
    ensures var v := CancelPolls(w, sid); v == w.(schedules := v.schedules, executed := v.executed)
  {
  }

  lemma SchedulePollsOnly(w: World, sid: SessionId, polls: nat)
    ensures var v := SchedulePolls(w, sid, polls); v == w.(schedules := v.schedules, timers := v.timers)
  {
  }

  lemma PlainStepForgets(w: World, step: Step)
    requires Enabled(w, step) && !step.WorkerRestarts? && !step.CancelCommit? && !step.CancelDone?
    ensures AddsNoKnown(w, Apply(w, step)) && NoCancelMoves(w, Apply(w, step))
  {
    hide Enabled, Apply, AddsNoKnown, NoCancelMoves, OneRecord;
    if step.ScanSlots? {
      ScanStepForgets(w, step);
    } else if IsPollStep(step) {
      PollStepChanges(w, step);
      PollForgets(w, Apply(w, step), step.t, SessionOf(w, step));
    } else if IsClosingStep(step) {
      ClosingStepForgets(w, step);
    } else {
      OtherStepForgets(w, step);
    }
  }

  /** The commit removes the session from the map and saves the map without it, all others as they are. */
  lemma CommitRemoves(w: World, t: nat)
    requires Enabled(w, CancelCommit(t))
    ensures var sid, v := w.tasks[t].sid, Apply(w, CancelCommit(t));
      && v.live == w.live - {sid} && v.objs == w.objs && sid !in v.schedules && JustSaved(v)
      && v.writes[..|w.writes|] == w.writes && |v.writes| == |w.writes| + 1
      && v.tasks == w.tasks[t := CancelSaved(sid, w.tasks[t].ret, |w.writes|)]
      && v.history == w.history && v.requests == w.requests && v.applied == w.applied
      && forall p ::
        p in v.executed <==> p in w.executed && !(p.0 == sid && sid in w.schedules && p.1 < w.schedules[sid])
  {
  }

  lemma CommitForgets(w: World, t: nat)
    requires Inv(w) && Forgets(w) && Enabled(w, CancelCommit(t))
    ensures Forgets(Apply(w, CancelCommit(t)))
  {
    hide DataOk, TasksOk, Apply, Enabled;
    var sid, v := CanceledOf(w, t), Apply(w, CancelCommit(t));
    CommitRemoves(w, t);
    CanceledIsKnown(w, t);
    assert AddsNoKnown(w, v);
    forall u | u in v.tasks && v.tasks[u].CancelSaved? ensures GoneFrom(v, v.tasks[u].sid, v.tasks[u].ticket) {
      if u != t { GoneStays(w, v, v.tasks[u].sid, v.tasks[u].ticket, v.tasks[u].ticket); }
    }
    forall k | 0 <= k < |v.history| && v.history[k].CancelNotice? ensures GoneFrom(v, v.history[k].sid, v.applied) {
      GoneStays(w, v, v.history[k].sid, w.applied, v.applied);
    }
  }

  ghost function CanceledOf(w: World, t: nat): SessionId
    requires Enabled(w, CancelCommit(t))
  {
    w.tasks[t].sid
  }

  lemma CanceledIsKnown(w: World, t: nat)
    requires Inv(w) && Enabled(w, CancelCommit(t))
    ensures t in w.tasks && w.tasks[t].Canceling? && w.tasks[t].sid in w.requests
  {
    TaskAt(w, t);
  }

  lemma NoticeForgets(w: World, t: nat)
    requires Forgets(w) && Enabled(w, CancelDone(t))
    ensures Forgets(Apply(w, CancelDone(t)))
  {
    var v := Apply(w, CancelDone(t));
    assert AddsNoKnown(w, v);
    forall k | 0 <= k < |v.history| && v.history[k].CancelNotice? ensures GoneFrom(v, v.history[k].sid, v.applied) {
      if k == |w.history| {
        GoneStays(w, v, w.tasks[t].sid, w.tasks[t].ticket, w.applied);
      } else {
        GoneStays(w, v, w.history[k].sid, w.applied, v.applied);
      }
    }
  }

  lemma RestartForgets(w: World, k: nat, order: seq<SessionId>)
    requires Forgets(w) && Enabled(w, WorkerRestarts(k, order))
    ensures Forgets(Apply(w, WorkerRestarts(k, order)))
  {
  }

  lemma StepForgets(w: World, step: Step)
    requires Inv(w) && Forgets(w) && Enabled(w, step)
    ensures Forgets(Apply(w, step))
  {
    hide Inv, Forgets, Apply, Enabled;
    if step.WorkerRestarts? {
      RestartForgets(w, step.k, step.order);
    } else if step.CancelCommit? {
      CommitForgets(w, step.t);
    } else if step.CancelDone? {
      NoticeForgets(w, step.t);
    } else {
      PlainStepForgets(w, step);
      FrameForgets(w, Apply(w, step));
    }
  }

  lemma {:induction false} RunForgets(w: World, steps: seq<Step>)
    requires Inv(w) && Forgets(w) && Run(w, steps)
    ensures Forgets(After(w, steps))
    decreases |steps|
  {
    hide Inv, Forgets, Apply, Enabled;
    if steps != [] {
      StepKeepsInv(w, steps[0]);
      StepForgets(w, steps[0]);
      RunForgets(Apply(w, steps[0]), steps[1..]);
    }
  }

  /**
   * A session whose cancellation has been announced is gone for good: it is not in the map, not in storage and in no
   * write under way, at any later time, restarts included.
   */
  lemma CancelledIsForgotten(w: World, sid: SessionId)
    requires Reachable(w) && CancelNotice(sid) in w.history
    ensures sid !in w.live && w.applied < |w.writes| && sid !in Disk(w)
    ensures forall k :: w.applied <= k < |w.writes| ==> sid !in w.writes[k]
  {
    hide Inv, Run, After;
    var steps :| Run(EMPTY, steps) && After(EMPTY, steps) == w;
    InitInv();
    RunForgets(EMPTY, steps);
    ReachableInv(w);
    AppliedInRange(w);
    var k :| 0 <= k < |w.history| && w.history[k] == CancelNotice(sid);
    assert GoneFrom(w, sid, w.applied);
  }
}
