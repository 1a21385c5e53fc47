/**
 * The session controller as the object it is (extension/src/background/session-controller.ts): its methods are the
 * stretches of code between two awaits, and each is proved to take a step of the protocol and to keep its invariant.
 * Execution marks are kept as pairs here; PollerRefinement shows that the scheduler's names stand for them.
 */
module SessionControllerClass {
  import opened Prelude
  import opened WatchTypes
  import opened WatchProtocol
  import opened WatchInvariant
  import opened WatchSteps

  ghost predicate ListedIn(slots: seq<SessionId>, live: set<SessionId>, objs: map<SessionId, Session>) {
    (forall sid :: sid in live ==> sid in objs && sid in slots) && (forall i :: 0 <= i < |slots| ==> slots[i] in objs)
  }

  /** What an object's method needs to know before it takes a step. */
  lemma Take(w: World, step: Step)
    requires Inv(w) && Enabled(w, step)
    ensures Inv(Apply(w, step)) && ListedIn(w.slots, w.live, w.objs)
  {
    hide Apply, Enabled;
    StepKeepsInv(w, step);
  }

  lemma TakeFire(w: World, t: nat, sid: SessionId, index: nat)
    requires Inv(w) && Enabled(w, TimerFires(t, sid, index))
    ensures Apply(w, TimerFires(t, sid, index)) == Fire(w, t, sid, index) && Inv(Fire(w, t, sid, index))
    ensures t !in w.tasks && forall s :: s in w.live ==> s in w.objs
  {
    hide Inv, Fire;
    Take(w, TimerFires(t, sid, index));
  }

  lemma TakeBaseline(w: World, t: nat, task: Task, saved: bool)
    requires t in w.tasks && w.tasks[t] == task && task.Capturing? && task.phase.Baselining? && task.sid in w.objs
    requires task.phase.next < |task.phase.results|
    requires Enabled(w, PollBaselines(t, saved)) && Inv(w)
    ensures Apply(w, PollBaselines(t, saved)) == BaselineResult(w, t, task, saved)
    ensures Inv(BaselineResult(w, t, task, saved))
  {
    hide Inv, BaselineResult;
    Take(w, PollBaselines(t, saved));
  }

  lemma TakeClassify(w: World, t: nat, task: Task)
    requires t in w.tasks && w.tasks[t] == task && task.Capturing? && task.phase.Baselining? && task.sid in w.objs
    requires Enabled(w, PollClassifies(t)) && Inv(w)
    ensures ListedIn(w.slots, w.live, w.objs)
    ensures Apply(w, PollClassifies(t)) == Classify(w, t, task) && Inv(Classify(w, t, task))
  {
    hide Inv, Classify;
    Take(w, PollClassifies(t));
  }

  lemma InFlightIndex(w: World, t: nat)
    requires Inv(w) && t in w.tasks && InFlight(w.tasks[t])
    ensures w.tasks[t].sid in w.objs && w.tasks[t].index < w.objs[w.tasks[t].sid].info.polls
  {
    hide DataOk, TasksOk;
    TaskAt(w, t);
  }

  lemma TakeReturn(w: World, t: nat, sid: SessionId, index: nat, outcome: Outcome)
    requires t in w.tasks && w.tasks[t] == Returning(sid, index, outcome) && sid in w.objs
    requires Enabled(w, PollReturns(t)) && Inv(w)
    ensures ListedIn(w.slots, w.live, w.objs)
    ensures w.objs[sid].status.Active? ==> |w.objs[sid].completed| < w.objs[sid].info.polls
    ensures index < w.objs[sid].info.polls
    ensures Apply(w, PollReturns(t)) == HandleOutcome(w, t, sid, index, outcome)
    ensures Inv(HandleOutcome(w, t, sid, index, outcome))
  {
    hide Inv, HandleOutcome;
    Take(w, PollReturns(t));
    RecordAt(w, sid);
    InFlightIndex(w, t);
  }

  lemma TakeLeave(w: World, t: nat, sid: SessionId, index: nat, outcome: Outcome)
    requires t in w.tasks && w.tasks[t].Capturing? && w.tasks[t].sid == sid && w.tasks[t].index == index
    requires w.tasks[t].phase == Decided(outcome) && Enabled(w, PollLeaves(t)) && Inv(w)
    ensures Apply(w, PollLeaves(t)) == LeaveCapture(w, t, sid, index, outcome)
    ensures Inv(LeaveCapture(w, t, sid, index, outcome))
    ensures forall u :: u in w.tasks && u != t && w.tasks[u].Capturing? ==> w.tasks[u].sid != sid
  {
    hide Inv, LeaveCapture;
    Take(w, PollLeaves(t));
    forall u | u in w.tasks && u != t && w.tasks[u].Capturing? ensures w.tasks[u].sid != sid { PairAt(w, t, u); }
  }

  /** What the answer to a poll does to its session. */
  lemma OutcomeMeans(w: World, t: nat, sid: SessionId, index: nat, outcome: Outcome)
    requires sid in w.objs
    ensures var s, v := w.objs[sid], HandleOutcome(w, t, sid, index, outcome);
      && sid in v.objs && (!s.status.Active? ==> v == EndTask(w, t) && v.objs == w.objs)
      && (outcome.Skipped? ==> v.objs[sid].completed == s.completed)
      && (s.status.Active? && outcome.Skipped? ==>
            (v.objs[sid].status.Active? <==> index + 1 != s.info.polls && w.now < s.info.start + 1000 * s.info.timeout))
      && (s.status.Active? && !outcome.Skipped? ==> index in v.objs[sid].completed)
      && (s.status.Active? && outcome.Found? ==> v.objs[sid].status.Filled?)
      && v.objs[sid].info == s.info && (v.objs[sid].status.Active? ==> s.status.Active?)
      && (v.objs[sid].status.Active? && |s.completed| < s.info.polls ==> |v.objs[sid].completed| < s.info.polls)
  {
    InsertSortedMembers(w.objs[sid].completed, index);
  }

  lemma TakeRestart(w: World, k: nat, order: seq<SessionId>)
    requires w.applied <= k < |w.writes| && Unrepeated(order) && Inv(w)
    requires forall sid :: sid in order <==> sid in ActiveOf(w.writes[k])
    ensures Enabled(w, WorkerRestarts(k, order))
    ensures Apply(w, WorkerRestarts(k, order)) == Restart(w, k, order) && Inv(Restart(w, k, order))
  {
    hide Inv, Restart, ActiveOf;
    Take(w, WorkerRestarts(k, order));
  }

  ghost predicate Unrepeated(s: seq<SessionId>) {
    forall i, j :: 0 <= i < j < |s| ==> s[i] != s[j]
  }

  lemma AppendUnrepeated(s: seq<SessionId>, x: SessionId)
    requires Unrepeated(s) && x !in s
    ensures Unrepeated(s + [x])
  {
  }

  lemma InsertIsListed(slots: seq<SessionId>, id: SessionId, live: set<SessionId>, objs: map<SessionId, Session>,
      s: Session)
    requires ListedIn(slots, live, objs)
    ensures ListedIn(slots + [id], live + {id}, objs[id := s])
  {
    assert (slots + [id])[|slots|] == id;
  }

  lemma UpdateIsListed(slots: seq<SessionId>, live: set<SessionId>, objs: map<SessionId, Session>, id: SessionId,
      s: Session)
    requires ListedIn(slots, live, objs) && id in objs
    ensures ListedIn(slots, live, objs[id := s])
  {
  }

  lemma NoArrivals(s: Session, current: set<Mailbox>, cs: seq<Candidate>, now: int)
    ensures NewArrivals(s, current, cs[..0], now) == []
  {
  }

  lemma NextArrival(s: Session, current: set<Mailbox>, cs: seq<Candidate>, i: nat, now: int)
    requires i < |cs|
    ensures NewArrivals(s, current, cs[..i + 1], now) ==
      NewArrivals(s, current, cs[..i], now) + (if Admit(s, current, cs[i]) then [Arrival(cs[i], now)] else [])
  {
    assert cs[..i + 1][..i] == cs[..i];
  }

  lemma AdmitIgnoresArrivals(s: Session, r: Session, current: set<Mailbox>, c: Candidate)
    requires r.info == s.info && r.sms == s.sms && r.email == s.email
    ensures Admit(r, current, c) <==> Admit(s, current, c)
  {
  }

  function LoadedFrom(store: Store, done: seq<SessionId>): Store {
    map sid | sid in done && sid in store && store[sid].status.Active? :: store[sid]
  }

  lemma NoneLoaded(store: Store)
    ensures LoadedFrom(store, []) == map[] && AllTimers(map[]) == {} && Unrepeated([])
  {
  }

  lemma LoadNext(store: Store, stored: seq<SessionId>, i: nat)
    requires i < |stored| && stored[i] in store && Unrepeated(stored)
    ensures var before, after := LoadedFrom(store, stored[..i]), LoadedFrom(store, stored[..i + 1]);
      && stored[i] !in before
      && after == if store[stored[i]].status.Active? then before[stored[i] := store[stored[i]]] else before
  {
    assert stored[..i + 1] == stored[..i] + [stored[i]];
  }

  lemma AllLoaded(store: Store, stored: seq<SessionId>)
    requires forall sid :: sid in stored <==> sid in store
    ensures LoadedFrom(store, stored[..|stored|]) == ActiveOf(store)
  {
    assert stored[..|stored|] == stored;
  }

  lemma AllTimersGrow(objs: Store, sid: SessionId, s: Session)
    requires sid !in objs
    ensures AllTimers(objs[sid := s]) == AllTimers(objs) + set i | 0 <= i < s.info.polls :: (sid, i)
  {
  }

  class SessionController {
    var objs: map<SessionId, Session>
    var slots: seq<SessionId>
    var live: set<SessionId>
    var baselineCapturing: set<SessionId>
    var executed: set<(SessionId, nat)>
    var schedules: map<SessionId, nat>
    var clock: int
    var writes: seq<Store>
    var applied: nat
    var snapshots: map<Mailbox, Snapshot>
    ghost var tasks: map<nat, Task>
    ghost var timers: set<(SessionId, nat)>
    ghost var requests: map<SessionId, Info>
    ghost var epoch: nat
    ghost var history: seq<Event>

    ghost function State(): World
      reads this
    {
      World(clock, objs, slots, live, baselineCapturing, executed, schedules, tasks,
            writes, applied, snapshots, timers, requests, epoch, history)
    }

    /** The state is one the protocol allows, and the step can be taken. */
    ghost predicate Can(step: Step)
      reads this
    {
      Inv(State()) && Enabled(State(), step)
    }

    /** The step has been taken, and the state is again one the protocol allows. */
    ghost predicate Did(w: World, step: Step)
      reads this
    {
      Enabled(w, step) && State() == Apply(w, step) && Inv(State())
    }

    constructor ()
      ensures State() == EMPTY && Inv(State())
    {
      objs, slots, live, baselineCapturing, executed, schedules := map[], [], {}, {}, {}, map[];
      clock, writes, applied, snapshots := 0, [map[]], 0, map[];
      tasks, timers, requests, epoch, history := map[], {}, map[], 0, [];
      InitInv();
    }

    /** The Map's slots list every live session, and every slot was a session. */
    ghost predicate Listed()
      reads this
    {
      ListedIn(slots, live, objs)
    }

    /** Serializes the live sessions, slot by slot, and queues the write. */
    method PersistSessions()
      requires Listed()
      modifies this`writes
      ensures State() == Persist(old(State()))
    {
      var serialized: Store := map[];
      for i := 0 to |slots|
        invariant writes == old(writes)
        invariant forall sid :: sid in serialized <==> sid in slots[..i] && sid in live
        invariant forall sid :: sid in serialized ==> sid in objs && serialized[sid] == objs[sid]
      {
        assert slots[..i + 1] == slots[..i] + [slots[i]];
        if slots[i] in live { serialized := serialized[slots[i] := objs[slots[i]]]; }
      }
      assert slots[..|slots|] == slots;
      assert serialized == map sid | sid in live && sid in objs :: objs[sid];
      writes := writes + [serialized];
    }

    // ---------------------------------------------------------------- startSession and cancelSession

    /**
     * One turn of startSession: walk the map from the cursor; cancel the first active session of the tab, or insert
     * the new one when the walk finds none. There is no await between the end of the walk and the insertion.
     */
    method ContinueStart(ghost t: nat, request: Request, cursor: nat, id: SessionId)
      requires t in tasks && tasks[t] == Starting(request, cursor) && Can(ScanSlots(t, id))
      modifies this
      ensures Did(old(State()), ScanSlots(t, id))
    {
      hide Inv;
      Take(State(), ScanSlots(t, id));
      var k := cursor;
      while k < |slots|
        && !(slots[k] in live && objs[slots[k]].info.tab == request.tab && objs[slots[k]].status.Active?)
        invariant cursor <= k <= |slots|
        invariant NextToCancel(State(), request.tab, cursor) == NextToCancel(State(), request.tab, k)
      {
        k := k + 1;
      }
      if k < |slots| {
        EnterCancel(t, slots[k], BackToStart(request, k + 1));
      } else {
        InsertSession(t, request, id);
      }
    }

    method InsertSession(ghost t: nat, request: Request, id: SessionId)
      requires Listed()
      modifies this
      ensures var w := old(State());
        var info := Info(request.tab, w.now, request.timeout, |PollTimes(request.timeout)|, request.sms, request.email);
        State() == SetTask(Persist(Insert(w, id, info)), t, StartSaved(id, |w.writes|))
    {
      hide PollTimes, Persist, ListedIn;
      var info := Info(request.tab, clock, request.timeout, |PollTimes(request.timeout)|, request.sms, request.email);
      objs := objs[id := NewSession(info)];
      slots := slots + [id];
      live := live + {id};
      requests := requests[id := info];
      assert State() == Insert(old(State()), id, info);
      InsertIsListed(old(slots), id, old(live), old(objs), NewSession(info));
      ghost var ticket := |writes|;
      PersistSessions();
      tasks := tasks[t := StartSaved(id, ticket)];
    }

    /**
     * A cancellation that is asked for: the session is over before the first await, and stays what it was if it was
     * over.
     */
    method CancelSession(ghost t: nat, sid: SessionId)
      requires Can(CallCancel(t, sid))
      modifies this
      ensures Did(old(State()), CallCancel(t, sid))
      ensures old(objs)[sid].status.Active? ==> objs == old(objs)[sid := old(objs)[sid].(status := Canceled)]
      ensures !old(objs)[sid].status.Active? ==> objs == old(objs)
    {
      hide Inv;
      Take(State(), CallCancel(t, sid));
      EnterCancel(t, sid, Alone);
    }

    method EnterCancel(ghost t: nat, sid: SessionId, ghost ret: Return)
      requires sid in objs
      modifies this`objs, this`tasks
      ensures sid in objs && objs == old(objs)[sid := objs[sid]] && !objs[sid].status.Active?
      ensures old(objs)[sid].status.Active? ==> objs[sid] == old(objs)[sid].(status := Canceled)
      ensures !old(objs)[sid].status.Active? ==> objs[sid] == old(objs)[sid]
      ensures State() == BeginCancel(old(State()), t, sid, ret)
    {
      if objs[sid].status.Active? {
        objs := objs[sid := objs[sid].(status := Canceled)];
      }
      assert objs == old(objs)[sid := objs[sid]];
      tasks := tasks[t := Canceling(sid, ret)];
    }

    /** cancelSession from the closed messages tab to its persist. */
    method FinishCancel(ghost t: nat, sid: SessionId, ghost ret: Return)
      requires t in tasks && tasks[t] == Canceling(sid, ret) && Can(CancelCommit(t))
      modifies this
      ensures Did(old(State()), CancelCommit(t))
    {
      hide Inv;
      Take(State(), CancelCommit(t));
      DropPolls(sid);
      live := live - {sid};
      tasks := tasks[t := CancelSaved(sid, ret, |writes|)];
      PersistSessions();
    }

    /** The poller's part of a cancellation: mark after mark goes. */
    method DropPolls(sid: SessionId)
      modifies this`executed, this`schedules
      ensures State() == CancelPolls(old(State()), sid)
    {
      if sid !in schedules { return; }
      for i := 0 to schedules[sid]
        invariant schedules == old(schedules)
        invariant executed == set p | p in old(executed) && !(p.0 == sid && p.1 < i)
      {
        executed := executed - {(sid, i)};
      }
      schedules := schedules - {sid};
    }

    // ---------------------------------------------------------------- polls

    /**
     * executePoll and the guards of handlePoll: a poll starts exactly when it is unmarked, wanted and not yet
     * completed.
     */
    method TimerFired(ghost t: nat, sid: SessionId, index: nat)
      requires Can(TimerFires(t, sid, index))
      modifies this`executed, this`tasks, this`history
      ensures Did(old(State()), TimerFires(t, sid, index))
      ensures (sid, index) in executed
      ensures t in tasks <==>
        && (sid, index) !in old(executed)
        && sid in live && sid in objs && objs[sid].status.Active? && index !in objs[sid].completed
    {
      hide Inv, Apply, Enabled;
      TakeFire(State(), t, sid, index);
      if (sid, index) in executed { return; }
      executed := executed + {(sid, index)};
      if sid !in live || !objs[sid].status.Active? { return; }
      if index in objs[sid].completed { return; }
      tasks := tasks[t := Polling(sid, index)];
      history := history + [Passed(epoch, sid, index)];
    }

    /** The sentinel is tested and taken in one stretch. */
    method TryCapture(ghost t: nat, sid: SessionId, ghost index: nat) returns (taken: bool)
      requires t in tasks && tasks[t] == Polling(sid, index) && Can(PollEnters(t))
      modifies this`baselineCapturing, this`tasks
      ensures Did(old(State()), PollEnters(t))
      ensures (taken <==> sid !in old(baselineCapturing)) && sid in baselineCapturing
    {
      hide Inv;
      Take(State(), PollEnters(t));
      if sid in baselineCapturing {
        tasks := tasks[t := Returning(sid, index, Skipped)];
        return false;
      }
      baselineCapturing := baselineCapturing + {sid};
      tasks := tasks[t := Capturing(sid, index, Fetching, map[], map[])];
      return true;
    }

    /** finally: whatever the answer, no poll of the session is in its critical section afterwards. */
    method Release(ghost t: nat, sid: SessionId, ghost index: nat, ghost outcome: Outcome)
      requires t in tasks && tasks[t].Capturing? && tasks[t].sid == sid && tasks[t].index == index
      requires tasks[t].phase == Decided(outcome) && Can(PollLeaves(t))
      modifies this`baselineCapturing, this`tasks
      ensures Did(old(State()), PollLeaves(t))
      ensures sid !in baselineCapturing && forall u :: u in tasks && tasks[u].Capturing? ==> tasks[u].sid != sid
    {
      hide Inv, Apply, Enabled;
      TakeLeave(State(), t, sid, index, outcome);
      baselineCapturing := baselineCapturing - {sid};
      tasks := tasks[t := Returning(sid, index, outcome)];
    }

    /** The rows the batch hook keeps, message by message. */
    method CollectRows(batch: seq<Message>) returns (rows: seq<Row>)
      ensures rows == BatchRows(batch)
    {
      rows := [];
      for i := 0 to |batch|
        invariant rows == BatchRows(batch[..i])
      {
        assert batch[..i + 1][..i] == batch[..i];
        var m := batch[i];
        if m.href == "" || m.hash == "" { continue; }
        rows := rows + [Row(m.href, m.hash, m.unread)];
      }
      assert batch[..|batch|] == batch;
    }

    /** One adapter result of the baseline loop whose mailbox is an email mailbox. */
    method CommitEmailBaseline(ghost t: nat, sid: SessionId, mailbox: Mailbox, batch: map<Mailbox, seq<string>>,
        ghost task: Task)
      returns (current: bool)
      requires t in tasks && tasks[t] == task
      requires sid in objs && !IsSms(mailbox)
      requires task.Capturing? && task.phase.Baselining? && task.phase.next < |task.phase.results|
      requires task.sid == sid && task.keys == batch
      requires var r := task.phase.results[task.phase.next]; r.mailbox == mailbox && r.success && r.known
      requires Can(PollBaselines(t, false))
      modifies this`objs, this`tasks
      ensures Did(old(State()), PollBaselines(t, false))
      ensures current <==> mailbox !in old(objs)[sid].email
    {
      hide Inv, Apply, Enabled;
      TakeBaseline(State(), t, task, false);
      ghost var p := task.phase;
      ghost var onward := task.(phase := p.(next := p.next + 1, loading := false));
      current := mailbox !in objs[sid].email;
      if current {
        var keys := if mailbox in batch then batch[mailbox] else [];
        objs := objs[sid := objs[sid].(email := objs[sid].email[mailbox := keys])];
        onward := onward.(phase := onward.phase.(current := p.current + {mailbox}));
      }
      tasks := tasks[t := onward];
    }

    /** The snapshot load has returned: seed the mailbox's baseline, then save this batch as the next snapshot. */
    method SeedSmsBaseline(ghost t: nat, sid: SessionId, mailbox: Mailbox, rows: map<Mailbox, seq<Row>>, saved: bool,
        ghost task: Task)
      returns (current: bool)
      requires t in tasks && tasks[t] == task && task.Capturing? && task.phase.Baselining? && sid in objs
      requires task.phase.next < |task.phase.results| && task.sid == sid && task.rows == rows && task.phase.loading
      requires var r := task.phase.results[task.phase.next];
        r.mailbox == mailbox && r.success && r.known && IsSms(mailbox)
      requires Can(PollBaselines(t, saved))
      modifies this`objs, this`tasks, this`snapshots
      ensures Did(old(State()), PollBaselines(t, saved))
      ensures current <==>
        var stored := if mailbox in old(snapshots) then Some(old(snapshots)[mailbox]) else None;
        UsableSnapshot(stored, old(objs)[sid].info.start).None?
    {
      hide Inv, Apply, Enabled;
      TakeBaseline(State(), t, task, saved);
      var s := objs[sid];
      var snapshot := UsableSnapshot(if mailbox in snapshots then Some(snapshots[mailbox]) else None, s.info.start);
      current := snapshot.None?;
      var baseline;
      if !current {
        baseline := SmsBaseline(snapshot.value.rows, FromSnapshot(snapshot.value.observedAt));
      } else {
        baseline := SmsBaseline(if mailbox in rows then rows[mailbox] else [], FromBatch);
      }
      objs := objs[sid := s.(sms := s.sms[mailbox := baseline])];
      if mailbox in rows && saved {
        snapshots := snapshots[mailbox := Snapshot(clock, rows[mailbox])];
      }
      ghost var p := task.phase;
      tasks := tasks[t := task.(phase := p.(next := p.next + 1, loading := false,
        current := if current then p.current + {mailbox} else p.current))];
    }

    /** The gates a candidate passes, in the order the program tests them. */
    method PassesGates(session: Session, current: set<Mailbox>, c: Candidate) returns (ok: bool)
      ensures ok <==> Admit(session, current, c)
    {
      if c.mailbox in current {
        if c.received.None? { return false; }
        if c.received.value < session.info.start - PRESESSION_GRACE_MS { return false; }
      } else {
        if !IsNewArrival(c, session) { return false; }
        if IsSms(c.mailbox) {
          if c.received.None? { return false; }
          if c.received.value < session.info.start - PRESESSION_GRACE_MS { return false; }
        }
      }
      return CodeValue(c).Some?;
    }

    /** Classification, candidate by candidate, and the persist that follows. */
    method ClassifyCandidates(ghost t: nat, sid: SessionId, current: set<Mailbox>, candidates: seq<Candidate>,
        ghost task: Task)
      requires t in tasks && tasks[t] == task && task.Capturing? && task.phase.Baselining? && sid in objs
      requires task.sid == sid && task.phase.current == current && task.phase.candidates == candidates
      requires Can(PollClassifies(t))
      modifies this
      ensures Did(old(State()), PollClassifies(t))
    {
      hide Inv, Apply, Enabled, NewArrivals, Admit, Persist, ListedIn;
      TakeClassify(State(), t, task);
      ghost var s := objs[sid];
      NoArrivals(s, current, candidates, clock);
      assert s.arrivals + [] == s.arrivals;
      for i := 0 to |candidates|
        invariant Listed() && sid in objs
        invariant objs == old(objs)[sid := s.(arrivals := s.arrivals + NewArrivals(s, current, candidates[..i], clock))]
        invariant State() == old(State()).(objs := objs)
      {
        NextArrival(s, current, candidates, i, clock);
        ghost var before := NewArrivals(s, current, candidates[..i], clock);
        var c := candidates[i];
        AdmitIgnoresArrivals(s, objs[sid], current, c);
        var admitted := PassesGates(objs[sid], current, c);
        if !admitted {
          assert before + [] == before;
          continue;
        }
        assert (s.arrivals + before) + [Arrival(c, clock)] == s.arrivals + (before + [Arrival(c, clock)]);
        var grown := objs[sid].(arrivals := objs[sid].arrivals + [Arrival(c, clock)]);
        UpdateIsListed(slots, live, objs, sid, grown);
        objs := objs[sid := grown];
      }
      assert candidates[..|candidates|] == candidates;
      ghost var ticket := |writes|;
      PersistSessions();
      tasks := tasks[t := task.(phase := Recorded(ticket))];
    }

    /**
     * handlePoll after its await. A session that is over is left alone, a skipped poll keeps its index, a code ends the
     * session, and a session still active has polls left.
     */
    method PollAnswered(ghost t: nat, sid: SessionId, index: nat, outcome: Outcome)
      requires t in tasks && tasks[t] == Returning(sid, index, outcome) && sid in objs && Can(PollReturns(t))
      modifies this
      ensures Did(old(State()), PollReturns(t))
      ensures sid in objs && (!old(objs)[sid].status.Active? ==> objs == old(objs))
      ensures outcome.Skipped? ==> objs[sid].completed == old(objs)[sid].completed
      ensures old(objs)[sid].status.Active? && outcome.Skipped? ==>
        var info := old(objs)[sid].info;
        (objs[sid].status.Active? <==> index + 1 < info.polls && old(clock) < info.start + 1000 * info.timeout)
      ensures old(objs)[sid].status.Active? && !outcome.Skipped? ==> index in objs[sid].completed
      ensures old(objs)[sid].status.Active? && outcome.Found? ==> objs[sid].status.Filled?
      ensures objs[sid].status.Active? ==> |objs[sid].completed| < objs[sid].info.polls
    {
      hide Inv, Apply, Enabled, HandleOutcome, ListedIn;
      TakeReturn(State(), t, sid, index, outcome);
      OutcomeMeans(State(), t, sid, index, outcome);
      if !objs[sid].status.Active? {
        tasks := tasks - {t};
      } else if outcome.Skipped? {
        PollSkipped(t, sid, index);
      } else {
        PollCompleted(t, sid, index, outcome);
      }
    }

    method PollSkipped(ghost t: nat, sid: SessionId, index: nat)
      requires sid in objs && objs[sid].status.Active?
      modifies this
      ensures State() == HandleOutcome(old(State()), t, sid, index, Skipped)
    {
      var s := objs[sid];
      history := history + [SkippedPoll(epoch, sid, index, clock)];
      if index + 1 == s.info.polls || clock >= s.info.start + s.info.timeout * 1000 {
        EndSession(t, sid, s.(status := TimedOut), Stalled);
      } else {
        tasks := tasks - {t};
      }
    }

    method PollCompleted(ghost t: nat, sid: SessionId, index: nat, outcome: Outcome)
      requires Listed() && sid in objs && objs[sid].status.Active? && !outcome.Skipped?
      modifies this
      ensures State() == HandleOutcome(old(State()), t, sid, index, outcome)
    {
      hide InsertSorted, Persist, ListedIn;
      var s := objs[sid];
      s := s.(completed := InsertSorted(s.completed, index));
      if outcome.Found? {
        EndSession(t, sid, s.(status := Filled, lastCode := Some(outcome.choice)), Fill(outcome.choice));
      } else if s.info.polls <= |s.completed| {
        EndSession(t, sid, s.(status := TimedOut), Exhausted);
      } else {
        UpdateIsListed(slots, live, objs, sid, s);
        objs := objs[sid := s];
        ghost var ticket := |writes|;
        PersistSessions();
        tasks := tasks[t := Updating(sid, ticket)];
      }
    }

    method EndSession(ghost t: nat, sid: SessionId, s: Session, ghost verdict: Verdict)
      modifies this`objs, this`tasks
      ensures State() == Terminate(old(State()), t, sid, s, verdict)
    {
      objs := objs[sid := s];
      tasks := tasks[t := Closing(sid, verdict)];
    }

    /** The terminal status is stored: cancel the remaining polls, then notify. */
    method Notify(ghost t: nat, sid: SessionId, ghost verdict: Verdict)
      requires t in tasks && tasks[t].Finishing? && tasks[t].sid == sid && tasks[t].verdict == verdict
      requires Can(VerdictSaved(t))
      modifies this
      ensures Did(old(State()), VerdictSaved(t))
    {
      hide Inv;
      Take(State(), VerdictSaved(t));
      DropPolls(sid);
      history := history + [Announced(sid, objs[sid], verdict, clock)];
      tasks := tasks - {t};
    }

    // ---------------------------------------------------------------- initialize

    /** A fresh worker: memory starts empty and takes over the active records, in the order storage lists them. */
    method Initialize(k: nat, stored: seq<SessionId>)
      requires Inv(State()) && applied <= k < |writes|
      requires forall sid :: sid in stored <==> sid in writes[k]
      requires Unrepeated(stored)
      modifies this
      ensures Did(old(State()), WorkerRestarts(k, slots))
    {
      hide Inv, Apply, Enabled, AllTimers, ActiveOf, Unrepeated;
      ghost var w := State();
      var store := writes[k];
      objs, slots, live, baselineCapturing, executed, schedules, tasks := map[], [], {}, {}, {}, map[], map[];
      writes, applied, epoch := writes[..k + 1], k, epoch + 1;
      LoadActive(store, stored);
      TakeRestart(w, k, slots);
    }

    method LoadActive(store: Store, stored: seq<SessionId>)
      requires forall sid :: sid in stored <==> sid in store
      requires Unrepeated(stored)
      requires objs == map[] && slots == [] && live == {} && schedules == map[]
      modifies this`objs, this`slots, this`live, this`schedules, this`timers
      ensures objs == ActiveOf(store) && live == objs.Keys && (forall sid :: sid in slots <==> sid in objs)
      ensures Unrepeated(slots)
      ensures schedules == map sid | sid in objs :: objs[sid].info.polls
      ensures timers == old(timers) + AllTimers(objs)
    {
      hide AllTimers, LoadedFrom, Unrepeated;
      NoneLoaded(store);
      for i := 0 to |stored|
        invariant objs == LoadedFrom(store, stored[..i])
        invariant live == objs.Keys && forall sid :: sid in slots <==> sid in objs
        invariant Unrepeated(slots)
        invariant schedules == map sid | sid in objs :: objs[sid].info.polls
        invariant timers == old(timers) + AllTimers(objs)
      {
        assert stored[i] in stored;
        LoadNext(store, stored, i);
        var session := store[stored[i]];
        if session.status.Active? {
          AllTimersGrow(objs, stored[i], session);
          AppendUnrepeated(slots, stored[i]);
          ResumeLoaded(stored[i], session);
        }
      }
      AllLoaded(store, stored);
    }

    method ResumeLoaded(sid: SessionId, session: Session)
      requires sid !in objs
      modifies this`objs, this`slots, this`live, this`schedules, this`timers
      ensures objs == old(objs)[sid := session] && slots == old(slots) + [sid] && live == old(live) + {sid}
      ensures schedules == old(schedules)[sid := session.info.polls]
      ensures timers == old(timers) + set i | 0 <= i < session.info.polls :: (sid, i)
    {
      objs, slots, live := objs[sid := session], slots + [sid], live + {sid};
      schedules := schedules[sid := session.info.polls];
      timers := timers + (set i | 0 <= i < session.info.polls :: (sid, i));
    }
  }
}
