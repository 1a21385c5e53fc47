/**
 * The invariant of the watch-session protocol. It has three parts: what holds of the data, what holds of each waiting
 * task, and what any two waiting tasks may not do at once. The lemmas show that each small change a step is made of
 * keeps it.
 */
module WatchInvariant {
  import opened Prelude
  import opened WatchTypes
  import opened WatchProtocol

  // ------------------------------------------------------------------ data

  ghost predicate SessionsShape(w: World) {
    && (forall sid :: sid in w.live ==> sid in w.objs)
    && (forall sid :: sid in w.objs ==> sid in w.requests && w.objs[sid].info == w.requests[sid])
    && (forall sid :: sid in w.objs && sid !in w.live ==> !w.objs[sid].status.Active?)
    && (forall sid :: sid in w.requests ==> w.requests[sid].polls > 0)
  }

  ghost predicate SlotsShape(w: World) {
    && (forall i :: 0 <= i < |w.slots| ==> w.slots[i] in w.objs)
    && (forall sid :: sid in w.objs ==> sid in w.slots)
  }

  ghost predicate StoreShape(store: Store, requests: map<SessionId, Info>) {
    forall sid :: sid in store ==> sid in requests && store[sid].info == requests[sid]
  }

  ghost predicate WritesShape(w: World) {
    && w.applied < |w.writes|
    && (forall i :: 0 <= i < |w.writes| ==> StoreShape(w.writes[i], w.requests))
  }

  ghost predicate TimersShape(w: World) {
    && (forall p :: p in w.timers ==> p.0 in w.requests && p.1 < w.requests[p.0].polls)
    && (forall sid :: sid in w.schedules ==> sid in w.requests && w.schedules[sid] == w.requests[sid].polls)
  }

  ghost predicate RecordsOk(store: Store) {
    forall sid :: sid in store ==> RecordOk(store[sid])
  }

  /** At most one active session per tab. */
  ghost predicate OneActivePerTab(store: Store) {
    forall a, b :: a in store && b in store && a != b && store[a].status.Active? && store[b].status.Active? ==>
      store[a].info.tab != store[b].info.tab
  }

  ghost predicate StoreOk(store: Store) {
    RecordsOk(store) && OneActivePerTab(store)
  }

  ghost predicate StoresOk(w: World) {
    StoreOk(w.objs) && forall i :: 0 <= i < |w.writes| ==> StoreOk(w.writes[i])
  }

  ghost predicate StoreEvolves(a: Store, b: Store) {
    forall sid :: sid in a && sid in b ==> Evolves(a[sid], b[sid])
  }

  /** Later writes, and memory, only evolve earlier ones. */
  ghost predicate Chain(w: World) {
    && (forall i, j :: 0 <= i < j < |w.writes| ==> StoreEvolves(w.writes[i], w.writes[j]))
    && (forall i :: 0 <= i < |w.writes| ==> StoreEvolves(w.writes[i], w.objs))
  }

  /** The store does not hold the session as active. */
  ghost predicate Over(store: Store, sid: SessionId) {
    sid in store ==> !store[sid].status.Active?
  }

  ghost predicate OverFrom(writes: seq<Store>, k: nat, sid: SessionId) {
    forall j :: k <= j < |writes| ==> Over(writes[j], sid)
  }

  ghost predicate VerdictHolds(s: Session, v: Verdict) {
    match v
    case Fill(choice) => s.status.Filled? && s.lastCode == Some(choice)
    case Exhausted => s.status.TimedOut? && s.completed == UpTo(s.info.polls)
    case Stalled => s.status.TimedOut?
  }

  ghost predicate EventOk(w: World, e: Event) {
    match e
    case Announced(sid, s, v, at) =>
      && sid in w.requests && s.info == w.requests[sid]
      && RecordOk(s) && VerdictHolds(s, v)
      && (v.Fill? ==> v.choice.at <= at)
      && Over(w.objs, sid) && OverFrom(w.writes, w.applied, sid)
    case Passed(epoch, sid, index) =>
      && epoch <= w.epoch
      && (epoch == w.epoch ==>
            && sid in w.objs && index < w.objs[sid].info.polls
            && (w.objs[sid].status.Active? ==> (sid, index) in w.executed))
    case SkippedPoll(epoch, sid, index, at) =>
      && epoch <= w.epoch
      && (epoch == w.epoch ==>
            && sid in w.objs && index !in w.objs[sid].completed
            && (w.objs[sid].status.Active? ==> (sid, index) in w.executed && !MustStall(w.objs[sid].info, index, at)))
    case CancelNotice(sid) => true
  }

  /** Two events that may not both be in a history. */
  ghost predicate Clash(e: Event, f: Event) {
    || (e.Passed? && e == f)
    || (e.Announced? && f.Announced? && e.sid == f.sid)
  }

  ghost predicate HistoryOk(w: World) {
    && (forall k :: 0 <= k < |w.history| ==> EventOk(w, w.history[k]))
    && (forall i, j :: 0 <= i < j < |w.history| ==> !Clash(w.history[i], w.history[j]))
  }

  ghost predicate DataOk(w: World) {
    && SessionsShape(w) && SlotsShape(w) && WritesShape(w) && TimersShape(w)
    && StoresOk(w) && Chain(w) && HistoryOk(w)
  }

  // ------------------------------------------------------------------ tasks

  /** Slots before the cursor hold no active session of the tab. */
  ghost predicate Clean(w: World, tab: int, cursor: nat) {
    && cursor <= |w.slots|
    && forall i :: 0 <= i < cursor ==>
         w.slots[i] in w.objs && (w.objs[w.slots[i]].info.tab == tab ==> !w.objs[w.slots[i]].status.Active?)
  }

  ghost predicate ReturnOk(w: World, ret: Return) {
    ret.BackToStart? ==> Clean(w, ret.request.tab, ret.cursor)
  }

  ghost predicate Retired(w: World, sid: SessionId) {
    sid in w.objs && !w.objs[sid].status.Active?
  }

  /** The poll has passed the guards of handlePoll and has not been answered yet. */
  ghost predicate InFlight(task: Task) {
    task.Polling? || task.Capturing? || task.Returning?
  }

  /** This process has not skipped the poll. */
  ghost predicate NotSkipped(w: World, sid: SessionId, index: nat) {
    forall k :: 0 <= k < |w.history| ==> !IsSkip(w.history[k], w.epoch, sid, index)
  }

  ghost predicate IsSkip(e: Event, epoch: nat, sid: SessionId, index: nat) {
    e.SkippedPoll? && e.epoch == epoch && e.sid == sid && e.index == index
  }

  ghost predicate InFlightOk(w: World, sid: SessionId, index: nat) {
    && sid in w.objs && index < w.objs[sid].info.polls
    && (w.objs[sid].status.Active? ==>
          (sid, index) in w.executed && index !in w.objs[sid].completed && NotSkipped(w, sid, index))
  }

  ghost predicate OutcomeOk(w: World, s: Session, outcome: Outcome) {
    outcome.Found? ==> GoodChoice(s.arrivals, outcome.choice) && outcome.choice.at <= w.now
  }

  /** The mailboxes baselined from this batch have their baseline, and the SMS ones not from a snapshot. */
  ghost predicate CurrentOk(s: Session, current: set<Mailbox>) {
    forall m :: m in current ==> if IsSms(m) then m in s.sms && s.sms[m].seed.FromBatch? else m in s.email
  }

  ghost predicate PhaseOk(w: World, s: Session, phase: Phase) {
    match phase
    case Fetching => true
    case Baselining(results, _, next, current, loading) =>
      && next <= |results|
      && CurrentOk(s, current)
      && (loading ==> next < |results| && IsSms(results[next].mailbox) && results[next].mailbox !in s.sms)
    case Recorded(ticket) => ticket < |w.writes|
    case Decided(outcome) => OutcomeOk(w, s, outcome)
  }

  ghost predicate NotAnnounced(history: seq<Event>, sid: SessionId) {
    forall k :: 0 <= k < |history| && history[k].Announced? ==> history[k].sid != sid
  }

  ghost predicate VerdictPending(w: World, sid: SessionId, v: Verdict) {
    && Retired(w, sid) && VerdictHolds(w.objs[sid], v) && NotAnnounced(w.history, sid)
    && (v.Fill? ==> v.choice.at <= w.now)
  }

  ghost predicate TaskOk(w: World, task: Task) {
    match task
    case Starting(request, cursor) => Clean(w, request.tab, cursor)
    case StartSaved(sid, ticket) => sid in w.objs
    case Canceling(sid, ret) => Retired(w, sid) && ReturnOk(w, ret)
    case CancelSaved(sid, ret, ticket) => ReturnOk(w, ret)
    case Polling(sid, index) => InFlightOk(w, sid, index)
    case Capturing(sid, index, phase, _, _) =>
      InFlightOk(w, sid, index) && sid in w.capturing && PhaseOk(w, w.objs[sid], phase)
    case Returning(sid, index, outcome) => InFlightOk(w, sid, index) && OutcomeOk(w, w.objs[sid], outcome)
    case Closing(sid, v) => VerdictPending(w, sid, v)
    case Finishing(sid, v, ticket) => VerdictPending(w, sid, v) && OverFrom(w.writes, ticket, sid)
    case Updating(sid, ticket) => true
  }

  ghost predicate Deciding(task: Task) {
    task.Closing? || task.Finishing?
  }

  /** What two waiting tasks may not be at once. */
  ghost predicate Compatible(w: World, a: Task, b: Task) {
    && (Deciding(a) && Deciding(b) ==> a.sid != b.sid)
    && (a.Capturing? && b.Capturing? ==> a.sid != b.sid)
    && (InFlight(a) && InFlight(b) && a.sid == b.sid && a.index == b.index ==> Over(w.objs, a.sid))
  }

  ghost predicate TasksOk(w: World) {
    && (forall t :: t in w.tasks ==> TaskOk(w, w.tasks[t]))
    && (forall t, u :: t in w.tasks && u in w.tasks && t != u ==> Compatible(w, w.tasks[t], w.tasks[u]))
  }

  ghost predicate Inv(w: World) {
    DataOk(w) && TasksOk(w)
  }

  // ------------------------------------------------------------------ small changes: tasks

  lemma EndTaskKeeps(w: World, t: nat)
    requires Inv(w)
    ensures Inv(EndTask(w, t))
  {
    var w' := EndTask(w, t);
    assert DataOk(w') by { SameData(w, w'); }
    forall u | u in w'.tasks ensures TaskOk(w', w'.tasks[u]) { SameDataTask(w, w', w.tasks[u]); }
  }

  /** Adding a task that fits. */
  lemma AddTaskKeeps(w: World, t: nat, task: Task)
    requires Inv(w) && t !in w.tasks && TaskOk(w, task)
    requires forall u :: u in w.tasks ==> Compatible(w, w.tasks[u], task)
    ensures Inv(SetTask(w, t, task))
  {
    var w' := SetTask(w, t, task);
    assert DataOk(w') by { SameData(w, w'); }
    forall u | u in w'.tasks ensures TaskOk(w', w'.tasks[u]) { SameDataTask(w, w', w'.tasks[u]); }
  }

  ghost predicate AgreeButTasks(w: World, v: World) {
    v == w.(tasks := v.tasks)
  }

  lemma SameData(w: World, v: World)
    requires DataOk(w) && AgreeButTasks(w, v)
    ensures DataOk(v)
  {
    assert HistoryOk(v) by {
      forall k | 0 <= k < |v.history| ensures EventOk(v, v.history[k]) { assert EventOk(w, w.history[k]); }
    }
  }

  lemma SameDataTask(w: World, v: World, task: Task)
    requires AgreeButTasks(w, v) && TaskOk(w, task)
    ensures TaskOk(v, task)
  {
  }

  // ------------------------------------------------------------------ small changes: clock and snapshots

  lemma ClockAndSnapshotsKeep(w: World, v: World)
    requires Inv(w) && v == w.(now := v.now, snapshots := v.snapshots) && w.now <= v.now
    ensures Inv(v)
  {
    assert HistoryOk(v) by {
      forall k | 0 <= k < |v.history| ensures EventOk(v, v.history[k]) { assert EventOk(w, w.history[k]); }
    }
    forall t | t in v.tasks ensures TaskOk(v, v.tasks[t]) { ClockTask(w, v, w.tasks[t]); }
  }

  lemma ClockTask(w: World, v: World, task: Task)
    requires v == w.(now := v.now, snapshots := v.snapshots) && w.now <= v.now && TaskOk(w, task)
    ensures TaskOk(v, task)
  {
  }

  // ------------------------------------------------------------------ small changes: storage

  lemma PersistKeeps(w: World)
    requires Inv(w)
    ensures Inv(Persist(w))
  {
    var v := Persist(w);
    PersistData(w);
    forall t | t in v.tasks ensures TaskOk(v, v.tasks[t]) { PersistTask(w, w.tasks[t]); }
    SameCompatible(w, v);
  }

  lemma PersistData(w: World)
    requires DataOk(w)
    ensures DataOk(Persist(w))
  {
    var v := Persist(w);
    PersistStores(w);
    PersistChain(w);
    assert HistoryOk(v) by {
      forall k | 0 <= k < |v.history| ensures EventOk(v, v.history[k]) { PersistEvent(w, w.history[k]); }
    }
  }

  lemma PersistStores(w: World)
    requires SessionsShape(w) && WritesShape(w) && StoresOk(w)
    ensures StoresOk(Persist(w)) && WritesShape(Persist(w))
  {
    var v := Persist(w);
    var last := v.writes[|w.writes|];
    assert forall sid :: sid in last ==> sid in w.objs && last[sid] == w.objs[sid];
    assert StoreOk(last);
  }

  lemma PersistChain(w: World)
    requires SessionsShape(w) && Chain(w)
    ensures Chain(Persist(w))
  {
    var v := Persist(w);
    forall i, j | 0 <= i < j < |v.writes| ensures StoreEvolves(v.writes[i], v.writes[j]) {
      if j == |w.writes| { assert StoreEvolves(w.writes[i], w.objs); }
    }
  }

  lemma PersistEvent(w: World, e: Event)
    requires EventOk(w, e)
    ensures EventOk(Persist(w), e)
  {
  }

  lemma PersistTask(w: World, task: Task)
    requires TaskOk(w, task)
    ensures TaskOk(Persist(w), task)
  {
    var v := Persist(w);
    if task.Finishing? {
      forall j | task.ticket <= j < |v.writes| ensures Over(v.writes[j], task.sid) {}
    }
  }

  lemma ApplyWriteKeeps(w: World)
    requires Inv(w) && w.applied + 1 < |w.writes|
    ensures Inv(w.(applied := w.applied + 1))
  {
    var v := w.(applied := w.applied + 1);
    assert HistoryOk(v) by {
      forall k | 0 <= k < |v.history| ensures EventOk(v, v.history[k]) { assert EventOk(w, w.history[k]); }
    }
    forall t | t in v.tasks ensures TaskOk(v, v.tasks[t]) { ApplyWriteTask(w, v, w.tasks[t]); }
  }

  lemma ApplyWriteTask(w: World, v: World, task: Task)
    requires v == w.(applied := v.applied) && TaskOk(w, task)
    ensures TaskOk(v, task)
  {
  }

  // ------------------------------------------------------------------ small changes: one session record

  /** Every waiting task of the session can live with the new record. */
  ghost predicate TasksAccept(w: World, sid: SessionId, s: Session) {
    forall t :: t in w.tasks ==> Accepts(w, w.tasks[t], sid, s)
  }

  ghost predicate Accepts(w: World, task: Task, sid: SessionId, s: Session)
  {
    && (task.Capturing? && task.sid == sid ==> sid in w.objs && s.sms == w.objs[sid].sms)
    && (InFlight(task) && task.sid == sid && s.status.Active? ==> task.index !in s.completed)
  }

  /** Whatever is newly completed has not been skipped. */
  ghost predicate CompletesUnskipped(w: World, sid: SessionId, s: Session) {
    sid in w.objs && forall i :: i in s.completed ==> i in w.objs[sid].completed || NotSkipped(w, sid, i)
  }

  lemma SetSessionKeeps(w: World, sid: SessionId, s: Session)
    requires Inv(w) && sid in w.objs && Evolves(w.objs[sid], s) && RecordOk(s) && TasksAccept(w, sid, s)
    requires CompletesUnskipped(w, sid, s)
    ensures Inv(SetSession(w, sid, s))
  {
    var v := SetSession(w, sid, s);
    SetSessionData(w, sid, s);
    forall t | t in v.tasks ensures TaskOk(v, v.tasks[t]) { SetSessionTask(w, sid, s, w.tasks[t]); }
    SameCompatible(w, v);
  }

  lemma SetSessionData(w: World, sid: SessionId, s: Session)
    requires DataOk(w) && sid in w.objs && Evolves(w.objs[sid], s) && RecordOk(s) && CompletesUnskipped(w, sid, s)
    ensures DataOk(SetSession(w, sid, s))
  {
    hide EventOk, RecordOk, StoreEvolves, StoreOk, StoreShape;
    var v := SetSession(w, sid, s);
    SetSessionShape(w, sid, s);
    SetSessionStores(w, sid, s);
    SetSessionChain(w, sid, s);
    forall k | 0 <= k < |v.history| ensures EventOk(v, v.history[k]) { SetSessionEvent(w, sid, s, k); }
  }

  lemma SetSessionShape(w: World, sid: SessionId, s: Session)
    requires SessionsShape(w) && SlotsShape(w) && WritesShape(w) && TimersShape(w)
    requires sid in w.objs && Evolves(w.objs[sid], s)
    ensures var v := SetSession(w, sid, s);
      SessionsShape(v) && SlotsShape(v) && WritesShape(v) && TimersShape(v)
  {
    hide StoreShape;
  }

  lemma SetSessionStores(w: World, sid: SessionId, s: Session)
    requires StoresOk(w) && sid in w.objs && Evolves(w.objs[sid], s) && RecordOk(s)
    ensures StoresOk(SetSession(w, sid, s))
  {
    hide RecordOk;
    UpdatedStoreOk(w.objs, sid, s);
  }

  lemma UpdatedStoreOk(store: Store, sid: SessionId, s: Session)
    requires StoreOk(store) && sid in store && RecordOk(s) && s.info == store[sid].info
    requires s.status.Active? ==> store[sid].status.Active?
    ensures StoreOk(store[sid := s])
  {
    hide RecordOk;
  }

  lemma SetSessionChain(w: World, sid: SessionId, s: Session)
    requires Chain(w) && sid in w.objs && Evolves(w.objs[sid], s)
    ensures Chain(SetSession(w, sid, s))
  {
    var v := SetSession(w, sid, s);
    forall i | 0 <= i < |v.writes| ensures StoreEvolves(v.writes[i], v.objs) {
      assert StoreEvolves(w.writes[i], w.objs);
      if sid in w.writes[i] { EvolvesTransitive(w.writes[i][sid], w.objs[sid], s); }
    }
  }

  /** Two tasks stay compatible while no session comes back to life. */
  lemma SameCompatible(w: World, v: World)
    requires TasksOk(w) && v.tasks == w.tasks
    requires forall sid :: sid in w.objs && Over(w.objs, sid) ==> Over(v.objs, sid)
    ensures forall t, u :: t in v.tasks && u in v.tasks && t != u ==> Compatible(v, v.tasks[t], v.tasks[u])
  {
    forall t, u | t in v.tasks && u in v.tasks && t != u ensures Compatible(v, v.tasks[t], v.tasks[u]) {
      assert Compatible(w, w.tasks[t], w.tasks[u]) && TaskOk(w, w.tasks[t]);
    }
  }

  lemma SetSessionEvent(w: World, sid: SessionId, s: Session, k: nat)
    requires k < |w.history| && EventOk(w, w.history[k]) && CompletesUnskipped(w, sid, s) && Evolves(w.objs[sid], s)
    ensures EventOk(SetSession(w, sid, s), w.history[k])
  {
  }

  lemma SetSessionTask(w: World, sid: SessionId, s: Session, task: Task)
    requires TaskOk(w, task) && sid in w.objs && Evolves(w.objs[sid], s) && Accepts(w, task, sid, s)
    ensures TaskOk(SetSession(w, sid, s), task)
  {
    GoodChoiceStays(w.objs[sid].arrivals, s.arrivals);
  }

  lemma GoodChoiceStays(a: seq<Arrival>, b: seq<Arrival>)
    requires a <= b
    ensures forall ch :: GoodChoice(a, ch) ==> GoodChoice(b, ch)
  {
  }

  // ------------------------------------------------------------------ small changes: poller

  lemma CancelPollsKeeps(w: World, sid: SessionId)
    requires Inv(w) && Over(w.objs, sid)
    ensures Inv(CancelPolls(w, sid))
  {
    var v := CancelPolls(w, sid);
    assert HistoryOk(v) by {
      forall k | 0 <= k < |v.history| ensures EventOk(v, v.history[k]) { CancelPollsEvent(w, sid, w.history[k]); }
    }
    forall t | t in v.tasks ensures TaskOk(v, v.tasks[t]) { CancelPollsTask(w, sid, w.tasks[t]); }
  }

  lemma CancelPollsEvent(w: World, sid: SessionId, e: Event)
    requires EventOk(w, e) && Over(w.objs, sid)
    ensures EventOk(CancelPolls(w, sid), e)
  {
  }

  lemma CancelPollsTask(w: World, sid: SessionId, task: Task)
    requires TaskOk(w, task) && Over(w.objs, sid)
    ensures TaskOk(CancelPolls(w, sid), task)
  {
  }

  lemma SchedulePollsKeeps(w: World, sid: SessionId, polls: nat)
    requires Inv(w) && sid in w.requests && polls == w.requests[sid].polls
    ensures Inv(SchedulePolls(w, sid, polls))
  {
    var v := SchedulePolls(w, sid, polls);
    assert HistoryOk(v) by {
      forall k | 0 <= k < |v.history| ensures EventOk(v, v.history[k]) { assert EventOk(w, w.history[k]); }
    }
    forall t | t in v.tasks ensures TaskOk(v, v.tasks[t]) { SchedulePollsTask(w, v, w.tasks[t]); }
  }

  lemma SchedulePollsTask(w: World, v: World, task: Task)
    requires v == w.(schedules := v.schedules, timers := v.timers) && TaskOk(w, task)
    ensures TaskOk(v, task)
  {
  }

  lemma MarkKeeps(w: World, p: (SessionId, nat))
    requires Inv(w)
    ensures Inv(w.(executed := w.executed + {p}))
  {
    var v := w.(executed := w.executed + {p});
    assert HistoryOk(v) by {
      forall k | 0 <= k < |v.history| ensures EventOk(v, v.history[k]) { assert EventOk(w, w.history[k]); }
    }
    forall t | t in v.tasks ensures TaskOk(v, v.tasks[t]) { MarkTask(w, p, w.tasks[t]); }
  }

  lemma MarkTask(w: World, p: (SessionId, nat), task: Task)
    requires TaskOk(w, task)
    ensures TaskOk(w.(executed := w.executed + {p}), task)
  {
  }

  // ------------------------------------------------------------------ small changes: sentinel

  lemma CaptureKeeps(w: World, sid: SessionId)
    requires Inv(w)
    ensures Inv(w.(capturing := w.capturing + {sid}))
  {
    var v := w.(capturing := w.capturing + {sid});
    assert HistoryOk(v) by {
      forall k | 0 <= k < |v.history| ensures EventOk(v, v.history[k]) { assert EventOk(w, w.history[k]); }
    }
    forall t | t in v.tasks ensures TaskOk(v, v.tasks[t]) { CaptureTask(w, v, w.tasks[t]); }
  }

  lemma ReleaseKeeps(w: World, sid: SessionId)
    requires Inv(w)
    requires forall t :: t in w.tasks && w.tasks[t].Capturing? ==> w.tasks[t].sid != sid
    ensures Inv(w.(capturing := w.capturing - {sid}))
  {
    var v := w.(capturing := w.capturing - {sid});
    assert HistoryOk(v) by {
      forall k | 0 <= k < |v.history| ensures EventOk(v, v.history[k]) { assert EventOk(w, w.history[k]); }
    }
    forall t | t in v.tasks ensures TaskOk(v, v.tasks[t]) { CaptureTask(w, v, w.tasks[t]); }
  }

  lemma CaptureTask(w: World, v: World, task: Task)
    requires v == w.(capturing := v.capturing) && TaskOk(w, task)
    requires task.Capturing? ==> task.sid in v.capturing
    ensures TaskOk(v, task)
  {
  }

  // ------------------------------------------------------------------ small changes: history

  lemma LogKeeps(w: World, e: Event)
    requires Inv(w) && EventOk(w, e)
    requires forall k :: 0 <= k < |w.history| ==> !Clash(w.history[k], e)
    requires e.Announced? ==> forall t :: t in w.tasks && Deciding(w.tasks[t]) ==> w.tasks[t].sid != e.sid
    requires e.SkippedPoll? ==> forall t :: t in w.tasks ==> NotWaitingFor(w, w.tasks[t], e.sid, e.index)
    ensures Inv(Log(w, e))
  {
    var v := Log(w, e);
    assert HistoryOk(v) by {
      forall k | 0 <= k < |v.history| ensures EventOk(v, v.history[k]) { LogEvent(w, v, v.history[k]); }
    }
    forall t | t in v.tasks ensures TaskOk(v, v.tasks[t]) { LogTask(w, e, w.tasks[t]); }
  }

  lemma LogEvent(w: World, v: World, e: Event)
    requires v == w.(history := v.history) && EventOk(w, e)
    ensures EventOk(v, e)
  {
  }

  /** The task is not this poll, or the session is over. */
  ghost predicate NotWaitingFor(w: World, task: Task, sid: SessionId, index: nat) {
    InFlight(task) && task.sid == sid && task.index == index ==> Over(w.objs, sid)
  }

  lemma LogTask(w: World, e: Event, task: Task)
    requires TaskOk(w, task) && (e.Announced? && Deciding(task) ==> task.sid != e.sid)
    requires e.SkippedPoll? ==> NotWaitingFor(w, task, e.sid, e.index)
    ensures TaskOk(Log(w, e), task)
  {
  }

  // ------------------------------------------------------------------ small changes: the session map

  lemma RemoveKeeps(w: World, sid: SessionId)
    requires Inv(w) && Over(w.objs, sid)
    ensures Inv(w.(live := w.live - {sid}))
  {
    var v := w.(live := w.live - {sid});
    assert HistoryOk(v) by {
      forall k | 0 <= k < |v.history| ensures EventOk(v, v.history[k]) { assert EventOk(w, w.history[k]); }
    }
    forall t | t in v.tasks ensures TaskOk(v, v.tasks[t]) { RemoveTask(w, v, w.tasks[t]); }
  }

  lemma RemoveTask(w: World, v: World, task: Task)
    requires v == w.(live := v.live) && TaskOk(w, task)
    ensures TaskOk(v, task)
  {
  }

  function Insert(w: World, id: SessionId, info: Info): World {
    w.(objs := w.objs[id := NewSession(info)], slots := w.slots + [id], live := w.live + {id},
       requests := w.requests[id := info])
  }

  lemma InsertKeeps(w: World, id: SessionId, info: Info)
    requires Inv(w) && id !in w.requests && info.polls > 0
    requires forall sid :: sid in w.objs && w.objs[sid].info.tab == info.tab ==> !w.objs[sid].status.Active?
    ensures Inv(Insert(w, id, info))
  {
    var v := Insert(w, id, info);
    InsertData(w, id, info);
    forall t | t in v.tasks ensures TaskOk(v, v.tasks[t]) { InsertTask(w, id, info, w.tasks[t]); }
    SameCompatible(w, v);
  }

  lemma InsertData(w: World, id: SessionId, info: Info)
    requires DataOk(w) && id !in w.requests && info.polls > 0
    requires forall sid :: sid in w.objs && w.objs[sid].info.tab == info.tab ==> !w.objs[sid].status.Active?
    ensures DataOk(Insert(w, id, info))
  {
    var v := Insert(w, id, info);
    InsertShape(w, id, info);
    InsertStores(w, id, info);
    InsertChain(w, id, info);
    InsertHistory(w, id, info);
  }

  lemma InsertHistory(w: World, id: SessionId, info: Info)
    requires HistoryOk(w) && SessionsShape(w) && id !in w.requests
    ensures HistoryOk(Insert(w, id, info))
  {
    var v := Insert(w, id, info);
    assert HistoryOk(v) by {
      forall k | 0 <= k < |v.history| ensures EventOk(v, v.history[k]) { InsertEvent(w, id, info, w.history[k]); }
    }
  }

  lemma InsertShape(w: World, id: SessionId, info: Info)
    requires SessionsShape(w) && SlotsShape(w) && TimersShape(w) && id !in w.requests && info.polls > 0
    ensures var v := Insert(w, id, info); SessionsShape(v) && SlotsShape(v) && TimersShape(v)
  {
    var v := Insert(w, id, info);
    forall sid | sid in v.objs ensures sid in v.slots {
      if sid == id { assert v.slots[|w.slots|] == id; } else { assert sid in w.slots; }
    }
  }

  lemma InsertStores(w: World, id: SessionId, info: Info)
    requires StoresOk(w) && WritesShape(w) && id !in w.requests && info.polls > 0
    requires forall sid :: sid in w.objs && w.objs[sid].info.tab == info.tab ==> !w.objs[sid].status.Active?
    ensures StoresOk(Insert(w, id, info)) && WritesShape(Insert(w, id, info))
  {
    assert RecordOk(NewSession(info));
  }

  lemma InsertChain(w: World, id: SessionId, info: Info)
    requires Chain(w) && WritesShape(w) && id !in w.requests
    ensures Chain(Insert(w, id, info))
  {
    var v := Insert(w, id, info);
    forall i | 0 <= i < |v.writes| ensures StoreEvolves(v.writes[i], v.objs) {
      assert StoreEvolves(w.writes[i], w.objs) && StoreShape(w.writes[i], w.requests);
    }
  }

  lemma InsertEvent(w: World, id: SessionId, info: Info, e: Event)
    requires EventOk(w, e) && SessionsShape(w) && id !in w.requests
    ensures EventOk(Insert(w, id, info), e)
  {
  }

  lemma InsertTask(w: World, id: SessionId, info: Info, task: Task)
    requires TaskOk(w, task) && SessionsShape(w) && id !in w.requests
    ensures TaskOk(Insert(w, id, info), task)
  {
  }

  // ------------------------------------------------------------------ restart

  lemma RestartKeeps(w: World, k: nat, order: seq<SessionId>)
    requires Inv(w) && w.applied <= k < |w.writes|
    requires forall sid :: sid in order <==> sid in ActiveOf(w.writes[k])
    ensures Inv(Restart(w, k, order))
  {
    var v := Restart(w, k, order);
    RestartStores(w, k, order);
    RestartChain(w, k, order);
    assert SlotsShape(v) by {
      forall i | 0 <= i < |v.slots| ensures v.slots[i] in v.objs { assert v.slots[i] in order; }
    }
    assert HistoryOk(v) by {
      forall n | 0 <= n < |v.history| ensures EventOk(v, v.history[n]) { RestartEvent(w, k, order, w.history[n]); }
    }
  }

  lemma RestartStores(w: World, k: nat, order: seq<SessionId>)
    requires SessionsShape(w) && WritesShape(w) && TimersShape(w) && StoresOk(w) && w.applied <= k < |w.writes|
    ensures var v := Restart(w, k, order); SessionsShape(v) && WritesShape(v) && TimersShape(v) && StoresOk(v)
  {
    assert StoreShape(w.writes[k], w.requests) && StoreOk(w.writes[k]);
  }

  lemma RestartChain(w: World, k: nat, order: seq<SessionId>)
    requires Chain(w) && k < |w.writes|
    ensures Chain(Restart(w, k, order))
  {
    hide Evolves;
    var v := Restart(w, k, order);
    forall i | 0 <= i < |v.writes| ensures StoreEvolves(v.writes[i], v.objs) {
      if i < k { assert StoreEvolves(w.writes[i], w.writes[k]); }
      if i == k { forall sid | sid in v.objs ensures Evolves(v.objs[sid], v.objs[sid]) { EvolvesSame(v.objs[sid]); } }
    }
  }

  lemma EvolvesSame(s: Session)
    ensures Evolves(s, s)
  {
  }

  lemma RestartEvent(w: World, k: nat, order: seq<SessionId>, e: Event)
    requires EventOk(w, e) && w.applied <= k < |w.writes|
    ensures EventOk(Restart(w, k, order), e)
  {
    if e.Announced? { assert Over(w.writes[k], e.sid); }
  }
}
