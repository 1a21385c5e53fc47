/**
 * The watch-session protocol as a state machine: session-controller.ts driven by session-poller.ts
 * (extension/src/background). Every handler is cut into atomic steps at its awaits; tasks hold the handlers that
 * are waiting. Memory is lost when the service worker restarts; storage writes and timers survive.
 */
module WatchProtocol {
  import opened Prelude
  import opened WatchTypes

  /** The persisted form of the session map. */
  type Store = map<SessionId, Session>

  /** What a cancellation goes back to: nothing, or the cancel loop of startSession at this slot. */
  datatype Return = Alone | BackToStart(request: Request, cursor: nat)

  datatype Request = Request(tab: int, timeout: int, sms: bool, email: bool)

  datatype AdapterResult = AdapterResult(mailbox: Mailbox, success: bool, known: bool)

  /** pollForCode's answer. */
  datatype Outcome = Skipped | NoCode | Found(choice: Choice)

  datatype Verdict = Fill(choice: Choice) | Exhausted | Stalled

  /** Where a poll that holds the capture sentinel stands. */
  datatype Phase =
    | Fetching
    | Baselining(
        results: seq<AdapterResult>, candidates: seq<Candidate>, next: nat, current: set<Mailbox>, loading: bool)
    | Recorded(ticket: nat)
    | Decided(outcome: Outcome)

  /** A handler waiting at an await. Tickets are indices of storage writes. */
  datatype Task =
    | Starting(request: Request, cursor: nat)
    | StartSaved(sid: SessionId, ticket: nat)
    | Canceling(sid: SessionId, ret: Return)
    | CancelSaved(sid: SessionId, ret: Return, ticket: nat)
    | Polling(sid: SessionId, index: nat)
    | Capturing(sid: SessionId, index: nat, phase: Phase, rows: map<Mailbox, seq<Row>>, keys: map<Mailbox, seq<string>>)
    | Returning(sid: SessionId, index: nat, outcome: Outcome)
    | Closing(sid: SessionId, verdict: Verdict)
    | Finishing(sid: SessionId, verdict: Verdict, ticket: nat)
    | Updating(sid: SessionId, ticket: nat)

  /** What an observer of the extension can see happen, in order. */
  datatype Event =
    | Passed(epoch: nat, sid: SessionId, index: nat)
    | SkippedPoll(epoch: nat, sid: SessionId, index: nat, at: int)
    | Announced(sid: SessionId, session: Session, verdict: Verdict, at: int)
    | CancelNotice(sid: SessionId)

  datatype World = World(
    now: int,
    // memory of the worker
    objs: map<SessionId, Session>,       // every session object of this process, removed ones included
    slots: seq<SessionId>,               // the Map's slots in insertion order, deleted ones included
    live: set<SessionId>,                // keys present in the Map
    capturing: set<SessionId>,
    executed: set<(SessionId, nat)>,
    schedules: map<SessionId, nat>,
    tasks: map<nat, Task>,
    // survives a restart
    writes: seq<Store>,                  // session writes in the order issued
    applied: nat,                        // the last one storage has applied
    snapshots: map<Mailbox, Snapshot>,
    timers: set<(SessionId, nat)>,       // timeouts and alarms ever created
    // bookkeeping of the model
    requests: map<SessionId, Info>,      // every session id ever drawn
    epoch: nat,
    history: seq<Event>)

  function Disk(w: World): Store
    requires w.applied < |w.writes|
  {
    w.writes[w.applied]
  }

  const EMPTY := World(0, map[], [], {}, {}, {}, map[], map[], [map[]], 0, map[], {}, map[], 0, [])

  // ------------------------------------------------------------------ shared pieces
  // A contract on a piece says what it leaves alone.

  /** persistSessions: serializes the live sessions now and queues the write. */
  function Persist(w: World): World {
    w.(writes := w.writes + [map sid | sid in w.live && sid in w.objs :: w.objs[sid]])
  }

  function SetTask(w: World, t: nat, task: Task): World {
    w.(tasks := w.tasks[t := task])
  }

  function EndTask(w: World, t: nat): World {
    w.(tasks := w.tasks - {t})
  }

  function SetSession(w: World, sid: SessionId, s: Session): World {
    w.(objs := w.objs[sid := s])
  }

  function Log(w: World, e: Event): World {
    w.(history := w.history + [e])
  }

  /** SessionPoller.schedulePolls */
  function SchedulePolls(w: World, sid: SessionId, polls: nat): (v: World)
    ensures v.objs == w.objs && v.writes == w.writes && v.applied == w.applied
  {
    w.(schedules := w.schedules[sid := polls],
       timers := w.timers + (set i | 0 <= i < polls :: (sid, i)))
  }

  /**
   * SessionPoller.cancelPolls: drops the schedule and its execution marks. A cleared timer may already be on its way.
   */
  function CancelPolls(w: World, sid: SessionId): (v: World)
    ensures v.objs == w.objs && v.writes == w.writes && v.applied == w.applied
  {
    if sid !in w.schedules then w
    else w.(schedules := w.schedules - {sid},
            executed := set p | p in w.executed && !(p.0 == sid && p.1 < w.schedules[sid]))
  }

  // ------------------------------------------------------------------ startSession and cancelSession

  predicate ToCancel(w: World, tab: int, sid: SessionId) {
    sid in w.live && sid in w.objs && w.objs[sid].info.tab == tab && w.objs[sid].status.Active?
  }

  /** The cancel loop's next stop: the first slot from cursor on that holds an active session of the tab. */
  function NextToCancel(w: World, tab: int, cursor: nat): (k: nat)
    requires cursor <= |w.slots|
    ensures cursor <= k <= |w.slots|
    ensures k < |w.slots| ==> ToCancel(w, tab, w.slots[k])
    ensures forall i :: cursor <= i < k ==> !ToCancel(w, tab, w.slots[i])
    decreases |w.slots| - cursor
  {
    if cursor == |w.slots| || ToCancel(w, tab, w.slots[cursor]) then cursor
    else NextToCancel(w, tab, cursor + 1)
  }

  /** cancelSession up to its first await: the status changes at once. */
  function BeginCancel(w: World, t: nat, sid: SessionId, ret: Return): World
    requires sid in w.objs
  {
    var s := w.objs[sid];
    SetTask(SetSession(w, sid, if s.status.Active? then s.(status := Canceled) else s), t, Canceling(sid, ret))
  }

  /**
   * One turn of startSession's loop: cancel the next active session of the tab, or, with none left, insert the new one.
   */
  function Scan(w: World, t: nat, request: Request, cursor: nat, id: SessionId): World
    requires cursor <= |w.slots|
  {
    var k := NextToCancel(w, request.tab, cursor);
    if k < |w.slots| then BeginCancel(w, t, w.slots[k], BackToStart(request, k + 1))
    else
      var info := Info(request.tab, w.now, request.timeout, |PollTimes(request.timeout)|, request.sms, request.email);
      var w1 := w.(objs := w.objs[id := NewSession(info)], slots := w.slots + [id], live := w.live + {id},
                   requests := w.requests[id := info]);
      SetTask(Persist(w1), t, StartSaved(id, |w.writes|))
  }

  /** After the persist: announce the start and create the timers. */
  function FinishStart(w: World, t: nat, sid: SessionId): (v: World)
    requires sid in w.objs
    ensures v.objs == w.objs && v.writes == w.writes && v.applied == w.applied
  {
    EndTask(SchedulePolls(w, sid, w.objs[sid].info.polls), t)
  }

  /** The rest of cancelSession up to its persist. */
  function CommitCancel(w: World, t: nat, sid: SessionId, ret: Return): World {
    var w1 := CancelPolls(w, sid);
    SetTask(Persist(w1.(live := w1.live - {sid})), t, CancelSaved(sid, ret, |w.writes|))
  }

  function NotifyCancel(w: World, t: nat, sid: SessionId, ret: Return): (v: World)
    ensures v.objs == w.objs && v.writes == w.writes && v.applied == w.applied
  {
    var w1 := Log(w, CancelNotice(sid));
    match ret
    case Alone => EndTask(w1, t)
    case BackToStart(request, cursor) => SetTask(w1, t, Starting(request, cursor))
  }

  // ------------------------------------------------------------------ polls

  /** executePoll and the guards of handlePoll. */
  function Fire(w: World, t: nat, sid: SessionId, index: nat): (v: World)
    ensures v.objs == w.objs && v.writes == w.writes && v.applied == w.applied
  {
    if (sid, index) in w.executed then w
    else
      var w1 := w.(executed := w.executed + {(sid, index)});
      if sid in w.live && sid in w.objs && w.objs[sid].status.Active? && index !in w.objs[sid].completed
      then Log(SetTask(w1, t, Polling(sid, index)), Passed(w.epoch, sid, index))
      else w1
  }

  /** The sentinel's check-and-set: no await in between. */
  function EnterCapture(w: World, t: nat, sid: SessionId, index: nat): (v: World)
    ensures v.objs == w.objs && v.writes == w.writes && v.applied == w.applied
  {
    if sid in w.capturing then SetTask(w, t, Returning(sid, index, Skipped))
    else SetTask(w.(capturing := w.capturing + {sid}), t, Capturing(sid, index, Fetching, map[], map[]))
  }

  /** The finally block: the sentinel is released whatever the answer. */
  function LeaveCapture(w: World, t: nat, sid: SessionId, index: nat, outcome: Outcome): (v: World)
    ensures v.objs == w.objs && v.writes == w.writes && v.applied == w.applied
  {
    SetTask(w.(capturing := w.capturing - {sid}), t, Returning(sid, index, outcome))
  }

  /** The adapter hook: batches are buffered only while their mailbox has no baseline. */
  function BufferBatch(w: World, t: nat, task: Task, mailbox: Mailbox, batch: seq<Message>): (v: World)
    requires task.Capturing? && task.sid in w.objs
    ensures v.objs == w.objs && v.writes == w.writes && v.applied == w.applied
  {
    var s := w.objs[task.sid];
    if IsSms(mailbox) then
      var rows := BatchRows(batch);
      if !s.info.sms || mailbox in s.sms || rows == [] then w
      else SetTask(w, t, task.(rows := task.rows[mailbox :=
        (if mailbox in task.rows then task.rows[mailbox] else []) + rows]))
    else
      if !s.info.email || mailbox in s.email || batch == [] then w
      else SetTask(w, t, task.(keys := task.keys[mailbox :=
        (if mailbox in task.keys then task.keys[mailbox] else []) + BatchKeys(mailbox, batch)]))
  }

  function SaveSnapshot(w: World, mailbox: Mailbox, rows: map<Mailbox, seq<Row>>, saved: bool): (v: World)
    ensures v.objs == w.objs && v.writes == w.writes && v.applied == w.applied
  {
    if mailbox in rows && saved then w.(snapshots := w.snapshots[mailbox := Snapshot(w.now, rows[mailbox])]) else w
  }

  /** The snapshot load has returned: seed the baseline from it, or from this poll's own batch. */
  function FinishLoad(w: World, t: nat, task: Task, saved: bool): (v: World)
    requires task.Capturing? && task.phase.Baselining? && task.phase.next < |task.phase.results|
    requires task.sid in w.objs
    ensures v.capturing == w.capturing && t in v.tasks && v.tasks == w.tasks[t := v.tasks[t]]
    ensures v.tasks[t].Capturing? && v.tasks[t].sid == task.sid
  {
    var p := task.phase;
    var mailbox := p.results[p.next].mailbox;
    var s := w.objs[task.sid];
    var snapshot := UsableSnapshot(if mailbox in w.snapshots then Some(w.snapshots[mailbox]) else None, s.info.start);
    var baseline :=
      if snapshot.Some? then SmsBaseline(snapshot.value.rows, FromSnapshot(snapshot.value.observedAt))
      else SmsBaseline(if mailbox in task.rows then task.rows[mailbox] else [], FromBatch);
    var w1 := SaveSnapshot(SetSession(w, task.sid, s.(sms := s.sms[mailbox := baseline])), mailbox, task.rows, saved);
    SetTask(w1, t, task.(phase := p.(next := p.next + 1, loading := false,
      current := if snapshot.Some? then p.current else p.current + {mailbox})))
  }

  /** One adapter result of the baseline loop, up to its next await. */
  function BaselineResult(w: World, t: nat, task: Task, saved: bool): (v: World)
    requires task.Capturing? && task.phase.Baselining? && task.phase.next < |task.phase.results|
    requires task.sid in w.objs
    ensures v.capturing == w.capturing && t in v.tasks && v.tasks == w.tasks[t := v.tasks[t]]
    ensures v.tasks[t].Capturing? && v.tasks[t].sid == task.sid
  {
    var p := task.phase;
    var r := p.results[p.next];
    var s := w.objs[task.sid];
    var onward := task.(phase := p.(next := p.next + 1, loading := false));
    if !r.success || !r.known then SetTask(w, t, onward)
    else if !IsSms(r.mailbox) then
      if r.mailbox in s.email then SetTask(w, t, onward)
      else
        var keys := if r.mailbox in task.keys then task.keys[r.mailbox] else [];
        SetTask(SetSession(w, task.sid, s.(email := s.email[r.mailbox := keys])), t,
                onward.(phase := onward.phase.(current := p.current + {r.mailbox})))
    else if r.mailbox in s.sms && !p.loading then
      SetTask(SaveSnapshot(w, r.mailbox, task.rows, saved), t, onward)
    else if !p.loading then
      SetTask(w, t, task.(phase := p.(loading := true)))
    else
      FinishLoad(w, t, task, saved)
  }

  /** Classification of the whole batch and the persist that follows. */
  function Classify(w: World, t: nat, task: Task): World
    requires task.Capturing? && task.phase.Baselining? && task.sid in w.objs
  {
    var s := w.objs[task.sid];
    var added := NewArrivals(s, task.phase.current, task.phase.candidates, w.now);
    SetTask(Persist(SetSession(w, task.sid, s.(arrivals := s.arrivals + added))), t,
            task.(phase := Recorded(|w.writes|)))
  }

  /** The matcher's decision; eligible, scores and suppressed are what the unmodelled filters answer. */
  function Choose(w: World, t: nat, task: Task, eligible: seq<bool>, scores: seq<real>, suppressed: bool): (v: World)
    requires task.Capturing? && task.sid in w.objs
    requires |eligible| == |scores| == |w.objs[task.sid].arrivals|
    ensures v.objs == w.objs && v.writes == w.writes && v.applied == w.applied
  {
    var choice := Decide(w.objs[task.sid].arrivals, eligible, scores, suppressed, w.now);
    SetTask(w, t, task.(phase := Decided(if choice.Some? then Found(choice.value) else NoCode)))
  }

  /** The two safety nets for a skipped poll: no later poll is scheduled, or the session's time is up. */
  predicate MustStall(info: Info, index: nat, now: int) {
    index + 1 == info.polls || now >= info.start + info.timeout * 1000
  }

  function Terminate(w: World, t: nat, sid: SessionId, s: Session, verdict: Verdict): World {
    SetTask(SetSession(w, sid, s), t, Closing(sid, verdict))
  }

  /** handlePoll after its await. */
  function HandleOutcome(w: World, t: nat, sid: SessionId, index: nat, outcome: Outcome): World
    requires sid in w.objs
  {
    var s := w.objs[sid];
    if !s.status.Active? then EndTask(w, t)
    else if outcome.Skipped? then
      var w1 := Log(w, SkippedPoll(w.epoch, sid, index, w.now));
      if MustStall(s.info, index, w.now) then Terminate(w1, t, sid, s.(status := TimedOut), Stalled)
      else EndTask(w1, t)
    else
      var s1 := s.(completed := InsertSorted(s.completed, index));
      if outcome.Found? then
        Terminate(w, t, sid, s1.(status := Filled, lastCode := Some(outcome.choice)), Fill(outcome.choice))
      else if s.info.polls <= |s1.completed| then
        Terminate(w, t, sid, s1.(status := TimedOut), Exhausted)
      else
        SetTask(Persist(SetSession(w, sid, s1)), t, Updating(sid, |w.writes|))
  }

  /** The messages tab is closed: persist the terminal status. */
  function SaveVerdict(w: World, t: nat, sid: SessionId, verdict: Verdict): World {
    SetTask(Persist(w), t, Finishing(sid, verdict, |w.writes|))
  }

  /** The terminal status is stored: cancel the remaining polls and announce. */
  function Announce(w: World, t: nat, sid: SessionId, verdict: Verdict): World
    requires sid in w.objs
  {
    EndTask(Log(CancelPolls(w, sid), Announced(sid, w.objs[sid], verdict, w.now)), t)
  }

  // ------------------------------------------------------------------ restart

  function ActiveOf(store: Store): Store {
    map sid | sid in store && store[sid].status.Active? :: store[sid]
  }

  function AllTimers(store: Store): set<(SessionId, nat)> {
    set sid, i | sid in store && 0 <= i < store[sid].info.polls :: (sid, i)
  }

  /**
   * The worker dies and a new one initializes: storage keeps writes[..k+1], and the active records are loaded, in
   * some order, and scheduled again.
   */
  function Restart(w: World, k: nat, order: seq<SessionId>): World
    requires k < |w.writes|
  {
    var loaded := ActiveOf(w.writes[k]);
    w.(objs := loaded, slots := order, live := loaded.Keys, capturing := {}, executed := {}, tasks := map[],
       schedules := map sid | sid in loaded :: loaded[sid].info.polls,
       writes := w.writes[..k + 1], applied := k,
       timers := w.timers + AllTimers(loaded), epoch := w.epoch + 1)
  }

  // ------------------------------------------------------------------ steps

  datatype Step =
    | Tick(ms: nat)
    | ApplyWrite
    | CallStart(t: nat, request: Request)
    | ScanSlots(t: nat, id: SessionId)
    | StartDone(t: nat)
    | CallCancel(t: nat, target: SessionId)
    | CancelCommit(t: nat)
    | CancelDone(t: nat)
    | TimerFires(t: nat, target: SessionId, index: nat)
    | PollGivesUp(t: nat)
    | PollEnters(t: nat)
    | AdapterBatch(t: nat, mailbox: Mailbox, batch: seq<Message>)
    | PollFetched(t: nat, results: seq<AdapterResult>, candidates: seq<Candidate>)
    | PollBaselines(t: nat, saved: bool)
    | PollClassifies(t: nat)
    | PollDecides(t: nat, eligible: seq<bool>, scores: seq<real>, suppressed: bool)
    | PollLeaves(t: nat)
    | PollReturns(t: nat)
    | TabClosed(t: nat)
    | VerdictSaved(t: nat)
    | UpdateSaved(t: nat)
    | Resume(target: SessionId)
    | WorkerRestarts(k: nat, order: seq<SessionId>)

  /** When a step can happen. Sessions ids are never drawn twice; a waiting task goes on once its write is applied. */
  ghost predicate Enabled(w: World, step: Step) {
    match step
    case Tick(_) => true
    case ApplyWrite => w.applied + 1 < |w.writes|
    case CallStart(t, _) => t !in w.tasks
    case ScanSlots(t, id) =>
      t in w.tasks && w.tasks[t].Starting? && w.tasks[t].cursor <= |w.slots| && id !in w.requests
    case StartDone(t) =>
      t in w.tasks && w.tasks[t].StartSaved? && w.tasks[t].ticket <= w.applied && w.tasks[t].sid in w.objs
    case CallCancel(t, target) => t !in w.tasks && target in w.objs && target in w.live
    case CancelCommit(t) => t in w.tasks && w.tasks[t].Canceling?
    case CancelDone(t) => t in w.tasks && w.tasks[t].CancelSaved? && w.tasks[t].ticket <= w.applied
    case TimerFires(t, target, index) => t !in w.tasks && (target, index) in w.timers
    case PollGivesUp(t) => t in w.tasks && (w.tasks[t].Polling? || w.tasks[t].Capturing?)
    case PollEnters(t) => t in w.tasks && w.tasks[t].Polling?
    case AdapterBatch(t, _, _) =>
      t in w.tasks && w.tasks[t].Capturing? && w.tasks[t].phase.Fetching? && w.tasks[t].sid in w.objs
    case PollFetched(t, _, _) => t in w.tasks && w.tasks[t].Capturing? && w.tasks[t].phase.Fetching?
    case PollBaselines(t, _) =>
      && t in w.tasks && w.tasks[t].Capturing? && w.tasks[t].phase.Baselining? && w.tasks[t].sid in w.objs
      && w.tasks[t].phase.next < |w.tasks[t].phase.results|
    case PollClassifies(t) =>
      && t in w.tasks && w.tasks[t].Capturing? && w.tasks[t].phase.Baselining? && w.tasks[t].sid in w.objs
      && w.tasks[t].phase.next == |w.tasks[t].phase.results|
    case PollDecides(t, eligible, scores, _) =>
      && t in w.tasks && w.tasks[t].Capturing? && w.tasks[t].phase.Recorded? && w.tasks[t].sid in w.objs
      && w.tasks[t].phase.ticket <= w.applied
      && |eligible| == |scores| == |w.objs[w.tasks[t].sid].arrivals|
    case PollLeaves(t) => t in w.tasks && w.tasks[t].Capturing? && w.tasks[t].phase.Decided?
    case PollReturns(t) => t in w.tasks && w.tasks[t].Returning? && w.tasks[t].sid in w.objs
    case TabClosed(t) => t in w.tasks && w.tasks[t].Closing?
    case VerdictSaved(t) =>
      t in w.tasks && w.tasks[t].Finishing? && w.tasks[t].ticket <= w.applied && w.tasks[t].sid in w.objs
    case UpdateSaved(t) => t in w.tasks && w.tasks[t].Updating? && w.tasks[t].ticket <= w.applied
    case Resume(target) => target in w.live && target in w.objs && w.objs[target].status.Active?
    case WorkerRestarts(k, order) =>
      && w.applied <= k < |w.writes|
      && (forall i, j :: 0 <= i < j < |order| ==> order[i] != order[j])
      && (forall sid :: sid in order <==> sid in ActiveOf(w.writes[k]))
  }

  ghost function Apply(w: World, step: Step): World
    requires Enabled(w, step)
  {
    match step
    case Tick(ms) => w.(now := w.now + ms)
    case ApplyWrite => w.(applied := w.applied + 1)
    case CallStart(t, request) => SetTask(w, t, Starting(request, 0))
    case ScanSlots(t, id) => Scan(w, t, w.tasks[t].request, w.tasks[t].cursor, id)
    case StartDone(t) => FinishStart(w, t, w.tasks[t].sid)
    case CallCancel(t, target) => BeginCancel(w, t, target, Alone)
    case CancelCommit(t) => CommitCancel(w, t, w.tasks[t].sid, w.tasks[t].ret)
    case CancelDone(t) => NotifyCancel(w, t, w.tasks[t].sid, w.tasks[t].ret)
    case TimerFires(t, target, index) => Fire(w, t, target, index)
    case PollGivesUp(t) =>
      var task := w.tasks[t];
      if task.Polling? then SetTask(w, t, Returning(task.sid, task.index, NoCode))
      else LeaveCapture(w, t, task.sid, task.index, NoCode)
    case PollEnters(t) => EnterCapture(w, t, w.tasks[t].sid, w.tasks[t].index)
    case AdapterBatch(t, mailbox, batch) => BufferBatch(w, t, w.tasks[t], mailbox, batch)
    case PollFetched(t, results, candidates) =>
      SetTask(w, t, w.tasks[t].(phase := Baselining(results, candidates, 0, {}, false)))
    case PollBaselines(t, saved) => BaselineResult(w, t, w.tasks[t], saved)
    case PollClassifies(t) => Classify(w, t, w.tasks[t])
    case PollDecides(t, eligible, scores, suppressed) => Choose(w, t, w.tasks[t], eligible, scores, suppressed)
    case PollLeaves(t) => LeaveCapture(w, t, w.tasks[t].sid, w.tasks[t].index, w.tasks[t].phase.outcome)
    case PollReturns(t) => HandleOutcome(w, t, w.tasks[t].sid, w.tasks[t].index, w.tasks[t].outcome)
    case TabClosed(t) => SaveVerdict(w, t, w.tasks[t].sid, w.tasks[t].verdict)
    case VerdictSaved(t) => Announce(w, t, w.tasks[t].sid, w.tasks[t].verdict)
    case UpdateSaved(t) => EndTask(w, t)
    case Resume(target) => SchedulePolls(w, target, w.objs[target].info.polls)
    case WorkerRestarts(k, order) => Restart(w, k, order)
  }

  // ------------------------------------------------------------------ runs

  ghost predicate Run(w: World, steps: seq<Step>)
    decreases |steps|
  {
    steps == [] || (Enabled(w, steps[0]) && Run(Apply(w, steps[0]), steps[1..]))
  }

  /** The world after a run. */
  ghost function After(w: World, steps: seq<Step>): World
    requires Run(w, steps)
    decreases |steps|
  {
    if steps == [] then w else After(Apply(w, steps[0]), steps[1..])
  }
}
