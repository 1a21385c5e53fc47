/**
 * What a baseline holds and what is classified against it (extension/src/background/session-controller.ts:674-701,
 * 885-1042, 1203-1226), message by message and field by field.
 */
module WatchBaseline {
  import opened Prelude
  import opened WatchTypes
  import opened WatchProtocol
  import opened WatchInvariant
  import opened WatchSteps
  import opened WatchTheorems

  // ------------------------------------------------------------------ the buffer of a critical section

  /** The provenance keys this poll has buffered for a mailbox. */
  function KeysOf(task: Task, mailbox: Mailbox): seq<string>
    requires task.Capturing?
  {
    if mailbox in task.keys then task.keys[mailbox] else []
  }

  /** The conversation rows it has buffered. */
  function RowsOf(task: Task, mailbox: Mailbox): seq<Row>
    requires task.Capturing?
  {
    if mailbox in task.rows then task.rows[mailbox] else []
  }

  /** A key names its provider, its mailbox and its message. */
  lemma KeySpelledOut(id: string, messageId: string)
    ensures ProvenanceKey(Mailbox(id, Imap), messageId) == "imap:" + id + ":" + messageId
    ensures ProvenanceKey(Mailbox(id, ImapBridge), messageId) == "imap-bridge:" + id + ":" + messageId
    ensures ProvenanceKey(Mailbox(id, GoogleMessages), messageId) == "google-messages:" + id + ":" + messageId
  {
  }

  /** Different messages of a mailbox have different keys. */
  lemma KeysAreDistinct(mailbox: Mailbox, a: string, b: string)
    requires ProvenanceKey(mailbox, a) == ProvenanceKey(mailbox, b)
    ensures a == b
  {
    var head := ProviderName(mailbox.provider) + ":" + mailbox.id + ":";
    assert ProvenanceKey(mailbox, a) == head + a && ProvenanceKey(mailbox, b) == head + b;
    assert (head + a)[|head|..] == a && (head + b)[|head|..] == b;
  }

  lemma BatchKeysSpelledOut(mailbox: Mailbox, batch: seq<Message>, i: nat)
    requires i < |batch|
    ensures BatchKeys(mailbox, batch)[i] == ProviderName(mailbox.provider) + ":" + mailbox.id + ":" + batch[i].id
  {
  }

  lemma BufferAppendsKeys(w: World, t: nat, task: Task, mailbox: Mailbox, batch: seq<Message>)
    requires task.Capturing? && task.sid in w.objs && t in w.tasks && w.tasks[t] == task && !IsSms(mailbox)
    requires w.objs[task.sid].info.email && mailbox !in w.objs[task.sid].email
    ensures var v := BufferBatch(w, t, task, mailbox, batch);
      && t in v.tasks && v.tasks[t].Capturing?
      && KeysOf(v.tasks[t], mailbox) == KeysOf(task, mailbox) + BatchKeys(mailbox, batch)
  {
    hide ProvenanceKey;
    assert batch == [] ==> BatchKeys(mailbox, batch) == [];
    assert KeysOf(task, mailbox) + [] == KeysOf(task, mailbox);
  }

  /** The key of every message of an email batch is buffered, in order, after what was there. */
  lemma EmailBatchIsBuffered(w: World, t: nat, mailbox: Mailbox, batch: seq<Message>)
    requires Enabled(w, AdapterBatch(t, mailbox, batch)) && !IsSms(mailbox)
    requires w.objs[w.tasks[t].sid].info.email && mailbox !in w.objs[w.tasks[t].sid].email
    ensures var v := Apply(w, AdapterBatch(t, mailbox, batch));
      && t in v.tasks && v.tasks[t].Capturing?
      && var before, after := KeysOf(w.tasks[t], mailbox), KeysOf(v.tasks[t], mailbox);
        && |after| == |before| + |batch| && after[..|before|] == before
        && forall i :: 0 <= i < |batch| ==>
          after[|before| + i] == ProviderName(mailbox.provider) + ":" + mailbox.id + ":" + batch[i].id
  {
    hide BufferBatch, BatchKeys, ProviderName;
    BufferAppendsKeys(w, t, w.tasks[t], mailbox, batch);
    forall i | 0 <= i < |batch|
      ensures BatchKeys(mailbox, batch)[i] == ProviderName(mailbox.provider) + ":" + mailbox.id + ":" + batch[i].id
    {
      BatchKeysSpelledOut(mailbox, batch, i);
    }
  }

  /** rows are the rows of the messages at picks, and picks are all messages with both fields, in order. */
  ghost predicate Picked(batch: seq<Message>, rows: seq<Row>, picks: seq<nat>) {
    && |rows| == |picks| && Increasing(picks) && (forall p :: p in picks ==> p < |batch|)
    && (forall i :: 0 <= i < |batch| ==> (i in picks <==> batch[i].href != "" && batch[i].hash != ""))
    && forall j :: 0 <= j < |picks| && picks[j] < |batch| ==>
      rows[j] == Row(batch[picks[j]].href, batch[picks[j]].hash, batch[picks[j]].unread)
  }

  predicate Kept(m: Message) {
    m.href != "" && m.hash != ""
  }

  lemma {:induction false} RowsArePicked(batch: seq<Message>) returns (picks: seq<nat>)
    ensures Picked(batch, BatchRows(batch), picks)
  {
    picks := [];
    if batch != [] {
      var last := |batch| - 1;
      picks := RowsArePicked(batch[..last]);
      if Kept(batch[last]) {
        PicksOneMore(batch, BatchRows(batch[..last]), picks);
        picks := picks + [last];
      } else {
        assert BatchRows(batch) == BatchRows(batch[..last]);
        PicksNoMore(batch, BatchRows(batch[..last]), picks);
      }
    }
  }

  lemma PicksOneMore(batch: seq<Message>, rows: seq<Row>, picks: seq<nat>)
    requires batch != [] && Picked(batch[..|batch| - 1], rows, picks) && Kept(batch[|batch| - 1])
    ensures var m := batch[|batch| - 1];
      Picked(batch, rows + [Row(m.href, m.hash, m.unread)], picks + [|batch| - 1])
  {
    var last, front := |batch| - 1, batch[..|batch| - 1];
    var all := picks + [last];
    forall p | p in all ensures p < |batch| { assert p in picks || p == last; }
    forall i, j | 0 <= i < j < |all| ensures all[i] < all[j] { assert all[i] in picks; }
    forall i | 0 <= i < |batch| ensures i in all <==> batch[i].href != "" && batch[i].hash != "" {
      assert i in all <==> i in picks || i == last;
      if i < last { assert front[i] == batch[i]; }
    }
    forall j | 0 <= j < |picks| ensures picks[j] < last && front[picks[j]] == batch[picks[j]] {
      assert picks[j] in picks;
    }
  }

  lemma PicksNoMore(batch: seq<Message>, rows: seq<Row>, picks: seq<nat>)
    requires batch != [] && Picked(batch[..|batch| - 1], rows, picks) && !Kept(batch[|batch| - 1])
    ensures Picked(batch, rows, picks)
  {
    var last, front := |batch| - 1, batch[..|batch| - 1];
    forall i | 0 <= i < |batch| ensures i in picks <==> batch[i].href != "" && batch[i].hash != "" {
      if i < last { assert front[i] == batch[i]; }
    }
    forall j | 0 <= j < |picks| ensures picks[j] < last && front[picks[j]] == batch[picks[j]] {
      assert picks[j] in picks;
    }
  }

  /** The rows of an SMS batch are buffered in order, one for each message that has both fields. */
  lemma SmsBatchIsBuffered(w: World, t: nat, mailbox: Mailbox, batch: seq<Message>)
    returns (rows: seq<Row>, picks: seq<nat>)
    requires Enabled(w, AdapterBatch(t, mailbox, batch)) && IsSms(mailbox)
    requires w.objs[w.tasks[t].sid].info.sms && mailbox !in w.objs[w.tasks[t].sid].sms
    ensures Picked(batch, rows, picks)
    ensures var v := Apply(w, AdapterBatch(t, mailbox, batch));
      && t in v.tasks && v.tasks[t].Capturing? && RowsOf(v.tasks[t], mailbox) == RowsOf(w.tasks[t], mailbox) + rows
  {
    rows := BatchRows(batch);
    picks := RowsArePicked(batch);
    assert RowsOf(w.tasks[t], mailbox) + [] == RowsOf(w.tasks[t], mailbox);
  }

  // ------------------------------------------------------------------ the baseline

  /** The result of an adapter the poll is at. */
  ghost predicate AtResult(w: World, t: nat, mailbox: Mailbox) {
    && t in w.tasks && w.tasks[t].Capturing? && w.tasks[t].phase.Baselining? && w.tasks[t].sid in w.objs
    && w.tasks[t].phase.next < |w.tasks[t].phase.results|
    && var r := w.tasks[t].phase.results[w.tasks[t].phase.next]; r.mailbox == mailbox && r.success && r.known
  }

  /** A mailbox's email baseline is what the poll has buffered for it, and the batch counts as its own baseline. */
  lemma EmailBaselineIsBuffer(w: World, t: nat, mailbox: Mailbox, saved: bool)
    requires AtResult(w, t, mailbox) && !IsSms(mailbox) && mailbox !in w.objs[w.tasks[t].sid].email
    ensures Enabled(w, PollBaselines(t, saved))
    ensures var sid, v := w.tasks[t].sid, Apply(w, PollBaselines(t, saved));
      && sid in v.objs
      && v.objs[sid] == w.objs[sid].(email := w.objs[sid].email[mailbox := KeysOf(w.tasks[t], mailbox)])
      && v.tasks[t].phase.Baselining? && v.tasks[t].phase.current == w.tasks[t].phase.current + {mailbox}
  {
  }

  /** A stored snapshot is used exactly when it was taken at most ten minutes before the start, and not after it. */
  lemma UsableSnapshotIff(stored: Snapshot, start: int)
    ensures UsableSnapshot(Some(stored), start) == Some(stored) <==> 0 <= start - stored.observedAt <= 600_000
    ensures UsableSnapshot(Some(stored), start) == None <==> !(0 <= start - stored.observedAt <= 600_000)
    ensures UsableSnapshot(None, start) == None
  {
  }

  ghost predicate HasUsableSnapshot(w: World, mailbox: Mailbox, start: int) {
    mailbox in w.snapshots && 0 <= start - w.snapshots[mailbox].observedAt <= 600_000
  }

  /**
   * A mailbox's SMS baseline is a snapshot that can be used, and else what the poll has buffered; and what it has
   * buffered is saved as the snapshot of the next session.
   */
  lemma SmsBaselineIsSnapshotOrBuffer(w: World, t: nat, mailbox: Mailbox, saved: bool)
    requires AtResult(w, t, mailbox) && IsSms(mailbox) && w.tasks[t].phase.loading
    ensures Enabled(w, PollBaselines(t, saved))
    ensures var task, v := w.tasks[t], Apply(w, PollBaselines(t, saved));
      var start := w.objs[task.sid].info.start;
      && task.sid in v.objs && mailbox in v.objs[task.sid].sms && v.tasks[t].phase.Baselining?
      && (if HasUsableSnapshot(w, mailbox, start) then
            && v.objs[task.sid].sms[mailbox].rows == w.snapshots[mailbox].rows
            && v.tasks[t].phase.current == task.phase.current
          else
            && v.objs[task.sid].sms[mailbox].rows == RowsOf(task, mailbox)
            && v.tasks[t].phase.current == task.phase.current + {mailbox})
      && (mailbox in task.rows && saved ==>
            mailbox in v.snapshots && v.snapshots[mailbox] == Snapshot(w.now, RowsOf(task, mailbox)))
  {
    var stored := if mailbox in w.snapshots then Some(w.snapshots[mailbox]) else None;
    if stored.Some? { UsableSnapshotIff(stored.value, w.objs[w.tasks[t].sid].info.start); }
  }

  // ------------------------------------------------------------------ a batch to its baseline, over a run

  /** The poll stays in its critical section: it neither leaves nor dies with the worker. */
  ghost predicate SameSection(steps: seq<Step>, t: nat) {
    forall i :: 0 <= i < |steps| ==> StaysIn(steps[i], t)
  }

  predicate StaysIn(step: Step, t: nat) {
    step != PollLeaves(t) && step != PollGivesUp(t) && !step.WorkerRestarts?
  }

  /** Task t is in its critical section for the session, and has buffered the key. */
  ghost predicate HasBuffered(w: World, t: nat, sid: SessionId, mailbox: Mailbox, key: string) {
    t in w.tasks && w.tasks[t].Capturing? && w.tasks[t].sid == sid && key in KeysOf(w.tasks[t], mailbox)
  }

  lemma LoadKeepsBuffer(w: World, t: nat, task: Task, saved: bool)
    requires task.Capturing? && task.phase.Baselining? && task.phase.next < |task.phase.results| && task.sid in w.objs
    ensures var u := FinishLoad(w, t, task, saved).tasks[t]; u.keys == task.keys
  {
  }

  lemma BaselineKeepsBuffer(w: World, t: nat, task: Task, saved: bool)
    requires task.Capturing? && task.phase.Baselining? && task.phase.next < |task.phase.results| && task.sid in w.objs
    ensures var u := BaselineResult(w, t, task, saved).tasks[t]; u.keys == task.keys
  {
    hide FinishLoad, SaveSnapshot;
    LoadKeepsBuffer(w, t, task, saved);
  }

  lemma BaselineStepKeepsBuffer(w: World, step: Step, t: nat, sid: SessionId, mailbox: Mailbox, key: string)
    requires step.PollBaselines? && Enabled(w, step) && HasBuffered(w, t, sid, mailbox, key)
    ensures HasBuffered(Apply(w, step), t, sid, mailbox, key)
  {
    hide BaselineResult;
    BaselineKeepsBuffer(w, step.t, w.tasks[step.t], step.saved);
  }

  lemma BatchStepKeepsBuffer(w: World, step: Step, t: nat, sid: SessionId, mailbox: Mailbox, key: string)
    requires step.AdapterBatch? && Enabled(w, step) && HasBuffered(w, t, sid, mailbox, key)
    ensures HasBuffered(Apply(w, step), t, sid, mailbox, key)
  {
    hide BufferBatch;
    OtherBuffersStay(w, step.t, step.mailbox, step.batch);
    if step.t == t { BufferKeepsBuffer(w, t, w.tasks[t], step.mailbox, step.batch, mailbox, key); }
  }

  lemma ReturnStepKeepsBuffer(w: World, step: Step, t: nat, sid: SessionId, mailbox: Mailbox, key: string)
    requires step.PollReturns? && Enabled(w, step) && HasBuffered(w, t, sid, mailbox, key)
    ensures HasBuffered(Apply(w, step), t, sid, mailbox, key)
  {
    hide HandleOutcome;
    var task := w.tasks[step.t];
    ReturnKeepsOthers(w, step.t, task.sid, task.index, task.outcome, t);
  }

  lemma BufferKeepsBuffer(w: World, t: nat, task: Task, m: Mailbox, batch: seq<Message>, mailbox: Mailbox, key: string)
    requires t in w.tasks && w.tasks[t] == task && task.Capturing? && task.sid in w.objs && key in KeysOf(task, mailbox)
    ensures var v := BufferBatch(w, t, task, m, batch);
      && HasBuffered(v, t, task.sid, mailbox, key)
      && forall u :: u in w.tasks && u != t ==> u in v.tasks && v.tasks[u] == w.tasks[u]
  {
  }

  lemma PollStepKeepsBuffer(w: World, step: Step, t: nat, sid: SessionId, mailbox: Mailbox, key: string)
    requires Enabled(w, step) && IsPollStep(step) && StaysIn(step, t) && HasBuffered(w, t, sid, mailbox, key)
    ensures HasBuffered(Apply(w, step), t, sid, mailbox, key)
  {
    if step.PollBaselines? {
      hide Apply, Enabled, HasBuffered;
      BaselineStepKeepsBuffer(w, step, t, sid, mailbox, key);
    } else if step.AdapterBatch? {
      hide Apply, Enabled, HasBuffered;
      BatchStepKeepsBuffer(w, step, t, sid, mailbox, key);
    } else if step.PollReturns? {
      hide Apply, Enabled, HasBuffered;
      ReturnStepKeepsBuffer(w, step, t, sid, mailbox, key);
    } else if step.t == t {
      hide Apply, Enabled, HasBuffered;
      OwnStepKeepsBuffer(w, step, sid, mailbox, key);
    } else {
      assert t in w.tasks;
      hide HasBuffered, Apply, Enabled;
      OthersStepKeepsTask(w, step, t);
      SameTask(w, Apply(w, step), t, sid, mailbox, key);
    }
  }

  ghost predicate IsPlainPollStep(step: Step) {
    IsPollStep(step) && !step.PollBaselines? && !step.AdapterBatch? && !step.PollReturns?
  }

  lemma OwnStepKeepsBuffer(w: World, step: Step, sid: SessionId, mailbox: Mailbox, key: string)
    requires Enabled(w, step) && IsPlainPollStep(step) && StaysIn(step, step.t)
    requires HasBuffered(w, step.t, sid, mailbox, key)
    ensures HasBuffered(Apply(w, step), step.t, sid, mailbox, key)
  {
    hide Persist, KeysOf;
    assert step.PollFetched? || step.PollClassifies? || step.PollDecides?;
    var v := Apply(w, step);
    assert v.tasks[step.t].keys == w.tasks[step.t].keys;
    SameKeys(w, v, step.t, mailbox);
  }

  lemma FireKeepsOthers(w: World, t: nat, sid: SessionId, index: nat, u: nat)
    requires u in w.tasks && u != t
    ensures u in Fire(w, t, sid, index).tasks && Fire(w, t, sid, index).tasks[u] == w.tasks[u]
  {
    assert Fire(w, t, sid, index).tasks == w.tasks || Fire(w, t, sid, index).tasks == w.tasks[t := Polling(sid, index)];
  }

  lemma CaptureKeepsOthers(w: World, t: nat, sid: SessionId, index: nat, outcome: Outcome, u: nat)
    requires u in w.tasks && u != t
    ensures u in EnterCapture(w, t, sid, index).tasks && EnterCapture(w, t, sid, index).tasks[u] == w.tasks[u]
    ensures u in LeaveCapture(w, t, sid, index, outcome).tasks
    ensures LeaveCapture(w, t, sid, index, outcome).tasks[u] == w.tasks[u]
  {
  }

  lemma OthersStepKeepsTask(w: World, step: Step, t: nat)
    requires Enabled(w, step) && IsPlainPollStep(step) && step.t != t && t in w.tasks
    ensures t in Apply(w, step).tasks && Apply(w, step).tasks[t] == w.tasks[t]
  {
    hide Fire, EnterCapture, LeaveCapture;
    if step.TimerFires? {
      FireKeepsOthers(w, step.t, step.target, step.index, t);
    } else if step.PollEnters? {
      CaptureKeepsOthers(w, step.t, w.tasks[step.t].sid, w.tasks[step.t].index, NoCode, t);
    } else if step.PollGivesUp? {
      CaptureKeepsOthers(w, step.t, w.tasks[step.t].sid, w.tasks[step.t].index, NoCode, t);
    } else if step.PollLeaves? {
      var outcome := w.tasks[step.t].phase.outcome;
      CaptureKeepsOthers(w, step.t, w.tasks[step.t].sid, w.tasks[step.t].index, outcome, t);
    } else {
      assert Apply(w, step).tasks == w.tasks[step.t := Apply(w, step).tasks[step.t]];
    }
  }

  lemma SameTask(w: World, v: World, t: nat, sid: SessionId, mailbox: Mailbox, key: string)
    requires HasBuffered(w, t, sid, mailbox, key) && t in v.tasks && v.tasks[t] == w.tasks[t]
    ensures HasBuffered(v, t, sid, mailbox, key)
  {
  }

  lemma SameKeys(w: World, v: World, t: nat, mailbox: Mailbox)
    requires t in w.tasks && t in v.tasks && w.tasks[t].Capturing? && v.tasks[t].Capturing?
    requires v.tasks[t].keys == w.tasks[t].keys
    ensures KeysOf(v.tasks[t], mailbox) == KeysOf(w.tasks[t], mailbox)
  {
  }

  lemma OtherBuffersStay(w: World, t: nat, mailbox: Mailbox, batch: seq<Message>)
    requires t in w.tasks && w.tasks[t].Capturing? && w.tasks[t].sid in w.objs
    ensures forall u :: u in w.tasks && u != t ==>
      u in BufferBatch(w, t, w.tasks[t], mailbox, batch).tasks
      && BufferBatch(w, t, w.tasks[t], mailbox, batch).tasks[u] == w.tasks[u]
  {
  }

  lemma ReturnKeepsOthers(w: World, t: nat, sid: SessionId, index: nat, outcome: Outcome, u: nat)
    requires sid in w.objs && u in w.tasks && u != t
    ensures var v := HandleOutcome(w, t, sid, index, outcome); u in v.tasks && v.tasks[u] == w.tasks[u]
  {
    hide InsertSorted, MustStall;
    var v := HandleOutcome(w, t, sid, index, outcome);
    if !w.objs[sid].status.Active? {
      assert v.tasks == w.tasks - {t};
    } else if outcome.Skipped? {
      assert v.tasks == w.tasks - {t} || v.tasks == w.tasks[t := Closing(sid, Stalled)];
    } else if outcome.Found? {
      assert v.tasks == w.tasks[t := Closing(sid, Fill(outcome.choice))];
    } else {
      assert v.tasks == w.tasks[t := Closing(sid, Exhausted)] || v.tasks == w.tasks[t := Updating(sid, |w.writes|)];
    }
  }

  lemma ScanKeepsOthers(w: World, t: nat, request: Request, cursor: nat, id: SessionId, u: nat)
    requires cursor <= |w.slots| && u in w.tasks && u != t
    ensures u in Scan(w, t, request, cursor, id).tasks && Scan(w, t, request, cursor, id).tasks[u] == w.tasks[u]
  {
    hide PollTimes;
  }

  lemma OtherStepKeepsTask(w: World, step: Step, t: nat)
    requires Enabled(w, step) && !IsPollStep(step) && !step.WorkerRestarts? && t in w.tasks && w.tasks[t].Capturing?
    ensures t in Apply(w, step).tasks && Apply(w, step).tasks[t] == w.tasks[t]
  {
    hide Scan;
    if step.ScanSlots? {
      ScanKeepsOthers(w, step.t, w.tasks[step.t].request, w.tasks[step.t].cursor, step.id, t);
    }
  }

  lemma OtherStepKeepsBuffer(w: World, step: Step, t: nat, sid: SessionId, mailbox: Mailbox, key: string)
    requires Enabled(w, step) && !IsPollStep(step) && StaysIn(step, t) && HasBuffered(w, t, sid, mailbox, key)
    ensures HasBuffered(Apply(w, step), t, sid, mailbox, key)
  {
    hide Apply, Enabled, KeysOf;
    OtherStepKeepsTask(w, step, t);
  }

  lemma {:induction false} RunKeepsBuffer(w: World, steps: seq<Step>, t: nat, sid: SessionId, mailbox: Mailbox,
      key: string)
    requires Run(w, steps) && SameSection(steps, t) && HasBuffered(w, t, sid, mailbox, key)
    ensures HasBuffered(After(w, steps), t, sid, mailbox, key)
    decreases |steps|
  {
    hide HasBuffered, Apply, Enabled;
    if steps != [] {
      assert StaysIn(steps[0], t);
      if IsPollStep(steps[0]) {
        PollStepKeepsBuffer(w, steps[0], t, sid, mailbox, key);
      } else {
        OtherStepKeepsBuffer(w, steps[0], t, sid, mailbox, key);
      }
      forall i | 0 <= i < |steps[1..]| ensures StaysIn(steps[1..][i], t) { assert steps[1..][i] == steps[i + 1]; }
      RunKeepsBuffer(Apply(w, steps[0]), steps[1..], t, sid, mailbox, key);
    }
  }

  /**
   * A batch handed to the hook in the critical section that then baselines its mailbox: w is before the batch, mid
   * leads to the mailbox's result, still in the section.
   */
  ghost predicate Baselines(w: World, t: nat, mailbox: Mailbox, batch: seq<Message>, mid: seq<Step>) {
    && Enabled(w, AdapterBatch(t, mailbox, batch)) && !IsSms(mailbox)
    && w.objs[w.tasks[t].sid].info.email && mailbox !in w.objs[w.tasks[t].sid].email
    && var w1 := Apply(w, AdapterBatch(t, mailbox, batch));
      && Run(w1, mid) && SameSection(mid, t)
      && var w2 := After(w1, mid);
        AtResult(w2, t, mailbox) && mailbox !in w2.objs[w2.tasks[t].sid].email
  }

  /** The world in which the baseline has just been written. */
  ghost function Baselined(w: World, t: nat, mailbox: Mailbox, batch: seq<Message>, mid: seq<Step>, saved: bool): World
    requires Baselines(w, t, mailbox, batch, mid)
  {
    Apply(After(Apply(w, AdapterBatch(t, mailbox, batch)), mid), PollBaselines(t, saved))
  }

  /** Every message of the batch is in the baseline, under its key. */
  lemma BatchEndsInBaseline(
      w: World, t: nat, mailbox: Mailbox, batch: seq<Message>, mid: seq<Step>, saved: bool, m: Message)
    requires Baselines(w, t, mailbox, batch, mid) && m in batch
    ensures After(Apply(w, AdapterBatch(t, mailbox, batch)), mid).tasks[t].sid == w.tasks[t].sid
    ensures var sid, v := w.tasks[t].sid, Baselined(w, t, mailbox, batch, mid, saved);
      && sid in v.objs && mailbox in v.objs[sid].email
      && ProviderName(mailbox.provider) + ":" + mailbox.id + ":" + m.id in v.objs[sid].email[mailbox]
  {
    hide ProviderName, KeysOf, StaysIn;
    var w1 := Apply(w, AdapterBatch(t, mailbox, batch));
    var key := ProviderName(mailbox.provider) + ":" + mailbox.id + ":" + m.id;
    var sid := w.tasks[t].sid;
    EmailBatchIsBuffered(w, t, mailbox, batch);
    var i :| 0 <= i < |batch| && batch[i] == m;
    assert key in KeysOf(w1.tasks[t], mailbox) by {
      assert KeysOf(w1.tasks[t], mailbox)[|KeysOf(w.tasks[t], mailbox)| + i] == key;
    }
    BatchKeepsSession(w, t, mailbox, batch);
    RunKeepsBuffer(w1, mid, t, sid, mailbox, key);
    EmailBaselineIsBuffer(After(w1, mid), t, mailbox, saved);
  }

  lemma BatchKeepsSession(w: World, t: nat, mailbox: Mailbox, batch: seq<Message>)
    requires Enabled(w, AdapterBatch(t, mailbox, batch))
    ensures var v := Apply(w, AdapterBatch(t, mailbox, batch));
      t in v.tasks && v.tasks[t].Capturing? && v.tasks[t].sid == w.tasks[t].sid
  {
    hide BatchKeys, BatchRows;
  }

  lemma BaselinedReachable(w: World, t: nat, mailbox: Mailbox, batch: seq<Message>, mid: seq<Step>, saved: bool)
    requires Reachable(w) && Baselines(w, t, mailbox, batch, mid)
    ensures Reachable(Baselined(w, t, mailbox, batch, mid, saved))
  {
    hide Reachable, Apply, Enabled;
    var w1 := Apply(w, AdapterBatch(t, mailbox, batch));
    ReachStep(w, AdapterBatch(t, mailbox, batch));
    ReachRun(w1, mid);
    ResultEnables(After(w1, mid), t, mailbox, saved);
    ReachStep(After(w1, mid), PollBaselines(t, saved));
  }

  lemma ResultEnables(w: World, t: nat, mailbox: Mailbox, saved: bool)
    requires AtResult(w, t, mailbox)
    ensures Enabled(w, PollBaselines(t, saved))
  {
  }

  /** Undated, or received more than two minutes before the session started. */
  predicate TooOld(c: Candidate, start: int) {
    c.received.None? || c.received.value < start - 120_000
  }

  /**
   * From the batch to the end of the process: an old or undated message of a batch that baselined its mailbox is in no
   * arrival list of the session at any later time.
   */
  lemma BatchedMailNeverLeaks(
      w: World, t: nat, mailbox: Mailbox, batch: seq<Message>, mid: seq<Step>, saved: bool, rest: seq<Step>, m: Message,
      c: Candidate)
    requires Reachable(w) && Baselines(w, t, mailbox, batch, mid) && m in batch
    requires c.mailbox == mailbox && c.messageId == m.id && TooOld(c, w.objs[w.tasks[t].sid].info.start)
    requires Run(Baselined(w, t, mailbox, batch, mid, saved), rest) && SameProcess(rest)
    ensures var sid, v := w.tasks[t].sid, After(Baselined(w, t, mailbox, batch, mid, saved), rest);
      sid in v.objs && forall a :: a in v.objs[sid].arrivals ==> a.candidate != c
  {
    var sid := w.tasks[t].sid;
    hide Reachable, Run, After, Apply, Enabled, SameProcess, Baselined, Baselines;
    var v := Baselined(w, t, mailbox, batch, mid, saved);
    BatchMakesOld(w, t, mailbox, batch, mid, saved, m, c);
    BaselinedReachable(w, t, mailbox, batch, mid, saved);
    BaselinedMailNeverLeaksInMemory(v, rest, sid, c);
  }

  /** And once storage has the baseline, over every restart as well. */
  lemma BatchedMailNeverLeaksAfterRestart(
      w: World, t: nat, mailbox: Mailbox, batch: seq<Message>, mid: seq<Step>, saved: bool, rest: seq<Step>,
      later: seq<Step>, m: Message, c: Candidate)
    requires Reachable(w) && Baselines(w, t, mailbox, batch, mid) && m in batch
    requires c.mailbox == mailbox && c.messageId == m.id && TooOld(c, w.objs[w.tasks[t].sid].info.start)
    requires Run(Baselined(w, t, mailbox, batch, mid, saved), rest) && SameProcess(rest)
    requires var sid, v := w.tasks[t].sid, After(Baselined(w, t, mailbox, batch, mid, saved), rest);
      v.applied < |v.writes| && sid in Disk(v) && mailbox in Disk(v)[sid].email && Run(v, later)
    ensures var sid, v := w.tasks[t].sid, After(After(Baselined(w, t, mailbox, batch, mid, saved), rest), later);
      && (sid in v.objs ==> forall a :: a in v.objs[sid].arrivals ==> a.candidate != c)
      && v.applied < |v.writes| && (sid in Disk(v) ==> forall a :: a in Disk(v)[sid].arrivals ==> a.candidate != c)
  {
    var sid := w.tasks[t].sid;
    hide Reachable, Run, After, Apply, Enabled, SameProcess, Baselined, Baselines, Inv;
    var u := Baselined(w, t, mailbox, batch, mid, saved);
    BatchMakesOld(w, t, mailbox, batch, mid, saved, m, c);
    BaselinedReachable(w, t, mailbox, batch, mid, saved);
    ReachableInv(u);
    MemoryOnlyEvolves(u, rest);
    var v := After(u, rest);
    ReachRun(u, rest);
    ReachableInv(v);
    ChainAt(v, v.applied, v.applied);
    assert Evolves(Disk(v)[sid], v.objs[sid]) && Evolves(u.objs[sid], v.objs[sid]);
    BaselinedMailNeverLeaks(v, later, sid, c);
  }

  lemma BatchMakesOld(
      w: World, t: nat, mailbox: Mailbox, batch: seq<Message>, mid: seq<Step>, saved: bool, m: Message, c: Candidate)
    requires Reachable(w) && Baselines(w, t, mailbox, batch, mid) && m in batch
    requires c.mailbox == mailbox && c.messageId == m.id && TooOld(c, w.objs[w.tasks[t].sid].info.start)
    ensures var sid, v := w.tasks[t].sid, Baselined(w, t, mailbox, batch, mid, saved);
      sid in v.objs && BaselinedOld(v.objs[sid], c)
  {
    hide Reachable;
    BatchEndsInBaseline(w, t, mailbox, batch, mid, saved, m);
    SameInfo(w, t, mailbox, batch, mid, saved);
  }

  lemma SameInfo(w: World, t: nat, mailbox: Mailbox, batch: seq<Message>, mid: seq<Step>, saved: bool)
    requires Reachable(w) && Baselines(w, t, mailbox, batch, mid)
    requires After(Apply(w, AdapterBatch(t, mailbox, batch)), mid).tasks[t].sid == w.tasks[t].sid
    ensures var sid, v := w.tasks[t].sid, Baselined(w, t, mailbox, batch, mid, saved);
      sid in v.objs && v.objs[sid].info == w.objs[sid].info
  {
    hide Reachable, Inv, StaysIn, Apply, Enabled;
    var w1 := Apply(w, AdapterBatch(t, mailbox, batch));
    ReachableInv(w);
    StepKeepsInv(w, AdapterBatch(t, mailbox, batch));
    BatchKeepsRecords(w, t, mailbox, batch);
    SectionIsOneProcess(mid, t);
    MemoryOnlyEvolves(w1, mid);
    EmailBaselineIsBuffer(After(w1, mid), t, mailbox, saved);
    InfoStays(w1, After(w1, mid));
  }

  lemma BatchKeepsRecords(w: World, t: nat, mailbox: Mailbox, batch: seq<Message>)
    requires Enabled(w, AdapterBatch(t, mailbox, batch))
    ensures Apply(w, AdapterBatch(t, mailbox, batch)).objs == w.objs
    ensures t in w.tasks && w.tasks[t].Capturing? && w.tasks[t].sid in w.objs
  {
    hide BufferBatch;
  }

  lemma InfoStays(w: World, v: World)
    requires MemoryEvolves(w, v)
    ensures forall sid :: sid in w.objs ==> sid in v.objs && v.objs[sid].info == w.objs[sid].info
  {
  }

  lemma SectionIsOneProcess(steps: seq<Step>, t: nat)
    requires SameSection(steps, t)
    ensures SameProcess(steps)
  {
    forall i | 0 <= i < |steps| ensures !steps[i].WorkerRestarts? { assert StaysIn(steps[i], t); }
  }

  // ------------------------------------------------------------------ what was fetched is what is classified

  /** The poll is at its baselines, with these results and candidates in hand. */
  ghost predicate Holds(w: World, t: nat, results: seq<AdapterResult>, candidates: seq<Candidate>) {
    && t in w.tasks && w.tasks[t].Capturing? && w.tasks[t].phase.Baselining?
    && w.tasks[t].phase.results == results && w.tasks[t].phase.candidates == candidates
  }

  /** Nobody else touches the task of a poll in its critical section. */
  lemma OthersKeepTask(w: World, step: Step, t: nat)
    requires Enabled(w, step) && t in w.tasks && w.tasks[t].Capturing? && !step.WorkerRestarts?
    requires IsPollStep(step) ==> step.t != t
    ensures t in Apply(w, step).tasks && Apply(w, step).tasks[t] == w.tasks[t]
  {
    hide BufferBatch, BaselineResult, HandleOutcome;
    if !IsPollStep(step) {
      hide Apply, Enabled;
      OtherStepKeepsTask(w, step, t);
    } else if step.AdapterBatch? {
      OtherBuffersStay(w, step.t, step.mailbox, step.batch);
    } else if step.PollReturns? {
      var task := w.tasks[step.t];
      ReturnKeepsOthers(w, step.t, task.sid, task.index, task.outcome, t);
    } else if step.PollBaselines? {
      var v := BaselineResult(w, step.t, w.tasks[step.t], step.saved);
      assert v.tasks == w.tasks[step.t := v.tasks[step.t]];
    } else {
      hide Apply, Enabled;
      OthersStepKeepsTask(w, step, t);
    }
  }

  predicate SameBatch(p: Phase, q: Phase) {
    p.Baselining? && q.Baselining? && q == p.(next := q.next, current := q.current, loading := q.loading)
  }

  lemma LoadKeepsBatch(w: World, t: nat, task: Task, saved: bool)
    requires task.Capturing? && task.phase.Baselining? && task.phase.next < |task.phase.results| && task.sid in w.objs
    ensures SameBatch(task.phase, FinishLoad(w, t, task, saved).tasks[t].phase)
  {
    hide SaveSnapshot;
  }

  lemma BaselineKeepsBatch(w: World, t: nat, task: Task, saved: bool)
    requires task.Capturing? && task.phase.Baselining? && task.phase.next < |task.phase.results| && task.sid in w.objs
    ensures SameBatch(task.phase, BaselineResult(w, t, task, saved).tasks[t].phase)
  {
    hide FinishLoad, SaveSnapshot, SameBatch;
    var p := task.phase;
    var r := p.results[p.next];
    LoadKeepsBatch(w, t, task, saved);
    SameBatchOnward(p, p.current);
    SameBatchOnward(p, p.current + {r.mailbox});
  }

  lemma SameBatchOnward(p: Phase, current: set<Mailbox>)
    requires p.Baselining?
    ensures SameBatch(p, p.(next := p.next + 1, loading := false).(current := current))
    ensures SameBatch(p, p.(next := p.next + 1, loading := false)) && SameBatch(p, p.(loading := true))
  {
  }

  lemma OwnStepKeepsBatch(
      w: World, step: Step, t: nat, results: seq<AdapterResult>, candidates: seq<Candidate>)
    requires Enabled(w, step) && IsPollStep(step) && step.t == t && StaysIn(step, t) && step != PollClassifies(t)
    requires Holds(w, t, results, candidates)
    ensures Holds(Apply(w, step), t, results, candidates)
  {
    hide BaselineResult;
    assert step.PollBaselines?;
    BaselineKeepsBatch(w, t, w.tasks[t], step.saved);
  }

  lemma {:induction false} RunKeepsBatch(
      w: World, steps: seq<Step>, t: nat, results: seq<AdapterResult>, candidates: seq<Candidate>)
    requires Run(w, steps) && SameSection(steps, t) && PollClassifies(t) !in steps
    requires Holds(w, t, results, candidates)
    ensures Holds(After(w, steps), t, results, candidates)
    decreases |steps|
  {
    hide Apply, Enabled;
    if steps != [] {
      var step := steps[0];
      assert StaysIn(step, t) && step in steps;
      if IsPollStep(step) && step.t == t {
        OwnStepKeepsBatch(w, step, t, results, candidates);
      } else {
        OthersKeepTask(w, step, t);
      }
      forall i | 0 <= i < |steps[1..]| ensures StaysIn(steps[1..][i], t) { assert steps[1..][i] == steps[i + 1]; }
      RunKeepsBatch(Apply(w, step), steps[1..], t, results, candidates);
    }
  }

  /** Whatever interleaves: the candidates a poll has fetched are the ones it classifies. */
  lemma FetchedIsClassified(
      w: World, t: nat, results: seq<AdapterResult>, candidates: seq<Candidate>, mid: seq<Step>)
    requires Enabled(w, PollFetched(t, results, candidates))
    requires Run(Apply(w, PollFetched(t, results, candidates)), mid) && SameSection(mid, t) && PollClassifies(t) !in mid
    ensures var v := After(Apply(w, PollFetched(t, results, candidates)), mid);
      && t in v.tasks && v.tasks[t].Capturing? && v.tasks[t].phase.Baselining?
      && v.tasks[t].phase.results == results && v.tasks[t].phase.candidates == candidates
  {
    RunKeepsBatch(Apply(w, PollFetched(t, results, candidates)), mid, t, results, candidates);
  }

  // ------------------------------------------------------------------ classification, field by field

  /** The extractor found a nonempty code, or no code but a link. */
  predicate HasText(c: Candidate) {
    (c.code.Some? && c.code.value != "") || (c.code.None? && c.link.Some?)
  }

  /** What is filled: the code, or the link behind its marker. */
  lemma TextOf(c: Candidate)
    ensures CodeValue(c).Some? <==> HasText(c)
    ensures HasText(c) ==> CodeValue(c).value == if c.code.Some? then c.code.value else "magic-link:" + c.link.value
  {
  }

  predicate RecentEnough(c: Candidate, start: int) {
    c.received.Some? && c.received.value >= start - 120_000
  }

  /** This classification turns the candidate into an arrival. */
  ghost predicate BecomesArrival(w: World, t: nat, c: Candidate)
    requires Enabled(w, PollClassifies(t))
  {
    var sid, v := w.tasks[t].sid, Apply(w, PollClassifies(t));
    && sid in v.objs && |w.objs[sid].arrivals| <= |v.objs[sid].arrivals|
    && v.objs[sid].arrivals[..|w.objs[sid].arrivals|] == w.objs[sid].arrivals
    && Arrival(c, w.now) in v.objs[sid].arrivals[|w.objs[sid].arrivals|..]
  }

  /** The candidates it looks at, and the mailboxes it baselined just before. */
  ghost predicate Classifies(w: World, t: nat, c: Candidate, justBaselined: bool) {
    && Enabled(w, PollClassifies(t)) && c in w.tasks[t].phase.candidates
    && (justBaselined <==> c.mailbox in w.tasks[t].phase.current)
  }

  lemma ArrivesIffAdmitted(w: World, t: nat, c: Candidate)
    requires Enabled(w, PollClassifies(t)) && c in w.tasks[t].phase.candidates
    ensures BecomesArrival(w, t, c) <==> Admit(w.objs[w.tasks[t].sid], w.tasks[t].phase.current, c)
  {
    hide Admit, Persist;
    var s, p := w.objs[w.tasks[t].sid], w.tasks[t].phase;
    var added := NewArrivals(s, p.current, p.candidates, w.now);
    var v := Apply(w, PollClassifies(t));
    assert v.objs[w.tasks[t].sid].arrivals == s.arrivals + added by { ClassifyAppends(w, t, w.tasks[t]); }
    assert (s.arrivals + added)[|s.arrivals|..] == added;
    if Admit(s, p.current, c) { NewArrivalsComplete(s, p.current, p.candidates, w.now, c); }
  }

  lemma ClassifyAppends(w: World, t: nat, task: Task)
    requires task.Capturing? && task.phase.Baselining? && task.sid in w.objs
    ensures var s, v := w.objs[task.sid], Classify(w, t, task);
      && task.sid in v.objs
      && v.objs[task.sid].arrivals ==
           s.arrivals + NewArrivals(s, task.phase.current, task.phase.candidates, w.now)
  {
  }

  /**
   * A message of the batch that has just become its mailbox's baseline arrives exactly when it is recent and has text.
   */
  lemma BaseliningBatchArrivesIff(w: World, t: nat, c: Candidate)
    requires Classifies(w, t, c, true)
    ensures BecomesArrival(w, t, c) <==> RecentEnough(c, w.objs[w.tasks[t].sid].info.start) && HasText(c)
  {
    hide BecomesArrival, CodeValue;
    ArrivesIffAdmitted(w, t, c);
    TextOf(c);
  }

  /** A later email arrives exactly when its mailbox has a baseline, the baseline lacks its key, and it has text. */
  lemma EmailArrivesIff(w: World, t: nat, c: Candidate)
    requires Classifies(w, t, c, false) && !IsSms(c.mailbox)
    ensures var s := w.objs[w.tasks[t].sid];
      BecomesArrival(w, t, c) <==>
        && c.mailbox in s.email && HasText(c)
        && ProviderName(c.mailbox.provider) + ":" + c.mailbox.id + ":" + c.messageId !in s.email[c.mailbox]
  {
    hide BecomesArrival, CodeValue;
    ArrivesIffAdmitted(w, t, c);
    TextOf(c);
  }

  /**
   * A text message of a conversation the baseline knows arrives exactly when it is recent, has text, and shows other
   * text than the conversation's row or has turned from read to unread.
   */
  lemma KnownConversationArrivesIff(w: World, t: nat, c: Candidate, k: nat)
    requires Classifies(w, t, c, false) && IsSms(c.mailbox) && c.mailbox in w.objs[w.tasks[t].sid].sms && c.href != ""
    requires FirstRowOf(w.objs[w.tasks[t].sid].sms[c.mailbox].rows, c.href, k)
    ensures var s := w.objs[w.tasks[t].sid];
      var row := s.sms[c.mailbox].rows[k];
      BecomesArrival(w, t, c) <==>
        RecentEnough(c, s.info.start) && HasText(c) && (c.hash != row.hash || (c.unread && !row.unread))
  {
    hide BecomesArrival, CodeValue;
    ArrivesIffAdmitted(w, t, c);
    TextOf(c);
    FindsFirstRow(w.objs[w.tasks[t].sid].sms[c.mailbox].rows, c.href, k);
  }

  /** One of a conversation the baseline does not know: exactly when it has a reference, is recent and has text. */
  lemma UnknownConversationArrivesIff(w: World, t: nat, c: Candidate)
    requires Classifies(w, t, c, false) && IsSms(c.mailbox) && c.mailbox in w.objs[w.tasks[t].sid].sms
    requires forall row :: row in w.objs[w.tasks[t].sid].sms[c.mailbox].rows ==> row.href != c.href
    ensures BecomesArrival(w, t, c) <==>
      c.href != "" && RecentEnough(c, w.objs[w.tasks[t].sid].info.start) && HasText(c)
  {
    hide BecomesArrival, CodeValue;
    ArrivesIffAdmitted(w, t, c);
    TextOf(c);
  }

  /** One of a mailbox without a baseline: never. */
  lemma UnbaselinedNeverArrives(w: World, t: nat, c: Candidate)
    requires Classifies(w, t, c, false) && IsSms(c.mailbox) && c.mailbox !in w.objs[w.tasks[t].sid].sms
    ensures !BecomesArrival(w, t, c)
  {
    hide BecomesArrival;
    ArrivesIffAdmitted(w, t, c);
  }
}
