/**
 * The bridge's account file (inboxbridge/src/state.rs). Any number of processes and tasks share accounts.json under one
 * advisory lock; every operation is cut where another one can come in between.
 */
module AccountStore {
  import opened Prelude

  datatype Account = Account(id: string, title: string, host: string, port: nat, tls: bool, username: string)

  type Accounts = map<string, Account>

  /** accounts.json: missing, a serialized map, or something that does not parse. */
  datatype File = Absent | Json(accounts: Accounts) | Garbage(text: string)

  /** What the file means to a reader: repair turns unparseable contents into an empty store. */
  function Content(f: File): Accounts {
    if f.Json? then f.accounts else map[]
  }

  datatype Mutation = Insert(account: Account) | Remove(id: string) | Clear

  function Mutate(m: Accounts, u: Mutation): Accounts {
    match u
    case Insert(a) => m[a.id := a]
    case Remove(id) => m - {id}
    case Clear => map[]
  }

  /** The mutations applied one after the other. */
  function Replay(base: Accounts, us: seq<Mutation>): Accounts {
    if us == [] then base else Mutate(Replay(base, us[..|us| - 1]), us[|us| - 1])
  }

  datatype ReadKind = Repairing | Refusing

  /** An operation and where it stands. Between two steps of one task any other task may move. */
  datatype Task =
    | WaitShared(kind: ReadKind, called: nat)
    | Reading(kind: ReadKind, called: nat)                          // holds the shared lock
    | WaitUpgrade(called: nat)                                      // shared lock released, exclusive wanted
    | Upgraded(called: nat)                                         // holds the exclusive lock
    | WaitExclusive(mutation: Mutation, called: nat)
    | Updating(mutation: Mutation, called: nat)                     // holds the exclusive lock
    | Loaded(mutation: Mutation, found: bool, accounts: Accounts, called: nat)
    | Writing(mutation: Mutation, found: bool, accounts: Accounts, called: nat)

  /** Results handed to callers; at counts the mutations committed when the answer was fixed. */
  datatype Reply =
    | ReadReply(accounts: Accounts, called: nat, at: nat)
    | RefusedReply(called: nat, at: nat)
    | UpdateReply(mutation: Mutation, found: bool, called: nat, at: nat)

  datatype World = World(
    initial: File,
    file: File,
    readers: set<nat>,
    writer: Option<nat>,
    tasks: map<nat, Task>,
    commits: seq<Mutation>,
    replies: seq<Reply>,
    repaired: seq<File>)     // what repairs have moved to the backup

  function Start(f: File): World {
    World(f, f, {}, None, map[], [], [], [])
  }

  datatype Step =
    | CallRead(t: nat, kind: ReadKind)
    | CallCheck(t: nat)
    | CallUpdate(t: nat, mutation: Mutation)
    | LockShared(t: nat)
    | ReadFile(t: nat)
    | LockUpgrade(t: nat)
    | Recheck(t: nat)
    | LockExclusive(t: nat)
    | Load(t: nat)
    | Truncate(t: nat)
    | Write(t: nat)
    | Delete(t: nat)
    | Crash(t: nat)          // anywhere but inside the write

  predicate HoldsExclusive(task: Task) {
    task.Upgraded? || task.Updating? || task.Loaded? || task.Writing?
  }

  predicate Enabled(w: World, s: Step) {
    match s
    case CallRead(t, _) => t !in w.tasks
    case CallCheck(t) => t !in w.tasks
    case CallUpdate(t, _) => t !in w.tasks
    case LockShared(t) => t in w.tasks && w.tasks[t].WaitShared? && w.writer.None?
    case ReadFile(t) => t in w.tasks && w.tasks[t].Reading?
    case LockUpgrade(t) => t in w.tasks && w.tasks[t].WaitUpgrade? && w.writer.None? && w.readers == {}
    case Recheck(t) => t in w.tasks && w.tasks[t].Upgraded?
    case LockExclusive(t) => t in w.tasks && w.tasks[t].WaitExclusive? && w.writer.None? && w.readers == {}
    case Load(t) => t in w.tasks && w.tasks[t].Updating? && !w.tasks[t].mutation.Clear?
    case Delete(t) => t in w.tasks && w.tasks[t].Updating? && w.tasks[t].mutation.Clear?
    case Truncate(t) => t in w.tasks && w.tasks[t].Loaded?
    case Write(t) => t in w.tasks && w.tasks[t].Writing?
    case Crash(t) => t in w.tasks && !w.tasks[t].Writing?
  }

  function Goto(w: World, t: nat, task: Task): World {
    w.(tasks := w.tasks[t := task])
  }

  /** The handle is dropped: whatever lock the task holds goes with it. */
  function Leave(w: World, t: nat): World {
    w.(tasks := w.tasks - {t}, readers := w.readers - {t}, writer := if w.writer == Some(t) then None else w.writer)
  }

  function Answer(w: World, t: nat, r: Reply): World {
    Leave(w, t).(replies := w.replies + [r])
  }

  /** repair_corrupt_file: copy to the backup, then remove. */
  function Repair(w: World): World {
    w.(file := Absent, repaired := w.repaired + [w.file])
  }

  /** read_accounts and list_accounts_for_cleanup under the shared lock. */
  function ReadShared(w: World, t: nat, kind: ReadKind, called: nat): World {
    if w.file.Absent? then Answer(w, t, ReadReply(map[], called, |w.commits|))
    else if w.file.Json? then Answer(w, t, ReadReply(w.file.accounts, called, |w.commits|))
    else if kind.Refusing? then Answer(w, t, RefusedReply(called, |w.commits|))
    else Goto(w.(readers := w.readers - {t}), t, WaitUpgrade(called))
  }

  /** read_accounts once it holds the exclusive lock: look again before repairing. */
  function ReadAgain(w: World, t: nat, called: nat): World {
    if w.file.Json? then Answer(w, t, ReadReply(w.file.accounts, called, |w.commits|))
    else Answer(if w.file.Garbage? then Repair(w) else w, t, ReadReply(map[], called, |w.commits|))
  }

  /** read_modify_write up to its write. */
  function LoadForUpdate(w: World, t: nat, u: Mutation, called: nat): World {
    var accounts := Content(w.file);
    Goto(if w.file.Garbage? then Repair(w) else w, t,
         Loaded(u, u.Remove? && u.id in accounts, Mutate(accounts, u), called))
  }

  function FinishWrite(w: World, t: nat, task: Task): World
    requires task.Writing?
  {
    Answer(w.(file := Json(task.accounts), commits := w.commits + [task.mutation]), t,
           UpdateReply(task.mutation, task.found, task.called, |w.commits|))
  }

  /** delete_accounts_file_locked: the file goes without being read. */
  function DeleteFile(w: World, t: nat, called: nat): World {
    Answer(w.(file := Absent, commits := w.commits + [Clear]), t, UpdateReply(Clear, false, called, |w.commits|))
  }

  function Apply(w: World, s: Step): World
    requires Enabled(w, s)
  {
    match s
    case CallRead(t, kind) => Goto(w, t, WaitShared(kind, |w.commits|))
    case CallCheck(t) => Goto(w, t, WaitUpgrade(|w.commits|))
    case CallUpdate(t, u) => Goto(w, t, WaitExclusive(u, |w.commits|))
    case LockShared(t) => Goto(w.(readers := w.readers + {t}), t, Reading(w.tasks[t].kind, w.tasks[t].called))
    case ReadFile(t) => ReadShared(w, t, w.tasks[t].kind, w.tasks[t].called)
    case LockUpgrade(t) => Goto(w.(writer := Some(t)), t, Upgraded(w.tasks[t].called))
    case Recheck(t) => ReadAgain(w, t, w.tasks[t].called)
    case LockExclusive(t) => Goto(w.(writer := Some(t)), t, Updating(w.tasks[t].mutation, w.tasks[t].called))
    case Load(t) => LoadForUpdate(w, t, w.tasks[t].mutation, w.tasks[t].called)
    case Truncate(t) =>
      var l := w.tasks[t];
      Goto(w.(file := Garbage("")), t, Writing(l.mutation, l.found, l.accounts, l.called))
    case Write(t) => FinishWrite(w, t, w.tasks[t])
    case Delete(t) => DeleteFile(w, t, w.tasks[t].called)
    case Crash(t) => Leave(w, t)
  }

  predicate Run(w: World, steps: seq<Step>)
    decreases |steps|
  {
    steps == [] || (Enabled(w, steps[0]) && Run(Apply(w, steps[0]), steps[1..]))
  }

  function After(w: World, steps: seq<Step>): World
    requires Run(w, steps)
    decreases |steps|
  {
    if steps == [] then w else After(Apply(w, steps[0]), steps[1..])
  }

  // ------------------------------------------------------------------ invariant

  /** The store as the committed mutations leave it. */
  function Current(w: World): Accounts {
    Replay(Content(w.initial), w.commits)
  }

  ghost predicate MidWrite(w: World) {
    w.writer.Some? && w.writer.value in w.tasks && w.tasks[w.writer.value].Writing?
  }

  ghost predicate LocksOk(w: World) {
    && (w.writer.Some? ==> w.readers == {} && w.writer.value in w.tasks)
    && (forall t :: t in w.readers ==> t in w.tasks)
    && (forall t :: t in w.tasks ==> (t in w.readers <==> w.tasks[t].Reading?))
    && (forall t :: t in w.tasks ==> (w.writer == Some(t) <==> HoldsExclusive(w.tasks[t])))
  }

  /** Between writes the file means what the commits say, and garbage at rest is the garbage the run began with. */
  ghost predicate FileOk(w: World) {
    !MidWrite(w) ==>
      && Content(w.file) == Current(w)
      && (w.file.Garbage? ==> w.file == w.initial && w.commits == [] && w.repaired == [])
  }

  ghost predicate TaskOk(w: World, task: Task) {
    && task.called <= |w.commits|
    && (task.Loaded? || task.Writing? ==>
          && task.accounts == Mutate(Current(w), task.mutation)
          && task.found == (task.mutation.Remove? && task.mutation.id in Current(w)))
    && (task.Loaded? ==> !w.file.Garbage?)
  }

  ghost predicate ReplyOk(w: World, r: Reply) {
    && r.called <= r.at <= |w.commits|
    && match r
       case ReadReply(accounts, _, at) => accounts == Replay(Content(w.initial), w.commits[..at])
       case RefusedReply(_, at) => at == 0 && w.initial.Garbage?
       case UpdateReply(u, found, _, at) =>
         && at < |w.commits| && w.commits[at] == u
         && found == (u.Remove? && u.id in Replay(Content(w.initial), w.commits[..at]))
  }

  ghost predicate Inv(w: World) {
    && LocksOk(w) && FileOk(w)
    && (forall t :: t in w.tasks ==> TaskOk(w, w.tasks[t]))
    && (forall k :: 0 <= k < |w.replies| ==> ReplyOk(w, w.replies[k]))
    && |w.repaired| <= 1 && (forall f :: f in w.repaired ==> f == w.initial && w.initial.Garbage?)
    && (w.repaired == [] && w.commits == [] && !MidWrite(w) ==> w.file == w.initial)
  }

  lemma LeaveKeeps(w: World, t: nat)
    requires Inv(w) && t in w.tasks && !w.tasks[t].Writing?
    ensures Inv(Leave(w, t))
  {
  }

  lemma CallKeeps(w: World, t: nat, task: Task)
    requires Inv(w) && t !in w.tasks && task.called == |w.commits|
    requires task.WaitShared? || task.WaitUpgrade? || task.WaitExclusive?
    ensures Inv(Goto(w, t, task))
  {
  }

  lemma ReadSharedKeeps(w: World, t: nat)
    requires Inv(w) && t in w.tasks && w.tasks[t].Reading?
    ensures Inv(ReadShared(w, t, w.tasks[t].kind, w.tasks[t].called))
  {
    assert w.commits[..|w.commits|] == w.commits;
    assert TaskOk(w, w.tasks[t]);
  }

  lemma RepairKeeps(w: World, t: nat)
    requires Inv(w) && t in w.tasks && w.writer == Some(t) && !MidWrite(w) && w.file.Garbage?
    requires w.tasks[t].Upgraded? || w.tasks[t].Updating?
    ensures Inv(Repair(w)) && !MidWrite(Repair(w))
  {
  }

  lemma ReadAgainKeeps(w: World, t: nat)
    requires Inv(w) && t in w.tasks && w.tasks[t].Upgraded?
    ensures Inv(ReadAgain(w, t, w.tasks[t].called))
  {
    assert w.commits[..|w.commits|] == w.commits;
    assert TaskOk(w, w.tasks[t]);
    var w1 := if w.file.Garbage? then Repair(w) else w;
    if w.file.Garbage? { RepairKeeps(w, t); }
    LeaveKeeps(w1, t);
  }

  lemma LoadKeeps(w: World, t: nat)
    requires Inv(w) && t in w.tasks && w.tasks[t].Updating?
    ensures Inv(LoadForUpdate(w, t, w.tasks[t].mutation, w.tasks[t].called))
  {
    assert TaskOk(w, w.tasks[t]);
    if w.file.Garbage? { RepairKeeps(w, t); }
  }

  lemma TruncateKeeps(w: World, t: nat)
    requires Inv(w) && Enabled(w, Truncate(t))
    ensures Inv(Apply(w, Truncate(t)))
  {
    assert TaskOk(w, w.tasks[t]);
  }

  /** Adding a commit keeps what was answered before. */
  lemma CommitKeepsReplies(w: World, v: World, u: Mutation, called: nat, found: bool)
    requires Inv(w) && v.initial == w.initial && v.commits == w.commits + [u]
    requires v.replies == w.replies + [UpdateReply(u, found, called, |w.commits|)] && called <= |w.commits|
    requires found == (u.Remove? && u.id in Current(w))
    ensures forall k :: 0 <= k < |v.replies| ==> ReplyOk(v, v.replies[k])
    ensures Current(v) == Mutate(Current(w), u)
  {
    assert v.commits[..|w.commits|] == w.commits;
    forall k | 0 <= k < |v.replies| ensures ReplyOk(v, v.replies[k]) {
      if k < |w.replies| {
        assert ReplyOk(w, w.replies[k]);
        assert v.commits[..w.replies[k].at] == w.commits[..w.replies[k].at];
      }
    }
  }

  lemma WriteKeeps(w: World, t: nat)
    requires Inv(w) && t in w.tasks && w.tasks[t].Writing?
    ensures Inv(FinishWrite(w, t, w.tasks[t]))
  {
    var task := w.tasks[t];
    assert TaskOk(w, task);
    var v := FinishWrite(w, t, task);
    CommitKeepsReplies(w, v, task.mutation, task.called, task.found);
    forall u | u in v.tasks ensures TaskOk(v, v.tasks[u]) {
      assert TaskOk(w, w.tasks[u]);
    }
  }

  lemma DeleteKeeps(w: World, t: nat)
    requires Inv(w) && t in w.tasks && w.tasks[t].Updating? && w.tasks[t].mutation.Clear?
    ensures Inv(DeleteFile(w, t, w.tasks[t].called))
  {
    assert TaskOk(w, w.tasks[t]);
    var v := DeleteFile(w, t, w.tasks[t].called);
    CommitKeepsReplies(w, v, Clear, w.tasks[t].called, false);
    forall u | u in v.tasks ensures TaskOk(v, v.tasks[u]) {
      assert TaskOk(w, w.tasks[u]);
    }
  }

  lemma LockSharedKeeps(w: World, t: nat)
    requires Inv(w) && Enabled(w, LockShared(t))
    ensures Inv(Apply(w, LockShared(t)))
  {
    assert TaskOk(w, w.tasks[t]);
  }

  lemma LockExclusiveKeeps(w: World, t: nat, task: Task)
    requires Inv(w) && t in w.tasks && w.writer.None? && w.readers == {}
    requires task.Upgraded? || task.Updating?
    requires task.called == w.tasks[t].called && (w.tasks[t].WaitUpgrade? || w.tasks[t].WaitExclusive?)
    ensures Inv(Goto(w.(writer := Some(t)), t, task))
  {
    assert TaskOk(w, w.tasks[t]);
  }

  lemma StepKeeps(w: World, s: Step)
    requires Inv(w) && Enabled(w, s)
    ensures Inv(Apply(w, s))
  {
    hide Inv;
    match s
    case CallRead(t, kind) => CallKeeps(w, t, WaitShared(kind, |w.commits|));
    case CallCheck(t) => CallKeeps(w, t, WaitUpgrade(|w.commits|));
    case CallUpdate(t, u) => CallKeeps(w, t, WaitExclusive(u, |w.commits|));
    case LockShared(t) => LockSharedKeeps(w, t);
    case ReadFile(t) => ReadSharedKeeps(w, t);
    case LockUpgrade(t) => LockExclusiveKeeps(w, t, Upgraded(w.tasks[t].called));
    case Recheck(t) => ReadAgainKeeps(w, t);
    case LockExclusive(t) => LockExclusiveKeeps(w, t, Updating(w.tasks[t].mutation, w.tasks[t].called));
    case Load(t) => LoadKeeps(w, t);
    case Truncate(t) => TruncateKeeps(w, t);
    case Write(t) => WriteKeeps(w, t);
    case Delete(t) => DeleteKeeps(w, t);
    case Crash(t) => LeaveKeeps(w, t);
  }

  lemma {:induction false} RunKeeps(w: World, steps: seq<Step>)
    requires Inv(w) && Run(w, steps)
    ensures Inv(After(w, steps)) && After(w, steps).initial == w.initial
    decreases |steps|
  {
    if steps != [] {
      StepKeeps(w, steps[0]);
      RunKeeps(Apply(w, steps[0]), steps[1..]);
    }
  }

  // ------------------------------------------------------------------ what callers may rely on

  ghost predicate Reachable(initial: File, w: World) {
    exists steps :: Run(Start(initial), steps) && After(Start(initial), steps) == w
  }

  lemma ReachableInv(initial: File, w: World)
    requires Reachable(initial, w)
    ensures Inv(w) && w.initial == initial
  {
    var steps :| Run(Start(initial), steps) && After(Start(initial), steps) == w;
    RunKeeps(Start(initial), steps);
  }

  /**
   * Serializability. Whatever interleaves, every read and every update answers as if the committed mutations had run
   * one after the other, in the order of the exclusive lock, with the answered operation somewhere between its call and
   * its reply; and the file always holds the result of all of them.
   */
  lemma Serializable(initial: File, w: World)
    requires Reachable(initial, w)
    ensures forall r :: r in w.replies ==> r.called <= r.at <= |w.commits|
    ensures forall r :: r in w.replies && r.ReadReply? ==> r.accounts == Replay(Content(initial), w.commits[..r.at])
    ensures forall r :: r in w.replies && r.UpdateReply? ==>
      && r.at < |w.commits| && w.commits[r.at] == r.mutation
      && r.found == (r.mutation.Remove? && r.mutation.id in Replay(Content(initial), w.commits[..r.at]))
    ensures w.writer.None? ==> Content(w.file) == Replay(Content(initial), w.commits)
  {
    ReachableInv(initial, w);
    forall r | r in w.replies ensures ReplyOk(w, r) {
      var k :| 0 <= k < |w.replies| && w.replies[k] == r;
    }
  }

  /** No update is lost: a later reader sees an account inserted and not removed since. */
  lemma {:induction false} NoLostUpdate(base: Accounts, us: seq<Mutation>, k: nat, a: Account)
    requires k < |us| && us[k] == Insert(a)
    requires forall j :: k < j < |us| ==>
      !us[j].Clear? && us[j] != Remove(a.id) && !(us[j].Insert? && us[j].account.id == a.id)
    ensures a.id in Replay(base, us) && Replay(base, us)[a.id] == a
  {
    if k < |us| - 1 {
      NoLostUpdate(base, us[..|us| - 1], k, a);
    }
  }

  /** A removed account is gone: no commit but a later insertion under its id brings it back. */
  lemma {:induction false} RemovedStaysGone(base: Accounts, us: seq<Mutation>, k: nat, id: string)
    requires k < |us| && us[k] == Remove(id)
    requires forall j :: k < j < |us| ==> !(us[j].Insert? && us[j].account.id == id)
    ensures id !in Replay(base, us)
  {
    if k < |us| - 1 { RemovedStaysGone(base, us[..|us| - 1], k, id); }
  }

  /** A commit about one account leaves every other account as it was. */
  lemma OtherAccountsStay(base: Accounts, us: seq<Mutation>, k: nat, id: string)
    requires k < |us| && ((us[k].Insert? && us[k].account.id != id) || (us[k].Remove? && us[k].id != id))
    ensures var before, after := Replay(base, us[..k]), Replay(base, us[..k + 1]);
      (id in before <==> id in after) && (id in before ==> after[id] == before[id])
  {
    assert us[..k + 1][..k] == us[..k];
  }

  /** An uninstall leaves no account. */
  lemma ClearedIsEmpty(base: Accounts, us: seq<Mutation>, k: nat)
    requires k < |us| && us[k].Clear?
    ensures Replay(base, us[..k + 1]) == map[]
  {
    assert us[..k + 1][..k] == us[..k];
  }

  /** Over runs: a read answered after a removal, and before the id is inserted again, does not return the account. */
  lemma ReadAfterRemoval(initial: File, w: World, r: Reply, k: nat, id: string)
    requires Reachable(initial, w) && r in w.replies && r.ReadReply?
    requires k < r.at && k < |w.commits| && w.commits[k] == Remove(id)
    requires forall j :: k < j < r.at && j < |w.commits| ==>
      !(w.commits[j].Insert? && w.commits[j].account.id == id)
    ensures id !in r.accounts
  {
    Serializable(initial, w);
    RemovedStaysGone(Content(initial), w.commits[..r.at], k, id);
  }

  /** And one answered after an insertion, with no commit on that id and no uninstall in between, returns it. */
  lemma ReadAfterInsertion(initial: File, w: World, r: Reply, k: nat, a: Account)
    requires Reachable(initial, w) && r in w.replies && r.ReadReply?
    requires k < r.at && k < |w.commits| && w.commits[k] == Insert(a)
    requires forall j :: k < j < r.at && j < |w.commits| ==>
      && !w.commits[j].Clear? && w.commits[j] != Remove(a.id)
      && !(w.commits[j].Insert? && w.commits[j].account.id == a.id)
    ensures a.id in r.accounts && r.accounts[a.id] == a
  {
    Serializable(initial, w);
    NoLostUpdate(Content(initial), w.commits[..r.at], k, a);
  }

  /** The reader that must not repair leaves contents that do not parse, and is refused. */
  lemma RefusingLeavesGarbage(w: World, t: nat)
    requires t in w.tasks && w.tasks[t].Reading? && w.tasks[t].kind.Refusing? && w.file.Garbage?
    ensures var v := Apply(w, ReadFile(t));
      v.file == w.file && v.repaired == w.repaired && t !in v.tasks
      && v.replies == w.replies + [RefusedReply(w.tasks[t].called, |w.commits|)]
  {
  }

  /**
   * Whenever nobody holds the exclusive lock the file is absent or parses, except for contents that did not parse when
   * the run began and that no operation has touched since.
   */
  lemma AtRestTheFileParses(initial: File, w: World)
    requires Reachable(initial, w) && w.writer.None?
    ensures w.file.Garbage? ==> w.file == initial && w.commits == []
    ensures !initial.Garbage? ==> !w.file.Garbage?
  {
    ReachableInv(initial, w);
  }

  /**
   * Repair removes the unparseable contents the run began with and nothing else; a file that parsed is never removed.
   */
  lemma RepairTakesOnlyGarbage(initial: File, w: World)
    requires Reachable(initial, w)
    ensures |w.repaired| <= 1 && (w.repaired != [] ==> w.repaired == [initial] && initial.Garbage?)
  {
    ReachableInv(initial, w);
    if w.repaired != [] { assert w.repaired[0] in w.repaired; }
  }

  /**
   * The upgrade from the shared to the exclusive lock leaves a gap. Whatever the lock-respecting others did in it, the
   * reader answers with the store as it is after the gap, and leaves a file that parses as it found it.
   */
  lemma UpgradeGapIsSafe(initial: File, w: World, t: nat)
    requires Reachable(initial, w) && t in w.tasks && w.tasks[t].Upgraded?
    ensures var v := Apply(w, Recheck(t));
      && |v.replies| == |w.replies| + 1
      && v.replies[|w.replies|].ReadReply? && v.replies[|w.replies|].accounts == Replay(Content(initial), w.commits)
      && (!w.file.Garbage? ==> v.file == w.file)
      && (w.file.Garbage? ==> v.file.Absent? && w.file == initial && w.commits == [])
  {
    ReachableInv(initial, w);
  }
}
