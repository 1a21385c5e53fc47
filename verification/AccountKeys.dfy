/**
 * Accounts and their keychain entries (inboxbridge/src/dispatcher.rs:183-278, inboxbridge/src/cleanup.rs:63-110).
 * Adding, removing and uninstalling take several steps over two stores; tasks interleave between any two of them and
 * may die at any point.
 */
module AccountKeys {
  import AccountStore

  type Account = AccountStore.Account
  type Accounts = AccountStore.Accounts
  type File = AccountStore.File

  const SERVICE := "InboxBridge:"

  /** A keychain entry is addressed by a service and a user; how a port is written does not matter here. */
  datatype Key = Key(service: string, user: (string, nat))

  function KeyOf(a: Account): Key {
    Key(SERVICE + a.id, (a.host, a.port))
  }

  /** An entry of the bridge; the keychain also holds those of other programs. */
  predicate Ours(k: Key) {
    SERVICE <= k.service
  }

  lemma KeysBelongToOneAccount(a: Account, b: Account)
    requires KeyOf(a) == KeyOf(b)
    ensures a.id == b.id
  {
    assert (SERVICE + a.id)[|SERVICE|..] == a.id && (SERVICE + b.id)[|SERVICE|..] == b.id;
  }

  datatype Task =
    | Persisted(account: Account)       // add: on disk, password not stored yet
    | RollingBack(account: Account)     // add: the keychain refused
    | Found(account: Account)           // remove: looked up
    | KeyDone(account: Account)         // remove: keychain asked to delete the entry
    | Sweeping(rest: set<Account>)      // uninstall: accounts of the snapshot whose keys are still to be deleted

  datatype World = World(
    file: File, keys: set<Key>, tasks: map<nat, Task>,
    used: set<string>,                  // ids ever drawn
    returned: set<string>)              // ids a caller has been told

  function Stored(w: World): Accounts {
    AccountStore.Content(w.file)
  }

  /** What earlier processes left: every stored account was returned to a caller. */
  function Start(file: File, keys: set<Key>): World {
    var ids := AccountStore.Content(file).Keys;
    World(file, keys, map[], ids, ids)
  }

  datatype Step =
    | Open                                  // a process starts
    | AddPersist(t: nat, account: Account)
    | AddStoreKey(t: nat, accepted: bool)
    | AddRollback(t: nat, persisted: bool)
    | RemoveLookup(t: nat, id: string)
    | RemoveKey(t: nat, deletes: bool)      // deletes: the keychain does not refuse
    | RemoveStored(t: nat, persisted: bool)
    | Snapshot(t: nat)
    | SweepKey(t: nat, account: Account, deletes: bool)
    | DropFile(t: nat, removable: bool)
    | Die(t: nat)

  /** Ids are fresh, and only an id that add has returned is removed. */
  predicate Enabled(w: World, s: Step) {
    match s
    case Open => true
    case AddPersist(t, a) => t !in w.tasks && a.id !in w.used
    case AddStoreKey(t, _) => t in w.tasks && w.tasks[t].Persisted?
    case AddRollback(t, _) => t in w.tasks && w.tasks[t].RollingBack?
    case RemoveLookup(t, id) => t !in w.tasks && id in w.returned
    case RemoveKey(t, _) => t in w.tasks && w.tasks[t].Found?
    case RemoveStored(t, _) => t in w.tasks && w.tasks[t].KeyDone?
    case Snapshot(t) => t !in w.tasks
    case SweepKey(t, a, _) => t in w.tasks && w.tasks[t].Sweeping? && a in w.tasks[t].rest
    case DropFile(t, _) => t in w.tasks && w.tasks[t].Sweeping? && w.tasks[t].rest == {}
    case Die(t) => t in w.tasks
  }

  function End(w: World, t: nat): World {
    w.(tasks := w.tasks - {t})
  }

  /** read_modify_write on contents that do not parse starts from the empty map the repair leaves. */
  function Rewrite(w: World, accounts: Accounts): World {
    w.(file := AccountStore.File.Json(accounts))
  }

  /** A read, or a process start: contents that do not parse are moved away. */
  function Repaired(w: World): World {
    if w.file.Garbage? then w.(file := AccountStore.File.Absent) else w
  }

  function ValuesIn(accounts: Accounts): set<Account> {
    set id | id in accounts :: accounts[id]
  }

  /** remove_account, at the end of a remove or of a failed add. */
  function DropRecord(w: World, t: nat, id: string, persisted: bool): World {
    if persisted then Rewrite(End(w, t), Stored(w) - {id}) else End(w, t)
  }

  function Without(w: World, a: Account, deletes: bool): World {
    if deletes then w.(keys := w.keys - {KeyOf(a)}) else w
  }

  /** One step. A remove and an uninstall both go on when the keychain refuses a deletion. */
  function Apply(w: World, s: Step): World
    requires Enabled(w, s)
  {
    match s
    case Open => Repaired(w)
    case AddPersist(t, a) =>
      Rewrite(w, Stored(w)[a.id := a]).(tasks := w.tasks[t := Persisted(a)], used := w.used + {a.id})
    case AddStoreKey(t, accepted) =>
      var a := w.tasks[t].account;
      if accepted then End(w, t).(keys := w.keys + {KeyOf(a)}, returned := w.returned + {a.id})
      else w.(tasks := w.tasks[t := RollingBack(a)])
    case AddRollback(t, persisted) => DropRecord(w, t, w.tasks[t].account.id, persisted)
    case RemoveLookup(t, id) =>
      if id in Stored(w) then Repaired(w).(tasks := w.tasks[t := Found(Stored(w)[id])]) else Repaired(w)
    case RemoveKey(t, deletes) =>
      var a := w.tasks[t].account;
      Without(w, a, deletes).(tasks := w.tasks[t := KeyDone(a)])
    case RemoveStored(t, persisted) => DropRecord(w, t, w.tasks[t].account.id, persisted)
    case Snapshot(t) => if w.file.Garbage? then w else w.(tasks := w.tasks[t := Sweeping(ValuesIn(Stored(w)))])
    case SweepKey(t, a, deletes) =>
      Without(w, a, deletes).(tasks := w.tasks[t := Sweeping(w.tasks[t].rest - {a})])
    case DropFile(t, removable) =>
      if removable then End(w, t).(file := AccountStore.File.Absent) else End(w, t)
    case Die(t) => End(w, t)
  }

  ghost predicate Run(w: World, steps: seq<Step>)
    decreases |steps|
  {
    steps == [] || (Enabled(w, steps[0]) && Run(Apply(w, steps[0]), steps[1..]))
  }

  function After(w: World, steps: seq<Step>): World
    requires Run(w, steps)
    decreases |steps|
  {
    if steps == [] then w else After(Apply(w, steps[0]), steps[1..])
  }

  /** Every entry of the bridge can be computed from a stored account, so a cleanup can find it. */
  ghost predicate NoOrphans(stored: Accounts, keys: set<Key>) {
    forall k :: k in keys && Ours(k) ==> exists id :: id in stored && KeyOf(stored[id]) == k
  }

  /** The keychain holds no entry of the bridge. */
  ghost predicate NoneOfOurs(keys: set<Key>) {
    forall k :: k in keys ==> !Ours(k)
  }

  ghost predicate Sound(w: World) {
    NoOrphans(Stored(w), w.keys)
  }

  /** An add has persisted its account and waits for the keychain. */
  ghost predicate AddInFlight(w: World) {
    exists t :: t in w.tasks && w.tasks[t].Persisted?
  }

  /** An uninstall has taken its snapshot and not yet dealt with the file. */
  ghost predicate UninstallOpen(w: World) {
    exists t :: t in w.tasks && w.tasks[t].Sweeping?
  }

  ghost predicate Overlap(w: World) {
    AddInFlight(w) && UninstallOpen(w)
  }

  /** A task that will drop a record, or the file, although a refused deletion has left a key of it behind. */
  ghost predicate LeftBehind(w: World, task: Task) {
    match task
    case KeyDone(a) => KeyOf(a) in w.keys
    case Sweeping(rest) => exists k :: k in w.keys && Ours(k) && Uncovered(rest, k)
    case Persisted(_) => false
    case RollingBack(_) => false
    case Found(_) => false
  }

  ghost predicate Uncovered(rest: set<Account>, k: Key) {
    forall a :: a in rest ==> KeyOf(a) != k
  }

  ghost predicate RefusalPending(w: World) {
    exists t :: t in w.tasks && LeftBehind(w, w.tasks[t])
  }

  ghost predicate Danger(w: World) {
    Overlap(w) || RefusalPending(w)
  }

  /**
   * At no point of the run is an add in flight between an uninstall's snapshot and its deletion of the file, or a
   * refused deletion about to be followed by the deletion of the record.
   */
  ghost predicate Clear(w: World, steps: seq<Step>)
    requires Run(w, steps)
    decreases |steps|
  {
    !Danger(w) && (steps == [] || Clear(Apply(w, steps[0]), steps[1..]))
  }

  // ------------------------------------------------------------------ invariant

  /** What a waiting task knows; an account being added has no key yet. */
  ghost predicate TaskOk(w: World, task: Task) {
    if task.Sweeping? then
      forall a, b :: a in task.rest && b in task.rest && a.id == b.id ==> a == b
    else
      var a := task.account;
      && a.id in w.used
      && (a.id in Stored(w) ==> Stored(w)[a.id] == a)
      && (task.Persisted? || task.RollingBack? ==> a.id !in w.returned && KeyOf(a) !in w.keys)
      && (task.Persisted? ==> a.id in Stored(w))
      && (task.Found? || task.KeyDone? ==> a.id in w.returned)
  }

  ghost predicate OneAdder(a: Task, b: Task) {
    (a.Persisted? || a.RollingBack?) && (b.Persisted? || b.RollingBack?) ==> a.account.id != b.account.id
  }

  /** Accounts are filed under their ids: nobody has edited the file by hand. */
  ghost predicate WellFiled(accounts: Accounts) {
    forall id :: id in accounts ==> accounts[id].id == id
  }

  ghost predicate Inv(w: World) {
    && WellFiled(Stored(w)) && (forall id :: id in Stored(w) ==> id in w.used)
    && (forall id :: id in w.returned ==> id in w.used)
    && Sound(w)
    && (forall t :: t in w.tasks ==> TaskOk(w, w.tasks[t]))
    && (forall t, u :: t in w.tasks && u in w.tasks && t != u ==> OneAdder(w.tasks[t], w.tasks[u]))
  }

  /** Taking an account away orphans nothing when its key is gone. */
  lemma DropAccount(stored: Accounts, keys: set<Key>, a: Account)
    requires NoOrphans(stored, keys) && KeyOf(a) !in keys && (a.id in stored ==> stored[a.id] == a)
    ensures NoOrphans(stored - {a.id}, keys)
  {
    forall k | k in keys && Ours(k) ensures exists id :: id in stored - {a.id} && KeyOf((stored - {a.id})[id]) == k {
      var id :| id in stored && KeyOf(stored[id]) == k;
      assert id != a.id;
      assert id in stored - {a.id};
    }
  }

  lemma AddPersistKeeps(w: World, t: nat, a: Account)
    requires Inv(w) && Enabled(w, AddPersist(t, a))
    ensures Inv(Apply(w, AddPersist(t, a)))
  {
    var v := Apply(w, AddPersist(t, a));
    assert a.id !in Stored(w);
    forall k | k in v.keys && Ours(k) ensures exists id :: id in Stored(v) && KeyOf(Stored(v)[id]) == k {
      var id :| id in Stored(w) && KeyOf(Stored(w)[id]) == k;
      assert id in Stored(v) && Stored(v)[id] == Stored(w)[id];
    }
    if KeyOf(a) in w.keys {
      assert Ours(KeyOf(a));
      var id :| id in Stored(w) && KeyOf(Stored(w)[id]) == KeyOf(a);
      KeysBelongToOneAccount(Stored(w)[id], a);
    }
    forall u | u in v.tasks ensures TaskOk(v, v.tasks[u]) { if u != t { assert TaskOk(w, w.tasks[u]); } }
  }

  lemma AddStoreKeyKeeps(w: World, t: nat)
    requires Inv(w) && Enabled(w, AddStoreKey(t, true))
    ensures Inv(Apply(w, AddStoreKey(t, true)))
  {
    var a := w.tasks[t].account;
    var v := Apply(w, AddStoreKey(t, true));
    assert TaskOk(w, w.tasks[t]);
    forall k | k in v.keys && Ours(k) ensures exists id :: id in Stored(v) && KeyOf(Stored(v)[id]) == k {
      if k == KeyOf(a) {
        assert KeyOf(Stored(v)[a.id]) == k;
      } else {
        var id :| id in Stored(w) && KeyOf(Stored(w)[id]) == k;
        assert id in Stored(v) && KeyOf(Stored(v)[id]) == k;
      }
    }
    forall u | u in v.tasks ensures TaskOk(v, v.tasks[u]) {
      assert TaskOk(w, w.tasks[u]);
      if !w.tasks[u].Sweeping? {
        assert OneAdder(w.tasks[t], w.tasks[u]);
        if KeyOf(v.tasks[u].account) == KeyOf(a) { KeysBelongToOneAccount(v.tasks[u].account, a); }
      }
    }
  }

  lemma DropRecordKeeps(w: World, t: nat)
    requires Inv(w) && t in w.tasks && (w.tasks[t].RollingBack? || w.tasks[t].KeyDone?)
    requires !LeftBehind(w, w.tasks[t])
    ensures Inv(DropRecord(w, t, w.tasks[t].account.id, true))
  {
    var a := w.tasks[t].account;
    var v := DropRecord(w, t, a.id, true);
    assert TaskOk(w, w.tasks[t]);
    DropAccount(Stored(w), w.keys, a);
    forall u | u in v.tasks ensures TaskOk(v, v.tasks[u]) {
      assert TaskOk(w, w.tasks[u]);
      if !w.tasks[u].Sweeping? { assert OneAdder(w.tasks[t], w.tasks[u]); }
    }
  }

  /** Keys go, and one task moves on: to a remove that has asked for the deletion, or to a smaller rest. */
  lemma KeysGoKeeps(w: World, t: nat, a: Account, deletes: bool, task: Task)
    requires Inv(w) && t in w.tasks && !w.tasks[t].Persisted? && !w.tasks[t].RollingBack?
    requires !task.Persisted? && !task.RollingBack? && TaskOk(w, task)
    ensures Inv(Without(w, a, deletes).(tasks := w.tasks[t := task]))
  {
    var v := Without(w, a, deletes).(tasks := w.tasks[t := task]);
    forall u | u in v.tasks ensures TaskOk(v, v.tasks[u]) { if u != t { assert TaskOk(w, w.tasks[u]); } }
  }

  lemma LookupKeeps(w: World, t: nat, id: string)
    requires Inv(w) && Enabled(w, RemoveLookup(t, id))
    ensures Inv(Apply(w, RemoveLookup(t, id)))
  {
    var v := Apply(w, RemoveLookup(t, id));
    forall u | u in v.tasks ensures TaskOk(v, v.tasks[u]) { if u != t { assert TaskOk(w, w.tasks[u]); } }
  }

  lemma SnapshotKeeps(w: World, t: nat)
    requires Inv(w) && Enabled(w, Snapshot(t))
    ensures Inv(Apply(w, Snapshot(t)))
  {
    var v := Apply(w, Snapshot(t));
    forall u | u in v.tasks ensures TaskOk(v, v.tasks[u]) { if u != t { assert TaskOk(w, w.tasks[u]); } }
  }

  lemma DropFileKeeps(w: World, t: nat)
    requires Inv(w) && !Danger(w) && Enabled(w, DropFile(t, true))
    ensures Inv(Apply(w, DropFile(t, true)))
  {
    var v := Apply(w, DropFile(t, true));
    SweptClean(w, t);
    forall u | u in v.tasks ensures TaskOk(v, v.tasks[u]) { assert TaskOk(w, w.tasks[u]); }
  }

  lemma SweptClean(w: World, t: nat)
    requires !Danger(w) && Enabled(w, DropFile(t, true))
    ensures NoneOfOurs(w.keys)
  {
    assert !LeftBehind(w, w.tasks[t]);
    forall k | k in w.keys ensures !Ours(k) { assert Uncovered(w.tasks[t].rest, k); }
  }

  lemma EndKeeps(w: World, t: nat)
    requires Inv(w) && t in w.tasks
    ensures Inv(End(w, t))
  {
  }

  lemma RefusedKeeps(w: World, t: nat)
    requires Inv(w) && Enabled(w, AddStoreKey(t, false))
    ensures Inv(Apply(w, AddStoreKey(t, false)))
  {
    var v := Apply(w, AddStoreKey(t, false));
    assert TaskOk(w, w.tasks[t]);
    forall u | u in v.tasks ensures TaskOk(v, v.tasks[u]) { assert TaskOk(w, w.tasks[u]); }
    forall u | u in v.tasks && u != t ensures OneAdder(v.tasks[t], v.tasks[u]) && OneAdder(v.tasks[u], v.tasks[t]) {
      assert OneAdder(w.tasks[t], w.tasks[u]);
    }
  }

  lemma OpenKeeps(w: World)
    requires Inv(w)
    ensures Inv(Repaired(w))
  {
  }

  lemma KeyStepKeeps(w: World, s: Step)
    requires Inv(w) && Enabled(w, s) && (s.RemoveKey? || s.SweepKey?)
    ensures Inv(Apply(w, s))
  {
    assert TaskOk(w, w.tasks[s.t]);
    if s.RemoveKey? {
      var a := w.tasks[s.t].account;
      KeysGoKeeps(w, s.t, a, s.deletes, KeyDone(a));
    } else {
      KeysGoKeeps(w, s.t, s.account, s.deletes, Sweeping(w.tasks[s.t].rest - {s.account}));
    }
  }

  lemma StepKeeps(w: World, s: Step)
    requires Inv(w) && !Danger(w) && Enabled(w, s)
    ensures Inv(Apply(w, s))
  {
    hide Inv, Overlap, LeftBehind;
    match s
    case Open => OpenKeeps(w);
    case AddPersist(t, a) => AddPersistKeeps(w, t, a);
    case AddStoreKey(t, accepted) => if accepted { AddStoreKeyKeeps(w, t); } else { RefusedKeeps(w, t); }
    case AddRollback(t, persisted) => if persisted { DropRecordKeeps(w, t); } else { EndKeeps(w, t); }
    case RemoveLookup(t, id) => LookupKeeps(w, t, id);
    case RemoveKey(_, _) => KeyStepKeeps(w, s);
    case RemoveStored(t, persisted) => if persisted { DropRecordKeeps(w, t); } else { EndKeeps(w, t); }
    case Snapshot(t) => SnapshotKeeps(w, t);
    case SweepKey(_, _, _) => KeyStepKeeps(w, s);
    case DropFile(t, removable) => if removable { DropFileKeeps(w, t); } else { EndKeeps(w, t); }
    case Die(t) => EndKeeps(w, t);
  }

  lemma {:induction false} RunKeeps(w: World, steps: seq<Step>)
    requires Inv(w) && Run(w, steps) && Clear(w, steps)
    ensures Inv(After(w, steps)) && !Danger(After(w, steps))
    decreases |steps|
  {
    hide Inv, Danger;
    if steps != [] {
      StepKeeps(w, steps[0]);
      RunKeeps(Apply(w, steps[0]), steps[1..]);
    }
  }

  // ------------------------------------------------------------------ no orphans

  /** The bridge's keys found at the start all belong to accounts of a file that parses, or there are none. */
  ghost predicate Covered(file: File, keys: set<Key>) {
    NoneOfOurs(keys) || (file.Json? && NoOrphans(file.accounts, keys))
  }

  /** No clear run leaves an orphan anywhere: a run may end at any point. */
  ghost predicate AlwaysSound(w: World) {
    forall steps :: Run(w, steps) && Clear(w, steps) ==> Sound(After(w, steps))
  }

  lemma StartInv(file: File, keys: set<Key>)
    requires WellFiled(AccountStore.Content(file)) && Covered(file, keys)
    ensures Inv(Start(file, keys))
  {
  }

  /**
   * From any file a bridge may find: every intermediate state of every interleaving of adds, their rollbacks, removes
   * and uninstalls, while no add overlaps an uninstall and no refused deletion is followed up, has an account for each
   * of the bridge's keychain entries, exactly when that was so at the start. A file that does not parse counts as one
   * without accounts: the first operation that meets it makes it so.
   */
  lemma KeysAlwaysHaveAnAccount(file: File, keys: set<Key>)
    requires WellFiled(AccountStore.Content(file))
    ensures Covered(file, keys) <==> AlwaysSound(Start(file, keys))
  {
    var w := Start(file, keys);
    if Covered(file, keys) {
      StartInv(file, keys);
      forall steps | Run(w, steps) && Clear(w, steps) ensures Sound(After(w, steps)) {
        hide Run, Clear, After;
        RunKeeps(w, steps);
      }
    } else {
      var none: seq<Step> := [];
      assert Run(w, none) && !Danger(w) && Clear(w, none) && After(w, none) == w;
      if file.Json? { assert Stored(w) == file.accounts; } else { assert Stored(w) == map[]; }
      assert !Sound(w);
    }
  }

  /** A clear uninstall has deleted every bridge credential by the time it deletes the file. */
  lemma UninstallLeavesNothing(file: File, keys: set<Key>, steps: seq<Step>, t: nat)
    requires WellFiled(AccountStore.Content(file)) && Covered(file, keys)
    requires Run(Start(file, keys), steps) && Clear(Start(file, keys), steps)
    requires Enabled(After(Start(file, keys), steps), DropFile(t, true))
    ensures NoneOfOurs(After(Start(file, keys), steps).keys)
  {
    StartInv(file, keys);
    RunKeeps(Start(file, keys), steps);
    SweptClean(After(Start(file, keys), steps), t);
  }

  // ------------------------------------------------------------------ what leaves an orphan

  /** Nothing new is called, and the keychain refuses no deletion: what is under way goes on. */
  ghost predicate Quiet(steps: seq<Step>) {
    forall i :: 0 <= i < |steps| ==> QuietStep(steps[i])
  }

  predicate QuietStep(s: Step) {
    !s.AddPersist? && !s.Snapshot? && (s.RemoveKey? || s.SweepKey? ==> s.deletes)
  }

  /** What is under way may leave one of the bridge's keychain entries without an account. */
  ghost predicate MayOrphan(w: World) {
    exists steps :: Run(w, steps) && Quiet(steps) && !Sound(After(w, steps))
  }

  /** The calls, and the refusals, that make an orphan possible: this can be seen before the step. */
  ghost predicate Opens(w: World, s: Step)
    requires Enabled(w, s)
  {
    || (s.AddPersist? && UninstallOpen(w))
    || (s.Snapshot? && AddInFlight(w) && !w.file.Garbage?)
    || (s.RemoveKey? && !s.deletes && KeyOf(w.tasks[s.t].account) in w.keys)
    || (s.SweepKey? && !s.deletes && KeyOf(s.account) in w.keys)
  }

  /** A task in flight after a step was in flight before, or the step was its call. */
  lemma CameFrom(w: World, s: Step, t: nat)
    requires Enabled(w, s) && t in Apply(w, s).tasks
    ensures Apply(w, s).tasks[t].Persisted? ==> (t in w.tasks && w.tasks[t].Persisted?) || (s.AddPersist? && s.t == t)
    ensures Apply(w, s).tasks[t].Sweeping? ==>
      (t in w.tasks && w.tasks[t].Sweeping?) || (s.Snapshot? && s.t == t && !w.file.Garbage?)
  {
  }

  /** Nothing but two of these calls brings an add and an uninstall together. */
  lemma OverlapBeginsIff(w: World, s: Step)
    requires !Overlap(w) && Enabled(w, s)
    ensures Overlap(Apply(w, s)) <==>
      (s.AddPersist? && UninstallOpen(w)) || (s.Snapshot? && AddInFlight(w) && !w.file.Garbage?)
  {
    var v := Apply(w, s);
    if s.AddPersist? && UninstallOpen(w) {
      var u :| u in w.tasks && w.tasks[u].Sweeping?;
      assert v.tasks[s.t].Persisted? && v.tasks[u].Sweeping?;
    } else if s.Snapshot? && AddInFlight(w) && !w.file.Garbage? {
      var u :| u in w.tasks && w.tasks[u].Persisted?;
      assert v.tasks[s.t].Sweeping? && v.tasks[u].Persisted?;
    } else if Overlap(v) {
      var p :| p in v.tasks && v.tasks[p].Persisted?;
      var u :| u in v.tasks && v.tasks[u].Sweeping?;
      CameFrom(w, s, p);
      CameFrom(w, s, u);
    }
  }

  /** A key refused is a key left behind. */
  lemma RefusalLeavesBehind(w: World, s: Step)
    requires Inv(w) && Enabled(w, s) && Opens(w, s) && (s.RemoveKey? || s.SweepKey?)
    ensures RefusalPending(Apply(w, s))
  {
    var v := Apply(w, s);
    assert TaskOk(w, w.tasks[s.t]);
    if s.SweepKey? {
      forall b | b in v.tasks[s.t].rest ensures KeyOf(b) != KeyOf(s.account) {
        if KeyOf(b) == KeyOf(s.account) { KeysBelongToOneAccount(b, s.account); }
      }
      assert Ours(KeyOf(s.account)) && Uncovered(v.tasks[s.t].rest, KeyOf(s.account));
    }
    assert LeftBehind(v, v.tasks[s.t]);
  }

  /** And nothing else is. */
  lemma NothingElseLeftBehind(w: World, s: Step, t: nat)
    requires Inv(w) && !Danger(w) && Enabled(w, s) && t in Apply(w, s).tasks
    requires s.RemoveKey? || s.SweepKey? ==> !Opens(w, s)
    ensures !LeftBehind(Apply(w, s), Apply(w, s).tasks[t])
  {
    var v := Apply(w, s);
    var task := v.tasks[t];
    assert t in w.tasks ==> !LeftBehind(w, w.tasks[t]) && TaskOk(w, w.tasks[t]);
    if s.AddStoreKey? {
      StoredKeyLeavesNothing(w, s, t);
    } else if s.Snapshot? && s.t == t {
      SnapshotCovers(w, t);
    } else if s.SweepKey? && s.t == t {
      SweepLeavesNothing(w, s);
    } else if task.Sweeping? {
      assert task == w.tasks[t];
      forall k | k in v.keys && Ours(k) ensures !Uncovered(task.rest, k) { assert k in w.keys; }
    }
  }

  lemma StoredKeyLeavesNothing(w: World, s: Step, t: nat)
    requires Inv(w) && !Danger(w) && Enabled(w, s) && s.AddStoreKey? && t in Apply(w, s).tasks
    ensures !LeftBehind(Apply(w, s), Apply(w, s).tasks[t])
  {
    var v, a := Apply(w, s), w.tasks[s.t].account;
    assert TaskOk(w, w.tasks[s.t]) && !LeftBehind(w, w.tasks[t]) && TaskOk(w, w.tasks[t]);
    assert AddInFlight(w) && !UninstallOpen(w);
    if v.tasks[t].KeyDone? {
      assert v.tasks[t] == w.tasks[t];
      if KeyOf(v.tasks[t].account) == KeyOf(a) { KeysBelongToOneAccount(v.tasks[t].account, a); }
    }
  }

  lemma SnapshotCovers(w: World, t: nat)
    requires Inv(w) && Enabled(w, Snapshot(t)) && t in Apply(w, Snapshot(t)).tasks
    ensures !LeftBehind(Apply(w, Snapshot(t)), Apply(w, Snapshot(t)).tasks[t])
  {
    forall k | k in w.keys && Ours(k) ensures !Uncovered(ValuesIn(Stored(w)), k) {
      var id :| id in Stored(w) && KeyOf(Stored(w)[id]) == k;
      assert Stored(w)[id] in ValuesIn(Stored(w));
    }
  }

  lemma SweepLeavesNothing(w: World, s: Step)
    requires Enabled(w, s) && s.SweepKey? && !Opens(w, s) && !LeftBehind(w, w.tasks[s.t])
    ensures !LeftBehind(Apply(w, s), Apply(w, s).tasks[s.t])
  {
    var v, rest := Apply(w, s), w.tasks[s.t].rest;
    forall k | k in v.keys && Ours(k) ensures !Uncovered(rest - {s.account}, k) {
      assert !Uncovered(rest, k);
      var a :| a in rest && KeyOf(a) == k;
      assert a in rest - {s.account};
    }
  }

  /** Danger begins with these steps and no others. */
  lemma DangerBeginsIff(w: World, s: Step)
    requires Inv(w) && !Danger(w) && Enabled(w, s)
    ensures Danger(Apply(w, s)) <==> Opens(w, s)
  {
    hide Inv, Overlap, LeftBehind, AddInFlight, UninstallOpen;
    var v := Apply(w, s);
    OverlapBeginsIff(w, s);
    if Opens(w, s) && (s.RemoveKey? || s.SweepKey?) {
      RefusalLeavesBehind(w, s);
    } else {
      forall t | t in v.tasks ensures !LeftBehind(v, v.tasks[t]) { NothingElseLeftBehind(w, s, t); }
    }
  }

  lemma {:induction false} QuietStaysClear(w: World, steps: seq<Step>)
    requires Inv(w) && !Danger(w) && Run(w, steps) && Quiet(steps)
    ensures Clear(w, steps)
    decreases |steps|
  {
    hide Inv, Danger;
    if steps != [] {
      assert QuietStep(steps[0]);
      StepKeeps(w, steps[0]);
      DangerBeginsIff(w, steps[0]);
      forall i | 0 <= i < |steps[1..]| ensures QuietStep(steps[1..][i]) { assert steps[1..][i] == steps[i + 1]; }
      QuietStaysClear(Apply(w, steps[0]), steps[1..]);
    }
  }

  /** The uninstall finishes, then the keychain takes the password of the account it has just forgotten. */
  lemma {:induction false} FinishBoth(w: World, add: nat, uninstall: nat) returns (steps: seq<Step>)
    requires add in w.tasks && w.tasks[add].Persisted? && uninstall in w.tasks && w.tasks[uninstall].Sweeping?
    ensures Run(w, steps) && Quiet(steps) && !Sound(After(w, steps))
    decreases |w.tasks[uninstall].rest|
  {
    if w.tasks[uninstall].rest == {} {
      var drop, store := DropFile(uninstall, true), AddStoreKey(add, true);
      steps := [drop, store];
      var v := Apply(Apply(w, drop), store);
      assert steps[1..] == [store] && steps[1..][1..] == [];
      assert steps[0] == drop && steps[1..][0] == store;
      assert After(w, steps) == After(Apply(w, drop), steps[1..]) == v;
      assert KeyOf(w.tasks[add].account) in v.keys && Stored(v) == map[];
      assert Ours(KeyOf(w.tasks[add].account));
    } else {
      var a :| a in w.tasks[uninstall].rest;
      var s := SweepKey(uninstall, a, true);
      var more := FinishBoth(Apply(w, s), add, uninstall);
      steps := [s] + more;
      assert steps[1..] == more;
    }
  }

  /** The uninstall finishes although one of the bridge's keys is not among those it still deletes. */
  lemma {:induction false} FinishUninstall(w: World, t: nat, k: Key) returns (steps: seq<Step>)
    requires t in w.tasks && w.tasks[t].Sweeping? && k in w.keys && Ours(k) && Uncovered(w.tasks[t].rest, k)
    ensures Run(w, steps) && Quiet(steps) && !Sound(After(w, steps))
    decreases |w.tasks[t].rest|
  {
    if w.tasks[t].rest == {} {
      steps := [DropFile(t, true)];
      assert steps[1..] == [];
      assert After(w, steps) == Apply(w, DropFile(t, true));
      assert k in After(w, steps).keys && Stored(After(w, steps)) == map[];
    } else {
      var a :| a in w.tasks[t].rest;
      var s := SweepKey(t, a, true);
      var more := FinishUninstall(Apply(w, s), t, k);
      steps := [s] + more;
      assert steps[1..] == more;
    }
  }

  /** Dropping the record at the end of a remove leaves an orphan exactly when its key is still there. */
  lemma RemoveOrphansIff(w: World, t: nat)
    requires Inv(w) && t in w.tasks && w.tasks[t].KeyDone?
    ensures Sound(Apply(w, RemoveStored(t, true))) <==> KeyOf(w.tasks[t].account) !in w.keys
  {
    var a, v := w.tasks[t].account, Apply(w, RemoveStored(t, true));
    assert TaskOk(w, w.tasks[t]);
    if KeyOf(a) !in w.keys {
      DropAccount(Stored(w), w.keys, a);
    } else {
      assert Ours(KeyOf(a));
      forall id | id in Stored(v) ensures KeyOf(Stored(v)[id]) != KeyOf(a) {
        if KeyOf(Stored(w)[id]) == KeyOf(a) { KeysBelongToOneAccount(Stored(w)[id], a); }
      }
    }
  }

  lemma FinishRemove(w: World, t: nat) returns (steps: seq<Step>)
    requires Inv(w) && t in w.tasks && w.tasks[t].KeyDone? && KeyOf(w.tasks[t].account) in w.keys
    ensures Run(w, steps) && Quiet(steps) && !Sound(After(w, steps))
  {
    hide Inv, Sound;
    steps := [RemoveStored(t, true)];
    assert steps[1..] == [];
    RemoveOrphansIff(w, t);
  }

  lemma DangerMayOrphan(w: World)
    requires Inv(w) && Danger(w)
    ensures MayOrphan(w)
  {
    hide Inv, Sound;
    if Overlap(w) {
      var add :| add in w.tasks && w.tasks[add].Persisted?;
      var uninstall :| uninstall in w.tasks && w.tasks[uninstall].Sweeping?;
      var steps := FinishBoth(w, add, uninstall);
    } else {
      var t :| t in w.tasks && LeftBehind(w, w.tasks[t]);
      if w.tasks[t].KeyDone? {
        var steps := FinishRemove(w, t);
      } else {
        var k :| k in w.keys && Ours(k) && Uncovered(w.tasks[t].rest, k);
        var steps := FinishUninstall(w, t, k);
      }
    }
  }

  /**
   * At every point: what is under way may leave an orphan exactly when an add and an uninstall are under way together,
   * or a refused deletion is about to be followed by the deletion of the record.
   */
  lemma MayOrphanIff(w: World)
    requires Inv(w)
    ensures MayOrphan(w) <==> Danger(w)
  {
    if Danger(w) {
      DangerMayOrphan(w);
    } else {
      forall steps | Run(w, steps) && Quiet(steps) ensures Sound(After(w, steps)) {
        hide Danger;
        QuietStaysClear(w, steps);
        RunKeeps(w, steps);
      }
    }
  }

  /**
   * Before the step: it makes an orphan possible exactly when it persists a new account while an uninstall is between
   * its snapshot and its file deletion, takes the snapshot while an add waits for the keychain, or is a deletion of an
   * existing entry that the keychain refuses.
   */
  lemma CallMayOrphanIff(w: World, s: Step)
    requires Inv(w) && !Danger(w) && Enabled(w, s)
    ensures MayOrphan(Apply(w, s)) <==> Opens(w, s)
  {
    hide Inv, Danger, MayOrphan;
    StepKeeps(w, s);
    MayOrphanIff(Apply(w, s));
    DangerBeginsIff(w, s);
  }

  ghost predicate NeverMayOrphan(w: World, steps: seq<Step>)
    requires Run(w, steps)
    decreases |steps|
  {
    !MayOrphan(w) && (steps == [] || NeverMayOrphan(Apply(w, steps[0]), steps[1..]))
  }

  lemma {:induction false} ClearIff(w: World, steps: seq<Step>)
    requires Inv(w) && Run(w, steps)
    ensures Clear(w, steps) <==> NeverMayOrphan(w, steps)
    decreases |steps|
  {
    hide Inv, Danger, MayOrphan;
    MayOrphanIff(w);
    if steps != [] && !Danger(w) {
      StepKeeps(w, steps[0]);
      ClearIff(Apply(w, steps[0]), steps[1..]);
    }
  }

  /**
   * Over all runs: no point is one from which an orphan may follow exactly when no add ever overlaps an uninstall and
   * no refused deletion is followed up.
   */
  lemma UninstallSafeIff(file: File, keys: set<Key>, steps: seq<Step>)
    requires WellFiled(AccountStore.Content(file)) && Covered(file, keys) && Run(Start(file, keys), steps)
    ensures NeverMayOrphan(Start(file, keys), steps) <==> Clear(Start(file, keys), steps)
  {
    StartInv(file, keys);
    ClearIff(Start(file, keys), steps);
  }

  // ------------------------------------------------------------------ no record without its key

  /** A rolled-back add leaves no record of its account, and every other record as it was. */
  lemma RollbackRemovesRecord(w: World, t: nat)
    requires Enabled(w, AddRollback(t, true))
    ensures var id, v := w.tasks[t].account.id, Apply(w, AddRollback(t, true));
      && id !in Stored(v) && t !in v.tasks && v.keys == w.keys && v.returned == w.returned
      && forall other :: other != id ==>
        (other in Stored(v) <==> other in Stored(w)) && (other in Stored(w) ==> Stored(v)[other] == Stored(w)[other])
  {
  }

  /** Nobody dies, the file can be written and deleted, and the keychain deletes what it is asked to. */
  ghost predicate Orderly(steps: seq<Step>) {
    forall i :: 0 <= i < |steps| ==> OrderlyStep(steps[i])
  }

  predicate OrderlyStep(s: Step) {
    match s
    case Die(_) => false
    case AddRollback(_, persisted) => persisted
    case RemoveKey(_, deletes) => deletes
    case RemoveStored(_, persisted) => persisted
    case SweepKey(_, _, deletes) => deletes
    case DropFile(_, removable) => removable
    case Open => true
    case AddPersist(_, _) => true
    case AddStoreKey(_, _) => true
    case RemoveLookup(_, _) => true
    case Snapshot(_) => true
  }

  /** No task dies, and a rollback can write the file. */
  ghost predicate AddsFinish(steps: seq<Step>) {
    forall i :: 0 <= i < |steps| ==> AddFinishes(steps[i])
  }

  predicate AddFinishes(s: Step) {
    !s.Die? && (s.AddRollback? ==> s.persisted)
  }

  /** An add of the account is under way. */
  ghost predicate BeingAdded(w: World, id: string) {
    exists t :: t in w.tasks && IsAdderOf(w.tasks[t], id)
  }

  ghost predicate IsAdderOf(task: Task, id: string) {
    (task.Persisted? || task.RollingBack?) && task.account.id == id
  }

  /** A remove of it has deleted the key and not yet the record. */
  ghost predicate BeingRemoved(w: World, id: string) {
    exists t :: t in w.tasks && w.tasks[t].KeyDone? && w.tasks[t].account.id == id
  }

  /** Every record was told to a caller, or its add is under way. */
  ghost predicate AllReturned(w: World) {
    forall id :: id in Stored(w) ==> id in w.returned || BeingAdded(w, id)
  }

  /** Every record has its key, unless an add or a remove of it, or an uninstall, is under way. */
  ghost predicate AllKeyed(w: World) {
    UninstallOpen(w) || forall id :: id in Stored(w) ==> Keyed(w, id)
  }

  ghost predicate Keyed(w: World, id: string)
    requires id in Stored(w)
  {
    KeyOf(Stored(w)[id]) in w.keys || BeingAdded(w, id) || BeingRemoved(w, id)
  }

  lemma AdderStays(w: World, s: Step, id: string)
    requires Enabled(w, s) && AddFinishes(s) && BeingAdded(w, id)
    ensures var v := Apply(w, s);
      BeingAdded(v, id) || id !in Stored(v) || (s.AddStoreKey? && w.tasks[s.t].account.id == id && id in v.returned)
  {
    var v := Apply(w, s);
    var t :| t in w.tasks && IsAdderOf(w.tasks[t], id);
    if s.AddStoreKey? && s.t == t {
      if !s.accepted { assert IsAdderOf(v.tasks[t], id); }
    } else if s.AddRollback? && s.t == t {
      RollbackRemovesRecord(w, t);
    } else {
      assert IsAdderOf(v.tasks[t], id);
    }
  }

  lemma StepKeepsReturned(w: World, s: Step)
    requires AllReturned(w) && Enabled(w, s) && AddFinishes(s)
    ensures AllReturned(Apply(w, s))
  {
    var v := Apply(w, s);
    forall id | id in Stored(v) ensures id in v.returned || BeingAdded(v, id) {
      if s.AddPersist? && id == s.account.id {
        assert IsAdderOf(v.tasks[s.t], id);
      } else if id !in w.returned {
        AdderStays(w, s, id);
      }
    }
  }

  lemma {:induction false} RecordsAreReturned(w: World, steps: seq<Step>)
    requires AllReturned(w) && Run(w, steps) && AddsFinish(steps)
    ensures AllReturned(After(w, steps))
    decreases |steps|
  {
    hide AllReturned, AddFinishes;
    if steps != [] {
      assert AddFinishes(steps[0]);
      StepKeepsReturned(w, steps[0]);
      forall i | 0 <= i < |steps[1..]| ensures AddFinishes(steps[1..][i]) { assert steps[1..][i] == steps[i + 1]; }
      RecordsAreReturned(Apply(w, steps[0]), steps[1..]);
    }
  }

  /**
   * Over every run in which no task dies and every rollback can write: a record that was not there at the start belongs
   * to an account whose caller was told of it, or to an add still under way. So an add that was refused leaves no
   * record.
   */
  lemma RefusedAddLeavesNoRecord(file: File, keys: set<Key>, steps: seq<Step>, id: string)
    requires Run(Start(file, keys), steps) && AddsFinish(steps)
    requires id in Stored(After(Start(file, keys), steps)) && id !in AccountStore.Content(file)
    ensures var v := After(Start(file, keys), steps);
      id in v.returned ||
      exists t :: t in v.tasks && (v.tasks[t].Persisted? || v.tasks[t].RollingBack?) && v.tasks[t].account.id == id
  {
    RecordsAreReturned(Start(file, keys), steps);
    var v := After(Start(file, keys), steps);
    if id !in v.returned {
      var t :| t in v.tasks && IsAdderOf(v.tasks[t], id);
    }
  }

  lemma RemoverStays(w: World, s: Step, id: string)
    requires Enabled(w, s) && OrderlyStep(s) && BeingRemoved(w, id)
    ensures BeingRemoved(Apply(w, s), id) || id !in Stored(Apply(w, s))
  {
    var v := Apply(w, s);
    var t :| t in w.tasks && w.tasks[t].KeyDone? && w.tasks[t].account.id == id;
    if !(s.RemoveStored? && s.t == t) { assert t in v.tasks && v.tasks[t] == w.tasks[t]; }
  }

  /** An uninstall stays open until it deletes the file. */
  lemma UninstallStays(w: World, s: Step)
    requires Enabled(w, s) && OrderlyStep(s) && UninstallOpen(w)
    ensures UninstallOpen(Apply(w, s)) || Stored(Apply(w, s)) == map[]
  {
    var v := Apply(w, s);
    var t :| t in w.tasks && w.tasks[t].Sweeping?;
    if !(s.DropFile? && s.t == t) { assert t in v.tasks && v.tasks[t].Sweeping?; }
  }

  lemma StepKeepsKeyed(w: World, s: Step)
    requires AllKeyed(w) && Inv(w) && Enabled(w, s) && OrderlyStep(s)
    ensures AllKeyed(Apply(w, s))
  {
    hide Keyed;
    var v := Apply(w, s);
    if UninstallOpen(w) {
      UninstallStays(w, s);
    } else if s.Snapshot? && !w.file.Garbage? {
      assert v.tasks[s.t].Sweeping?;
    } else {
      forall id | id in Stored(v) ensures Keyed(v, id) { RecordStaysKeyed(w, s, id); }
    }
  }

  lemma RecordStaysKeyed(w: World, s: Step, id: string)
    requires Inv(w) && Enabled(w, s) && OrderlyStep(s) && !UninstallOpen(w) && id in Stored(Apply(w, s))
    requires id in Stored(w) ==> Keyed(w, id)
    ensures Keyed(Apply(w, s), id)
  {
    var v := Apply(w, s);
    if id !in Stored(w) {
      assert IsAdderOf(v.tasks[s.t], id);
    } else if BeingAdded(w, id) {
      AdderStays(w, s, id);
      if s.AddStoreKey? && w.tasks[s.t].account.id == id { assert TaskOk(w, w.tasks[s.t]); StoredUnder(w, s); }
    } else if BeingRemoved(w, id) {
      RemoverStays(w, s, id);
    } else if s.RemoveKey? && KeyOf(w.tasks[s.t].account) == KeyOf(Stored(w)[id]) {
      KeysBelongToOneAccount(w.tasks[s.t].account, Stored(w)[id]);
      assert v.tasks[s.t].KeyDone? && v.tasks[s.t].account.id == id;
    } else {
      assert Stored(v)[id] == Stored(w)[id] || s.AddPersist?;
    }
  }

  lemma StoredUnder(w: World, s: Step)
    requires Inv(w) && Enabled(w, s) && s.AddStoreKey? && w.tasks[s.t].account.id in Stored(w)
    ensures var a, v := w.tasks[s.t].account, Apply(w, s);
      && a.id in Stored(v) && Stored(v)[a.id] == a
      && (s.accepted ==> KeyOf(a) in v.keys) && (!s.accepted ==> BeingAdded(v, a.id))
  {
    assert TaskOk(w, w.tasks[s.t]);
    if !s.accepted { assert IsAdderOf(Apply(w, s).tasks[s.t], w.tasks[s.t].account.id); }
  }

  lemma {:induction false} RecordsAreKeyed(w: World, steps: seq<Step>)
    requires AllKeyed(w) && Inv(w) && Run(w, steps) && Orderly(steps) && Clear(w, steps)
    ensures AllKeyed(After(w, steps)) && Inv(After(w, steps))
    decreases |steps|
  {
    hide AllKeyed, Inv, Danger, OrderlyStep;
    if steps != [] {
      assert OrderlyStep(steps[0]);
      StepKeepsKeyed(w, steps[0]);
      StepKeeps(w, steps[0]);
      forall i | 0 <= i < |steps[1..]| ensures OrderlyStep(steps[1..][i]) { assert steps[1..][i] == steps[i + 1]; }
      RecordsAreKeyed(Apply(w, steps[0]), steps[1..]);
    }
  }

  /**
   * Records and keys match one to one whenever nothing is under way: after any orderly run in which no add overlaps an
   * uninstall, every stored account was returned to its caller and has its key, and every key of the bridge is that of
   * a stored account. An uninstall therefore leaves neither.
   */
  lemma AtRestRecordsAndKeysMatch(steps: seq<Step>)
    requires var w := Start(AccountStore.File.Absent, {});
      Run(w, steps) && Orderly(steps) && Clear(w, steps) && After(w, steps).tasks == map[]
    ensures var v := After(Start(AccountStore.File.Absent, {}), steps);
      && (forall id :: id in Stored(v) ==> id in v.returned && KeyOf(Stored(v)[id]) in v.keys)
      && (forall k :: k in v.keys && Ours(k) ==> exists id :: id in Stored(v) && KeyOf(Stored(v)[id]) == k)
  {
    var w := Start(AccountStore.File.Absent, {});
    StartInv(AccountStore.File.Absent, {});
    assert AllReturned(w) && AllKeyed(w);
    forall i | 0 <= i < |steps| ensures AddFinishes(steps[i]) { assert OrderlyStep(steps[i]); }
    RecordsAreReturned(w, steps);
    RecordsAreKeyed(w, steps);
    var v := After(w, steps);
    assert !UninstallOpen(v);
    forall id | id in Stored(v) ensures id in v.returned && KeyOf(Stored(v)[id]) in v.keys {
      assert Keyed(v, id) && !BeingAdded(v, id) && !BeingRemoved(v, id);
    }
  }

  /** A key names the bridge, the account, and its host and port. */
  lemma KeySpelledOut(a: Account)
    ensures KeyOf(a) == Key("InboxBridge:" + a.id, (a.host, a.port))
    ensures forall k :: Ours(k) <==> "InboxBridge:" <= k.service
  {
  }
}
