/**
 * The bridge's state object, its keychain and the uninstall (inboxbridge/src/state.rs, keychain.rs, cleanup.rs,
 * main.rs).
 */
module BridgeState {
  import opened Prelude
  import AccountStore
  import opened AccountKeys

  /** What starting leaves of the file: unparseable contents are moved to the backup. */
  function FileAfterOpen(initial: File): File {
    if initial.Garbage? then AccountStore.File.Absent else initial
  }

  /** What reading answers when the file was first seen as first and, after a lock upgrade, as again. */
  function ReadResult(first: File, again: File): Accounts {
    if first.Garbage? then AccountStore.Content(again) else AccountStore.Content(first)
  }

  function FileAfterRead(first: File, again: File): File {
    if !first.Garbage? then first else FileAfterOpen(again)
  }

  function FileAfterUpdate(file: File, u: AccountStore.Mutation): File {
    AccountStore.File.Json(AccountStore.Mutate(AccountStore.Content(file), u))
  }

  // ------------------------------------------------------------------ the same operations among others

  /** Under the shared lock the protocol answers as the method does, or gives the lock up to repair. */
  lemma ReadIsProtocol(w: AccountStore.World, t: nat, again: File)
    requires t in w.tasks && w.tasks[t].Reading? && w.tasks[t].kind.Repairing?
    ensures var v := AccountStore.Apply(w, AccountStore.ReadFile(t));
      && v.file == w.file
      && (w.file.Garbage? <==> t in v.tasks && v.tasks[t].WaitUpgrade?)
      && v.replies == w.replies + (if w.file.Garbage? then [] else
           [AccountStore.ReadReply(ReadResult(w.file, again), w.tasks[t].called, |w.commits|)])
      && (!w.file.Garbage? ==> v.file == FileAfterRead(w.file, again))
  {
  }

  /** Under the upgraded lock it answers and repairs as the method does, from whatever the gap left. */
  lemma RecheckIsProtocol(w: AccountStore.World, t: nat, first: File)
    requires t in w.tasks && w.tasks[t].Upgraded? && first.Garbage?
    ensures var v := AccountStore.Apply(w, AccountStore.Recheck(t));
      && v.file == FileAfterRead(first, w.file)
      && v.replies == w.replies + [AccountStore.ReadReply(ReadResult(first, w.file), w.tasks[t].called, |w.commits|)]
  {
  }

  /** Loading, truncating and writing leave the file the method leaves, and its answer. */
  lemma UpdateIsProtocol(w: AccountStore.World, t: nat)
    requires t in w.tasks && w.tasks[t].Updating? && !w.tasks[t].mutation.Clear?
    ensures var u := w.tasks[t].mutation;
      var v := AccountStore.Apply(AccountStore.Apply(
        AccountStore.Apply(w, AccountStore.Load(t)), AccountStore.Truncate(t)), AccountStore.Write(t));
      && v.file == FileAfterUpdate(w.file, u) && v.commits == w.commits + [u]
      && v.replies == w.replies + [AccountStore.UpdateReply(u, u.Remove? && u.id in AccountStore.Content(w.file),
                                                            w.tasks[t].called, |w.commits|)]
  {
  }

  class AppState {
    var file: File
    var backup: Option<File>
    var shared: bool
    var exclusive: bool

    /** No lock is held. */
    ghost predicate Idle()
      reads this
    {
      !shared && !exclusive
    }

    constructor (initial: File)
      ensures Idle() && file == FileAfterOpen(initial) && AccountStore.Content(file) == AccountStore.Content(initial)
      ensures backup == if initial.Garbage? then Some(initial) else None
    {
      file, backup, shared, exclusive := initial, None, false, true;
      new;
      var contents := ReadFile();
      if contents.Garbage? { RepairCorruptFile(); }
      exclusive := false;
    }

    /** The file is read under a lock only. */
    method ReadFile() returns (contents: File)
      requires shared || exclusive
      ensures contents == file
    {
      contents := file;
    }

    /** And replaced under the exclusive lock only. */
    method ReplaceFile(contents: File)
      requires exclusive
      modifies this`file
      ensures file == contents
    {
      file := contents;
    }

    method RepairCorruptFile()
      requires exclusive && file.Garbage?
      modifies this`file, this`backup
      ensures file.Absent? && backup == Some(old(file))
    {
      backup := Some(file);
      ReplaceFile(AccountStore.File.Absent);
    }

    /**
     * read_accounts. gap is what the file holds once the upgraded lock is granted: between the locks anybody may have
     * written. The answer is the store as last seen, and only contents still unparseable are removed.
     */
    method ReadAccounts(gap: File) returns (accounts: Accounts)
      requires Idle()
      modifies this
      ensures Idle() && accounts == ReadResult(old(file), gap) && file == FileAfterRead(old(file), gap)
      ensures backup == if old(file).Garbage? && gap.Garbage? then Some(gap) else old(backup)
    {
      shared := true;
      var contents := ReadFile();
      if !contents.Garbage? {
        shared := false;
        return if contents.Json? then contents.accounts else map[];
      }
      shared := false;
      file := gap;
      exclusive := true;
      accounts := map[];
      contents := ReadFile();
      if contents.Json? {
        accounts := contents.accounts;
      } else if contents.Garbage? {
        RepairCorruptFile();
      }
      exclusive := false;
    }

    /** read_modify_write: one mutation on what the file means. */
    method ReadModifyWrite(u: AccountStore.Mutation) returns (found: bool)
      requires Idle()
      modifies this
      ensures Idle() && file == FileAfterUpdate(old(file), u)
      ensures u.Remove? ==>
        && file.Json?
        && (forall id :: id in file.accounts <==> id in AccountStore.Content(old(file)) && id != u.id)
        && forall id :: id in file.accounts ==> file.accounts[id] == AccountStore.Content(old(file))[id]
      ensures u.Insert? ==> file == AccountStore.File.Json(AccountStore.Content(old(file))[u.account.id := u.account])
      ensures found == (u.Remove? && u.id in AccountStore.Content(old(file)))
      ensures backup == if old(file).Garbage? then Some(old(file)) else old(backup)
    {
      exclusive := true;
      var accounts: Accounts := map[];
      var contents := ReadFile();
      if contents.Json? {
        accounts := contents.accounts;
      } else if contents.Garbage? {
        RepairCorruptFile();
      }
      found := u.Remove? && u.id in accounts;
      ReplaceFile(AccountStore.File.Json(AccountStore.Mutate(accounts, u)));
      exclusive := false;
    }

    /**
     * The snapshot an uninstall works from; unparseable contents abort it and stay as they are. ids names the entries
     * in the order of the list.
     */
    method ListAccountsForCleanup() returns (r: Result<seq<Account>, string>, ghost ids: seq<string>)
      requires Idle()
      modifies this`shared
      ensures Idle() && (r.Err? <==> file.Garbage?)
      ensures r.Ok? ==> Lists(AccountStore.Content(file), ids, r.value)
    {
      shared := true;
      ids := [];
      var contents := ReadFile();
      if contents.Garbage? {
        r := Err("accounts.json is corrupt");
      } else {
        var list: seq<Account>;
        list, ids := ValuesOf(if contents.Json? then contents.accounts else map[]);
        r := Ok(list);
      }
      shared := false;
    }

    /** delete_accounts_file_locked: after success the file is absent, whether or not it existed. */
    method DeleteAccountsFile(removable: bool) returns (r: Result<bool, string>)
      requires Idle()
      modifies this`file, this`exclusive
      ensures Idle() && (r.Ok? <==> removable || old(file).Absent?)
      ensures r.Ok? ==> r.value && file.Absent?
      ensures r.Err? ==> file == old(file)
    {
      exclusive := true;
      var contents := ReadFile();
      if contents.Absent? {
        r := Ok(true);
      } else if removable {
        ReplaceFile(AccountStore.File.Absent);
        r := Ok(true);
      } else {
        r := Err("Failed to delete accounts.json");
      }
      exclusive := false;
    }
  }

  /** list holds the values of the map, each key once, in the order of ids. */
  ghost predicate Lists(accounts: Accounts, ids: seq<string>, list: seq<Account>) {
    && |ids| == |list|
    && (forall i :: 0 <= i < |ids| ==> ids[i] in accounts && list[i] == accounts[ids[i]])
    && (forall i, j :: 0 <= i < j < |ids| ==> ids[i] != ids[j])
    && (forall id :: id in accounts ==> id in ids)
  }

  lemma {:induction false} ListsEveryEntryOnce(accounts: Accounts, ids: seq<string>, list: seq<Account>)
    requires Lists(accounts, ids, list)
    ensures |list| == |accounts|
    ensures forall id :: id in accounts ==> accounts[id] in list
  {
    DistinctCount(ids, accounts.Keys);
    forall id | id in accounts ensures accounts[id] in list {
      var i :| 0 <= i < |ids| && ids[i] == id;
      assert list[i] == accounts[id];
    }
  }

  lemma {:induction false} DistinctCount(ids: seq<string>, keys: set<string>)
    requires forall i, j :: 0 <= i < j < |ids| ==> ids[i] != ids[j]
    requires forall id :: id in keys <==> id in ids
    ensures |ids| == |keys|
  {
    if ids == [] {
      assert keys == {};
    } else {
      var last := |ids| - 1;
      assert ids == ids[..last] + [ids[last]];
      DistinctCount(ids[..last], keys - {ids[last]});
    }
  }

  /** The values of a map, in some order. */
  method ValuesOf(accounts: Accounts) returns (list: seq<Account>, ghost ids: seq<string>)
    ensures Lists(accounts, ids, list)
    ensures |list| == |accounts| && forall id :: id in accounts ==> accounts[id] in list
  {
    list, ids := [], [];
    var todo := accounts.Keys;
    while todo != {}
      invariant todo <= accounts.Keys
      invariant |ids| == |list|
      invariant forall i :: 0 <= i < |ids| ==> ids[i] in accounts && ids[i] !in todo && list[i] == accounts[ids[i]]
      invariant forall i, j :: 0 <= i < j < |ids| ==> ids[i] != ids[j]
      invariant forall id :: id in accounts && id !in todo ==> id in ids
      decreases |todo|
    {
      var id :| id in todo;
      todo := todo - {id};
      list, ids := list + [accounts[id]], ids + [id];
    }
    ListsEveryEntryOnce(accounts, ids, list);
  }

  /** The OS keychain: deleting fails when there is no entry or the keychain refuses. */
  class Keychain {
    var entries: map<Key, string>

    method DeletePassword(key: Key, refuses: set<Key>) returns (ok: bool)
      modifies this
      ensures ok <==> key in old(entries) && key !in refuses
      ensures entries == if ok then old(entries) - {key} else old(entries)
    {
      ok := key in entries && key !in refuses;
      if ok { entries := entries - {key}; }
    }
  }

  datatype Failure = Failure(accountId: string, service: string)

  datatype CleanupResult = CleanupResult(removed: nat, failed: seq<Failure>, accountsFileDeleted: bool)

  datatype CleanupError = SnapshotReadFailed | AccountsFileDeleteFailed

  function KeysIn(list: seq<Account>): set<Key> {
    set i | 0 <= i < |list| :: KeyOf(list[i])
  }

  /** The keychain after deleting the keys of a list in order, and the failures met on the way. */
  function Sweep(entries: map<Key, string>, list: seq<Account>, refuses: set<Key>): (map<Key, string>, seq<Failure>) {
    if list == [] then (entries, [])
    else
      var last := |list| - 1;
      var (e, f) := Sweep(entries, list[..last], refuses);
      var k := KeyOf(list[last]);
      if k in e && k !in refuses then (e - {k}, f) else (e, f + [Failure(list[last].id, k.service)])
  }

  lemma SweepNone(entries: map<Key, string>, list: seq<Account>, refuses: set<Key>)
    ensures Sweep(entries, list[..0], refuses) == (entries, [])
  {
  }

  lemma SweepNext(entries: map<Key, string>, list: seq<Account>, i: nat, refuses: set<Key>)
    requires i < |list|
    ensures var (e, f) := Sweep(entries, list[..i], refuses);
      var k := KeyOf(list[i]);
      Sweep(entries, list[..i + 1], refuses) ==
        if k in e && k !in refuses then (e - {k}, f) else (e, f + [Failure(list[i].id, k.service)])
  {
    assert list[..i + 1][..i] == list[..i];
  }

  /**
   * The uninstall: snapshot, keychain, file, in this order. refuses holds the keys the keychain will not delete,
   * removable says whether the file can be deleted.
   */
  method RunFullCleanup(state: AppState, keychain: Keychain, refuses: set<Key>, removable: bool)
    returns (r: Result<CleanupResult, CleanupError>, ghost snapshot: seq<Account>, ghost ids: seq<string>)
    requires state.Idle()
    modifies state, keychain
    ensures old(state.file).Garbage? <==> r == Err(SnapshotReadFailed)
    ensures r == Err(SnapshotReadFailed) ==> state.file == old(state.file) && keychain.entries == old(keychain.entries)
    ensures r != Err(SnapshotReadFailed) ==>
      && Lists(AccountStore.Content(old(state.file)), ids, snapshot)
      && keychain.entries == Sweep(old(keychain.entries), snapshot, refuses).0
    ensures r.Ok? ==>
      && r.value.failed == Sweep(old(keychain.entries), snapshot, refuses).1
      && r.value.removed + |r.value.failed| == |snapshot|
      && r.value.accountsFileDeleted && state.file.Absent?
    ensures r == Err(AccountsFileDeleteFailed) <==> old(state.file).Json? && !removable
    ensures r == Err(AccountsFileDeleteFailed) ==> state.file == old(state.file)
    ensures state.backup == old(state.backup)
  {
    hide Sweep, Lists, KeyOf;
    snapshot := [];
    var listed;
    listed, ids := state.ListAccountsForCleanup();
    if listed.Err? { r := Err(SnapshotReadFailed); return; }
    var accounts := listed.value;
    snapshot := accounts;
    var removed: nat, failed := 0, [];
    SweepNone(keychain.entries, accounts, refuses);
    for i := 0 to |accounts|
      invariant (keychain.entries, failed) == Sweep(old(keychain.entries), accounts[..i], refuses)
      invariant removed + |failed| == i
      invariant state.file == old(state.file) && state.backup == old(state.backup) && state.Idle()
    {
      SweepNext(old(keychain.entries), accounts, i, refuses);
      var key := KeyOf(accounts[i]);
      var ok := keychain.DeletePassword(key, refuses);
      if ok { removed := removed + 1; } else { failed := failed + [Failure(accounts[i].id, key.service)]; }
    }
    assert accounts[..|accounts|] == accounts;
    var deleted := state.DeleteAccountsFile(removable);
    if deleted.Err? { r := Err(AccountsFileDeleteFailed); return; }
    r := Ok(CleanupResult(removed, failed, deleted.value));
  }

  lemma KeysInGrow(list: seq<Account>)
    requires list != []
    ensures KeysIn(list) == KeysIn(list[..|list| - 1]) + {KeyOf(list[|list| - 1])}
  {
    var front := list[..|list| - 1];
    forall k | k in KeysIn(list) ensures k in KeysIn(front) || k == KeyOf(list[|list| - 1]) {
      var i :| 0 <= i < |list| && k == KeyOf(list[i]);
      if i < |front| { assert front[i] == list[i]; }
    }
    forall k | k in KeysIn(front) ensures k in KeysIn(list) {
      var i :| 0 <= i < |front| && k == KeyOf(front[i]);
      assert list[i] == front[i];
    }
  }

  /**
   * Sweeping touches no key outside the list, and each key of the list is gone or its account is among the failures; a
   * key that is still there is one the keychain refused.
   */
  lemma {:induction false} SweepAccounts(entries: map<Key, string>, list: seq<Account>, refuses: set<Key>)
    ensures var (e, f) := Sweep(entries, list, refuses);
      && (forall k :: k !in KeysIn(list) ==> (k in e <==> k in entries))
      && (forall k :: k in e ==> k in entries && e[k] == entries[k])
      && (forall i :: 0 <= i < |list| ==> KeyOf(list[i]) !in e || Failure(list[i].id, KeyOf(list[i]).service) in f)
      && (forall i :: 0 <= i < |list| && KeyOf(list[i]) in e ==> KeyOf(list[i]) in refuses)
  {
    if list != [] {
      var last := |list| - 1;
      SweepAccounts(entries, list[..last], refuses);
      assert list == list[..last] + [list[last]];
      KeysInGrow(list);
      forall i | 0 <= i < |list|
        ensures var (e, f) := Sweep(entries, list, refuses);
          (KeyOf(list[i]) !in e || Failure(list[i].id, KeyOf(list[i]).service) in f)
          && (KeyOf(list[i]) in e ==> KeyOf(list[i]) in refuses)
      {
        if i < last { assert list[..last][i] == list[i]; }
      }
    }
  }

  /** A key is left exactly when it was there and is not of the list, or was refused. */
  lemma {:induction false} SweepLeavesIff(entries: map<Key, string>, list: seq<Account>, refuses: set<Key>, k: Key)
    ensures k in Sweep(entries, list, refuses).0 <==> k in entries && (k !in KeysIn(list) || k in refuses)
  {
    if list != [] {
      SweepLeavesIff(entries, list[..|list| - 1], refuses, k);
      KeysInGrow(list);
    }
  }

  /** No two accounts of the list share a key. */
  ghost predicate DistinctKeys(list: seq<Account>) {
    forall i, j :: 0 <= i < j < |list| ==> KeyOf(list[i]) != KeyOf(list[j])
  }

  /** A failure is reported exactly for an account whose key was missing or refused. */
  lemma {:induction false} SweepFailsIff(entries: map<Key, string>, list: seq<Account>, refuses: set<Key>, x: Failure)
    requires DistinctKeys(list)
    ensures x in Sweep(entries, list, refuses).1 <==>
      exists i :: 0 <= i < |list| && FailsWith(entries, list[i], refuses, x)
  {
    if list != [] {
      var last := |list| - 1;
      var front := list[..last];
      SweepFailsIff(entries, front, refuses, x);
      SweepLeavesIff(entries, front, refuses, KeyOf(list[last]));
      assert KeyOf(list[last]) !in KeysIn(front);
      if i :| 0 <= i < |list| && FailsWith(entries, list[i], refuses, x) {
        if i < last { assert front[i] == list[i]; }
      }
      if i :| 0 <= i < |front| && FailsWith(entries, front[i], refuses, x) { assert list[i] == front[i]; }
    }
  }

  ghost predicate FailsWith(entries: map<Key, string>, account: Account, refuses: set<Key>, x: Failure) {
    x == Failure(account.id, KeyOf(account).service) && (KeyOf(account) !in entries || KeyOf(account) in refuses)
  }

  /** The bridge's own entries among those in the keychain. */
  function OurEntries(entries: map<Key, string>): map<Key, string> {
    map k | k in entries && Ours(k) :: entries[k]
  }

  /**
   * A sweep without failures over all stored accounts leaves no bridge credential exactly when every one of them
   * belonged to a stored account; what other programs keep there stays.
   */
  lemma CleanSweepIff(
      stored: Accounts, ids: seq<string>, list: seq<Account>, entries: map<Key, string>, refuses: set<Key>)
    requires Lists(stored, ids, list) && Sweep(entries, list, refuses).1 == []
    ensures OurEntries(Sweep(entries, list, refuses).0) == map[] <==> NoOrphans(stored, entries.Keys)
    ensures forall k :: k in entries && !Ours(k) ==>
      k in Sweep(entries, list, refuses).0 && Sweep(entries, list, refuses).0[k] == entries[k]
  {
    hide Sweep, Lists;
    var e := Sweep(entries, list, refuses).0;
    SweepAccounts(entries, list, refuses);
    StoredKeysGone(stored, ids, list, entries, refuses);
    KeysInAreStored(stored, ids, list);
    assert forall k :: k in KeysIn(list) ==> Ours(k);
    if NoOrphans(stored, entries.Keys) {
      forall k | k in e ensures !Ours(k) { assert k in entries.Keys; }
    } else {
      var k :| k in entries.Keys && Ours(k) && forall id :: id in stored ==> KeyOf(stored[id]) != k;
      assert k !in KeysIn(list);
      assert k in OurEntries(e);
    }
  }

  lemma KeysInAreStored(stored: Accounts, ids: seq<string>, list: seq<Account>)
    requires Lists(stored, ids, list)
    ensures forall k :: k in KeysIn(list) ==> exists id :: id in stored && KeyOf(stored[id]) == k
  {
    forall k | k in KeysIn(list) ensures exists id :: id in stored && KeyOf(stored[id]) == k {
      var i :| 0 <= i < |list| && k == KeyOf(list[i]);
      assert KeyOf(stored[ids[i]]) == k;
    }
  }

  lemma StoredKeysGone(stored: Accounts, ids: seq<string>, list: seq<Account>, entries: map<Key, string>,
      refuses: set<Key>)
    requires Lists(stored, ids, list) && Sweep(entries, list, refuses).1 == []
    ensures forall id :: id in stored ==> KeyOf(stored[id]) !in Sweep(entries, list, refuses).0
  {
    SweepAccounts(entries, list, refuses);
    forall id | id in stored ensures KeyOf(stored[id]) !in Sweep(entries, list, refuses).0 {
      var i :| 0 <= i < |ids| && ids[i] == id;
      assert KeyOf(list[i]) !in Sweep(entries, list, refuses).0;
    }
  }

  // ------------------------------------------------------------------ the cleanup command

  /**
   * InboxBridge --cleanup: start, then uninstall. Starting moves unparseable contents away, so the uninstall never
   * refuses them: it reports success with nothing removed and leaves every credential. A clean success leaves none
   * exactly when the file found at the start covered the credentials: it parsed and had an account for each, or there
   * were none.
   */
  method CleanupCommand(initial: File, keychain: Keychain, refuses: set<Key>, removable: bool)
    returns (r: Result<CleanupResult, CleanupError>)
    modifies keychain
    ensures r != Err(SnapshotReadFailed)
    ensures initial.Garbage? ==> r == Ok(CleanupResult(0, [], true)) && keychain.entries == old(keychain.entries)
    ensures r.Ok? && r.value.failed == [] ==>
      (OurEntries(keychain.entries) == map[] <==> Covered(initial, old(keychain.entries).Keys))
  {
    var state := new AppState(initial);
    ghost var snapshot, ids;
    r, snapshot, ids := RunFullCleanup(state, keychain, refuses, removable);
    ghost var stored := AccountStore.Content(initial);
    ghost var entries := old(keychain.entries);
    if r.Ok? && r.value.failed == [] {
      CleanSweepIff(stored, ids, snapshot, entries, refuses);
      CoveredIff(initial, entries.Keys);
    }
    if initial.Garbage? {
      ListsEveryEntryOnce(stored, ids, snapshot);
      assert snapshot == [];
      ThreeOutcomes(r);
      assert Sweep(entries, snapshot, refuses) == (entries, []);
    }
  }

  lemma NoneIsEmpty(entries: map<Key, string>)
    ensures OurEntries(entries) == map[] <==> NoneOfOurs(entries.Keys)
  {
    if OurEntries(entries) == map[] {
      forall k | k in entries.Keys ensures !Ours(k) { assert k !in OurEntries(entries); }
    }
  }

  lemma ThreeOutcomes(r: Result<CleanupResult, CleanupError>)
    ensures r.Ok? || r == Err(SnapshotReadFailed) || r == Err(AccountsFileDeleteFailed)
  {
    match r
    case Ok(_) =>
    case Err(SnapshotReadFailed) =>
    case Err(AccountsFileDeleteFailed) =>
  }

  lemma CoveredIff(file: File, keys: set<Key>)
    ensures Covered(file, keys) <==> NoOrphans(AccountStore.Content(file), keys)
  {
    if !file.Json? && !NoneOfOurs(keys) {
      var k :| k in keys && Ours(k);
      assert !NoOrphans(map[], keys);
    }
  }

  /**
   * For credentials that did have their accounts before the file was damaged: the command cleans up exactly when the
   * file parsed, was absent, or there was nothing to clean up. Swept is what a run without failures does to the
   * keychain.
   */
  lemma CommandCleansIff(initial: File, ids: seq<string>, list: seq<Account>, entries: map<Key, string>,
      refuses: set<Key>)
    requires Lists(AccountStore.Content(FileAfterOpen(initial)), ids, list) && Sweep(entries, list, refuses).1 == []
    requires initial.Garbage? || Covered(initial, entries.Keys)
    ensures OurEntries(Sweep(entries, list, refuses).0) == map[] <==>
      !initial.Garbage? || OurEntries(entries) == map[]
  {
    CleanSweepIff(AccountStore.Content(initial), ids, list, entries, refuses);
    CoveredIff(initial, entries.Keys);
    NoneIsEmpty(entries);
  }
}
