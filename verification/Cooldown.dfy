/**
 * The cooldown registry of field detection (extension/src/lib/detection/cooldown-registry.ts:130-232): a cache by
 * element in front of a cache by field key. Elements come and go; a page may replace one by another with the same key.
 */
module Cooldown {
  type Field = nat
  type Key = string
  type KeyOf = Field -> Key

  datatype Reason = Rejected | Detected

  datatype Entry = Entry(fieldKey: Key, expiresAt: int, reason: Reason)

  function Duration(r: Reason): int {
    if r.Rejected? then 60_000 else 30_000
  }

  datatype Registry = Registry(weak: map<Field, Entry>, persistent: map<Key, Entry>)

  const EMPTY := Registry(map[], map[])

  /** Gone: nothing refers to the element any more, so nobody can ask for it and the weak cache may forget it. */
  datatype Op =
    | Lookup(field: Field)
    | Mark(field: Field, reason: Reason)
    | Cleanup
    | Forget(field: Field)
    | Gone(field: Field)

  /** An operation and the time it runs at. */
  datatype Call = Call(op: Op, now: int)

  predicate Valid(e: Entry, now: int) {
    e.expiresAt > now
  }

  predicate Hit<K>(m: map<K, Entry>, k: K, now: int) {
    k in m && Valid(m[k], now)
  }

  function Live(m: map<Key, Entry>, now: int): map<Key, Entry> {
    map k | k in m && Valid(m[k], now) :: m[k]
  }

  function Step(r: Registry, c: Call, key: KeyOf): Registry {
    match c.op
    case Lookup(f) =>
      if Hit(r.weak, f, c.now) then r
      else if Hit(r.persistent, key(f), c.now) then r.(weak := r.weak[f := r.persistent[key(f)]])
      else r.(persistent := r.persistent - {key(f)})
    case Mark(f, reason) =>
      var e := Entry(key(f), c.now + Duration(reason), reason);
      Registry(r.weak[f := e], r.persistent[key(f) := e])
    case Cleanup => r.(persistent := Live(r.persistent, c.now))
    case Forget(f) => Registry(r.weak - {f}, r.persistent - {key(f)})
    case Gone(f) => r.(weak := r.weak - {f})
  }

  predicate InCooldown(r: Registry, f: Field, now: int, key: KeyOf) {
    Hit(r.weak, f, now) || Hit(r.persistent, key(f), now)
  }

  /** What the lookups answer, in order. */
  function Answers(r: Registry, calls: seq<Call>, key: KeyOf): seq<bool>
    decreases |calls|
  {
    if calls == [] then [] else
      var c := calls[0];
      (if c.op.Lookup? then [InCooldown(r, c.op.field, c.now, key)] else [])
        + Answers(Step(r, c, key), calls[1..], key)
  }

  // ------------------------------------------------------------------ the slow form

  /** One table: field key to the time its cooldown ends. */
  type Table = map<Key, int>

  function TableStep(t: Table, c: Call, key: KeyOf): Table {
    match c.op
    case Mark(f, reason) => t[key(f) := c.now + Duration(reason)]
    case Forget(f) => t - {key(f)}
    case Lookup(_) => t
    case Cleanup => t
    case Gone(_) => t
  }

  predicate TableSays(t: Table, f: Field, now: int, key: KeyOf) {
    key(f) in t && t[key(f)] > now
  }

  function TableAnswers(t: Table, calls: seq<Call>, key: KeyOf): seq<bool>
    decreases |calls|
  {
    if calls == [] then [] else
      var c := calls[0];
      (if c.op.Lookup? then [TableSays(t, c.op.field, c.now, key)] else [])
        + TableAnswers(TableStep(t, c, key), calls[1..], key)
  }

  /** The clock does not run backwards. */
  ghost predicate Ordered(calls: seq<Call>, start: int)
    decreases |calls|
  {
    calls == [] || (start <= calls[0].now && Ordered(calls[1..], calls[0].now))
  }

  /** Two elements with one key are never in use at the same time: the first is gone before the second comes. */
  ghost predicate OneElementPerKey(present: set<Field>, calls: seq<Call>, key: KeyOf)
    decreases |calls|
  {
    calls == [] ||
    var op := calls[0].op;
    AloneWithKey(present, op, key) && OneElementPerKey(Present(present, op), calls[1..], key)
  }

  ghost predicate AloneWithKey(present: set<Field>, op: Op, key: KeyOf) {
    op.Cleanup? || op.Gone? || forall g :: g in present && g != op.field ==> key(g) != key(op.field)
  }

  function Present(present: set<Field>, op: Op): set<Field> {
    if op.Cleanup? then present else if op.Gone? then present - {op.field} else present + {op.field}
  }

  // ------------------------------------------------------------------ refinement

  /**
   * The table holds what the persistent cache holds, up to what has expired; valid weak entries are those of their key.
   */
  ghost predicate Related(r: Registry, t: Table, present: set<Field>, now: int, key: KeyOf) {
    && r.weak.Keys <= present
    && (forall f, g :: f in present && g in present && f != g ==> key(f) != key(g))
    && (forall k :: Hit(r.persistent, k, now) <==> k in t && t[k] > now)
    && (forall k :: Hit(r.persistent, k, now) ==> r.persistent[k].expiresAt == t[k])
    && (forall f :: Hit(r.weak, f, now) ==> key(f) in t && t[key(f)] == r.weak[f].expiresAt)
  }

  lemma AgeRelated(r: Registry, t: Table, present: set<Field>, now: int, later: int, key: KeyOf)
    requires Related(r, t, present, now, key) && now <= later
    ensures Related(r, t, present, later, key)
  {
    assert forall k :: Hit(r.persistent, k, later) ==> Hit(r.persistent, k, now);
    assert forall f :: Hit(r.weak, f, later) ==> Hit(r.weak, f, now);
    assert forall k :: k in t && t[k] > later ==> Hit(r.persistent, k, now);
  }

  lemma StepRelated(r: Registry, t: Table, present: set<Field>, c: Call, key: KeyOf)
    requires Related(r, t, present, c.now, key) && AloneWithKey(present, c.op, key)
    ensures Related(Step(r, c, key), TableStep(t, c, key), Present(present, c.op), c.now, key)
    ensures c.op.Lookup? ==> InCooldown(r, c.op.field, c.now, key) == TableSays(t, c.op.field, c.now, key)
  {
    if c.op.Cleanup? {
      LiveHits(r.persistent, c.now);
    } else if c.op.Mark? {
      MarkRelated(r, t, present, c, key);
    }
  }

  lemma MarkRelated(r: Registry, t: Table, present: set<Field>, c: Call, key: KeyOf)
    requires Related(r, t, present, c.now, key) && AloneWithKey(present, c.op, key) && c.op.Mark?
    ensures Related(Step(r, c, key), TableStep(t, c, key), Present(present, c.op), c.now, key)
  {
  }

  /** The two-level cache answers as the one table does. */
  lemma {:induction false} RefinesTable(r: Registry, t: Table, present: set<Field>, start: int, calls: seq<Call>,
      key: KeyOf)
    requires Related(r, t, present, start, key) && Ordered(calls, start) && OneElementPerKey(present, calls, key)
    ensures Answers(r, calls, key) == TableAnswers(t, calls, key)
    decreases |calls|
  {
    if calls != [] {
      var c := calls[0];
      AgeRelated(r, t, present, start, c.now, key);
      StepRelated(r, t, present, c, key);
      RefinesTable(Step(r, c, key), TableStep(t, c, key), Present(present, c.op), c.now, calls[1..], key);
    }
  }

  /** From the start: a replaced element goes on where the one before it left off. */
  lemma RegistryRefinesTable(calls: seq<Call>, key: KeyOf)
    requires Ordered(calls, 0) && OneElementPerKey({}, calls, key)
    ensures Answers(EMPTY, calls, key) == TableAnswers(map[], calls, key)
  {
    RefinesTable(EMPTY, map[], {}, 0, calls, key);
  }

  // ------------------------------------------------------------------ what a lookup answers

  predicate Touches(op: Op, k: Key, key: KeyOf) {
    (op.Mark? || op.Forget?) && key(op.field) == k
  }

  /** The last call that marked or forgot an element with the key. */
  ghost predicate LastTouch(calls: seq<Call>, i: nat, k: Key, key: KeyOf) {
    && i < |calls| && Touches(calls[i].op, k, key)
    && forall j :: i < j < |calls| ==> !Touches(calls[j].op, k, key)
  }

  function TableAfter(t: Table, calls: seq<Call>, key: KeyOf): Table
    decreases |calls|
  {
    if calls == [] then t else TableAfter(TableStep(t, calls[0], key), calls[1..], key)
  }

  lemma {:induction false} UntouchedStays(t: Table, calls: seq<Call>, k: Key, key: KeyOf)
    requires forall j :: 0 <= j < |calls| ==> !Touches(calls[j].op, k, key)
    ensures k in TableAfter(t, calls, key) <==> k in t
    ensures k in t ==> TableAfter(t, calls, key)[k] == t[k]
    decreases |calls|
  {
    if calls != [] {
      assert !Touches(calls[0].op, k, key);
      UntouchedStays(TableStep(t, calls[0], key), calls[1..], k, key);
    }
  }

  lemma {:induction false} LastTouchCounts(t: Table, calls: seq<Call>, i: nat, k: Key, key: KeyOf)
    requires LastTouch(calls, i, k, key)
    ensures k in TableAfter(t, calls, key) <==> calls[i].op.Mark?
    ensures calls[i].op.Mark? ==>
      TableAfter(t, calls, key)[k] == calls[i].now + (if calls[i].op.reason.Rejected? then 60_000 else 30_000)
    decreases |calls|
  {
    if i == 0 {
      UntouchedStays(TableStep(t, calls[0], key), calls[1..], k, key);
    } else {
      LastTouchCounts(TableStep(t, calls[0], key), calls[1..], i - 1, k, key);
    }
  }

  lemma {:induction false} TableAnswersAppend(t: Table, calls: seq<Call>, more: seq<Call>, key: KeyOf)
    ensures TableAnswers(t, calls + more, key) ==
      TableAnswers(t, calls, key) + TableAnswers(TableAfter(t, calls, key), more, key)
    decreases |calls|
  {
    if calls == [] {
      assert calls + more == more;
    } else {
      hide TableStep, TableSays;
      var c, next := calls[0], TableStep(t, calls[0], key);
      var head := if c.op.Lookup? then [TableSays(t, c.op.field, c.now, key)] else [];
      TableAnswersAppend(next, calls[1..], more, key);
      assert (calls + more)[1..] == calls[1..] + more && (calls + more)[0] == c;
      assert TableAnswers(t, calls, key) == head + TableAnswers(next, calls[1..], key);
      assert TableAnswers(t, calls + more, key) == head + TableAnswers(next, calls[1..] + more, key);
    }
  }

  /** Some element with the key was marked last, and its minute, or half minute, is not over. */
  ghost predicate CoolsDown(calls: seq<Call>, k: Key, now: int, key: KeyOf) {
    exists i: nat :: LastTouch(calls, i, k, key) && calls[i].op.Mark?
      && now < calls[i].now + (if calls[i].op.reason.Rejected? then 60_000 else 30_000)
  }

  lemma {:induction false} FindLastTouch(calls: seq<Call>, k: Key, key: KeyOf) returns (i: nat)
    ensures LastTouch(calls, i, k, key) || (forall j :: 0 <= j < |calls| ==> !Touches(calls[j].op, k, key))
  {
    i := 0;
    if calls != [] {
      var last := |calls| - 1;
      if Touches(calls[last].op, k, key) {
        i := last;
      } else {
        i := FindLastTouch(calls[..last], k, key);
        if LastTouch(calls[..last], i, k, key) { assert LastTouch(calls, i, k, key); }
      }
    }
  }

  lemma TableMeans(calls: seq<Call>, f: Field, now: int, key: KeyOf)
    ensures TableSays(TableAfter(map[], calls, key), f, now, key) <==> CoolsDown(calls, key(f), now, key)
  {
    var i := FindLastTouch(calls, key(f), key);
    if LastTouch(calls, i, key(f), key) {
      LastTouchCounts(map[], calls, i, key(f), key);
      forall j: nat | LastTouch(calls, j, key(f), key) ensures j == i { OneLastTouch(calls, i, j, key(f), key); }
    } else {
      UntouchedStays(map[], calls, key(f), key);
    }
  }

  lemma OneLastTouch(calls: seq<Call>, i: nat, j: nat, k: Key, key: KeyOf)
    requires LastTouch(calls, i, k, key) && LastTouch(calls, j, k, key)
    ensures i == j
  {
  }

  /**
   * The registry itself: after any history in which no two elements share a key at once, a lookup answers yes exactly
   * when the last call that marked or forgot an element with that key was a mark, less than 60 seconds ago for a
   * rejected field, less than 30 for a detected one.
   */
  lemma LookupIff(calls: seq<Call>, f: Field, now: int, key: KeyOf)
    requires var all := calls + [Call(Lookup(f), now)]; Ordered(all, 0) && OneElementPerKey({}, all, key)
    ensures var answers := Answers(EMPTY, calls + [Call(Lookup(f), now)], key);
      answers != [] && (answers[|answers| - 1] <==> CoolsDown(calls, key(f), now, key))
  {
    var look := [Call(Lookup(f), now)];
    RegistryRefinesTable(calls + look, key);
    TableAnswersAppend(map[], calls, look, key);
    TableMeans(calls, f, now, key);
    assert look[1..] == [];
    assert TableAnswers(TableAfter(map[], calls, key), look, key) ==
      [TableSays(TableAfter(map[], calls, key), f, now, key)];
  }

  ghost predicate Injective(fields: set<Field>, key: KeyOf) {
    forall f, g :: f in fields && g in fields && f != g ==> key(f) != key(g)
  }

  /** Calls about these elements only, all of which stay. */
  ghost predicate Over(calls: seq<Call>, fields: set<Field>) {
    forall i :: 0 <= i < |calls| ==> calls[i].op.Cleanup? || (!calls[i].op.Gone? && calls[i].op.field in fields)
  }

  lemma {:induction false} InjectiveIsOneElementPerKey(fields: set<Field>, present: set<Field>, calls: seq<Call>,
      key: KeyOf)
    requires Injective(fields, key) && present <= fields && Over(calls, fields)
    ensures OneElementPerKey(present, calls, key)
    decreases |calls|
  {
    if calls != [] {
      assert calls[0].op.Cleanup? || calls[0].op.field in fields;
      InjectiveIsOneElementPerKey(fields, Present(present, calls[0].op), calls[1..], key);
    }
  }

  /** For elements that stay, the two forms agree on every history exactly when no two of them share a key. */
  lemma AgreesIffInjective(fields: set<Field>, key: KeyOf)
    ensures Injective(fields, key) <==>
      forall calls :: Over(calls, fields) && Ordered(calls, 0) ==>
        Answers(EMPTY, calls, key) == TableAnswers(map[], calls, key)
  {
    if Injective(fields, key) {
      forall calls | Over(calls, fields) && Ordered(calls, 0)
        ensures Answers(EMPTY, calls, key) == TableAnswers(map[], calls, key)
      {
        InjectiveIsOneElementPerKey(fields, {}, calls, key);
        RegistryRefinesTable(calls, key);
      }
    } else {
      var f, g :| f in fields && g in fields && f != g && key(f) == key(g);
      ForgottenByAnother(f, g, key);
      var calls := MarkForgetLook(f, g);
      assert Over(calls, fields);
    }
  }

  function MarkForgetLook(f: Field, g: Field): seq<Call> {
    [Call(Mark(f, Rejected), 0), Call(Forget(g), 0), Call(Lookup(f), 0)]
  }

  /** Forgetting an element with the same key empties the table's entry, but not the weak cache of the first. */
  lemma ForgottenByAnother(f: Field, g: Field, key: KeyOf)
    requires f != g && key(f) == key(g)
    ensures var calls := MarkForgetLook(f, g);
      Ordered(calls, 0) && Answers(EMPTY, calls, key) == [true] && TableAnswers(map[], calls, key) == [false]
  {
    var calls := MarkForgetLook(f, g);
    assert calls[1..] == [calls[1], calls[2]] && calls[1..][1..] == [calls[2]] && calls[1..][1..][1..] == [];
    assert Ordered([calls[2]], 0) && Ordered(calls[1..], 0);
    var r := Step(Step(EMPTY, calls[0], key), calls[1], key);
    var t := TableStep(TableStep(map[], calls[0], key), calls[1], key);
    assert f in r.weak && r.weak[f].expiresAt == 60_000 && key(f) !in t;
    assert Answers(r, [calls[2]], key) == [true] && TableAnswers(t, [calls[2]], key) == [false];
  }

  // ------------------------------------------------------------------ cleanup

  function WithoutCleanup(calls: seq<Call>): seq<Call> {
    if calls == [] then []
    else (if calls[0].op.Cleanup? then [] else [calls[0]]) + WithoutCleanup(calls[1..])
  }

  /** Persistent caches that differ in expired entries only. */
  ghost predicate SameHits(m: map<Key, Entry>, n: map<Key, Entry>, now: int) {
    && (forall k :: Hit(m, k, now) <==> Hit(n, k, now))
    && (forall k :: Hit(m, k, now) ==> m[k] == n[k])
  }

  ghost predicate Twins(r: Registry, s: Registry, now: int) {
    r.weak == s.weak && SameHits(r.persistent, s.persistent, now)
  }

  lemma AgeTwins(r: Registry, s: Registry, now: int, later: int)
    requires Twins(r, s, now) && now <= later
    ensures Twins(r, s, later)
  {
    assert forall k :: Hit(r.persistent, k, later) ==> Hit(r.persistent, k, now);
    assert forall k :: Hit(s.persistent, k, later) ==> Hit(s.persistent, k, now);
  }

  lemma LiveHits(m: map<Key, Entry>, now: int)
    ensures forall k :: Hit(Live(m, now), k, now) <==> Hit(m, k, now)
    ensures forall k :: Hit(m, k, now) ==> Live(m, now)[k] == m[k]
  {
  }

  lemma MinusHits(m: map<Key, Entry>, gone: Key, now: int)
    ensures forall k :: Hit(m - {gone}, k, now) <==> k != gone && Hit(m, k, now)
    ensures forall k :: Hit(m, k, now) && k != gone ==> (m - {gone})[k] == m[k]
  {
  }

  lemma PlusSameHits(m: map<Key, Entry>, n: map<Key, Entry>, at: Key, e: Entry, now: int)
    requires SameHits(m, n, now)
    ensures SameHits(m[at := e], n[at := e], now)
  {
    var m', n' := m[at := e], n[at := e];
    forall k
      ensures Hit(m', k, now) <==> Hit(n', k, now)
      ensures Hit(m', k, now) ==> m'[k] == n'[k]
    {
      if k != at { assert Hit(m, k, now) <==> Hit(n, k, now); }
    }
  }

  lemma StepTwins(r: Registry, s: Registry, c: Call, key: KeyOf)
    requires Twins(r, s, c.now)
    ensures Twins(Step(r, c, key), Step(s, c, key), c.now)
    ensures c.op.Lookup? ==> InCooldown(r, c.op.field, c.now, key) == InCooldown(s, c.op.field, c.now, key)
  {
    if c.op.Cleanup? {
      LiveHits(r.persistent, c.now);
      LiveHits(s.persistent, c.now);
    } else if c.op.Lookup? || c.op.Forget? {
      MinusHits(r.persistent, key(c.op.field), c.now);
      MinusHits(s.persistent, key(c.op.field), c.now);
    } else if c.op.Mark? {
      var e := Entry(key(c.op.field), c.now + Duration(c.op.reason), c.op.reason);
      PlusSameHits(r.persistent, s.persistent, key(c.op.field), e, c.now);
    }
  }

  lemma CleanupTwins(r: Registry, s: Registry, c: Call, key: KeyOf)
    requires Twins(r, s, c.now) && c.op.Cleanup?
    ensures Twins(Step(r, c, key), s, c.now)
  {
    LiveHits(r.persistent, c.now);
  }

  /** Leaving the cleanups out changes no answer, whether or not keys are shared. */
  lemma {:induction false} CleanupUnobservable(r: Registry, s: Registry, start: int, calls: seq<Call>, key: KeyOf)
    requires Twins(r, s, start) && Ordered(calls, start)
    ensures Answers(r, calls, key) == Answers(s, WithoutCleanup(calls), key)
    decreases |calls|
  {
    if calls != [] {
      var c, rest := calls[0], WithoutCleanup(calls[1..]);
      AgeTwins(r, s, start, c.now);
      if c.op.Cleanup? {
        CleanupTwins(r, s, c, key);
        CleanupUnobservable(Step(r, c, key), s, c.now, calls[1..], key);
        assert WithoutCleanup(calls) == rest;
      } else {
        StepTwins(r, s, c, key);
        CleanupUnobservable(Step(r, c, key), Step(s, c, key), c.now, calls[1..], key);
        assert WithoutCleanup(calls)[1..] == rest;
      }
    }
  }

  // ------------------------------------------------------------------ the object

  class CooldownRegistry {
    const generateFieldKey: KeyOf
    var weakCache: map<Field, Entry>
    var persistentCache: map<Key, Entry>

    ghost function State(): Registry
      reads this
    {
      Registry(weakCache, persistentCache)
    }

    constructor (generateFieldKey: KeyOf)
      ensures State() == EMPTY && this.generateFieldKey == generateFieldKey
    {
      this.generateFieldKey := generateFieldKey;
      weakCache, persistentCache := map[], map[];
    }

    method IsInCooldown(field: Field, now: int) returns (r: bool)
      modifies this
      ensures r == InCooldown(old(State()), field, now, generateFieldKey)
      ensures State() == Step(old(State()), Call(Lookup(field), now), generateFieldKey)
    {
      if field in weakCache && weakCache[field].expiresAt > now { return true; }
      var fieldKey := generateFieldKey(field);
      if fieldKey !in persistentCache {
        assert persistentCache == persistentCache - {fieldKey};
        return false;
      }
      var entry := persistentCache[fieldKey];
      if entry.expiresAt > now {
        weakCache := weakCache[field := entry];
        return true;
      }
      persistentCache := persistentCache - {fieldKey};
      return false;
    }

    method StoreEntry(field: Field, reason: Reason, now: int)
      modifies this
      ensures State() == Step(old(State()), Call(Mark(field, reason), now), generateFieldKey)
    {
      var entry := Entry(generateFieldKey(field), now + Duration(reason), reason);
      weakCache := weakCache[field := entry];
      persistentCache := persistentCache[entry.fieldKey := entry];
    }

    method FindExpired(now: int) returns (toDelete: seq<Key>)
      ensures forall k :: k in toDelete <==> k in persistentCache && !Valid(persistentCache[k], now)
    {
      toDelete := [];
      var rest := persistentCache.Keys;
      while rest != {}
        invariant rest <= persistentCache.Keys
        invariant forall k :: k in toDelete <==> k in persistentCache && k !in rest && !Valid(persistentCache[k], now)
        decreases |rest|
      {
        var key :| key in rest;
        if persistentCache[key].expiresAt <= now { toDelete := toDelete + [key]; }
        rest := rest - {key};
      }
    }

    method CleanUp(now: int)
      modifies this
      ensures State() == Step(old(State()), Call(Cleanup, now), generateFieldKey)
    {
      var toDelete := FindExpired(now);
      for i := 0 to |toDelete|
        invariant weakCache == old(weakCache)
        invariant persistentCache == old(persistentCache) - (set k | k in toDelete[..i])
      {
        assert toDelete[..i + 1] == toDelete[..i] + [toDelete[i]];
        persistentCache := persistentCache - {toDelete[i]};
      }
      assert toDelete[..|toDelete|] == toDelete;
    }

    method ForgetField(field: Field)
      modifies this
      ensures State() == Step(old(State()), Call(Forget(field), 0), generateFieldKey)
    {
      weakCache := weakCache - {field};
      persistentCache := persistentCache - {generateFieldKey(field)};
    }
  }
}
