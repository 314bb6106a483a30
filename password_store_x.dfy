/**
 * A password store that prefers a native (desktop keyring) backend and falls
 * back to the default, database-backed store. Three pieces of state drive it:
 * whether a native backend is present, whether the one-shot migration from the
 * default store has been checked, and a latch that allows one fallback while
 * the native backend has not yet proved that it works.
 *
 * The native backend and the default store are collaborators whose answers
 * are parameters of each operation.
 */
module PasswordStoreX {
  import opened Wrappers
  import opened LoginOrder

  datatype ChangeType = Add | Update | Remove

  datatype PasswordStoreChange = PasswordStoreChange(kind: ChangeType, form: PasswordForm)

  type ChangeList = seq<PasswordStoreChange>

  /** An add reached the native backend when it reported a change list ending in an ADD. */
  predicate AddLoginToBackend(changes: ChangeList) {
    |changes| > 0 && changes[|changes| - 1].kind == Add
  }

  // ---------------------------------------------------------------------------
  // Abstract state and its transitions

  datatype StoreState = StoreState(hasBackend: bool, migrationChecked: bool, allowFallback: bool)

  /** The latch is only ever set after migration with a backend; losing the backend implies migration was checked. */
  predicate Valid(s: StoreState) {
    && (s.allowFallback ==> s.hasBackend && s.migrationChecked)
    && (!s.hasBackend ==> s.migrationChecked)
  }

  function Initial(hasBackend: bool): (s: StoreState)
    ensures Valid(s)
    ensures s.hasBackend == hasBackend
    ensures s.migrationChecked <==> !s.hasBackend
    ensures !s.allowFallback
  {
    StoreState(hasBackend, !hasBackend, false)
  }

  /** What the default store and the native backend answer during migration. */
  datatype MigrationEnv = MigrationEnv(
    autofillable: Option<seq<PasswordForm>>,  // FillAutofillableLogins, None on failure
    blacklist: Option<seq<PasswordForm>>,     // FillBlacklistLogins, None on failure
    nativeAddResults: seq<ChangeList>)        // the native AddLogin answer to the i-th add

  function NativeAddResult(env: MigrationEnv, i: nat): ChangeList {
    if i < |env.nativeAddResults| then env.nativeAddResults[i] else []
  }

  /** The forms to migrate: both fills must succeed; the blacklist is appended after the autofillable logins. */
  function MigrationForms(env: MigrationEnv): Option<seq<PasswordForm>> {
    if env.autofillable.Some? && env.blacklist.Some? then
      Some(env.autofillable.value + env.blacklist.value)
    else
      None
  }

  /** The index of the first native add that fails, or `n` when the first `n` all succeed. */
  function FirstFailedAdd(env: MigrationEnv, n: nat): (k: nat)
    ensures k <= n
    ensures forall i :: 0 <= i < k ==> AddLoginToBackend(NativeAddResult(env, i))
    ensures k < n ==> !AddLoginToBackend(NativeAddResult(env, k))
  {
    if n == 0 then 0
    else
      var k := FirstFailedAdd(env, n - 1);
      if k < n - 1 then k
      else if AddLoginToBackend(NativeAddResult(env, n - 1)) then n else n - 1
  }

  /** What MigrateLogins returns: the number of forms moved, or -1. */
  function MigrationCount(env: MigrationEnv): int {
    match MigrationForms(env)
    case None => -1
    case Some(forms) => if FirstFailedAdd(env, |forms|) < |forms| then -1 else |forms|
  }

  /** A call made to a collaborator during migration. */
  datatype StoreCall =
    | DefaultFillAutofillable
    | DefaultFillBlacklist
    | NativeAdd(form: PasswordForm)
    | DefaultRemove(form: PasswordForm)
    | DeleteAndRecreateDatabase

  function NativeAdds(forms: seq<PasswordForm>): (calls: seq<StoreCall>)
    ensures |calls| == |forms|
    ensures forall i :: 0 <= i < |forms| ==> calls[i] == NativeAdd(forms[i])
  {
    if forms == [] then [] else NativeAdds(forms[..|forms| - 1]) + [NativeAdd(forms[|forms| - 1])]
  }

  function DefaultRemoves(forms: seq<PasswordForm>): (calls: seq<StoreCall>)
    ensures |calls| == |forms|
    ensures forall i :: 0 <= i < |forms| ==> calls[i] == DefaultRemove(forms[i])
  {
    if forms == [] then [] else DefaultRemoves(forms[..|forms| - 1]) + [DefaultRemove(forms[|forms| - 1])]
  }

  function FillCalls(env: MigrationEnv): seq<StoreCall> {
    [DefaultFillAutofillable] + if env.autofillable.Some? then [DefaultFillBlacklist] else []
  }

  /** The calls MigrateLogins makes, in order. */
  function MigrationCalls(env: MigrationEnv): seq<StoreCall> {
    match MigrationForms(env)
    case None => FillCalls(env)
    case Some(forms) =>
      var k := FirstFailedAdd(env, |forms|);
      if k < |forms| then FillCalls(env) + NativeAdds(forms[..k + 1])
      else FillCalls(env) + NativeAdds(forms) + DefaultRemoves(forms) + [DeleteAndRecreateDatabase]
  }

  /** The effect of a migration that returned `migrated` (migration_checked_ is set beforehand). */
  function MigrationOutcome(s: StoreState, migrated: int): StoreState {
    if migrated > 0 then s
    else if migrated == 0 then s.(allowFallback := true)
    else s.(hasBackend := false)
  }

  /** CheckMigration: migrate once, and only while a backend is present. */
  function AfterCheck(s: StoreState, env: MigrationEnv): StoreState {
    if s.migrationChecked || !s.hasBackend then s
    else MigrationOutcome(s.(migrationChecked := true), MigrationCount(env))
  }

  /** allow_default_store: spend the latch by dropping the backend; answer whether the backend is gone. */
  function AllowDefault(s: StoreState): (StoreState, bool) {
    var t := if s.allowFallback then s.(hasBackend := false, allowFallback := false) else s;
    (t, !t.hasBackend)
  }

  /** Which store served an operation; NoStore when the native one failed and fallback was not allowed. */
  datatype Route = NativeStore | DefaultStore | NoStore

  /**
   * Every operation: check migration, try the native backend when present; on
   * success clear the latch when `clearsLatch`, otherwise consult allow_default_store.
   * Writes always clear the latch on success; reads only when they returned data.
   */
  function Dispatch(s: StoreState, env: MigrationEnv, nativeOk: bool, clearsLatch: bool): (StoreState, Route) {
    var s1 := AfterCheck(s, env);
    if s1.hasBackend && nativeOk then
      (if clearsLatch then s1.(allowFallback := false) else s1, NativeStore)
    else
      var (s2, useDefault) := AllowDefault(s1);
      (s2, if useDefault then DefaultStore else NoStore)
  }

  // ---------------------------------------------------------------------------
  // Properties of the state machine

  /** Every operation keeps the state invariant and leaves migration checked. */
  lemma DispatchKeepsValid(s: StoreState, env: MigrationEnv, nativeOk: bool, clearsLatch: bool)
    requires Valid(s)
    ensures Valid(Dispatch(s, env, nativeOk, clearsLatch).0)
    ensures Dispatch(s, env, nativeOk, clearsLatch).0.migrationChecked
  {
  }

  /** Migration runs at most once: after any operation, a later check changes nothing. */
  lemma MigrationAtMostOnce(s: StoreState, env: MigrationEnv, nativeOk: bool, clearsLatch: bool, later: MigrationEnv)
    requires Valid(s)
    ensures var t := Dispatch(s, env, nativeOk, clearsLatch).0; AfterCheck(t, later) == t
  {
  }

  /** The three outcomes of the migration check. */
  lemma CheckMigrationOutcomes(s: StoreState, env: MigrationEnv)
    requires !s.migrationChecked && s.hasBackend
    ensures AfterCheck(s, env).migrationChecked
    ensures MigrationCount(env) > 0 ==> AfterCheck(s, env) == s.(migrationChecked := true)
    ensures MigrationCount(env) == 0 ==> AfterCheck(s, env) == s.(migrationChecked := true, allowFallback := true)
    ensures MigrationCount(env) < 0 ==> AfterCheck(s, env) == s.(migrationChecked := true, hasBackend := false)
  {
  }

  /** allow_default_store answers true exactly when the backend is gone afterwards, and never leaves the latch set. */
  lemma AllowDefaultSpendsLatch(s: StoreState)
    ensures AllowDefault(s).1 <==> !AllowDefault(s).0.hasBackend
    ensures !AllowDefault(s).0.allowFallback
    ensures s.allowFallback ==> AllowDefault(s).1
    ensures !s.allowFallback ==> AllowDefault(s).0 == s
  {
  }

  /** Once the native backend has been dropped it never comes back. */
  lemma BackendNeverReturns(s: StoreState, env: MigrationEnv, nativeOk: bool, clearsLatch: bool)
    requires Valid(s) && !s.hasBackend
    ensures Dispatch(s, env, nativeOk, clearsLatch) == (s, DefaultStore)
  {
  }

  /**
   * A native success clears the latch for writes and for reads that returned data,
   * and leaves it alone for an empty read. A native failure is served by the
   * default store exactly when allow_default_store says so.
   */
  lemma DispatchRoutes(s: StoreState, env: MigrationEnv, nativeOk: bool, clearsLatch: bool)
    ensures var s1 := AfterCheck(s, env);
            var (t, route) := Dispatch(s, env, nativeOk, clearsLatch);
            && (route == NativeStore <==> s1.hasBackend && nativeOk)
            && (route == NativeStore && clearsLatch ==> !t.allowFallback)
            && (route == NativeStore && !clearsLatch ==> t == s1)
            && (route != NativeStore ==> (t, route == DefaultStore) == AllowDefault(s1))
  {
  }

  // ---------------------------------------------------------------------------
  // Properties of the migration

  /** Every add to the native backend happens before any remove from the default store. */
  lemma {:induction false} MigrationAddsBeforeRemoves(env: MigrationEnv)
    ensures var calls := MigrationCalls(env);
      forall i, j :: 0 <= i < |calls| && 0 <= j < |calls| && calls[i].NativeAdd? && calls[j].DefaultRemove? ==> i < j
  {
    var calls := MigrationCalls(env);
    match MigrationForms(env)
    case None =>
    case Some(forms) =>
      var k := FirstFailedAdd(env, |forms|);
      var f := FillCalls(env);
      if k < |forms| {
        assert forall j :: 0 <= j < |calls| ==> !calls[j].DefaultRemove? by {
          forall j | 0 <= j < |calls| ensures !calls[j].DefaultRemove? {
            if j >= |f| { assert calls[j] == NativeAdds(forms[..k + 1])[j - |f|]; }
          }
        }
      } else {
        var adds := NativeAdds(forms);
        var removes := DefaultRemoves(forms);
        assert calls == f + adds + removes + [DeleteAndRecreateDatabase];
      }
  }

  /** A failed migration reports -1 and removes nothing from the default store. */
  lemma MigrationFailureRemovesNothing(env: MigrationEnv)
    requires MigrationCount(env) < 0
    ensures MigrationCount(env) == -1
    ensures forall c :: c in MigrationCalls(env) ==> !c.DefaultRemove? && c != DeleteAndRecreateDatabase
  {
    match MigrationForms(env)
    case None =>
    case Some(forms) =>
      var k := FirstFailedAdd(env, |forms|);
      var adds := NativeAdds(forms[..k + 1]);
      forall c | c in adds ensures c.NativeAdd? {
        var i :| 0 <= i < |adds| && adds[i] == c;
      }
  }

  /** A successful migration reports the form count; every form was added, then removed. */
  lemma MigrationSuccessMovesEveryForm(env: MigrationEnv)
    requires MigrationCount(env) >= 0
    ensures MigrationForms(env).Some?
    ensures MigrationCount(env) == |MigrationForms(env).value|
    ensures forall f :: f in MigrationForms(env).value ==>
      NativeAdd(f) in MigrationCalls(env) && DefaultRemove(f) in MigrationCalls(env)
  {
    var forms := MigrationForms(env).value;
    var calls := MigrationCalls(env);
    var f := FillCalls(env);
    var adds := NativeAdds(forms);
    var removes := DefaultRemoves(forms);
    assert calls == f + adds + removes + [DeleteAndRecreateDatabase];
    forall x | x in forms
      ensures NativeAdd(x) in calls && DefaultRemove(x) in calls
    {
      var i :| 0 <= i < |forms| && forms[i] == x;
      assert calls[|f| + i] == adds[i];
      assert calls[|f| + |adds| + i] == removes[i];
    }
  }

  // ---------------------------------------------------------------------------
  // The two loops of the migration

  /** Adds the forms to the native backend in order, stopping after the first add that fails. */
  method AddAllToNative(env: MigrationEnv, forms: seq<PasswordForm>) returns (ok: bool, calls: seq<StoreCall>)
    ensures ok <==> FirstFailedAdd(env, |forms|) == |forms|
    ensures ok ==> calls == NativeAdds(forms)
    ensures !ok ==> calls == NativeAdds(forms[..FirstFailedAdd(env, |forms|) + 1])
  {
    calls := [];
    var i := 0;
    while i < |forms|
      invariant 0 <= i <= |forms|
      invariant forall j :: 0 <= j < i ==> AddLoginToBackend(NativeAddResult(env, j))
      invariant calls == NativeAdds(forms[..i])
    {
      assert forms[..i + 1][..i] == forms[..i];
      calls := calls + [NativeAdd(forms[i])];
      if !AddLoginToBackend(NativeAddResult(env, i)) {
        return false, calls;
      }
      i := i + 1;
    }
    assert forms[..i] == forms;
    ok := true;
  }

  /** Removes every form from the default store, in order. */
  method RemoveAllFromDefault(forms: seq<PasswordForm>) returns (calls: seq<StoreCall>)
    ensures calls == DefaultRemoves(forms)
  {
    calls := [];
    var r := 0;
    while r < |forms|
      invariant 0 <= r <= |forms|
      invariant calls == DefaultRemoves(forms[..r])
    {
      assert forms[..r + 1][..r] == forms[..r];
      calls := calls + [DefaultRemove(forms[r])];
      r := r + 1;
    }
    assert forms[..r] == forms;
  }

  // ---------------------------------------------------------------------------
  // The store

  /** What a native read reported: success, and the forms it left in the output vector. */
  datatype NativeRead = NativeRead(ok: bool, forms: seq<PasswordForm>)

  /** What a native write reported: success, and the changes it left in the output list. */
  datatype NativeWrite = NativeWrite(ok: bool, changes: ChangeList)

  class Store {
    var hasBackend: bool
    var migrationChecked: bool
    var allowFallback: bool

    function State(): StoreState
      reads this
    {
      StoreState(hasBackend, migrationChecked, allowFallback)
    }

    constructor (nativeBackendPresent: bool)
      ensures State() == Initial(nativeBackendPresent)
    {
      hasBackend := nativeBackendPresent;
      migrationChecked := !nativeBackendPresent;
      allowFallback := false;
    }

    /**
     * Copies the default store's logins into the native backend, all adds
     * first; only if every add succeeded are they removed from the default store
     * and its database file recreated. Returns the count, or -1.
     */
    method MigrateLogins(env: MigrationEnv) returns (result: int, calls: seq<StoreCall>)
      requires hasBackend
      ensures result == MigrationCount(env)
      ensures calls == MigrationCalls(env)
    {
      calls := [DefaultFillAutofillable];
      var forms: seq<PasswordForm> := [];
      var ok := env.autofillable.Some?;
      if ok {
        forms := env.autofillable.value;
        calls := calls + [DefaultFillBlacklist];
        ok := env.blacklist.Some?;
        if ok {
          forms := forms + env.blacklist.value;
        }
      }
      assert calls == FillCalls(env);
      if ok {
        assert MigrationForms(env) == Some(forms);
        var adds;
        ok, adds := AddAllToNative(env, forms);
        calls := calls + adds;
        if ok {
          var removes := RemoveAllFromDefault(forms);
          calls := calls + removes + [DeleteAndRecreateDatabase];
        }
      }
      result := if ok then |forms| else -1;
    }

    method CheckMigration(env: MigrationEnv)
      modifies this
      ensures State() == AfterCheck(old(State()), env)
    {
      if migrationChecked || !hasBackend {
        return;
      }
      migrationChecked := true;
      var migrated, _ := MigrateLogins(env);
      if migrated > 0 {
      } else if migrated == 0 {
        allowFallback := true;
      } else {
        hasBackend := false;
      }
    }

    method AllowDefaultStore() returns (useDefault: bool)
      modifies this
      ensures (State(), useDefault) == AllowDefault(old(State()))
    {
      if allowFallback {
        hasBackend := false;
        allowFallback := false;
      }
      useDefault := !hasBackend;
    }

    /** The shared shape of every write: native first, then the default store if allowed. */
    method Write(env: MigrationEnv, native: NativeWrite, fromDefault: ChangeList) returns (route: Route)
      modifies this
      ensures (State(), route) == Dispatch(old(State()), env, native.ok, true)
    {
      CheckMigration(env);
      if hasBackend && native.ok {
        allowFallback := false;
        route := NativeStore;
      } else {
        var useDefault := AllowDefaultStore();
        route := if useDefault then DefaultStore else NoStore;
      }
    }

    /**
     * AddLoginImpl. The native answer is also what a failed add leaves in the
     * change list, which is returned as is when no fallback is allowed.
     */
    method AddLoginImpl(form: PasswordForm, env: MigrationEnv, nativeAdded: ChangeList, fromDefault: ChangeList)
      returns (changes: ChangeList)
      modifies this
      ensures var (s, route) := Dispatch(old(State()), env, AddLoginToBackend(nativeAdded), true);
        && State() == s
        && changes == (match route
                       case NativeStore => nativeAdded
                       case DefaultStore => fromDefault
                       case NoStore => nativeAdded)
    {
      ghost var s0 := State();
      CheckMigration(env);
      changes := [];
      if hasBackend {
        changes := nativeAdded;
      }
      if hasBackend && AddLoginToBackend(changes) {
        allowFallback := false;
      } else {
        var useDefault := AllowDefaultStore();
        if useDefault {
          changes := fromDefault;
        }
      }
    }

    /** UpdateLoginImpl: as AddLoginImpl, with the backend's own success flag. */
    method UpdateLoginImpl(form: PasswordForm, env: MigrationEnv, native: NativeWrite, fromDefault: ChangeList)
      returns (changes: ChangeList)
      modifies this
      ensures var (s, route) := Dispatch(old(State()), env, native.ok, true);
        && State() == s
        && changes == (match route
                       case NativeStore => native.changes
                       case DefaultStore => fromDefault
                       case NoStore => native.changes)
    {
      var route := Write(env, native, fromDefault);
      changes := match route
        case NativeStore => native.changes
        case DefaultStore => fromDefault
        case NoStore => native.changes;
    }

    /** RemoveLoginImpl: a native success reports exactly one REMOVE of the form; a refused fallback reports nothing. */
    method RemoveLoginImpl(form: PasswordForm, env: MigrationEnv, nativeRemoved: bool, fromDefault: ChangeList)
      returns (changes: ChangeList)
      modifies this
      ensures var (s, route) := Dispatch(old(State()), env, nativeRemoved, true);
        && State() == s
        && changes == (match route
                       case NativeStore => [PasswordStoreChange(Remove, form)]
                       case DefaultStore => fromDefault
                       case NoStore => [])
    {
      var route := Write(env, NativeWrite(nativeRemoved, []), fromDefault);
      changes := match route
        case NativeStore => [PasswordStoreChange(Remove, form)]
        case DefaultStore => fromDefault
        case NoStore => [];
    }

    /** RemoveLoginsCreatedBetweenImpl; the time range only matters to the collaborators. */
    method RemoveLoginsCreatedBetweenImpl(deleteBegin: int, deleteEnd: int, env: MigrationEnv,
                                          native: NativeWrite, fromDefault: ChangeList)
      returns (changes: ChangeList)
      modifies this
      ensures var (s, route) := Dispatch(old(State()), env, native.ok, true);
        && State() == s
        && changes == (if route == DefaultStore then fromDefault else native.changes)
    {
      var route := Write(env, native, fromDefault);
      changes := if route == DefaultStore then fromDefault else native.changes;
    }

    /** RemoveLoginsSyncedBetweenImpl; the same shape as the created-between removal. */
    method RemoveLoginsSyncedBetweenImpl(deleteBegin: int, deleteEnd: int, env: MigrationEnv,
                                         native: NativeWrite, fromDefault: ChangeList)
      returns (changes: ChangeList)
      modifies this
      ensures var (s, route) := Dispatch(old(State()), env, native.ok, true);
        && State() == s
        && changes == (if route == DefaultStore then fromDefault else native.changes)
    {
      var route := Write(env, native, fromDefault);
      changes := if route == DefaultStore then fromDefault else native.changes;
    }

    /**
     * The shared shape of the three asynchronous reads: a native success is
     * sorted by origin and clears the latch only when it found something; a
     * native failure defers to the default store when allowed, and otherwise
     * replies with whatever the backend left behind.
     */
    method Read(env: MigrationEnv, native: NativeRead, fromDefault: seq<PasswordForm>)
      returns (route: Route, reply: seq<PasswordForm>)
      modifies this
      ensures (State(), route) == Dispatch(old(State()), env, native.ok, |native.forms| > 0)
      ensures route == NativeStore ==>
        SortedByOrigin(reply) && multiset(reply) == multiset(native.forms)
      ensures route == DefaultStore ==> reply == fromDefault
      ensures route == NoStore ==> reply == native.forms
    {
      CheckMigration(env);
      if hasBackend && native.ok {
        var a := new PasswordForm[|native.forms|](i requires 0 <= i < |native.forms| => native.forms[i]);
        assert a[..] == native.forms;
        SortLoginsByOrigin(a);
        reply := a[..];
        if |reply| > 0 {
          allowFallback := false;
        }
        route := NativeStore;
      } else {
        var useDefault := AllowDefaultStore();
        if useDefault {
          route, reply := DefaultStore, fromDefault;
        } else {
          route, reply := NoStore, native.forms;
        }
      }
    }

    /** GetLoginsImpl: the forms handed to the consumer (or to the default store's reply). */
    method GetLoginsImpl(form: PasswordForm, env: MigrationEnv, native: NativeRead, fromDefault: seq<PasswordForm>)
      returns (route: Route, reply: seq<PasswordForm>)
      modifies this
      ensures (State(), route) == Dispatch(old(State()), env, native.ok, |native.forms| > 0)
      ensures route == NativeStore ==>
        SortedByOrigin(reply) && multiset(reply) == multiset(native.forms)
      ensures route == DefaultStore ==> reply == fromDefault
      ensures route == NoStore ==> reply == native.forms
    {
      route, reply := Read(env, native, fromDefault);
    }

    method GetAutofillableLoginsImpl(env: MigrationEnv, native: NativeRead, fromDefault: seq<PasswordForm>)
      returns (route: Route, reply: seq<PasswordForm>)
      modifies this
      ensures (State(), route) == Dispatch(old(State()), env, native.ok, |native.forms| > 0)
      ensures route == NativeStore ==>
        SortedByOrigin(reply) && multiset(reply) == multiset(native.forms)
      ensures route == DefaultStore ==> reply == fromDefault
      ensures route == NoStore ==> reply == native.forms
    {
      route, reply := Read(env, native, fromDefault);
    }

    method GetBlacklistLoginsImpl(env: MigrationEnv, native: NativeRead, fromDefault: seq<PasswordForm>)
      returns (route: Route, reply: seq<PasswordForm>)
      modifies this
      ensures (State(), route) == Dispatch(old(State()), env, native.ok, |native.forms| > 0)
      ensures route == NativeStore ==>
        SortedByOrigin(reply) && multiset(reply) == multiset(native.forms)
      ensures route == DefaultStore ==> reply == fromDefault
      ensures route == NoStore ==> reply == native.forms
    {
      route, reply := Read(env, native, fromDefault);
    }

    /**
     * The synchronous fill used by the default store's callers: a native success
     * returns true with the forms unsorted; otherwise the default store's answer
     * when allowed, else false with what the backend left.
     */
    method Fill(env: MigrationEnv, native: NativeRead, fromDefault: Option<seq<PasswordForm>>)
      returns (ok: bool, forms: seq<PasswordForm>)
      modifies this
      ensures var (s, route) := Dispatch(old(State()), env, native.ok, |native.forms| > 0);
        && State() == s
        && (route == NativeStore ==> ok && forms == native.forms)
        && (route == DefaultStore ==> ok == fromDefault.Some? && (ok ==> forms == fromDefault.value))
        && (route == NoStore ==> !ok && forms == native.forms)
    {
      CheckMigration(env);
      if hasBackend && native.ok {
        if |native.forms| > 0 {
          allowFallback := false;
        }
        return true, native.forms;
      }
      var useDefault := AllowDefaultStore();
      if useDefault {
        return fromDefault.Some?, fromDefault.GetOr([]);
      }
      return false, native.forms;
    }

    method FillAutofillableLogins(env: MigrationEnv, native: NativeRead, fromDefault: Option<seq<PasswordForm>>)
      returns (ok: bool, forms: seq<PasswordForm>)
      modifies this
      ensures var (s, route) := Dispatch(old(State()), env, native.ok, |native.forms| > 0);
        && State() == s
        && (route == NativeStore ==> ok && forms == native.forms)
        && (route == DefaultStore ==> ok == fromDefault.Some? && (ok ==> forms == fromDefault.value))
        && (route == NoStore ==> !ok && forms == native.forms)
    {
      ok, forms := Fill(env, native, fromDefault);
    }

    method FillBlacklistLogins(env: MigrationEnv, native: NativeRead, fromDefault: Option<seq<PasswordForm>>)
      returns (ok: bool, forms: seq<PasswordForm>)
      modifies this
      ensures var (s, route) := Dispatch(old(State()), env, native.ok, |native.forms| > 0);
        && State() == s
        && (route == NativeStore ==> ok && forms == native.forms)
        && (route == DefaultStore ==> ok == fromDefault.Some? && (ok ==> forms == fromDefault.value))
        && (route == NoStore ==> !ok && forms == native.forms)
    {
      ok, forms := Fill(env, native, fromDefault);
    }
  }
}
