/**
 * The app-wide session state: who is signed in, loaded from the device
 * store at start-up, updated after login (state and store together), and
 * reset on logout.
 */
module UserContext {
  import opened Wrappers
  import opened JsValues
  import opened Storage

  /** The session state; favourites and bookings are kept only as opaque lists. */
  datatype UserDetails = UserDetails(
    token: Option<string>, refreshToken: Option<string>, role: Option<string>,
    email: Option<string>, userId: Option<string>, name: Option<string>, surname: Option<string>,
    isAuthenticated: bool, favourites: seq<string>, bookings: seq<string>)

  /** The state before anything is loaded: signed out, no credentials. */
  const Initial := UserDetails(None, None, None, None, None, None, None, false, [], [])

  /**
   * The object passed to `updateUserDetails`: for each field, `None` when the
   * key is absent and `Some(v)` when it is present (`Some(None)` for a key set
   * to `null` or `undefined`, which still overwrites).
   */
  datatype Patch = Patch(
    token: Option<Option<string>>, refreshToken: Option<Option<string>>, role: Option<Option<string>>,
    email: Option<Option<string>>, userId: Option<Option<string>>, name: Option<Option<string>>,
    surname: Option<Option<string>>, isAuthenticated: Option<bool>)

  const EmptyPatch := Patch(None, None, None, None, None, None, None, None)

  function Pick<T>(o: Option<T>, d: T): T {
    if o.Some? then o.value else d
  }

  /** `{ ...prev, ...newDetails }`: a key the patch has wins, every other field is kept. */
  function Merge(prev: UserDetails, p: Patch): (r: UserDetails)
    ensures p == EmptyPatch ==> r == prev
    ensures r.favourites == prev.favourites && r.bookings == prev.bookings
    ensures p.token.Some? ==> r.token == p.token.value
    ensures p.token.None? ==> r.token == prev.token
    ensures p.isAuthenticated.Some? ==> r.isAuthenticated == p.isAuthenticated.value
  {
    UserDetails(
      Pick(p.token, prev.token), Pick(p.refreshToken, prev.refreshToken), Pick(p.role, prev.role),
      Pick(p.email, prev.email), Pick(p.userId, prev.userId), Pick(p.name, prev.name),
      Pick(p.surname, prev.surname), Pick(p.isAuthenticated, prev.isAuthenticated),
      prev.favourites, prev.bookings)
  }

  /** Two patches applied one after the other: the later one's keys win. */
  function Then(a: Patch, b: Patch): Patch {
    Patch(
      if b.token.Some? then b.token else a.token,
      if b.refreshToken.Some? then b.refreshToken else a.refreshToken,
      if b.role.Some? then b.role else a.role,
      if b.email.Some? then b.email else a.email,
      if b.userId.Some? then b.userId else a.userId,
      if b.name.Some? then b.name else a.name,
      if b.surname.Some? then b.surname else a.surname,
      if b.isAuthenticated.Some? then b.isAuthenticated else a.isAuthenticated)
  }

  /**
   * Merging is a spread: an empty patch changes nothing, merging the same
   * patch twice is merging it once, and two merges are one merge of the
   * combined patch; favourites and bookings are never touched.
   */
  lemma MergeLaws(d: UserDetails, a: Patch, b: Patch)
    ensures Merge(d, EmptyPatch) == d
    ensures Merge(Merge(d, a), a) == Merge(d, a)
    ensures Merge(Merge(d, a), b) == Merge(d, Then(a, b))
    ensures Merge(d, a).favourites == d.favourites && Merge(d, a).bookings == d.bookings
  {
  }

  // ---------------------------------------------------------------- store keys of the fields

  /** The storage keys of the seven persisted fields, in the order `updateUserDetails` writes them. */
  const SessionKeys: seq<string> := [AccessTokenKey, RefreshTokenKey, UserRoleKey, UserEmailKey, UserIdKey, UserNameKey, UserSurnameKey]

  function Flat(o: Option<Option<string>>): Option<string> {
    if o.Some? then o.value else None
  }

  /** The value a patch carries for the field stored under `key`. */
  function PatchField(p: Patch, key: string): Option<string> {
    if key == AccessTokenKey then Flat(p.token)
    else if key == RefreshTokenKey then Flat(p.refreshToken)
    else if key == UserRoleKey then Flat(p.role)
    else if key == UserEmailKey then Flat(p.email)
    else if key == UserIdKey then Flat(p.userId)
    else if key == UserNameKey then Flat(p.name)
    else if key == UserSurnameKey then Flat(p.surname)
    else None
  }

  /** The field of the state stored under `key`. */
  function DetailsField(d: UserDetails, key: string): Option<string> {
    if key == AccessTokenKey then d.token
    else if key == RefreshTokenKey then d.refreshToken
    else if key == UserRoleKey then d.role
    else if key == UserEmailKey then d.email
    else if key == UserIdKey then d.userId
    else if key == UserNameKey then d.name
    else if key == UserSurnameKey then d.surname
    else None
  }

  /**
   * The `setItem` calls `updateUserDetails` makes for the keys `ks`, in
   * order, when `value(k)` is the new value for key `k`: one per key whose
   * new value is non-empty.
   */
  function WritesOf(value: string -> Option<string>, ks: seq<string>): (w: seq<(string, string)>)
    ensures forall i :: 0 <= i < |w| ==> w[i].0 in ks && Truthy(value(w[i].0)) && w[i].1 == value(w[i].0).value
  {
    if ks == [] then []
    else
      var rest := WritesOf(value, ks[1..]);
      var head := if Truthy(value(ks[0])) then [(ks[0], value(ks[0]).value)] else [];
      assert forall i :: 0 <= i < |rest| ==> (head + rest)[|head| + i] == rest[i];
      head + rest
  }

  /** Every key of `ks` whose new value is non-empty is written. */
  lemma {:induction false} WritesOfComplete(value: string -> Option<string>, ks: seq<string>, k: string)
    requires k in ks && Truthy(value(k))
    ensures exists i :: 0 <= i < |WritesOf(value, ks)| && WritesOf(value, ks)[i].0 == k
  {
    var w := WritesOf(value, ks);
    var rest := WritesOf(value, ks[1..]);
    var head := if Truthy(value(ks[0])) then [(ks[0], value(ks[0]).value)] else [];
    assert w == head + rest;
    if k == ks[0] {
      assert w[0].0 == k;
    } else {
      assert k in ks[1..];
      WritesOfComplete(value, ks[1..], k);
      var i :| 0 <= i < |rest| && rest[i].0 == k;
      assert w[|head| + i].0 == k;
    }
  }

  /** Over distinct keys no key is written twice. */
  lemma {:induction false} WritesOfDistinct(value: string -> Option<string>, ks: seq<string>)
    requires forall a, b :: 0 <= a < b < |ks| ==> ks[a] != ks[b]
    ensures forall a, b :: 0 <= a < b < |WritesOf(value, ks)| ==> WritesOf(value, ks)[a].0 != WritesOf(value, ks)[b].0
  {
    if ks != [] {
      var w := WritesOf(value, ks);
      var tail := ks[1..];
      var rest := WritesOf(value, tail);
      var head := if Truthy(value(ks[0])) then [(ks[0], value(ks[0]).value)] else [];
      assert w == head + rest;
      assert ks[0] !in tail by {
        forall j | 0 <= j < |tail| ensures tail[j] != ks[0] {
          assert tail[j] == ks[j + 1];
        }
      }
      forall a, b | 0 <= a < b < |tail| ensures tail[a] != tail[b] {
        assert tail[a] == ks[a + 1] && tail[b] == ks[b + 1];
      }
      WritesOfDistinct(value, tail);
      forall a, b | 0 <= a < b < |w| ensures w[a].0 != w[b].0 {
        assert w[b] == rest[b - |head|];
        if a >= |head| {
          assert w[a] == rest[a - |head|];
        } else {
          assert w[b].0 in tail;
        }
      }
    }
  }

  function WritesFor(p: Patch): seq<(string, string)> {
    WritesOf(k => PatchField(p, k), SessionKeys)
  }

  lemma SessionKeysDistinct()
    ensures forall a, b :: 0 <= a < b < |SessionKeys| ==> SessionKeys[a] != SessionKeys[b]
  {
  }

  /**
   * The store after all of an update's writes: each persisted field with a
   * non-empty new value is stored under its key; every other key, and every
   * field whose new value is empty or missing, keeps what it had.
   */
  lemma StoreAfterUpdate(entries: map<string, string>, p: Patch, k: string)
    ensures Lookup(SetAll(entries, WritesFor(p)), k) ==
      if k in SessionKeys && Truthy(PatchField(p, k)) then PatchField(p, k) else Lookup(entries, k)
  {
    var w := WritesFor(p);
    SessionKeysDistinct();
    WritesOfDistinct(k => PatchField(p, k), SessionKeys);
    SetAllDistinct(entries, w);
    if k in SessionKeys && Truthy(PatchField(p, k)) {
      WritesOfComplete(k => PatchField(p, k), SessionKeys, k);
      var i :| 0 <= i < |w| && w[i].0 == k;
    }
  }

  /** The writes an update gets through before the one at `failAt` throws (`None`: all of them). */
  function WritesDone(p: Patch, failAt: Option<nat>): (w: seq<(string, string)>)
    ensures failAt.None? ==> w == WritesFor(p)
    ensures |w| <= |WritesFor(p)| && w == WritesFor(p)[..|w|]
  {
    var all := WritesFor(p);
    if failAt.Some? && failAt.value < |all| then all[..failAt.value] else all
  }

  // ---------------------------------------------------------------- load

  /** The state `loadUserData` sets from the store: everything when an access token is stored, else only "signed out". */
  function LoadedDetails(entries: map<string, string>, prev: UserDetails): (d: UserDetails)
    ensures d.isAuthenticated <==> Truthy(Lookup(entries, AccessTokenKey))
    ensures d.isAuthenticated ==>
      (d.favourites == [] && d.bookings == [] && forall k :: k in SessionKeys ==> DetailsField(d, k) == Lookup(entries, k))
    ensures !d.isAuthenticated ==> d == prev.(isAuthenticated := false)
  {
    if Truthy(Lookup(entries, AccessTokenKey)) then
      UserDetails(
        Lookup(entries, AccessTokenKey), Lookup(entries, RefreshTokenKey), Lookup(entries, UserRoleKey),
        Lookup(entries, UserEmailKey), Lookup(entries, UserIdKey), Lookup(entries, UserNameKey),
        Lookup(entries, UserSurnameKey), true, [], [])
    else prev.(isAuthenticated := false)
  }

  /**
   * Reloading after an update that carried a non-empty token signs the user
   * in, and reads back every field the update gave a non-empty value, equal
   * to what the merged state holds for it.
   */
  lemma LoadAfterUpdate(entries: map<string, string>, prev: UserDetails, p: Patch, k: string)
    requires Truthy(Flat(p.token))
    requires k in SessionKeys && Truthy(PatchField(p, k))
    ensures LoadedDetails(SetAll(entries, WritesFor(p)), prev).isAuthenticated
    ensures DetailsField(LoadedDetails(SetAll(entries, WritesFor(p)), prev), k) == PatchField(p, k) == DetailsField(Merge(prev, p), k)
  {
    StoreAfterUpdate(entries, p, AccessTokenKey);
    StoreAfterUpdate(entries, p, k);
  }

  /** After logout a reload finds no token: the user stays signed out, while the profile keys are still stored. */
  lemma LoadAfterLogout(entries: map<string, string>, prev: UserDetails)
    ensures LoadedDetails(ClearCredentials(entries), prev) == prev.(isAuthenticated := false)
    ensures Lookup(ClearCredentials(entries), UserEmailKey) == Lookup(entries, UserEmailKey)
    ensures Lookup(ClearCredentials(entries), UserIdKey) == Lookup(entries, UserIdKey)
  {
  }

  /** The state `logout` sets; the keys it leaves out (email, id, names) read as missing. */
  const LoggedOut := UserDetails(None, None, None, None, None, None, None, false, [], [])

  /** Logging out returns to the state the app starts in, and a reload keeps it there. */
  lemma LogoutRestoresInitial(entries: map<string, string>)
    ensures LoggedOut == Initial
    ensures LoadedDetails(ClearCredentials(entries), LoggedOut) == Initial
  {
  }

  // ---------------------------------------------------------------- the provider

  class UserSession {
    var details: UserDetails

    constructor ()
      ensures details == Initial
    {
      details := Initial;
    }

    /** `loadUserData`: read the seven keys and set the state from them. */
    method LoadUserData(store: KeyValueStore)
      modifies this
      ensures details == LoadedDetails(store.entries, old(details))
    {
      var token := store.GetItem(AccessTokenKey);
      var refreshToken := store.GetItem(RefreshTokenKey);
      var role := store.GetItem(UserRoleKey);
      var email := store.GetItem(UserEmailKey);
      var userId := store.GetItem(UserIdKey);
      var name := store.GetItem(UserNameKey);
      var surname := store.GetItem(UserSurnameKey);
      if Truthy(token) {
        details := UserDetails(token, refreshToken, role, email, userId, name, surname, true, [], []);
      } else {
        details := details.(isAuthenticated := false);
      }
    }

    /**
     * `updateUserDetails`: write each non-empty field to its key, then merge
     * the patch into the state. `failAt` is the number of writes that succeed
     * before one throws (`None`: none throws); the state is merged either way.
     */
    method UpdateUserDetails(patch: Patch, store: KeyValueStore, failAt: Option<nat>)
      modifies this, store
      ensures details == Merge(old(details), patch)
      ensures store.entries == SetAll(old(store.entries), WritesDone(patch, failAt))
    {
      var writes := WritesFor(patch);
      var done := if failAt.Some? && failAt.value < |writes| then failAt.value else |writes|;
      assert writes[..|writes|] == writes;
      store.MultiSet(writes[..done]);
      details := Merge(details, patch);
    }

    /**
     * `logout`: remove the three credentials, then reset the state. When the
     * removal throws (`fails`), neither the store nor the state changes.
     */
    method Logout(store: KeyValueStore, fails: bool)
      modifies this, store
      ensures fails ==> details == old(details) && store.entries == old(store.entries)
      ensures !fails ==> details == LoggedOut && store.entries == ClearCredentials(old(store.entries))
    {
      if !fails {
        store.RemoveCredentials();
        details := LoggedOut;
      }
    }
  }
}
