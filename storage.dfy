/**
 * The device's key-value store (AsyncStorage) as an in-memory map from keys
 * to string values, and the keys the session uses. Durability and storage
 * failures are not modelled.
 */
module Storage {
  import opened Wrappers
  import opened JsValues

  const AccessTokenKey := "accessToken"
  const RefreshTokenKey := "refreshToken"
  const UserRoleKey := "userRole"
  const UserEmailKey := "userEmail"
  const UserIdKey := "userId"
  const UserNameKey := "userName"
  const UserSurnameKey := "userSurname"

  /** The three credential keys that logout and a rejected refresh remove. */
  const CredentialKeys: set<string> := {AccessTokenKey, RefreshTokenKey, UserRoleKey}

  /** `getItem(key)`: the stored value, or `null` for a key that was never set. */
  function Lookup(entries: map<string, string>, key: string): Option<string> {
    if key in entries then Some(entries[key]) else None
  }

  /** `multiRemove(CredentialKeys)`: drop exactly the credentials, keep every other key. */
  function ClearCredentials(entries: map<string, string>): (r: map<string, string>)
    ensures forall k :: k in r <==> k in entries && k !in CredentialKeys
    ensures forall k :: k in r ==> r[k] == entries[k]
    ensures AccessTokenKey !in r && RefreshTokenKey !in r && UserRoleKey !in r
  {
    entries - CredentialKeys
  }

  /** The result of a sequence of `setItem` calls, applied in order (a later write wins). */
  function SetAll(entries: map<string, string>, writes: seq<(string, string)>): (r: map<string, string>)
    ensures forall k :: k in r <==> k in entries || exists i :: 0 <= i < |writes| && writes[i].0 == k
  {
    if writes == [] then entries
    else
      var r := SetAll(entries, writes[..|writes| - 1])[writes[|writes| - 1].0 := writes[|writes| - 1].1];
      assert forall i :: 0 <= i < |writes| - 1 ==> writes[..|writes| - 1][i] == writes[i];
      r
  }

  /**
   * After writes to distinct keys, each written key holds what was written
   * to it, and every other key keeps its old value.
   */
  lemma {:induction false} SetAllDistinct(entries: map<string, string>, writes: seq<(string, string)>)
    requires forall i, j :: 0 <= i < j < |writes| ==> writes[i].0 != writes[j].0
    ensures forall i :: 0 <= i < |writes| ==> Lookup(SetAll(entries, writes), writes[i].0) == Some(writes[i].1)
    ensures forall k :: (forall i :: 0 <= i < |writes| ==> writes[i].0 != k) ==>
      Lookup(SetAll(entries, writes), k) == Lookup(entries, k)
  {
    if writes != [] {
      var init := writes[..|writes| - 1];
      assert forall i :: 0 <= i < |init| ==> init[i] == writes[i];
      SetAllDistinct(entries, init);
    }
  }

  class KeyValueStore {
    var entries: map<string, string>

    constructor (initial: map<string, string>)
      ensures entries == initial
    {
      entries := initial;
    }

    method GetItem(key: string) returns (v: Option<string>)
      ensures v == Lookup(entries, key)
    {
      v := Lookup(entries, key);
    }

    method SetItem(key: string, value: string)
      modifies this
      ensures entries == old(entries)[key := value]
    {
      entries := entries[key := value];
    }

    /** `multiSet(pairs)`: every pair written, in order. */
    method MultiSet(pairs: seq<(string, string)>)
      modifies this
      ensures entries == SetAll(old(entries), pairs)
    {
      var i := 0;
      while i < |pairs|
        invariant 0 <= i <= |pairs|
        invariant entries == SetAll(old(entries), pairs[..i])
      {
        assert pairs[..i + 1][..i] == pairs[..i];
        entries := entries[pairs[i].0 := pairs[i].1];
        i := i + 1;
      }
      assert pairs[..i] == pairs;
    }

    /** `multiRemove(['accessToken', 'refreshToken', 'userRole'])`. */
    method RemoveCredentials()
      modifies this
      ensures entries == ClearCredentials(old(entries))
    {
      entries := entries - CredentialKeys;
    }
  }
}
