/**
 * The user-id helpers of lib/user.ts over the browser's `localStorage`,
 * modelled as a map from keys to strings. `hasWindow` says whether the code
 * runs in a browser (`typeof window !== 'undefined'`); on the server every
 * helper leaves the storage alone.
 */
module User {
  import opened Wrappers

  const UserIdKey := "userId"
  const DefaultUserIdKey := "defaultUserId"
  const BuiltInUserId := "user-123"

  /** `localStorage.getItem(key)`: `null` for a missing key. */
  function GetItem(storage: map<string, string>, key: string): (item: Option<string>)
    ensures item.Some? <==> key in storage
    ensures item.Some? ==> item.value == storage[key]
  {
    if key in storage then Some(storage[key]) else None
  }

  /** The id `getUserId` returns for a given storage. */
  function UserIdOf(hasWindow: bool, storage: map<string, string>): (id: string)
    ensures !hasWindow ==> id == ""
    ensures hasWindow && Truthy(GetItem(storage, UserIdKey)) ==> id == storage[UserIdKey]
    ensures hasWindow && !Truthy(GetItem(storage, UserIdKey)) && Truthy(GetItem(storage, DefaultUserIdKey))
            ==> id == storage[DefaultUserIdKey]
    ensures hasWindow && !Truthy(GetItem(storage, UserIdKey)) && !Truthy(GetItem(storage, DefaultUserIdKey))
            ==> id == BuiltInUserId
    ensures hasWindow ==> id != ""
  {
    if !hasWindow then ""
    else if Truthy(GetItem(storage, UserIdKey)) then storage[UserIdKey]
    else OrElse(GetItem(storage, DefaultUserIdKey), BuiltInUserId)
  }

  /** The storage after `getUserId`: the default is persisted under 'userId' when no usable id was stored. */
  function StorageAfterGet(hasWindow: bool, storage: map<string, string>): (after: map<string, string>)
    ensures !hasWindow || Truthy(GetItem(storage, UserIdKey)) ==> after == storage
    ensures hasWindow && !Truthy(GetItem(storage, UserIdKey)) ==> after == storage[UserIdKey := UserIdOf(hasWindow, storage)]
  {
    if hasWindow && !Truthy(GetItem(storage, UserIdKey)) then storage[UserIdKey := UserIdOf(hasWindow, storage)]
    else storage
  }

  /** The storage after `setUserId(id)`. */
  function StorageAfterSet(hasWindow: bool, storage: map<string, string>, id: string): (after: map<string, string>)
    ensures !hasWindow ==> after == storage
    ensures hasWindow ==> after == storage[UserIdKey := id]
  {
    if hasWindow then storage[UserIdKey := id] else storage
  }

  /** The storage after `clearUserId()`. */
  function StorageAfterClear(hasWindow: bool, storage: map<string, string>): (after: map<string, string>)
    ensures !hasWindow ==> after == storage
    ensures hasWindow ==> UserIdKey !in after
    ensures forall k :: k != UserIdKey ==> (k in after <==> k in storage)
    ensures forall k :: k != UserIdKey && k in after ==> after[k] == storage[k]
  {
    if hasWindow then storage - {UserIdKey} else storage
  }

  /** The browser's storage as the helpers see it. */
  class UserStore {
    const hasWindow: bool
    var storage: map<string, string>

    constructor (hasWindow: bool, storage: map<string, string>)
      ensures this.hasWindow == hasWindow && this.storage == storage
    {
      this.hasWindow := hasWindow;
      this.storage := storage;
    }

    /** `getUserId()`: the stored id, or the default persisted as the new stored id. */
    method GetUserId() returns (id: string)
      modifies this
      ensures id == UserIdOf(hasWindow, old(storage))
      ensures storage == StorageAfterGet(hasWindow, old(storage))
    {
      if !hasWindow {
        return "";
      }
      var userId := GetItem(storage, UserIdKey);
      if Truthy(userId) {
        return userId.value;
      }
      var defaultUserId := OrElse(GetItem(storage, DefaultUserIdKey), BuiltInUserId);
      if !Truthy(GetItem(storage, UserIdKey)) {
        storage := storage[UserIdKey := defaultUserId];
      }
      return defaultUserId;
    }

    /** `setUserId(id)`. */
    method SetUserId(id: string)
      modifies this
      ensures storage == StorageAfterSet(hasWindow, old(storage), id)
    {
      if hasWindow {
        storage := storage[UserIdKey := id];
      }
    }

    /** `clearUserId()`. */
    method ClearUserId()
      modifies this
      ensures storage == StorageAfterClear(hasWindow, old(storage))
    {
      if hasWindow {
        storage := storage - {UserIdKey};
      }
    }
  }

  /** A second `getUserId` returns what the first returned and writes nothing more. */
  lemma GetUserIdIdempotent(hasWindow: bool, storage: map<string, string>)
    ensures UserIdOf(hasWindow, StorageAfterGet(hasWindow, storage)) == UserIdOf(hasWindow, storage)
    ensures StorageAfterGet(hasWindow, StorageAfterGet(hasWindow, storage)) == StorageAfterGet(hasWindow, storage)
  {
  }

  /** Only 'userId' is ever written by `getUserId`; every other key keeps its value. */
  lemma GetUserIdWritesOnlyUserId(hasWindow: bool, storage: map<string, string>, k: string)
    requires k != UserIdKey
    ensures k in StorageAfterGet(hasWindow, storage) <==> k in storage
    ensures k in storage ==> StorageAfterGet(hasWindow, storage)[k] == storage[k]
  {
  }

  /** After `setUserId(id)` with a non-empty id, `getUserId` returns that id. */
  lemma SetThenGet(storage: map<string, string>, id: string)
    requires id != ""
    ensures UserIdOf(true, StorageAfterSet(true, storage, id)) == id
  {
  }

  /**
   * After `clearUserId()`, `getUserId` falls back to 'defaultUserId' or
   * 'user-123', since the default itself survives the clear.
   */
  lemma ClearThenGet(storage: map<string, string>)
    ensures UserIdOf(true, StorageAfterClear(true, storage)) == OrElse(GetItem(storage, DefaultUserIdKey), BuiltInUserId)
  {
    assert DefaultUserIdKey != UserIdKey;
  }
}
