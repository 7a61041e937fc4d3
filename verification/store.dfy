/**
 * The server side of the key-value store (ServerImpl): a map from keys to
 * values behind three remote operations that each answer with a string.
 * The concurrent hash map is modelled by the sequential semantics every
 * call must linearise to: an immutable map passed in and handed back with
 * the response. The audit log each call writes is not modelled.
 */
module KeyValueStore {
  import opened Optional

  type Store = map<string, string>

  /** The response of a get or a delete whose key has no entry. */
  const NotFound: string := "Error: Key not found"

  /** The response of every put. */
  function StoredMessage(key: string, value: string): string
  {
    "Success: Key=" + key + ", Value=" + value + " stored."
  }

  /** The response of a delete that removed an entry. */
  function DeletedMessage(key: string): string
  {
    "Success: Key=" + key + " deleted."
  }

  /** What the store holds for key; None where Map.get would return null. */
  function Lookup(s: Store, key: string): Option<string>
  {
    if key in s then Some(s[key]) else None
  }

  /** The store after a call, and the string the call returns. */
  datatype Reply = Reply(store: Store, response: string)

  /** put: insert or overwrite the entry for key; it never fails. */
  function Put(s: Store, key: string, value: string): (r: Reply)
    ensures Lookup(r.store, key) == Some(value)
    ensures forall k :: k != key ==> Lookup(r.store, k) == Lookup(s, k)
    ensures r.store.Keys == s.Keys + {key}
    ensures r.response == StoredMessage(key, value)
  {
    Reply(s[key := value], StoredMessage(key, value))
  }

  /** get: the stored value itself, or NotFound; the store is left alone. */
  function Get(s: Store, key: string): (r: Reply)
    ensures r.store == s
    ensures key in s ==> r.response == s[key]
    ensures key !in s ==> r.response == NotFound
  {
    match Lookup(s, key)
    case Some(value) => Reply(s, value)
    case None => Reply(s, NotFound)
  }

  /** delete: remove the entry for key if there is one, and say which happened. */
  function Delete(s: Store, key: string): (r: Reply)
    ensures Lookup(r.store, key) == None
    ensures forall k :: k != key ==> Lookup(r.store, k) == Lookup(s, k)
    ensures key in s ==> r.response == DeletedMessage(key) && r.store.Keys == s.Keys - {key}
    ensures key !in s ==> r.response == NotFound && r.store == s
  {
    if key in s then Reply(s - {key}, DeletedMessage(key)) else Reply(s, NotFound)
  }

  /** A success response and the miss response never coincide. */
  lemma SuccessIsNotAMiss(key: string, value: string)
    ensures StoredMessage(key, value) != NotFound
    ensures DeletedMessage(key) != NotFound
  {
  }

  /** A get right after a put of the same key answers with the value put. */
  lemma PutThenGet(s: Store, key: string, value: string)
    ensures Get(Put(s, key, value).store, key).response == value
  {
  }

  /** The last of two puts to one key wins, whatever the key held before. */
  lemma PutOverwrites(s: Store, key: string, first: string, second: string)
    ensures Put(Put(s, key, first).store, key, second).store == Put(s, key, second).store
  {
  }

  /** delete reports success exactly when the key had an entry. */
  lemma DeleteSucceedsIffPresent(s: Store, key: string)
    ensures Delete(s, key).response == DeletedMessage(key) <==> key in s
    ensures Delete(s, key).response == NotFound <==> key !in s
  {
  }

  /** After a delete the key is gone: a get misses and a second delete is a no-op miss. */
  lemma DeleteThenMiss(s: Store, key: string)
    ensures Get(Delete(s, key).store, key).response == NotFound
    ensures Delete(Delete(s, key).store, key) == Reply(Delete(s, key).store, NotFound)
  {
  }

  /**
   * A get cannot tell a miss from a stored value that happens to read
   * "Error: Key not found": both produce the same response.
   */
  lemma MissIsIndistinguishable(s: Store, key: string)
    requires Lookup(s, key) == Some(NotFound)
    ensures Get(s, key).response == Get(s - {key}, key).response
  {
  }
}
