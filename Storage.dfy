/**
 * The two persistent key-value backends the app writes to: AsyncStorage (plain
 * strings) and SecureStore (the OS keychain). Each is a map from keys to stored
 * values plus a fault: while `failure` is `Some(e)` every call on it throws `e`.
 */
module Storage {
  import opened Common
  import opened Js

  /** A backend's contents and fault, as one value. */
  datatype KvState<V> = KvState(items: map<string, V>, failure: Option<string>)

  /**
   * What a key of the secure store holds: text written by `JSON.stringify`,
   * kept as the value it parses back to, or text that `JSON.parse` rejects.
   */
  datatype StoredText = Json(value: JsValue) | Unparseable(text: string)

  /** `@react-native-async-storage/async-storage`. */
  class AsyncStorage {
    var items: map<string, string>
    var failure: Option<string>

    constructor (items: map<string, string>, failure: Option<string>)
      ensures State() == KvState(items, failure)
    {
      this.items := items;
      this.failure := failure;
    }

    function State(): KvState<string>
      reads this
    {
      KvState(items, failure)
    }

    /** `getItem(key)`: the stored string, `null` when the key is absent. */
    method GetItem(key: string) returns (r: Attempt<Option<string>>)
      ensures failure.Some? ==> r == Threw(failure.value)
      ensures failure.None? && key in items ==> r == Done(Some(items[key]))
      ensures failure.None? && key !in items ==> r == Done(None)
    {
      if failure.Some? {
        r := Threw(failure.value);
      } else if key in items {
        r := Done(Some(items[key]));
      } else {
        r := Done(None);
      }
    }

    /** `setItem(key, value)`. */
    method SetItem(key: string, value: string) returns (r: Attempt<()>)
      modifies this
      ensures failure == old(failure)
      ensures r == if failure.Some? then Threw(failure.value) else Done(())
      ensures items == if failure.Some? then old(items) else old(items)[key := value]
    {
      if failure.Some? {
        r := Threw(failure.value);
      } else {
        items := items[key := value];
        r := Done(());
      }
    }

    /** `removeItem(key)`; removing an absent key succeeds. */
    method RemoveItem(key: string) returns (r: Attempt<()>)
      modifies this
      ensures failure == old(failure)
      ensures r == if failure.Some? then Threw(failure.value) else Done(())
      ensures items == if failure.Some? then old(items) else old(items) - {key}
    {
      if failure.Some? {
        r := Threw(failure.value);
      } else {
        items := items - {key};
        r := Done(());
      }
    }
  }

  /** `expo-secure-store`. */
  class SecureStore {
    var items: map<string, StoredText>
    var failure: Option<string>

    constructor (items: map<string, StoredText>, failure: Option<string>)
      ensures State() == KvState(items, failure)
    {
      this.items := items;
      this.failure := failure;
    }

    function State(): KvState<StoredText>
      reads this
    {
      KvState(items, failure)
    }

    /** `getItemAsync(key)`: the stored text, `null` when the key is absent. */
    method GetItem(key: string) returns (r: Attempt<Option<StoredText>>)
      ensures failure.Some? ==> r == Threw(failure.value)
      ensures failure.None? && key in items ==> r == Done(Some(items[key]))
      ensures failure.None? && key !in items ==> r == Done(None)
    {
      if failure.Some? {
        r := Threw(failure.value);
      } else if key in items {
        r := Done(Some(items[key]));
      } else {
        r := Done(None);
      }
    }

    /** `setItemAsync(key, value)`. */
    method SetItem(key: string, value: StoredText) returns (r: Attempt<()>)
      modifies this
      ensures failure == old(failure)
      ensures r == if failure.Some? then Threw(failure.value) else Done(())
      ensures items == if failure.Some? then old(items) else old(items)[key := value]
    {
      if failure.Some? {
        r := Threw(failure.value);
      } else {
        items := items[key := value];
        r := Done(());
      }
    }

    /** `deleteItemAsync(key)`; deleting an absent key succeeds. */
    method DeleteItem(key: string) returns (r: Attempt<()>)
      modifies this
      ensures failure == old(failure)
      ensures r == if failure.Some? then Threw(failure.value) else Done(())
      ensures items == if failure.Some? then old(items) else old(items) - {key}
    {
      if failure.Some? {
        r := Threw(failure.value);
      } else {
        items := items - {key};
        r := Done(());
      }
    }
  }
}
