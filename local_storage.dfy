/**
 * A value held in memory and mirrored under one key of the browser's
 * localStorage: read once, lazily, when the value is first needed; written on
 * every update, with a failing write swallowed.
 */
module LocalStorage {
  import opened Api

  /** The browser's localStorage: one string per key, shared by every user of it. */
  class Storage {
    var items: map<string, string>

    constructor (items: map<string, string>)
      ensures this.items == items
    {
      this.items := items;
    }
  }

  /** What reading one key gave: the stored text, no entry, or an access error. */
  datatype Read = Stored(text: string) | Missing | Unreadable

  function ReadKey(items: map<string, string>, key: string, fails: bool): Read {
    if fails then Unreadable else if key in items then Stored(items[key]) else Missing
  }

  /** The encoder and decoder agree, and no value encodes as the empty string. */
  ghost predicate RoundTrips<T(!new)>(encode: T -> string, decode: string -> Option<T>) {
    forall v :: decode(encode(v)) == Some(v) && encode(v) != ""
  }

  /**
   * The hook's initial value: the decoded stored text when there is a non-empty
   * text that decodes; the default for a missing key, an empty text, a text
   * that does not decode, or an unreadable store.
   */
  function InitialValue<T>(read: Read, decode: string -> Option<T>, defaultValue: T): (v: T)
    ensures read.Stored? && read.text != "" && decode(read.text).Some? ==> v == decode(read.text).value
    ensures read.Missing? || read.Unreadable? ==> v == defaultValue
    ensures read.Stored? && (read.text == "" || decode(read.text).None?) ==> v == defaultValue
  {
    if !read.Stored? || read.text == "" then defaultValue
    else match decode(read.text)
      case Some(x) => x
      case None => defaultValue
  }

  /**
   * What a working store holds after writing `v` under `key` initialises the
   * next reader of that key to `v` again, whatever the default, provided the
   * codec round-trips.
   */
  lemma ReadBackAfterWrite<T(!new)>(items: map<string, string>, key: string, v: T,
                                    encode: T -> string, decode: string -> Option<T>, defaultValue: T)
    requires RoundTrips(encode, decode)
    ensures InitialValue(ReadKey(items[key := encode(v)], key, false), decode, defaultValue) == v
  {
    assert decode(encode(v)) == Some(v) && encode(v) != "";
  }

  class StoredValue<T> {
    const store: Storage
    const key: string
    const encode: T -> string
    const decode: string -> Option<T>
    var value: T

    /** The lazy initial read of `key`; `readFails` stands for an access error of the store. */
    constructor (store: Storage, key: string, defaultValue: T,
                 encode: T -> string, decode: string -> Option<T>, readFails: bool)
      ensures this.store == store && this.key == key && this.encode == encode && this.decode == decode
      ensures value == InitialValue(ReadKey(store.items, key, readFails), decode, defaultValue)
    {
      this.store, this.key, this.encode, this.decode := store, key, encode, decode;
      value := InitialValue(ReadKey(store.items, key, readFails), decode, defaultValue);
    }

    /**
     * The hook's setter: writes the encoded value under this key only (no
     * other key changes), or nothing when the write fails; either way the
     * in-memory value becomes `v`.
     */
    method Set(v: T, writeFails: bool)
      modifies this, store
      ensures value == v
      ensures store.items == if writeFails then old(store.items) else old(store.items)[key := encode(v)]
    {
      if !writeFails {
        store.items := store.items[key := encode(v)];
      }
      value := v;
    }
  }
}
