/**
 * The parts of the androidx Preference machinery the custom preferences rely on,
 * reduced to values: the SharedPreferences store is a map from keys to typed
 * values, persisting writes (or, for null, removes) the preference's own key,
 * and `notifyChanged` is counted.
 */
module Framework {

  datatype Option<+T> = None | Some(value: T) {
    function GetOr(default: T): T {
      match this
      case Some(v) => v
      case None => default
    }
  }

  /** A call that returns a value or throws: the exception's class name, or the message of a failed `require`. */
  datatype Result<+T> = Ok(value: T) | Thrown(exception: string)

  /** The outcome of a call that returns `Unit` or throws: the exception's class name, or the message of a failed `require`. */
  datatype Outcome = Completed | Failed(exception: string)

  /** What a summary provider shows: a text, or androidx's "not set" string. */
  datatype Summary = Text(text: string) | NotSet

  /** Kotlin's `Int`. */
  newtype int32 = x: int | -0x8000_0000 <= x < 0x8000_0000

  /** `Int.MIN_VALUE`. */
  const IntMinValue: int32 := -0x8000_0000

  /** Kotlin's `Float`, kept as its IEEE-754 bit pattern read as an unsigned number: no arithmetic is done on it. */
  newtype Float = bits: int | 0 <= bits < 0x1_0000_0000

  /** A value held by the SharedPreferences store. */
  datatype Stored =
    | StringValue(s: string)
    | StringSetValue(ss: set<string>)
    | IntValue(i: int32)
    | FloatValue(f: Float)

  type Store = map<string, Stored>

  /** `Editor.putX(key, v)`; a null value removes the key. */
  function Put(store: Store, key: string, v: Option<Stored>): (r: Store)
    ensures v.Some? ==> key in r && r[key] == v.value
    ensures v.None? ==> key !in r
    ensures forall k :: k != key ==> (k in r <==> k in store) && (k in r ==> r[k] == store[k])
  {
    match v
    case Some(x) => store[key := x]
    case None => store - {key}
  }

  function StringAt(store: Store, key: string): Option<string> {
    if key in store && store[key].StringValue? then Some(store[key].s) else None
  }

  function StringSetAt(store: Store, key: string): Option<set<string>> {
    if key in store && store[key].StringSetValue? then Some(store[key].ss) else None
  }

  function IntAt(store: Store, key: string): Option<int32> {
    if key in store && store[key].IntValue? then Some(store[key].i) else None
  }

  function FloatAt(store: Store, key: string): Option<Float> {
    if key in store && store[key].FloatValue? then Some(store[key].f) else None
  }

  function MapOption<A, B>(o: Option<A>, f: A -> B): Option<B> {
    match o
    case Some(a) => Some(f(a))
    case None => None
  }

  /** `indexOf`: the first position of `x` in `s`, or -1. */
  function IndexOf<T(==)>(s: seq<T>, x: T): (r: int)
    ensures -1 <= r < |s|
    ensures r == -1 <==> x !in s
    ensures 0 <= r ==> s[r] == x && x !in s[..r]
  {
    if |s| == 0 then -1
    else if s[0] == x then 0
    else
      var k := IndexOf(s[1..], x);
      assert s[1..][..Max(k, 0)] == s[1..Max(k, 0) + 1];
      if k < 0 then -1 else k + 1
  }

  function Max(a: int, b: int): int { if a < b then b else a }

  /**
   * The androidx `Preference` state a custom preference shares with the
   * framework: its key, whether it is persistent, the store it persists to
   * and the number of `notifyChanged` calls so far.
   */
  class Preference {
    const key: string
    const isPersistent: bool
    var store: Store
    var notifyCount: nat

    constructor (key: string, isPersistent: bool, store: Store)
      ensures this.key == key && this.isPersistent == isPersistent
      ensures this.store == store && notifyCount == 0
    {
      this.key := key;
      this.isPersistent := isPersistent;
      this.store := store;
      notifyCount := 0;
    }

    /**
     * A preference writes to and reads from the store only when persistent
     * and keyed; it is always taken as attached to a preference manager.
     */
    predicate ShouldPersist() {
      isPersistent && key != ""
    }

    /** The store after persisting `v` under this preference's key. */
    function Persisted(v: Option<Stored>): Store
      reads this
    {
      if ShouldPersist() then Put(store, key, v) else store
    }

    method Persist(v: Option<Stored>)
      modifies this
      ensures store == old(Persisted(v)) && notifyCount == old(notifyCount)
    {
      store := Persisted(v);
    }

    method NotifyChanged()
      modifies this
      ensures store == old(store) && notifyCount == old(notifyCount) + 1
    {
      notifyCount := notifyCount + 1;
    }

    function GetPersistedString(default: Option<string>): Option<string>
      reads this
    {
      if ShouldPersist() && StringAt(store, key).Some? then StringAt(store, key) else default
    }

    function GetPersistedStringSet(default: Option<set<string>>): Option<set<string>>
      reads this
    {
      if ShouldPersist() && StringSetAt(store, key).Some? then StringSetAt(store, key) else default
    }

    function GetPersistedInt(default: int32): int32
      reads this
    {
      if ShouldPersist() && IntAt(store, key).Some? then IntAt(store, key).value else default
    }

    function GetPersistedFloat(default: Float): Float
      reads this
    {
      if ShouldPersist() && FloatAt(store, key).Some? then FloatAt(store, key).value else default
    }
  }
}
