/**
 * The `HH:mm` codec of `TimePickerPreference` (`timeToString`, `stringToTime`)
 * and the `getLocalTime` / `getLocalTimeOrNull` / `putLocalTime` extensions of
 * `Preferences.kt`, which read and write a time under a key with that codec.
 */
module LocalTimeCodec {
  import opened Framework

  type Hour = x: int | 0 <= x < 24
  type Minute = x: int | 0 <= x < 60
  type Second = x: int | 0 <= x < 60
  type Nano = x: int | 0 <= x < 1_000_000_000

  /** `java.time.LocalTime`. */
  datatype LocalTime = LocalTime(hour: Hour, minute: Minute, second: Second, nano: Nano)

  const Midnight: LocalTime := LocalTime(0, 0, 0, 0)

  /** `LocalTime.of(hour, minute)`: a time with zero seconds. */
  function TimeOf(hour: Hour, minute: Minute): LocalTime {
    LocalTime(hour, minute, 0, 0)
  }

  /** `t.truncatedTo(ChronoUnit.MINUTES)`. */
  function TruncatedToMinutes(t: LocalTime): LocalTime {
    TimeOf(t.hour, t.minute)
  }

  predicate IsDigit(c: char) {
    '0' <= c <= '9'
  }

  function DigitValue(c: char): (d: nat)
    requires IsDigit(c)
    ensures d < 10
  {
    c as int - '0' as int
  }

  function DigitChar(d: nat): (c: char)
    requires d < 10
    ensures IsDigit(c) && DigitValue(c) == d
  {
    ('0' as int + d) as char
  }

  /** Two zero-padded decimal digits. */
  function TwoDigits(n: nat): (r: string)
    requires n < 100
    ensures |r| == 2 && IsDigit(r[0]) && IsDigit(r[1])
    ensures DigitValue(r[0]) * 10 + DigitValue(r[1]) == n
  {
    [DigitChar(n / 10), DigitChar(n % 10)]
  }

  /** `timeToString`: the time formatted with the pattern `HH:mm`. */
  function TimeToString(t: LocalTime): (r: string)
    ensures |r| == 5 && r[2] == ':'
    ensures IsDigit(r[0]) && IsDigit(r[1]) && IsDigit(r[3]) && IsDigit(r[4])
    ensures DigitValue(r[0]) * 10 + DigitValue(r[1]) == t.hour
    ensures DigitValue(r[3]) * 10 + DigitValue(r[4]) == t.minute
  {
    TwoDigits(t.hour) + ":" + TwoDigits(t.minute)
  }

  /** The text `stringToTime` accepts before resolving fields: two digits, a colon, two digits. */
  predicate IsHHmmShaped(s: string) {
    |s| == 5 && IsDigit(s[0]) && IsDigit(s[1]) && s[2] == ':' && IsDigit(s[3]) && IsDigit(s[4])
  }

  /**
   * `stringToTime`: `LocalTime.parse(s, ofPattern("HH:mm"))`. The pattern's
   * default SMART resolver rejects hours above 23 and minutes above 59, except
   * that it reads the end-of-day time 24:00 as midnight. Any other text makes
   * the call throw `DateTimeParseException`, modelled as `None`.
   */
  function StringToTime(s: string): (r: Option<LocalTime>)
    ensures r.Some? ==> IsHHmmShaped(s) && r.value.second == 0 && r.value.nano == 0
  {
    if !IsHHmmShaped(s) then None
    else
      var h := DigitValue(s[0]) * 10 + DigitValue(s[1]);
      var m := DigitValue(s[3]) * 10 + DigitValue(s[4]);
      if h < 24 && m < 60 then Some(TimeOf(h, m))
      else if h == 24 && m == 0 then Some(Midnight)
      else None
  }

  /** Parsing a formatted time gives the time truncated to the minute. */
  lemma {:induction false} FormatThenParse(t: LocalTime)
    ensures StringToTime(TimeToString(t)) == Some(TruncatedToMinutes(t))
  {
    var s := TimeToString(t);
    assert IsHHmmShaped(s);
  }

  /** For a time with zero seconds (every picked time), the round trip is exact. */
  lemma {:induction false} FormatThenParseExact(t: LocalTime)
    requires t.second == 0 && t.nano == 0
    ensures StringToTime(TimeToString(t)) == Some(t)
  {
    FormatThenParse(t);
  }

  /** The other direction: every accepted text except "24:00" is the format of what it parses to. */
  lemma {:induction false} ParseThenFormat(s: string)
    requires StringToTime(s).Some? && s != "24:00"
    ensures TimeToString(StringToTime(s).value) == s
  {
    var t := StringToTime(s).value;
    var f := TimeToString(t);
    var h := DigitValue(s[0]) * 10 + DigitValue(s[1]);
    var m := DigitValue(s[3]) * 10 + DigitValue(s[4]);
    assert h < 24 && m < 60 && t == TimeOf(h, m);
    DigitsDetermined(s[0], s[1], f[0], f[1]);
    DigitsDetermined(s[3], s[4], f[3], f[4]);
    assert f == s;
  }

  /** Two two-digit numerals with the same value are the same characters. */
  lemma {:induction false} DigitsDetermined(a: char, b: char, c: char, d: char)
    requires IsDigit(a) && IsDigit(b) && IsDigit(c) && IsDigit(d)
    requires DigitValue(a) * 10 + DigitValue(b) == DigitValue(c) * 10 + DigitValue(d)
    ensures a == c && b == d
  {
    assert DigitValue(b) == DigitValue(d);
  }

  // ---------------------------------------------------------------------------
  // Preferences.kt: the SharedPreferences extensions.

  /** The stored form of a time. */
  function StoredTime(t: LocalTime): Stored {
    StringValue(TimeToString(t))
  }

  /**
   * `SharedPreferences.getLocalTimeOrNull`: null when no string is stored under
   * the key; otherwise the stored string parsed with `HH:mm`, which throws when
   * the string does not parse.
   */
  function GetLocalTimeOrNull(store: Store, key: string): (r: Result<Option<LocalTime>>)
    ensures r == Ok(None) <==> StringAt(store, key).None?
    ensures r.Ok? && r.value.Some? ==> StringToTime(StringAt(store, key).value) == r.value
    ensures r.Thrown? <==> StringAt(store, key).Some? && StringToTime(StringAt(store, key).value).None?
  {
    match StringAt(store, key)
    case None => Ok(None)
    case Some(s) =>
      match StringToTime(s)
      case Some(t) => Ok(Some(t))
      case None => Thrown("DateTimeParseException")
  }

  /** `SharedPreferences.getLocalTime`: `defValue` exactly where `getLocalTimeOrNull` gives null. */
  function GetLocalTime(store: Store, key: string, defValue: LocalTime): (r: Result<LocalTime>)
    ensures GetLocalTimeOrNull(store, key) == Ok(None) ==> r == Ok(defValue)
    ensures GetLocalTimeOrNull(store, key).Ok? && GetLocalTimeOrNull(store, key).value.Some? ==>
              r == Ok(GetLocalTimeOrNull(store, key).value.value)
    ensures r.Thrown? <==> GetLocalTimeOrNull(store, key).Thrown?
  {
    match GetLocalTimeOrNull(store, key)
    case Ok(o) => Ok(o.GetOr(defValue))
    case Thrown(e) => Thrown(e)
  }

  /** `SharedPreferences.Editor.putLocalTime`: stores the `HH:mm` text, or removes the key for null. */
  function PutLocalTime(store: Store, key: string, value: Option<LocalTime>): (r: Store)
    ensures value.Some? ==> StringAt(r, key) == Some(TimeToString(value.value))
    ensures value.None? ==> key !in r
    ensures forall k :: k != key ==> (k in r <==> k in store) && (k in r ==> r[k] == store[k])
  {
    Put(store, key, MapOption(value, StoredTime))
  }

  /** `putLocalTime(k, t)` then `getLocalTimeOrNull(k)` gives `t` truncated to minutes, and null for null. */
  lemma {:induction false} PutThenGet(store: Store, key: string, value: Option<LocalTime>)
    ensures GetLocalTimeOrNull(PutLocalTime(store, key, value), key) == Ok(MapOption(value, TruncatedToMinutes))
  {
    if value.Some? {
      FormatThenParse(value.value);
    }
  }

  // ---------------------------------------------------------------------------
  // Preferences.kt: the PreferenceDataStore extensions. A data store is the
  // application's own object; it is seen here only through its `getString(key,
  // null)` answers and through the `putString` call made on it.

  function DataStoreGetLocalTimeOrNull(getString: string -> Option<string>, key: string): Result<Option<LocalTime>> {
    match getString(key)
    case None => Ok(None)
    case Some(s) =>
      match StringToTime(s)
      case Some(t) => Ok(Some(t))
      case None => Thrown("DateTimeParseException")
  }

  function DataStoreGetLocalTime(getString: string -> Option<string>, key: string, defValue: LocalTime): Result<LocalTime> {
    match DataStoreGetLocalTimeOrNull(getString, key)
    case Ok(o) => Ok(o.GetOr(defValue))
    case Thrown(e) => Thrown(e)
  }

  /** The `putString(key, text)` call `PreferenceDataStore.putLocalTime` makes. */
  datatype PutStringCall = PutStringCall(key: string, value: Option<string>)

  function DataStorePutLocalTime(key: string, value: Option<LocalTime>): PutStringCall {
    PutStringCall(key, MapOption(value, TimeToString))
  }

  /**
   * The data-store variants behave like the SharedPreferences ones on a data
   * store that answers `getString` from a SharedPreferences store and applies
   * `putString` to it.
   */
  lemma {:induction false} DataStoreAgrees(store: Store, key: string, defValue: LocalTime, value: Option<LocalTime>)
    ensures DataStoreGetLocalTimeOrNull(k => StringAt(store, k), key) == GetLocalTimeOrNull(store, key)
    ensures DataStoreGetLocalTime(k => StringAt(store, k), key, defValue) == GetLocalTime(store, key, defValue)
    ensures var call := DataStorePutLocalTime(key, value);
            call.key == key && Put(store, call.key, MapOption(call.value, (s: string) => StringValue(s))) == PutLocalTime(store, key, value)
  {
    var call := DataStorePutLocalTime(key, value);
    assert DataStoreGetLocalTimeOrNull(k => StringAt(store, k), key) == GetLocalTimeOrNull(store, key);
    assert MapOption(call.value, (s: string) => StringValue(s)) == MapOption(value, StoredTime);
  }
}
