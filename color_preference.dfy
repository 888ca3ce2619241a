/**
 * `PredefinedColorPickerPreference`: a dialog preference holding a nullable
 * colour int, persisted with `Int.MIN_VALUE` standing for "no colour", with the
 * list of colours the picker offers and the `#hex` summary.
 */
module ColorPreference {
  import opened Framework

  // ---------------------------------------------------------------------------
  // The `Int.MIN_VALUE` sentinel

  /** `color ?: Int.MIN_VALUE`: what is persisted and parcelled for a colour. */
  function ToSentinel(c: Option<int32>): int32 {
    c.GetOr(IntMinValue)
  }

  /** `takeIf { it != Int.MIN_VALUE }`: how a persisted or parcelled int is read back. */
  function FromSentinel(i: int32): (r: Option<int32>)
    ensures r.None? <==> i == IntMinValue
    ensures r.Some? ==> r.value == i
  {
    if i != IntMinValue then Some(i) else None
  }

  /** Writing then reading gives back every colour except `Int.MIN_VALUE`, which reads back as no colour. */
  lemma {:induction false} SentinelRoundTrip(c: Option<int32>)
    ensures FromSentinel(ToSentinel(c)) == c <==> c != Some(IntMinValue)
    ensures c == Some(IntMinValue) ==> FromSentinel(ToSentinel(c)) == None
  {
    if c.Some? {
      assert ToSentinel(c) == c.value;
    }
  }

  // ---------------------------------------------------------------------------
  // `Integer.toHexString`

  /** The unsigned 32-bit value of a colour int. */
  function Unsigned(c: int32): (u: nat)
    ensures u < 0x1_0000_0000
    ensures (u - c as int) % 0x1_0000_0000 == 0
  {
    if c < 0 then c as int + 0x1_0000_0000 else c as int
  }

  /** The colour int whose unsigned value is `u`. */
  function Signed(u: nat): int32
    requires u < 0x1_0000_0000
  {
    if u < 0x8000_0000 then u as int32 else (u - 0x1_0000_0000) as int32
  }

  predicate IsHexDigit(ch: char) {
    '0' <= ch <= '9' || 'a' <= ch <= 'f'
  }

  function HexChar(d: nat): (ch: char)
    requires d < 16
    ensures IsHexDigit(ch)
  {
    if d < 10 then ('0' as int + d) as char else ('a' as int + d - 10) as char
  }

  function HexValue(ch: char): (d: nat)
    requires IsHexDigit(ch)
    ensures d < 16
  {
    if ch <= '9' then ch as int - '0' as int else ch as int - 'a' as int + 10
  }

  /** Lower-case hex digits without leading zeros ("0" for zero). */
  function HexString(u: nat): (r: string)
    ensures |r| >= 1 && (forall i :: 0 <= i < |r| ==> IsHexDigit(r[i]))
    ensures r[0] == '0' ==> u == 0
    decreases u
  {
    if u < 16 then [HexChar(u)] else HexString(u / 16) + [HexChar(u % 16)]
  }

  /** The value of a string of hex digits. */
  function ParseHex(s: string): nat
    requires forall i :: 0 <= i < |s| ==> IsHexDigit(s[i])
  {
    if |s| == 0 then 0 else ParseHex(s[..|s| - 1]) * 16 + HexValue(s[|s| - 1])
  }

  /** `Integer.toHexString`: the unsigned value in hex. */
  function ToHexString(c: int32): string {
    HexString(Unsigned(c))
  }

  lemma {:induction false} ParseHexString(u: nat)
    ensures ParseHex(HexString(u)) == u
    decreases u
  {
    var s := HexString(u);
    if u >= 16 {
      ParseHexString(u / 16);
      assert s[..|s| - 1] == HexString(u / 16);
    }
  }

  function Pow16(k: nat): nat {
    if k == 0 then 1 else 16 * Pow16(k - 1)
  }

  lemma {:induction false} HexStringLength(u: nat, k: nat)
    requires 1 <= k && u < Pow16(k)
    ensures |HexString(u)| <= k
    decreases k
  {
    if u >= 16 {
      HexStringLength(u / 16, k - 1);
    }
  }

  /** The hex text has at most eight digits and reads back as the same colour int. */
  lemma {:induction false} HexRoundTrip(c: int32)
    ensures |ToHexString(c)| <= 8
    ensures ParseHex(ToHexString(c)) == Unsigned(c)
    ensures Signed(ParseHex(ToHexString(c))) == c
  {
    assert Pow16(8) == 0x1_0000_0000;
    HexStringLength(Unsigned(c), 8);
    ParseHexString(Unsigned(c));
  }

  /** The simple summary provider: "#" and the hex of the colour, or "not set" without one. */
  function ColorSummary(color: Option<int32>): (r: Summary)
    ensures r.NotSet? <==> color.None?
    ensures r.Text? ==> |r.text| >= 2 && r.text[0] == '#' &&
                        (forall i :: 1 <= i < |r.text| ==> IsHexDigit(r.text[i])) &&
                        ParseHex(r.text[1..]) == Unsigned(color.value) &&
                        Signed(ParseHex(r.text[1..])) == color.value
    ensures r.Text? ==> |r.text| <= 9 && (r.text[1] == '0' ==> |r.text| == 2 && color.value == 0)
  {
    match color
    case None => NotSet
    case Some(c) =>
      HexRoundTrip(c);
      assert ("#" + ToHexString(c))[1..] == ToHexString(c);
      Text("#" + ToHexString(c))
  }

  // ---------------------------------------------------------------------------
  // The default value

  /** Kotlin's `Char.isWhitespace`: Java whitespace or a Unicode space separator. */
  predicate IsWhitespace(ch: char) {
    var n := ch as int;
    (9 <= n <= 13) || (0x1C <= n <= 0x20) || n == 0xA0 || n == 0x1680 || (0x2000 <= n <= 0x200A) ||
    n == 0x2028 || n == 0x2029 || n == 0x202F || n == 0x205F || n == 0x3000
  }

  /** `isNullOrBlank`. */
  predicate IsNullOrBlank(s: Option<string>) {
    s.None? || forall i :: 0 <= i < |s.value| ==> IsWhitespace(s.value[i])
  }

  /**
   * The default `onSetInitialValue` passes to `getPersistedInt`: the sentinel for
   * a null or blank string, otherwise `toColorInt()` of it, which throws
   * `IllegalArgumentException` for a string `Color.parseColor` rejects.
   */
  function DefaultColorInt(defaultValue: Option<string>, parseColor: string -> Option<int32>): (r: Result<int32>)
    ensures IsNullOrBlank(defaultValue) ==> r == Ok(IntMinValue)
    ensures r.Thrown? <==> !IsNullOrBlank(defaultValue) && parseColor(defaultValue.value).None?
    ensures r.Ok? && !IsNullOrBlank(defaultValue) ==> parseColor(defaultValue.value) == Some(r.value)
  {
    if IsNullOrBlank(defaultValue) then Ok(IntMinValue)
    else match parseColor(defaultValue.value)
      case Some(c) => Ok(c)
      case None => Thrown("IllegalArgumentException")
  }

  // ---------------------------------------------------------------------------
  // Saved state and its parcel

  /** The instance state in its parcelled form: the colour and the contents of the colour array. */
  datatype SavedState = SavedState(color: Option<int32>, availableColors: seq<int32>)

  /** One value written to a parcel. */
  datatype ParcelValue = IntItem(i: int32) | IntArrayItem(a: Option<seq<int32>>)

  /** `writeToParcel`: the colour or the sentinel, then the colour array. */
  function WriteSavedState(s: SavedState): seq<ParcelValue> {
    [IntItem(ToSentinel(s.color)), IntArrayItem(Some(s.availableColors))]
  }

  /**
   * The parcel constructor: `readInt` with the sentinel rule, then
   * `createIntArray()!!`; a parcel of another shape, or a null array, fails.
   */
  function ReadSavedState(p: seq<ParcelValue>): (r: Option<SavedState>)
    ensures r.Some? <==> |p| >= 2 && p[0].IntItem? && p[1].IntArrayItem? && p[1].a.Some?
    ensures r.Some? ==> r.value.color == FromSentinel(p[0].i) && p[1].a == Some(r.value.availableColors)
  {
    if |p| >= 2 && p[0].IntItem? && p[1].IntArrayItem? && p[1].a.Some? then
      Some(SavedState(FromSentinel(p[0].i), p[1].a.value))
    else None
  }

  /** The parcel reads back the colour array always, and the colour except for `Int.MIN_VALUE`. */
  lemma {:induction false} ParcelRoundTrip(s: SavedState)
    ensures ReadSavedState(WriteSavedState(s)) == Some(s.(color := FromSentinel(ToSentinel(s.color))))
    ensures ReadSavedState(WriteSavedState(s)) == Some(s) <==> s.color != Some(IntMinValue)
  {
    SentinelRoundTrip(s.color);
  }

  // ---------------------------------------------------------------------------
  // The preference

  /** The configuration `createDialog` gives the colour picker. */
  datatype PickerConfig = PickerConfig(title: Option<string>, colors: seq<int32>, defaultColor: Option<int32>)

  /** `Color.TRANSPARENT`. */
  const Transparent: int32 := 0

  class PredefinedColorPickerPreference {
    const pref: Preference
    /** The dialog title the preference was given. */
    const dialogTitle: Option<string>
    var color: Option<int32>
    var availableColors: array<int32>

    /** `initialColors` stands for the colour array resource the constructor reads. */
    constructor (key: string, isPersistent: bool, store: Store, dialogTitle: Option<string>, initialColors: array<int32>)
      ensures fresh(pref) && pref.key == key && pref.isPersistent == isPersistent
      ensures pref.store == store && pref.notifyCount == 0
      ensures this.dialogTitle == dialogTitle && color.None? && availableColors == initialColors
    {
      pref := new Preference(key, isPersistent, store);
      this.dialogTitle := dialogTitle;
      color := None;
      availableColors := initialColors;
    }

    /** The `color` setter: stores, persists the colour or the sentinel, and notifies. */
    method SetColor(c: Option<int32>)
      modifies this, pref
      ensures color == c && availableColors == old(availableColors)
      ensures pref.store == old(pref.Persisted(Some(IntValue(ToSentinel(c)))))
      ensures pref.notifyCount == old(pref.notifyCount) + 1
    {
      color := c;
      pref.Persist(Some(IntValue(ToSentinel(c))));
      pref.NotifyChanged();
    }

    /** `requireColor`: the colour, or the not-set exception exactly when there is none. */
    function RequireColor(): (r: Result<int32>)
      reads this
      ensures r.Thrown? <==> color.None?
      ensures r.Thrown? ==> r.exception == "IllegalStateException"
      ensures r.Ok? ==> color == Some(r.value)
    {
      match color
      case Some(c) => Ok(c)
      case None => Thrown("IllegalStateException")
    }

    /** `setAvailableColors`: keeps the caller's array itself, not a copy. */
    method SetAvailableColors(colors: array<int32>)
      modifies this
      ensures availableColors == colors && color == old(color)
    {
      availableColors := colors;
    }

    /** `copyOfAvailableColors`: a new array with the same colours. */
    method CopyOfAvailableColors() returns (r: array<int32>)
      ensures fresh(r) && r[..] == availableColors[..]
    {
      var source := availableColors;
      r := new int32[source.Length](i requires 0 <= i < source.Length reads source => source[i]);
    }

    /** The colour the swatch in the preference row is tinted with: the colour, or transparent. */
    function SwatchColor(): (r: int32)
      reads this
      ensures color.Some? ==> r == color.value
      ensures color.None? ==> r == Transparent
    {
      color.GetOr(Transparent)
    }

    /** `createDialog`: the title when there is one, the available colours, and the colour as the default when set. */
    method CreateDialog() returns (config: PickerConfig)
      ensures config.title == dialogTitle && config.colors == availableColors[..]
      ensures config.defaultColor == color
    {
      config := PickerConfig(None, availableColors[..], None);
      if dialogTitle.Some? {
        config := config.(title := dialogTitle);
      }
      if color.Some? {
        config := config.(defaultColor := color);
      }
    }

    /** The picker's colour listener: the colour is set only when the change listener accepts it. */
    method OnColorPicked(c: int32, listener: int32 -> bool)
      modifies this, pref
      ensures availableColors == old(availableColors)
      ensures listener(c) ==> color == Some(c) && pref.store == old(pref.Persisted(Some(IntValue(c))))
                              && pref.notifyCount == old(pref.notifyCount) + 1
      ensures !listener(c) ==> color == old(color) && pref.store == old(pref.store)
                               && pref.notifyCount == old(pref.notifyCount)
    {
      if listener(c) {
        SetColor(Some(c));
      }
    }

    /**
     * `onSetInitialValue`: the persisted int, or else the default's colour int
     * (the sentinel for a null or blank default), read back with the sentinel
     * rule and set through the setter. A default `Color.parseColor` rejects
     * throws before anything changes, even when an int is persisted.
     */
    method OnSetInitialValue(defaultValue: Option<string>, parseColor: string -> Option<int32>) returns (r: Outcome)
      modifies this, pref
      ensures availableColors == old(availableColors)
      ensures var d := DefaultColorInt(defaultValue, parseColor);
              && (r.Failed? <==> d.Thrown?)
              && (r.Failed? ==> color == old(color) && pref.store == old(pref.store) && pref.notifyCount == old(pref.notifyCount))
              && (r.Completed? ==>
                    && color == FromSentinel(old(pref.GetPersistedInt(d.value)))
                    && pref.store == old(pref.Persisted(Some(IntValue(pref.GetPersistedInt(d.value)))))
                    && pref.notifyCount == old(pref.notifyCount) + 1)
    {
      var d: int32;
      if defaultValue.None? || IsNullOrBlank(defaultValue) {
        d := IntMinValue;
      } else {
        var parsed := parseColor(defaultValue.value);
        if parsed.None? {
          return Failed("IllegalArgumentException");
        }
        d := parsed.value;
      }
      var persisted := pref.GetPersistedInt(d);
      SetColor(FromSentinel(persisted));
      r := Completed;
    }

    /** `onSaveInstanceState`: for a non-persistent preference, the colour and the colours. */
    method OnSaveInstanceState() returns (s: Option<SavedState>)
      ensures s.Some? <==> !pref.isPersistent
      ensures s.Some? ==> s.value == SavedState(color, availableColors[..])
    {
      if pref.isPersistent {
        return None;
      }
      s := Some(SavedState(color, availableColors[..]));
    }

    /** `onRestoreInstanceState`: the colour through the setter, then the colours. */
    method OnRestoreInstanceState(s: Option<SavedState>)
      modifies this, pref
      ensures s.Some? ==> && color == s.value.color && availableColors[..] == s.value.availableColors
                          && fresh(availableColors)
                          && pref.store == old(pref.Persisted(Some(IntValue(ToSentinel(s.value.color)))))
                          && pref.notifyCount == old(pref.notifyCount) + 1
      ensures s.None? ==> && color == old(color) && availableColors == old(availableColors)
                          && pref.store == old(pref.store) && pref.notifyCount == old(pref.notifyCount)
    {
      if s.None? {
        return;
      }
      SetColor(s.value.color);
      var items := s.value.availableColors;
      availableColors := new int32[|items|](i requires 0 <= i < |items| => items[i]);
    }
  }

  /**
   * Persisting a colour and initialising from the store reads it back, except
   * `Int.MIN_VALUE`, which reads back as no colour.
   */
  method PersistThenInitialValue(p: PredefinedColorPickerPreference, c: Option<int32>, parseColor: string -> Option<int32>)
    requires p.pref.ShouldPersist()
    modifies p, p.pref
    ensures p.color == c <==> c != Some(IntMinValue)
  {
    p.SetColor(c);
    var r := p.OnSetInitialValue(None, parseColor);
    SentinelRoundTrip(c);
  }

  /** A non-persistent preference's colour and colours survive save, parcel and restore, except a colour of `Int.MIN_VALUE`. */
  method SaveRestoreRoundTrip(p: PredefinedColorPickerPreference, other: Option<int32>)
    requires !p.pref.isPersistent && p.color != Some(IntMinValue)
    modifies p, p.pref
    ensures p.color == old(p.color) && p.availableColors[..] == old(p.availableColors[..])
  {
    var saved := p.OnSaveInstanceState();
    var read := ReadSavedState(WriteSavedState(saved.value));
    ParcelRoundTrip(saved.value);
    p.SetColor(other);
    p.OnRestoreInstanceState(read);
  }
}
