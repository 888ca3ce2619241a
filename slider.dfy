/**
 * `SliderPreference`: an inline preference hosting a Material `Slider`, with
 * six properties (the value, its range, the step size, tick and label
 * visibility), a partial-update `setProperties`, its `Properties.Builder`,
 * and the value persisted as a float.
 */
module Slider {
  import opened Framework

  /** `0F`. */
  const DefaultValue: Float := 0x0000_0000
  /** `0F`. */
  const DefaultValueFrom: Float := 0x0000_0000
  /** `100F`. */
  const DefaultValueTo: Float := 0x42C8_0000
  /** `1F`. */
  const DefaultStepSize: Float := 0x3F80_0000
  const DefaultTickVisible := true
  const DefaultLabelVisible := true

  /** The six properties a slider preference holds. */
  datatype SliderState = SliderState(
    value: Float, valueFrom: Float, valueTo: Float, stepSize: Float,
    isTickVisible: bool, isLabelVisible: bool)

  const Defaults := SliderState(DefaultValue, DefaultValueFrom, DefaultValueTo, DefaultStepSize,
                                DefaultTickVisible, DefaultLabelVisible)

  /** `Properties`: one nullable field per property; null means "leave as it is". */
  datatype Properties = Properties(
    value: Option<Float>, valueFrom: Option<Float>, valueTo: Option<Float>, stepSize: Option<Float>,
    isTickVisible: Option<bool>, isLabelVisible: Option<bool>)

  /** A fresh builder's properties: every field null. */
  const NoProperties := Properties(None, None, None, None, None, None)

  /** The properties that set every field to the one in `s`. */
  function AllOf(s: SliderState): Properties {
    Properties(Some(s.value), Some(s.valueFrom), Some(s.valueTo), Some(s.stepSize),
               Some(s.isTickVisible), Some(s.isLabelVisible))
  }

  /** The state after `setProperties`: each non-null field overwrites its property, the others stay. */
  function Apply(s: SliderState, p: Properties): (r: SliderState)
    ensures r.value == p.value.GetOr(s.value) && r.valueFrom == p.valueFrom.GetOr(s.valueFrom)
    ensures r.valueTo == p.valueTo.GetOr(s.valueTo) && r.stepSize == p.stepSize.GetOr(s.stepSize)
    ensures r.isTickVisible == p.isTickVisible.GetOr(s.isTickVisible)
    ensures r.isLabelVisible == p.isLabelVisible.GetOr(s.isLabelVisible)
  {
    SliderState(
      p.value.GetOr(s.value), p.valueFrom.GetOr(s.valueFrom),
      p.valueTo.GetOr(s.valueTo), p.stepSize.GetOr(s.stepSize),
      p.isTickVisible.GetOr(s.isTickVisible), p.isLabelVisible.GetOr(s.isLabelVisible))
  }

  /** `q` applied over `p`: `q`'s non-null fields win. */
  function Then(p: Properties, q: Properties): Properties {
    Properties(
      if q.value.Some? then q.value else p.value,
      if q.valueFrom.Some? then q.valueFrom else p.valueFrom,
      if q.valueTo.Some? then q.valueTo else p.valueTo,
      if q.stepSize.Some? then q.stepSize else p.stepSize,
      if q.isTickVisible.Some? then q.isTickVisible else p.isTickVisible,
      if q.isLabelVisible.Some? then q.isLabelVisible else p.isLabelVisible)
  }

  /**
   * Partial updates: no fields change nothing, repeating an update changes
   * nothing more, two updates are one merged update, and a full update
   * replaces the state.
   */
  lemma {:induction false} ApplyLaws(s: SliderState, p: Properties, q: Properties, t: SliderState)
    ensures Apply(s, NoProperties) == s
    ensures Apply(Apply(s, p), p) == Apply(s, p)
    ensures Apply(Apply(s, p), q) == Apply(s, Then(p, q))
    ensures Apply(s, AllOf(t)) == t
  {
  }

  /** The fields `init` passes to `setProperties`: each styled attribute, or its default when absent. */
  function StyledProperties(styled: Properties): (r: Properties)
    ensures r.value.None?
    ensures Apply(Defaults, r) == Apply(Defaults, styled.(value := None))
  {
    Properties(
      None,
      Some(styled.valueFrom.GetOr(DefaultValueFrom)),
      Some(styled.valueTo.GetOr(DefaultValueTo)),
      Some(styled.stepSize.GetOr(DefaultStepSize)),
      Some(styled.isTickVisible.GetOr(DefaultTickVisible)),
      Some(styled.isLabelVisible.GetOr(DefaultLabelVisible)))
  }

  // ---------------------------------------------------------------------------
  // The parcel

  /** One value written to a parcel; `ParcelCompat.writeBoolean` writes an int. */
  datatype ParcelValue = FloatItem(f: Float) | IntItem(i: int32)

  function BoolItem(b: bool): ParcelValue {
    IntItem(if b then 1 else 0)
  }

  /** `writeToParcel`: the four floats, then the two booleans, in declaration order. */
  function WriteState(s: SliderState): (p: seq<ParcelValue>)
    ensures |p| == 6
  {
    [FloatItem(s.value), FloatItem(s.valueFrom), FloatItem(s.valueTo), FloatItem(s.stepSize),
     BoolItem(s.isTickVisible), BoolItem(s.isLabelVisible)]
  }

  /** The parcel constructor: four `readFloat`s and two `readBoolean`s (any non-zero int is true). */
  function ReadState(p: seq<ParcelValue>): (r: Option<SliderState>)
    ensures r.Some? ==> |p| >= 6
  {
    if |p| >= 6 && p[0].FloatItem? && p[1].FloatItem? && p[2].FloatItem? && p[3].FloatItem?
       && p[4].IntItem? && p[5].IntItem? then
      Some(SliderState(p[0].f, p[1].f, p[2].f, p[3].f, p[4].i != 0, p[5].i != 0))
    else None
  }

  /** Reading what was written gives the state back, whatever the parcel holds after it. */
  lemma {:induction false} ParcelRoundTrip(s: SliderState, rest: seq<ParcelValue>)
    ensures ReadState(WriteState(s) + rest) == Some(s)
  {
    var p := WriteState(s) + rest;
    assert p[..6] == WriteState(s);
    assert p[4] == BoolItem(s.isTickVisible) && p[5] == BoolItem(s.isLabelVisible);
  }

  // ---------------------------------------------------------------------------
  // Views and the preference

  /** `LabelFormatter.LABEL_FLOATING` / `LABEL_GONE`. */
  datatype LabelBehavior = LabelFloating | LabelGone

  /** The Material `Slider`, reduced to the properties the preference sets. */
  class SliderView {
    var valueFrom: Float
    var valueTo: Float
    var stepSize: Float
    var isTickVisible: bool
    var labelBehavior: LabelBehavior
    var value: Float

    constructor (value: Float)
      ensures this.value == value
    {
      this.value := value;
      valueFrom, valueTo, stepSize := DefaultValueFrom, DefaultValueTo, DefaultStepSize;
      isTickVisible, labelBehavior := true, LabelFloating;
    }
  }

  /** `Properties.Builder`: six nullable fields, set one at a time. */
  class PropertiesBuilder {
    var fields: Properties

    constructor ()
      ensures fields == NoProperties
    {
      fields := NoProperties;
    }

    method SetValue(value: Option<Float>) returns (self: PropertiesBuilder)
      modifies this
      ensures self == this && fields == old(fields).(value := value)
    {
      fields := fields.(value := value);
      self := this;
    }

    method SetValueFrom(valueFrom: Option<Float>) returns (self: PropertiesBuilder)
      modifies this
      ensures self == this && fields == old(fields).(valueFrom := valueFrom)
    {
      fields := fields.(valueFrom := valueFrom);
      self := this;
    }

    method SetValueTo(valueTo: Option<Float>) returns (self: PropertiesBuilder)
      modifies this
      ensures self == this && fields == old(fields).(valueTo := valueTo)
    {
      fields := fields.(valueTo := valueTo);
      self := this;
    }

    method SetStepSize(stepSize: Option<Float>) returns (self: PropertiesBuilder)
      modifies this
      ensures self == this && fields == old(fields).(stepSize := stepSize)
    {
      fields := fields.(stepSize := stepSize);
      self := this;
    }

    method SetTickVisible(isTickVisible: Option<bool>) returns (self: PropertiesBuilder)
      modifies this
      ensures self == this && fields == old(fields).(isTickVisible := isTickVisible)
    {
      fields := fields.(isTickVisible := isTickVisible);
      self := this;
    }

    method SetLabelVisible(isLabelVisible: Option<bool>) returns (self: PropertiesBuilder)
      modifies this
      ensures self == this && fields == old(fields).(isLabelVisible := isLabelVisible)
    {
      fields := fields.(isLabelVisible := isLabelVisible);
      self := this;
    }

    method Build() returns (p: Properties)
      ensures p == fields
    {
      p := fields;
    }
  }

  class SliderPreference {
    const pref: Preference
    var value: Float
    var valueFrom: Float
    var valueTo: Float
    var stepSize: Float
    var isTickVisible: bool
    var isLabelVisible: bool

    function State(): SliderState
      reads this
    {
      SliderState(value, valueFrom, valueTo, stepSize, isTickVisible, isLabelVisible)
    }

    /**
     * The field defaults, then `init`'s `setProperties` with the styled
     * attributes (`styled`; an absent attribute is null) or their defaults.
     * The value keeps its default.
     */
    constructor (key: string, isPersistent: bool, store: Store, styled: Properties)
      ensures fresh(pref) && pref.key == key && pref.isPersistent == isPersistent && pref.store == store
      ensures State() == Apply(Defaults, styled.(value := None)) && pref.notifyCount == 1
    {
      pref := new Preference(key, isPersistent, store);
      value, valueFrom, valueTo, stepSize := DefaultValue, DefaultValueFrom, DefaultValueTo, DefaultStepSize;
      isTickVisible, isLabelVisible := DefaultTickVisible, DefaultLabelVisible;
      new;
      var p := StyledProperties(styled);
      SetProperties(p.value, p.valueFrom, p.valueTo, p.stepSize, p.isTickVisible, p.isLabelVisible);
    }

    /** The six-argument `setProperties`: a partial update, one notification, nothing persisted. */
    method SetProperties(value: Option<Float>, valueFrom: Option<Float>, valueTo: Option<Float>, stepSize: Option<Float>,
                         isTickVisible: Option<bool>, isLabelVisible: Option<bool>)
      modifies this, pref
      ensures this.value == if value.Some? then value.value else old(this.value)
      ensures this.valueFrom == if valueFrom.Some? then valueFrom.value else old(this.valueFrom)
      ensures this.valueTo == if valueTo.Some? then valueTo.value else old(this.valueTo)
      ensures this.stepSize == if stepSize.Some? then stepSize.value else old(this.stepSize)
      ensures this.isTickVisible == if isTickVisible.Some? then isTickVisible.value else old(this.isTickVisible)
      ensures this.isLabelVisible == if isLabelVisible.Some? then isLabelVisible.value else old(this.isLabelVisible)
      ensures pref.store == old(pref.store) && pref.notifyCount == old(pref.notifyCount) + 1
    {
      if value.Some? {
        this.value := value.value;
      }
      if valueFrom.Some? {
        this.valueFrom := valueFrom.value;
      }
      if valueTo.Some? {
        this.valueTo := valueTo.value;
      }
      if stepSize.Some? {
        this.stepSize := stepSize.value;
      }
      if isTickVisible.Some? {
        this.isTickVisible := isTickVisible.value;
      }
      if isLabelVisible.Some? {
        this.isLabelVisible := isLabelVisible.value;
      }
      pref.NotifyChanged();
    }

    /** `setProperties(properties)`: the six-argument call with the record's fields. */
    method SetPropertiesOf(properties: Properties)
      modifies this, pref
      ensures State() == Apply(old(State()), properties)
      ensures pref.store == old(pref.store) && pref.notifyCount == old(pref.notifyCount) + 1
    {
      SetProperties(properties.value, properties.valueFrom, properties.valueTo, properties.stepSize,
                    properties.isTickVisible, properties.isLabelVisible);
    }

    /** `setValueInternal`: stores and persists the value, notifying only when asked to. */
    method SetValueInternal(v: Float, notify: bool)
      modifies this, pref
      ensures State() == old(State()).(value := v)
      ensures pref.store == old(pref.Persisted(Some(FloatValue(v))))
      ensures pref.notifyCount == old(pref.notifyCount) + (if notify then 1 else 0)
    {
      value := v;
      pref.Persist(Some(FloatValue(v)));
      if notify {
        pref.NotifyChanged();
      }
    }

    /** The `value` setter: persists and notifies. */
    method SetValue(v: Float)
      modifies this, pref
      ensures State() == old(State()).(value := v)
      ensures pref.store == old(pref.Persisted(Some(FloatValue(v))))
      ensures pref.notifyCount == old(pref.notifyCount) + 1
    {
      SetValueInternal(v, true);
    }

    /** The `valueFrom` setter: notifies, persists nothing. */
    method SetValueFrom(v: Float)
      modifies this, pref
      ensures State() == old(State()).(valueFrom := v)
      ensures pref.store == old(pref.store) && pref.notifyCount == old(pref.notifyCount) + 1
    {
      valueFrom := v;
      pref.NotifyChanged();
    }

    method SetValueTo(v: Float)
      modifies this, pref
      ensures State() == old(State()).(valueTo := v)
      ensures pref.store == old(pref.store) && pref.notifyCount == old(pref.notifyCount) + 1
    {
      valueTo := v;
      pref.NotifyChanged();
    }

    method SetStepSize(v: Float)
      modifies this, pref
      ensures State() == old(State()).(stepSize := v)
      ensures pref.store == old(pref.store) && pref.notifyCount == old(pref.notifyCount) + 1
    {
      stepSize := v;
      pref.NotifyChanged();
    }

    method SetTickVisible(b: bool)
      modifies this, pref
      ensures State() == old(State()).(isTickVisible := b)
      ensures pref.store == old(pref.store) && pref.notifyCount == old(pref.notifyCount) + 1
    {
      isTickVisible := b;
      pref.NotifyChanged();
    }

    method SetLabelVisible(b: bool)
      modifies this, pref
      ensures State() == old(State()).(isLabelVisible := b)
      ensures pref.store == old(pref.store) && pref.notifyCount == old(pref.notifyCount) + 1
    {
      isLabelVisible := b;
      pref.NotifyChanged();
    }

    /** `onBindViewHolder`: the slider shows the six properties; a visible label floats. */
    method OnBindViewHolder(slider: SliderView)
      modifies slider
      ensures slider.valueFrom == valueFrom && slider.valueTo == valueTo && slider.stepSize == stepSize
      ensures slider.isTickVisible == isTickVisible && slider.value == value
      ensures slider.labelBehavior == if isLabelVisible then LabelFloating else LabelGone
    {
      slider.valueFrom := valueFrom;
      slider.valueTo := valueTo;
      slider.stepSize := stepSize;
      slider.isTickVisible := isTickVisible;
      slider.labelBehavior := if isLabelVisible then LabelFloating else LabelGone;
      slider.value := value;
    }

    /**
     * The touch listener when tracking stops: an accepted slider value is
     * stored and persisted without a notification; a rejected one leaves the
     * preference as it was and moves the slider back to the value.
     */
    method OnStopTrackingTouch(slider: SliderView, listener: Float -> bool)
      modifies this, pref, slider
      ensures var newValue := old(slider.value);
              && (listener(newValue) ==>
                    && State() == old(State()).(value := newValue) && slider.value == newValue
                    && pref.store == old(pref.Persisted(Some(FloatValue(newValue))))
                    && pref.notifyCount == old(pref.notifyCount))
              && (!listener(newValue) ==>
                    && State() == old(State()) && slider.value == value
                    && pref.store == old(pref.store) && pref.notifyCount == old(pref.notifyCount))
    {
      var newValue := slider.value;
      if listener(newValue) {
        SetValueInternal(newValue, false);
      } else {
        slider.value := value;
      }
    }

    /** `onSetInitialValue`: the persisted float, or else the default (0 when null), through the setter. */
    method OnSetInitialValue(defaultValue: Option<Float>)
      modifies this, pref
      ensures State() == old(State()).(value := old(pref.GetPersistedFloat(defaultValue.GetOr(DefaultValue))))
      ensures pref.store == old(pref.Persisted(Some(FloatValue(pref.GetPersistedFloat(defaultValue.GetOr(DefaultValue))))))
      ensures pref.notifyCount == old(pref.notifyCount) + 1
    {
      SetValue(pref.GetPersistedFloat(defaultValue.GetOr(DefaultValue)));
    }

    /** `onSaveInstanceState`: a state only for a non-persistent preference, carrying all six properties. */
    method OnSaveInstanceState() returns (s: Option<SliderState>)
      ensures s.Some? <==> !pref.isPersistent
      ensures s.Some? ==> s.value == State()
    {
      if pref.isPersistent {
        return None;
      }
      s := Some(State());
    }

    /** `onRestoreInstanceState`: all six properties through `setProperties` (so the value is not persisted). */
    method OnRestoreInstanceState(s: Option<SliderState>)
      modifies this, pref
      ensures s.Some? ==> State() == s.value && pref.store == old(pref.store) && pref.notifyCount == old(pref.notifyCount) + 1
      ensures s.None? ==> State() == old(State()) && pref.store == old(pref.store) && pref.notifyCount == old(pref.notifyCount)
    {
      if s.None? {
        return;
      }
      var st := s.value;
      SetProperties(Some(st.value), Some(st.valueFrom), Some(st.valueTo), Some(st.stepSize),
                    Some(st.isTickVisible), Some(st.isLabelVisible));
    }
  }

  /** The builder's record, applied through the overload, is the six-argument call with its fields. */
  method BuildAndApply(p: SliderPreference, v: Float, from: Float)
    modifies p, p.pref
    ensures p.State() == old(p.State()).(value := v, valueFrom := from)
  {
    var b := new PropertiesBuilder();
    var b1 := b.SetValue(Some(v));
    var b2 := b1.SetValueFrom(Some(from));
    var props := b2.Build();
    p.SetPropertiesOf(props);
  }

  /** Save, parcel and restore reproduce all six properties of a non-persistent preference. */
  method SaveRestoreRoundTrip(p: SliderPreference, other: Properties)
    requires !p.pref.isPersistent
    modifies p, p.pref
    ensures p.State() == old(p.State())
  {
    var saved := p.OnSaveInstanceState();
    var read := ReadState(WriteState(saved.value));
    ParcelRoundTrip(saved.value, []);
    assert WriteState(saved.value) + [] == WriteState(saved.value);
    p.SetPropertiesOf(other);
    p.OnRestoreInstanceState(read);
  }
}
