/**
 * `TimePickerPreference`: a dialog preference holding a nullable `LocalTime`,
 * persisted as its `HH:mm` text.
 */
module TimePicker {
  import opened Framework
  import opened LocalTimeCodec

  /** The instance state saved for a non-persistent preference. */
  datatype SavedState = SavedState(time: Option<LocalTime>)

  /** The class name of the exception `throwValueNotSetException` throws. */
  const ValueNotSet := "IllegalStateException"

  /** What persisting `t` writes: its `HH:mm` text, or null. */
  function StoredForm(t: Option<LocalTime>): Option<Stored> {
    MapOption(t, StoredTime)
  }

  class TimePickerPreference {
    const pref: Preference
    var time: Option<LocalTime>

    constructor (key: string, isPersistent: bool, store: Store)
      ensures fresh(pref) && pref.key == key && pref.isPersistent == isPersistent
      ensures pref.store == store && pref.notifyCount == 0 && time == None
    {
      pref := new Preference(key, isPersistent, store);
      time := None;
    }

    /** The `time` setter: stores, persists the `HH:mm` text (or null) and notifies. */
    method SetTime(t: Option<LocalTime>)
      modifies this, pref
      ensures time == t
      ensures pref.store == old(pref.Persisted(StoredForm(t)))
      ensures pref.notifyCount == old(pref.notifyCount) + 1
    {
      time := t;
      pref.Persist(StoredForm(t));
      pref.NotifyChanged();
    }

    /** `requireTime`: the time, or the not-set exception exactly when there is none. */
    function RequireTime(): (r: Result<LocalTime>)
      reads this
      ensures r.Thrown? <==> time.None?
      ensures r.Thrown? ==> r.exception == ValueNotSet
      ensures r.Ok? ==> time == Some(r.value)
    {
      match time
      case Some(t) => Ok(t)
      case None => Thrown(ValueNotSet)
    }

    /** The hour and minute the picker opens at: the current ones, or 00:00 when unset. */
    function PickerStart(): (r: (Hour, Minute))
      reads this
      ensures time.Some? ==> r == (time.value.hour, time.value.minute)
      ensures time.None? ==> r == (0, 0)
    {
      match time
      case Some(t) => (t.hour, t.minute)
      case None => (0, 0)
    }

    /** `handleNewlyPickedValue`: the time changes only when the change listener accepts it. */
    method HandleNewlyPickedValue(newTime: LocalTime, listener: LocalTime -> bool)
      modifies this, pref
      ensures listener(newTime) ==> time == Some(newTime) && pref.store == old(pref.Persisted(StoredForm(Some(newTime))))
                                     && pref.notifyCount == old(pref.notifyCount) + 1
      ensures !listener(newTime) ==> time == old(time) && pref.store == old(pref.store)
                                      && pref.notifyCount == old(pref.notifyCount)
    {
      if listener(newTime) {
        SetTime(Some(newTime));
      }
    }

    /** The picker's positive button: `LocalTime.of(hour, minute)` offered to the listener. */
    method OnPositiveButtonClick(hour: Hour, minute: Minute, listener: LocalTime -> bool)
      modifies this, pref
      ensures listener(TimeOf(hour, minute)) ==> time == Some(TimeOf(hour, minute))
      ensures !listener(TimeOf(hour, minute)) ==> time == old(time) && pref.store == old(pref.store)
      ensures listener(TimeOf(hour, minute)) && pref.ShouldPersist() ==>
                GetLocalTimeOrNull(pref.store, pref.key) == Ok(Some(TimeOf(hour, minute)))
    {
      HandleNewlyPickedValue(TimeOf(hour, minute), listener);
      if listener(TimeOf(hour, minute)) && pref.ShouldPersist() {
        PutThenGet(old(pref.store), pref.key, Some(TimeOf(hour, minute)));
      }
    }

    /**
     * `onSetInitialValue`: the persisted string, or else the default string, is
     * parsed and set through the setter, and the string is then persisted again
     * as it was. With neither, `time` becomes null. A string that does not parse
     * throws before anything changes.
     */
    method OnSetInitialValue(defaultValue: Option<string>) returns (r: Outcome)
      modifies this, pref
      ensures var value := old(pref.GetPersistedString(defaultValue));
              && (r.Failed? <==> value.Some? && StringToTime(value.value).None?)
              && (r.Failed? ==> time == old(time) && pref.store == old(pref.store) && pref.notifyCount == old(pref.notifyCount))
              && (r.Completed? ==>
                    && time == (if value.Some? then StringToTime(value.value) else None)
                    && pref.store == old(pref.Persisted(MapOption(value, (s: string) => StringValue(s))))
                    && pref.notifyCount == old(pref.notifyCount) + 1)
    {
      var value := pref.GetPersistedString(defaultValue);
      var parsed: Option<LocalTime> := None;
      if value.Some? {
        var t := StringToTime(value.value);
        if t.None? {
          return Failed("DateTimeParseException");
        }
        parsed := t;
      }
      SetTime(parsed);
      pref.Persist(MapOption(value, (s: string) => StringValue(s)));
      r := Completed;
    }

    /** `onSaveInstanceState`: a state only for a non-persistent preference, carrying `time`. */
    method OnSaveInstanceState() returns (s: Option<SavedState>)
      ensures s.Some? <==> !pref.isPersistent
      ensures s.Some? ==> s.value.time == time
    {
      if pref.isPersistent {
        return None;
      }
      s := Some(SavedState(time));
    }

    /** `onRestoreInstanceState`: a saved state's time goes through the setter; no state changes nothing. */
    method OnRestoreInstanceState(s: Option<SavedState>)
      modifies this, pref
      ensures s.Some? ==> time == s.value.time && pref.store == old(pref.Persisted(StoredForm(s.value.time)))
                          && pref.notifyCount == old(pref.notifyCount) + 1
      ensures s.None? ==> time == old(time) && pref.store == old(pref.store) && pref.notifyCount == old(pref.notifyCount)
    {
      if s.Some? {
        SetTime(s.value.time);
      }
    }
  }

  /** Saving and restoring reproduces `time`, whatever happened in between. */
  method SaveRestoreRoundTrip(p: TimePickerPreference, other: Option<LocalTime>)
    requires !p.pref.isPersistent
    modifies p, p.pref
    ensures p.time == old(p.time)
  {
    var saved := p.OnSaveInstanceState();
    p.SetTime(other);
    p.OnRestoreInstanceState(saved);
  }
}
