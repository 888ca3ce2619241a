/**
 * `ToggleGroupPreference`: a toggle-group preference with a single selected
 * value, one of the entry values, persisted as a string.
 */
module SingleSelect {
  import opened Framework
  import opened ToggleGroup

  /** The instance state: the base preference's arrays and the value. */
  datatype SavedState = SavedState(base: EntriesState, value: Option<string>)

  /** The checked button for a value: its first position among the entry values, if any. */
  function SelectedIndex(value: Option<string>, entryValues: Option<seq<string>>): (r: int)
    ensures entryValues.Some? ==> -1 <= r < |entryValues.value|
    ensures entryValues.None? ==> r == -1
    ensures r >= 0 <==> value.Some? && entryValues.Some? && value.value in entryValues.value
    ensures r >= 0 ==> entryValues.value[r] == value.value && value.value !in entryValues.value[..r]
  {
    if value.None? || entryValues.None? then -1 else IndexOf(entryValues.value, value.value)
  }

  /**
   * The simple summary provider: the entry whose entry value is the value
   * (first match), or "not set" for a null value, null arrays or a value that
   * is not an entry value.
   */
  function SimpleSummary(value: Option<string>, entries: Option<seq<string>>, entryValues: Option<seq<string>>): (r: Summary)
    requires PairConsistent(entries, entryValues)
    ensures r.Text? <==> value.Some? && entryValues.Some? && value.value in entryValues.value
    ensures r.Text? ==> exists i :: 0 <= i < |entryValues.value| && entryValues.value[i] == value.value
                                   && value.value !in entryValues.value[..i] && r.text == entries.value[i]
  {
    var valueIndex := SelectedIndex(value, entryValues);
    if entries.Some? && valueIndex >= 0 then Text(entries.value[valueIndex]) else NotSet
  }

  /** The group after showing `index`: that button alone checked, or none for -1. */
  function ShowingIndex(bs: seq<Button>, index: int): (r: seq<Button>)
    requires -1 <= index < |bs|
    ensures |r| == |bs|
    ensures CheckedIndices(r) == if index >= 0 then {index} else {}
    ensures forall j :: 0 <= j < |bs| ==> r[j].text == bs[j].text && r[j].icon == bs[j].icon
  {
    if index >= 0 then CheckedAt(bs, index, true) else AllUnchecked(bs)
  }

  class ToggleGroupPreference {
    const base: AbstractToggleGroupPreference
    var value: Option<string>

    ghost predicate Valid()
      reads this, base
    {
      base.Valid()
    }

    constructor (key: string, isPersistent: bool, store: Store)
      ensures Valid() && fresh(base) && fresh(base.pref) && value.None?
      ensures base.pref.key == key && base.pref.isPersistent == isPersistent && base.pref.store == store
      ensures base.entries.None? && base.entryValues.None? && base.icons.None?
    {
      base := new AbstractToggleGroupPreference(key, isPersistent, store);
      value := None;
    }

    /** `setValueInternal`: stores and persists the value, notifying only when asked to. */
    method SetValueInternal(v: Option<string>, notify: bool)
      modifies this, base.pref
      ensures value == v
      ensures base.pref.store == old(base.pref.Persisted(MapOption(v, (s: string) => StringValue(s))))
      ensures base.pref.notifyCount == old(base.pref.notifyCount) + (if notify then 1 else 0)
    {
      value := v;
      base.pref.Persist(MapOption(v, (s: string) => StringValue(s)));
      if notify {
        base.pref.NotifyChanged();
      }
    }

    /** The public `value` setter: persists and notifies. */
    method SetValue(v: Option<string>)
      modifies this, base.pref
      ensures value == v
      ensures base.pref.store == old(base.pref.Persisted(MapOption(v, (s: string) => StringValue(s))))
      ensures base.pref.notifyCount == old(base.pref.notifyCount) + 1
    {
      SetValueInternal(v, true);
    }

    /**
     * `setValueOnToggleGroup`: with a null value or null entry values no button
     * is checked; otherwise exactly the button at the value's first position,
     * or none when the value is not an entry value.
     */
    method SetValueOnToggleGroup(v: Option<string>, entryValues: Option<seq<string>>, group: ButtonToggleGroup)
      requires group.isSingleSelection
      requires entryValues.Some? ==> |group.buttons| == |entryValues.value|
      modifies group
      ensures group.buttons == ShowingIndex(old(group.buttons), SelectedIndex(v, entryValues))
      ensures group.isSingleSelection
    {
      if v.None? || entryValues.None? {
        group.ClearChecked();
      } else {
        var valueIndex := IndexOf(entryValues.value, v.value);
        if valueIndex >= 0 {
          group.Check(valueIndex);
        } else {
          group.ClearChecked();
        }
      }
    }

    /**
     * `onBindViewHolder` followed by `bind`: single selection, buttons set up
     * (with the intended resize), the value's button checked. The entry values
     * the click listeners capture are returned; there are none when the entry
     * values are null or the setup threw.
     */
    method OnBindViewHolder(group: ButtonToggleGroup) returns (ok: bool, bound: Option<seq<string>>)
      requires Valid()
      modifies group
      ensures group.isSingleSelection
      ensures ok == SetupCorrected(old(group.buttons), base.entries, base.entryValues, base.icons).completed
      ensures ok ==> bound == base.entryValues
                     && group.buttons == ShowingIndex(SetupCorrected(old(group.buttons), base.entries, base.entryValues, base.icons).buttons,
                                                      SelectedIndex(value, base.entryValues))
      ensures !ok ==> bound.None?
      ensures bound.Some? ==> |bound.value| == |group.buttons|
    {
      group.isSingleSelection := true;
      ok := base.SetupButtonsCorrected(group);
      if !ok {
        return ok, None;
      }
      SetupCorrectedShape(old(group.buttons), base.entries, base.entryValues, base.icons);
      var entryValues := base.CopyOfEntryValues();
      bound := if entryValues.Some? then Some(entryValues.value[..]) else None;
      SetValueOnToggleGroup(value, bound, group);
    }

    /**
     * The click listener of button `index`. When the change listener accepts the
     * button's entry value it becomes the value and is persisted, without a
     * notification. Otherwise the value stays and the group reverts to showing
     * it: the old value's button checked, or nothing checked when it is not an
     * entry value.
     */
    method OnButtonClick(group: ButtonToggleGroup, bound: seq<string>, index: int, listener: string -> bool)
      requires group.isSingleSelection
      requires 0 <= index < |bound| == |group.buttons|
      modifies this, base.pref, group
      ensures listener(bound[index]) ==>
                && value == Some(bound[index])
                && base.pref.store == old(base.pref.Persisted(Some(StringValue(bound[index]))))
                && base.pref.notifyCount == old(base.pref.notifyCount)
                && group.buttons == old(group.buttons)
      ensures !listener(bound[index]) ==>
                && value == old(value)
                && base.pref.store == old(base.pref.store) && base.pref.notifyCount == old(base.pref.notifyCount)
                && group.buttons == ShowingIndex(old(group.buttons), SelectedIndex(old(value), Some(bound)))
      ensures group.isSingleSelection
    {
      var strEntryValue := bound[index];
      if listener(strEntryValue) {
        SetValueInternal(Some(strEntryValue), false);
      } else {
        var oldButtonIndex := if value.Some? then IndexOf(bound, value.value) else -1;
        if oldButtonIndex >= 0 {
          group.Check(oldButtonIndex);
        } else {
          group.ClearChecked();
        }
      }
    }

    /** `onSetInitialValue`: the persisted string, or else the default, through the public setter. */
    method OnSetInitialValue(defaultValue: Option<string>)
      modifies this, base.pref
      ensures value == old(base.pref.GetPersistedString(defaultValue))
      ensures base.pref.notifyCount == old(base.pref.notifyCount) + 1
      ensures base.pref.store == old(base.pref.Persisted(MapOption(base.pref.GetPersistedString(defaultValue), (s: string) => StringValue(s))))
    {
      SetValue(base.pref.GetPersistedString(defaultValue));
    }

    /** `onSaveInstanceState`: for a non-persistent preference, the arrays and the value. */
    method OnSaveInstanceState() returns (s: Option<SavedState>)
      requires Valid()
      ensures s.Some? <==> !base.pref.isPersistent
      ensures s.Some? ==> s.value == SavedState(EntriesState(base.entries, base.entryValues), value)
    {
      var baseState := base.OnSaveInstanceState();
      if base.pref.isPersistent {
        return None;
      }
      s := Some(SavedState(baseState.value, value));
    }

    /** `onRestoreInstanceState`: the arrays as the base restores them, the value through the public setter. */
    method OnRestoreInstanceState(s: Option<SavedState>)
      requires Valid()
      requires s.Some? ==> PairConsistent(s.value.base.entries, s.value.base.entryValues)
      modifies this, base, base.pref
      ensures Valid() && base.icons == old(base.icons)
      ensures s.Some? ==> && base.entries == s.value.base.entries && base.entryValues == s.value.base.entryValues
                          && value == s.value.value && base.pref.notifyCount == old(base.pref.notifyCount) + 1
                          && base.pref.store == old(base.pref.Persisted(MapOption(s.value.value, (x: string) => StringValue(x))))
      ensures s.None? ==> && base.entries == old(base.entries) && base.entryValues == old(base.entryValues)
                          && value == old(value) && base.pref.store == old(base.pref.store)
                          && base.pref.notifyCount == old(base.pref.notifyCount)
    {
      if s.None? {
        return;
      }
      base.OnRestoreInstanceState(Some(s.value.base));
      SetValue(s.value.value);
    }
  }

  /** Saving and restoring a non-persistent preference reproduces its value and arrays. */
  method SaveRestoreRoundTrip(p: ToggleGroupPreference, other: Option<string>)
    requires p.Valid() && !p.base.pref.isPersistent
    modifies p, p.base, p.base.pref
    ensures p.Valid()
    ensures p.value == old(p.value) && p.base.entries == old(p.base.entries) && p.base.entryValues == old(p.base.entryValues)
    ensures p.base.pref.store == old(p.base.pref.store)
  {
    var saved := p.OnSaveInstanceState();
    p.SetValue(other);
    p.OnRestoreInstanceState(saved);
  }
}
