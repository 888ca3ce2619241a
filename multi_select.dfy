/**
 * `MultiSelectToggleGroupPreference`: a toggle-group preference whose value is
 * a set of entry values, persisted as a string set.
 */
module MultiSelect {
  import opened Framework
  import opened ToggleGroup

  /** The instance state: the base preference's arrays and the value set. */
  datatype SavedState = SavedState(base: EntriesState, values: Option<set<string>>)

  /** The positions of the non-negative items of an index buffer. */
  function IndexSet(s: seq<int>): set<int> {
    set j | 0 <= j < |s| && s[j] >= 0 :: s[j]
  }

  lemma {:induction false} IndexSetSnoc(s: seq<int>, x: int)
    ensures IndexSet(s + [x]) == if x >= 0 then IndexSet(s) + {x} else IndexSet(s)
  {
    var t := s + [x];
    forall y | y in IndexSet(t)
      ensures y in (if x >= 0 then IndexSet(s) + {x} else IndexSet(s))
    {
      var j :| 0 <= j < |t| && t[j] >= 0 && t[j] == y;
      if j < |s| {
        assert s[j] == y;
      }
    }
    forall y | y in IndexSet(s)
      ensures y in IndexSet(t)
    {
      var j :| 0 <= j < |s| && s[j] >= 0 && s[j] == y;
      assert t[j] == y;
    }
    if x >= 0 {
      assert t[|s|] == x;
    }
  }

  /** The buttons a value set checks: the first position of each of its members that is an entry value. */
  function ExpectedChecked(values: set<string>, entryValues: seq<string>): set<int> {
    set v | v in values && IndexOf(entryValues, v) >= 0 :: IndexOf(entryValues, v)
  }

  /** Button `i` is checked for a value set exactly when entry value `i` is a member seen there first. */
  lemma {:induction false} ExpectedCheckedMeans(values: set<string>, entryValues: seq<string>, i: int)
    ensures i in ExpectedChecked(values, entryValues) <==>
              0 <= i < |entryValues| && entryValues[i] in values && entryValues[i] !in entryValues[..i]
  {
    if 0 <= i < |entryValues| && entryValues[i] in values && entryValues[i] !in entryValues[..i] {
      var v := entryValues[i];
      assert IndexOf(entryValues, v) == i;
    }
  }

  /** With distinct entry values, the checked buttons are those whose entry value is in the set. */
  predicate Distinct(s: seq<string>) {
    forall i, j :: 0 <= i < j < |s| ==> s[i] != s[j]
  }

  lemma {:induction false} ExpectedCheckedDistinct(values: set<string>, entryValues: seq<string>)
    requires Distinct(entryValues)
    ensures ExpectedChecked(values, entryValues) == set i | 0 <= i < |entryValues| && entryValues[i] in values
  {
    forall i | 0 <= i < |entryValues|
      ensures i in ExpectedChecked(values, entryValues) <==> entryValues[i] in values
    {
      ExpectedCheckedMeans(values, entryValues, i);
      assert entryValues[i] !in entryValues[..i] by {
        forall k | 0 <= k < i
          ensures entryValues[..i][k] != entryValues[i]
        {
        }
      }
    }
    forall i | i in ExpectedChecked(values, entryValues)
      ensures 0 <= i < |entryValues|
    {
      ExpectedCheckedMeans(values, entryValues, i);
    }
  }

  /** The value set the check listener proposes: the entry value added when checked, removed when unchecked. */
  function Proposal(values: Option<set<string>>, entryValue: string, isChecked: bool): (r: set<string>)
    ensures entryValue in r <==> isChecked
    ensures forall x :: x != entryValue ==> (x in r <==> x in values.GetOr({}))
  {
    if isChecked then values.GetOr({}) + {entryValue} else values.GetOr({}) - {entryValue}
  }

  /**
   * An accepted check keeps the group and the value in step: when the group
   * showed the values before the user toggled button `index`, it shows the new
   * values after (for distinct entry values).
   */
  lemma {:induction false} AcceptedToggleInSync(values: Option<set<string>>, entryValues: seq<string>, bs: seq<Button>, index: int, isChecked: bool)
    requires Distinct(entryValues) && |bs| == |entryValues| && 0 <= index < |bs|
    requires CheckedIndices(bs) == ExpectedChecked(values.GetOr({}), entryValues)
    ensures CheckedIndices(WithChecked(bs, index, isChecked))
            == ExpectedChecked(Proposal(values, entryValues[index], isChecked), entryValues)
  {
    var p := Proposal(values, entryValues[index], isChecked);
    ExpectedCheckedDistinct(values.GetOr({}), entryValues);
    ExpectedCheckedDistinct(p, entryValues);
    var after := CheckedIndices(WithChecked(bs, index, isChecked));
    forall i | 0 <= i < |entryValues| && i != index
      ensures entryValues[i] in p <==> entryValues[i] in values.GetOr({})
    {
      assert entryValues[i] != entryValues[index] by {
        if i < index {
          assert entryValues[i] != entryValues[index];
        } else {
          assert entryValues[index] != entryValues[i];
        }
      }
    }
    assert after == set i | 0 <= i < |entryValues| && entryValues[i] in p;
  }

  /** `setValuesOnToggleGroup` throws when the value set has more members than the index buffer has room for. */
  predicate FitsIndices(values: Option<set<string>>, entryValues: Option<seq<string>>) {
    values.None? || entryValues.None? || |values.value| <= |entryValues.value|
  }

  /** The buttons `bs` with their texts and icons as in `cs`. */
  predicate SameLabels(bs: seq<Button>, cs: seq<Button>) {
    |bs| == |cs| && forall j :: 0 <= j < |bs| ==> bs[j].text == cs[j].text && bs[j].icon == cs[j].icon
  }

  /** The summary provider: `summaryWhenSet` of the values, even an empty set; "not set" only for null. */
  function ValuesSummary(values: Option<set<string>>, summaryWhenSet: set<string> -> string): (r: Summary)
    ensures r.NotSet? <==> values.None?
    ensures values.Some? ==> r == Text(summaryWhenSet(values.value))
  {
    match values
    case Some(vs) => Text(summaryWhenSet(vs))
    case None => NotSet
  }

  /** The value set a parcelled string array reads back as. */
  function ReadValues(a: Option<seq<string>>): Option<set<string>> {
    match a
    case Some(items) => Some(set x | x in items)
    case None => None
  }

  /**
   * `writeToParcel`'s `values?.toTypedArray()`: each member once, in the set's
   * iteration order, which a set does not fix. Reading the array back gives
   * the set again.
   */
  method WriteValues(values: Option<set<string>>) returns (a: Option<seq<string>>)
    ensures a.None? <==> values.None?
    ensures a.Some? ==> |a.value| == |values.value| && Distinct(a.value)
    ensures ReadValues(a) == values
  {
    if values.None? {
      return None;
    }
    var items: seq<string> := [];
    var rest := values.value;
    while rest != {}
      invariant rest <= values.value && |items| + |rest| == |values.value| && Distinct(items)
      invariant forall x :: x in items ==> x in values.value && x !in rest
      invariant forall x :: x in values.value ==> x in rest || x in items
      decreases |rest|
    {
      var v :| v in rest;
      items := items + [v];
      rest := rest - {v};
    }
    assert (set x | x in items) == values.value;
    a := Some(items);
  }

  /**
   * The first loop of `setValuesOnToggleGroup`: an `IntArray` the size of the
   * entry values, filled with -1, receives the entry-value index of each member
   * in the set's iteration order. It throws (`ok` false) when a member finds no
   * room, that is when the set has more members than there are entry values.
   */
  method FillIndices(values: set<string>, entryValues: seq<string>) returns (indices: array<int>, ok: bool)
    ensures fresh(indices) && indices.Length == |entryValues|
    ensures ok <==> |values| <= |entryValues|
    ensures forall j :: 0 <= j < indices.Length ==> -1 <= indices[j] < |entryValues|
    ensures ok ==> IndexSet(indices[..]) == ExpectedChecked(values, entryValues)
  {
    indices := new int[|entryValues|](_ => -1);
    var indexInIndices := 0;
    var rest := values;
    ghost var picked: seq<string> := [];
    while rest != {}
      invariant 0 <= indexInIndices <= |entryValues| && indexInIndices == |picked|
      invariant indices[..] == Positions(picked, entryValues) + Unset(|entryValues| - indexInIndices)
      invariant rest <= values && |picked| + |rest| == |values|
      invariant forall x :: x in picked ==> x in values && x !in rest
      invariant forall x :: x in values ==> x in rest || x in picked
      decreases |rest|
    {
      var v :| v in rest;
      if indexInIndices == |entryValues| {
        return indices, false;
      }
      ghost var before := indices[..];
      indices[indexInIndices] := IndexOf(entryValues, v);
      assert indices[..] == before[indexInIndices := IndexOf(entryValues, v)];
      assert Positions(picked + [v], entryValues) + Unset(|entryValues| - indexInIndices - 1)
             == before[indexInIndices := IndexOf(entryValues, v)];
      indexInIndices := indexInIndices + 1;
      rest := rest - {v};
      picked := picked + [v];
    }
    PositionsIndexSet(picked, entryValues, |entryValues| - indexInIndices, values);
    ok := true;
  }

  /** The entry-value index of each picked member, in order. */
  function Positions(picked: seq<string>, entryValues: seq<string>): (r: seq<int>)
    ensures |r| == |picked| && forall j :: 0 <= j < |r| ==> r[j] == IndexOf(entryValues, picked[j])
  {
    seq(|picked|, j requires 0 <= j < |picked| => IndexOf(entryValues, picked[j]))
  }

  /** `m` unused slots of the index buffer. */
  function Unset(m: nat): (r: seq<int>)
    ensures |r| == m && forall j :: 0 <= j < m ==> r[j] == -1
  {
    seq(m, _ => -1)
  }

  /** A buffer holding the positions of every member, then unused slots, checks what the set checks. */
  lemma {:induction false} PositionsIndexSet(picked: seq<string>, entryValues: seq<string>, m: nat, values: set<string>)
    requires forall x :: x in values <==> x in picked
    ensures IndexSet(Positions(picked, entryValues) + Unset(m)) == ExpectedChecked(values, entryValues)
  {
    var s := Positions(picked, entryValues) + Unset(m);
    forall y | y in IndexSet(s)
      ensures y in ExpectedChecked(values, entryValues)
    {
      var j :| 0 <= j < |s| && s[j] >= 0 && s[j] == y;
      assert j < |picked| && picked[j] in values;
    }
    forall v | v in values && IndexOf(entryValues, v) >= 0
      ensures IndexOf(entryValues, v) in IndexSet(s)
    {
      var j :| 0 <= j < |picked| && picked[j] == v;
      assert s[j] == IndexOf(entryValues, v);
    }
  }

  /** The second loop of `setValuesOnToggleGroup`: `check` for every non-negative index. */
  method CheckAll(group: ButtonToggleGroup, indices: array<int>)
    requires !group.isSingleSelection && CheckedIndices(group.buttons) == {}
    requires forall j :: 0 <= j < indices.Length ==> -1 <= indices[j] < |group.buttons|
    modifies group
    ensures CheckedIndices(group.buttons) == IndexSet(indices[..])
    ensures SameLabels(group.buttons, old(group.buttons)) && !group.isSingleSelection
  {
    for i := 0 to indices.Length
      invariant CheckedIndices(group.buttons) == IndexSet(indices[..i])
      invariant SameLabels(group.buttons, old(group.buttons)) && !group.isSingleSelection
    {
      assert indices[..i + 1] == indices[..i] + [indices[i]];
      IndexSetSnoc(indices[..i], indices[i]);
      if indices[i] >= 0 {
        group.Check(indices[i]);
      }
    }
    assert indices[..indices.Length] == indices[..];
  }

  class MultiSelectToggleGroupPreference {
    const base: AbstractToggleGroupPreference
    var values: Option<set<string>>

    ghost predicate Valid()
      reads this, base
    {
      base.Valid()
    }

    constructor (key: string, isPersistent: bool, store: Store)
      ensures Valid() && fresh(base) && fresh(base.pref) && values.None?
      ensures base.pref.key == key && base.pref.isPersistent == isPersistent && base.pref.store == store
      ensures base.entries.None? && base.entryValues.None? && base.icons.None?
    {
      base := new AbstractToggleGroupPreference(key, isPersistent, store);
      values := None;
    }

    /** `setValueInternal`: stores and persists the set, notifying only when asked to. */
    method SetValueInternal(vs: Option<set<string>>, notify: bool)
      modifies this, base.pref
      ensures values == vs
      ensures base.pref.store == old(base.pref.Persisted(MapOption(vs, (s: set<string>) => StringSetValue(s))))
      ensures base.pref.notifyCount == old(base.pref.notifyCount) + (if notify then 1 else 0)
    {
      values := vs;
      base.pref.Persist(MapOption(vs, (s: set<string>) => StringSetValue(s)));
      if notify {
        base.pref.NotifyChanged();
      }
    }

    /** The public `values` setter: persists and notifies. */
    method SetValues(vs: Option<set<string>>)
      modifies this, base.pref
      ensures values == vs
      ensures base.pref.store == old(base.pref.Persisted(MapOption(vs, (s: set<string>) => StringSetValue(s))))
      ensures base.pref.notifyCount == old(base.pref.notifyCount) + 1
    {
      SetValueInternal(vs, true);
    }

    /**
     * `setValuesOnToggleGroup`: clears the group, writes the index of each member
     * into an `IntArray` the size of the entry values (throwing once it is full),
     * then checks every non-negative index. Texts and icons are untouched.
     */
    method SetValuesOnToggleGroup(vs: Option<set<string>>, entryValues: Option<seq<string>>, group: ButtonToggleGroup)
      returns (ok: bool)
      requires !group.isSingleSelection
      requires entryValues.Some? ==> |group.buttons| == |entryValues.value|
      modifies group
      ensures ok <==> FitsIndices(vs, entryValues)
      ensures ok ==> CheckedIndices(group.buttons) ==
                       if vs.None? || entryValues.None? then {} else ExpectedChecked(vs.value, entryValues.value)
      ensures !ok ==> CheckedIndices(group.buttons) == {}
      ensures SameLabels(group.buttons, old(group.buttons)) && !group.isSingleSelection
    {
      group.ClearChecked();
      if vs.None? || vs.value == {} || entryValues.None? {
        return true;
      }
      var indices;
      indices, ok := FillIndices(vs.value, entryValues.value);
      if ok {
        CheckAll(group, indices);
      }
    }

    /**
     * `onBindViewHolder` followed by `bind`: multiple selection, buttons set up
     * (with the intended resize), the values' buttons checked. `ok` is false
     * when setup or `setValuesOnToggleGroup` threw.
     */
    method OnBindViewHolder(group: ButtonToggleGroup) returns (ok: bool)
      requires Valid()
      modifies group
      ensures !group.isSingleSelection
      ensures var setup := SetupCorrected(old(group.buttons), base.entries, base.entryValues, base.icons);
              && (ok <==> setup.completed && FitsIndices(values, base.entryValues))
              && (setup.completed ==> SameLabels(group.buttons, setup.buttons))
              && (ok ==> CheckedIndices(group.buttons) ==
                           if values.None? || base.entryValues.None? then {}
                           else ExpectedChecked(values.value, base.entryValues.value))
    {
      group.isSingleSelection := false;
      ok := base.SetupButtonsCorrected(group);
      if !ok {
        return;
      }
      SetupCorrectedShape(old(group.buttons), base.entries, base.entryValues, base.icons);
      var entryValues := base.CopyOfEntryValues();
      var ev := if entryValues.Some? then Some(entryValues.value[..]) else None;
      ok := SetValuesOnToggleGroup(values, ev, group);
    }

    /**
     * The check listener, called after the user toggled button `index` to
     * `isChecked`. It reads the current entry values (throwing when they are
     * null or too short), offers the toggled set to the change listener, and
     * then either stores it without a notification or toggles the button back.
     */
    method OnButtonChecked(group: ButtonToggleGroup, index: int, isChecked: bool, listener: set<string> -> bool)
      returns (r: Outcome)
      requires !group.isSingleSelection && 0 <= index < |group.buttons|
      modifies this, base.pref, group
      ensures r.Failed? <==> base.entryValues.None? || index >= |base.entryValues.value|
      ensures r.Failed? ==> unchanged(this, base.pref, group)
      ensures r.Completed? ==>
                var proposed := Proposal(old(values), base.entryValues.value[index], isChecked);
                && (listener(proposed) ==>
                      && values == Some(proposed) && group.buttons == old(group.buttons)
                      && base.pref.store == old(base.pref.Persisted(Some(StringSetValue(proposed))))
                      && base.pref.notifyCount == old(base.pref.notifyCount))
                && (!listener(proposed) ==>
                      && values == old(values) && group.buttons == WithChecked(old(group.buttons), index, !isChecked)
                      && base.pref.store == old(base.pref.store) && base.pref.notifyCount == old(base.pref.notifyCount))
      ensures !group.isSingleSelection
    {
      var entryValues := base.CopyOfEntryValues();
      if entryValues.None? {
        return Failed("NullPointerException");
      }
      if index >= entryValues.value.Length {
        return Failed("ArrayIndexOutOfBoundsException");
      }
      var entryValue := entryValues.value[index];
      var newValues := if isChecked then values.GetOr({}) + {entryValue} else values.GetOr({}) - {entryValue};
      if listener(newValues) {
        SetValueInternal(Some(newValues), false);
      } else if isChecked {
        group.Uncheck(index);
      } else {
        group.Check(index);
      }
      r := Completed;
    }

    /** `onSetInitialValue`: the persisted string set, or else the default, through the public setter. */
    method OnSetInitialValue(defaultValue: Option<set<string>>)
      modifies this, base.pref
      ensures values == old(base.pref.GetPersistedStringSet(defaultValue))
      ensures base.pref.notifyCount == old(base.pref.notifyCount) + 1
      ensures base.pref.store == old(base.pref.Persisted(MapOption(base.pref.GetPersistedStringSet(defaultValue),
                                                                   (s: set<string>) => StringSetValue(s))))
    {
      SetValues(base.pref.GetPersistedStringSet(defaultValue));
    }

    /** `onSaveInstanceState`: for a non-persistent preference, the arrays and the value set. */
    method OnSaveInstanceState() returns (s: Option<SavedState>)
      requires Valid()
      ensures s.Some? <==> !base.pref.isPersistent
      ensures s.Some? ==> s.value == SavedState(EntriesState(base.entries, base.entryValues), values)
    {
      var baseState := base.OnSaveInstanceState();
      if base.pref.isPersistent {
        return None;
      }
      s := Some(SavedState(baseState.value, values));
    }

    /** `onRestoreInstanceState`: the arrays as the base restores them, the set through the public setter. */
    method OnRestoreInstanceState(s: Option<SavedState>)
      requires Valid()
      requires s.Some? ==> PairConsistent(s.value.base.entries, s.value.base.entryValues)
      modifies this, base, base.pref
      ensures Valid() && base.icons == old(base.icons)
      ensures s.Some? ==> && base.entries == s.value.base.entries && base.entryValues == s.value.base.entryValues
                          && values == s.value.values && base.pref.notifyCount == old(base.pref.notifyCount) + 1
                          && base.pref.store == old(base.pref.Persisted(MapOption(s.value.values, (x: set<string>) => StringSetValue(x))))
      ensures s.None? ==> && base.entries == old(base.entries) && base.entryValues == old(base.entryValues)
                          && values == old(values) && base.pref.store == old(base.pref.store)
                          && base.pref.notifyCount == old(base.pref.notifyCount)
    {
      if s.None? {
        return;
      }
      base.OnRestoreInstanceState(Some(s.value.base));
      SetValues(s.value.values);
    }
  }

  /** Saving, parcelling and restoring a non-persistent preference reproduces its value set and arrays. */
  method ParcelRoundTrip(p: MultiSelectToggleGroupPreference, other: Option<set<string>>)
    requires p.Valid() && !p.base.pref.isPersistent
    modifies p, p.base, p.base.pref
    ensures p.Valid()
    ensures p.values == old(p.values) && p.base.entries == old(p.base.entries) && p.base.entryValues == old(p.base.entryValues)
  {
    var saved := p.OnSaveInstanceState();
    var parcelled := WriteValues(saved.value.values);
    var read := SavedState(saved.value.base, ReadValues(parcelled));
    p.SetValues(other);
    p.OnRestoreInstanceState(Some(read));
  }
}
