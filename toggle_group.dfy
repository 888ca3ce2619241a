/**
 * `AbstractToggleGroupPreference`: the entries / entryValues / icons arrays of
 * an inline preference hosting a `MaterialButtonToggleGroup`, their validation,
 * and the resizing and relabelling of the group's buttons to match them.
 */
module ToggleGroup {
  import opened Framework

  /** A drawable, known only by identity. */
  datatype Drawable = Drawable(id: nat)

  /** One `MaterialButton` of the group: its text, its icon and whether it is checked. */
  datatype Button = Button(text: string, icon: Option<Drawable>, checked: bool)

  /** A freshly constructed `MaterialButton`. */
  const NewButton := Button("", None, false)

  type Icons = Option<seq<Option<Drawable>>>

  /** The indices of the checked buttons. */
  function CheckedIndices(bs: seq<Button>): set<int> {
    set i | 0 <= i < |bs| && bs[i].checked
  }

  /** Every button unchecked, texts and icons kept. */
  function AllUnchecked(bs: seq<Button>): (r: seq<Button>)
    ensures |r| == |bs| && CheckedIndices(r) == {}
    ensures forall i :: 0 <= i < |bs| ==> r[i].text == bs[i].text && r[i].icon == bs[i].icon
  {
    seq(|bs|, i requires 0 <= i < |bs| => bs[i].(checked := false))
  }

  /** Button `i` given the checked flag `c`, the others untouched. */
  function WithChecked(bs: seq<Button>, i: int, c: bool): (r: seq<Button>)
    requires 0 <= i < |bs|
    ensures |r| == |bs|
    ensures CheckedIndices(r) == if c then CheckedIndices(bs) + {i} else CheckedIndices(bs) - {i}
  {
    bs[i := bs[i].(checked := c)]
  }

  /** The group after `check(i)`: in single-selection mode `i` becomes the only checked button. */
  function CheckedAt(bs: seq<Button>, i: int, singleSelection: bool): (r: seq<Button>)
    requires 0 <= i < |bs|
    ensures |r| == |bs|
    ensures CheckedIndices(r) == if singleSelection then {i} else CheckedIndices(bs) + {i}
    ensures forall j :: 0 <= j < |bs| ==> r[j].text == bs[j].text && r[j].icon == bs[j].icon
  {
    if singleSelection then WithChecked(AllUnchecked(bs), i, true) else WithChecked(bs, i, true)
  }

  /** `MaterialButtonToggleGroup`, reduced to its selection mode and its list of buttons. */
  class ButtonToggleGroup {
    var isSingleSelection: bool
    var buttons: seq<Button>

    constructor (buttons: seq<Button>)
      ensures this.buttons == buttons && !isSingleSelection
    {
      this.buttons := buttons;
      isSingleSelection := false;
    }

    method ClearChecked()
      modifies this
      ensures buttons == AllUnchecked(old(buttons)) && isSingleSelection == old(isSingleSelection)
    {
      buttons := AllUnchecked(buttons);
    }

    method Check(i: int)
      requires 0 <= i < |buttons|
      modifies this
      ensures buttons == CheckedAt(old(buttons), i, isSingleSelection) && isSingleSelection == old(isSingleSelection)
    {
      buttons := CheckedAt(buttons, i, isSingleSelection);
    }

    method Uncheck(i: int)
      requires 0 <= i < |buttons|
      modifies this
      ensures buttons == WithChecked(old(buttons), i, false) && isSingleSelection == old(isSingleSelection)
    {
      buttons := WithChecked(buttons, i, false);
    }

    method RemoveAllViews()
      modifies this
      ensures buttons == [] && isSingleSelection == old(isSingleSelection)
    {
      buttons := [];
    }

    /** `ViewGroup.removeViews(start, count)`, which throws for a range outside the children. */
    method RemoveViews(start: int, count: int) returns (ok: bool)
      modifies this
      ensures ok == (0 <= start && 0 <= count && start + count <= |old(buttons)|)
      ensures ok ==> buttons == old(buttons)[..start] + old(buttons)[start + count..]
      ensures !ok ==> buttons == old(buttons)
      ensures isSingleSelection == old(isSingleSelection)
    {
      ok := 0 <= start && 0 <= count && start + count <= |buttons|;
      if ok {
        buttons := buttons[..start] + buttons[start + count..];
      }
    }

    method AddView(b: Button)
      modifies this
      ensures buttons == old(buttons) + [b] && isSingleSelection == old(isSingleSelection)
    {
      buttons := buttons + [b];
    }

    /** `text = entry` on button `i`. */
    method SetText(i: int, text: string)
      requires 0 <= i < |buttons|
      modifies this
      ensures buttons == old(buttons)[i := old(buttons)[i].(text := text)]
      ensures isSingleSelection == old(isSingleSelection)
    {
      buttons := buttons[i := buttons[i].(text := text)];
    }

    /** `icon = …` on button `i`. */
    method SetIcon(i: int, icon: Option<Drawable>)
      requires 0 <= i < |buttons|
      modifies this
      ensures buttons == old(buttons)[i := old(buttons)[i].(icon := icon)]
      ensures isSingleSelection == old(isSingleSelection)
    {
      buttons := buttons[i := buttons[i].(icon := icon)];
    }
  }

  // ---------------------------------------------------------------------------
  // checkEntries

  /** entries and entryValues are both null, or both present with one item each per option. */
  predicate PairConsistent(entries: Option<seq<string>>, entryValues: Option<seq<string>>) {
    (entries.None? && entryValues.None?) ||
    (entries.Some? && entryValues.Some? && |entries.value| == |entryValues.value|)
  }

  /** The arrays `setEntries` accepts: a consistent pair and icons that are null or match it. */
  predicate EntriesConsistent(entries: Option<seq<string>>, entryValues: Option<seq<string>>, icons: Icons) {
    PairConsistent(entries, entryValues) &&
    (entries.Some? && icons.Some? ==> |icons.value| == |entries.value|)
  }

  const BothOrNeither := "entries and entryValues must be both null or non-null"
  const SameCount := "entries and entryValues must have the same number of items"
  const IconCount := "entries, entryValues and icons must have the same number of items"

  /** `checkEntries`: passes or throws `IllegalArgumentException` with the first failing message. */
  function CheckEntries(entries: Option<seq<string>>, entryValues: Option<seq<string>>, icons: Icons): (r: Outcome)
    ensures r.Completed? <==> EntriesConsistent(entries, entryValues, icons)
    ensures icons.None? ==> (r.Completed? <==> PairConsistent(entries, entryValues))
    ensures r.Failed? ==> r.exception in {BothOrNeither, SameCount, IconCount}
    ensures r == Failed(BothOrNeither) <==> entries.Some? != entryValues.Some?
    ensures r == Failed(SameCount) <==>
              entries.Some? && entryValues.Some? && |entries.value| != |entryValues.value|
  {
    if !((entries.None? && entryValues.None?) || (entries.Some? && entryValues.Some?)) then
      Failed(BothOrNeither)
    else if entries.Some? && entryValues.Some? then
      if |entries.value| != |entryValues.value| then Failed(SameCount)
      else if icons.Some? && |entries.value| != |icons.value| then Failed(IconCount)
      else Completed
    else Completed
  }

  // ---------------------------------------------------------------------------
  // setupButtonsOnToggleGroup, as functions of the group's buttons

  /** `icons?.get(i)`. */
  function IconAt(icons: Icons, i: int): Option<Drawable>
    requires icons.Some? ==> 0 <= i < |icons.value|
  {
    if icons.None? then None else icons.value[i]
  }

  /** Buttons `0 .. m-1` relabelled with their entry and icon; the rest as they were. */
  function RelabelledUpTo(bs: seq<Button>, entries: seq<string>, icons: Icons, m: int): (r: seq<Button>)
    requires 0 <= m <= |bs| <= |entries|
    requires icons.Some? ==> m <= |icons.value|
    ensures |r| == |bs|
  {
    seq(|bs|, i requires 0 <= i < |bs| =>
      if i < m then bs[i].(text := entries[i], icon := IconAt(icons, i)) else bs[i])
  }

  /** What a setup leaves: whether it completed (or threw), and the buttons. */
  datatype Setup = Setup(completed: bool, buttons: seq<Button>)

  /**
   * The relabelling loop, which throws at the first index `k` past a non-null
   * icons array: button `k` has already been given its text by then, and keeps
   * its old icon.
   */
  function Relabelling(bs: seq<Button>, entries: seq<string>, icons: Icons): Setup
    requires |bs| <= |entries|
  {
    if icons.Some? && |icons.value| < |bs| then
      var k := |icons.value|;
      var r := RelabelledUpTo(bs, entries, icons, k);
      Setup(false, r[k := r[k].(text := entries[k])])
    else Setup(true, RelabelledUpTo(bs, entries, icons, |bs|))
  }

  /**
   * When the icons run out at index `k`, the loop throws: buttons before `k`
   * show their entry and icon, button `k` shows its entry but keeps its old
   * icon, and the buttons after it are untouched.
   */
  lemma {:induction false} RelabellingThrows(bs: seq<Button>, entries: seq<string>, icons: Icons)
    requires |bs| <= |entries| && icons.Some? && |icons.value| < |bs|
    ensures var r := Relabelling(bs, entries, icons);
            var k := |icons.value|;
            && !r.completed && |r.buttons| == |bs|
            && (forall i :: 0 <= i <= k ==> r.buttons[i].text == entries[i] && r.buttons[i].checked == bs[i].checked)
            && (forall i :: 0 <= i < k ==> r.buttons[i].icon == icons.value[i])
            && r.buttons[k].icon == bs[k].icon
            && (forall i :: k < i < |bs| ==> r.buttons[i] == bs[i])
  {
  }

  /** Two buttons, two entries and a single icon: the second button already shows "b" when the loop throws. */
  lemma ThrownRelabelShowsText(d: Option<Drawable>)
    ensures var r := Relabelling([Button("x", d, false), Button("old", d, true)], ["a", "b"], Some([None]));
            && !r.completed
            && r.buttons == [Button("a", None, false), Button("b", d, true)]
  {
    RelabellingThrows([Button("x", d, false), Button("old", d, true)], ["a", "b"], Some([None]));
  }

  /** Growing appends fresh buttons. */
  function Grown(bs: seq<Button>, n: nat): (r: seq<Button>)
    requires |bs| <= n
    ensures |r| == n && r[..|bs|] == bs
  {
    bs + seq(n - |bs|, _ => NewButton)
  }

  /**
   * The source's resize: shrinking calls `removeViews(n - 1, |bs| - n)`, which
   * keeps buttons `0 .. n-2` and the old last button; for `n == 0` the start
   * index is -1 and the call throws (see `SetupAsWritten`).
   */
  function ResizedAsWritten(bs: seq<Button>, n: nat): (r: seq<Button>)
    requires |bs| > n ==> n >= 1
    ensures |r| == n
  {
    if |bs| > n then bs[..n - 1] + bs[n - 1 + (|bs| - n)..] else Grown(bs, n)
  }

  /** The intended resize: shrinking keeps the first `n` buttons. */
  function ResizedCorrected(bs: seq<Button>, n: nat): (r: seq<Button>)
    ensures |r| == n
    ensures |bs| >= n ==> r == bs[..n]
  {
    if |bs| > n then bs[..n] else Grown(bs, n)
  }

  /** `setupButtonsOnToggleGroup` as written. */
  function SetupAsWritten(bs: seq<Button>, entries: Option<seq<string>>, entryValues: Option<seq<string>>, icons: Icons): Setup
    requires PairConsistent(entries, entryValues)
  {
    if entries.None? || entryValues.None? then Setup(true, [])
    else
      var n := |entryValues.value|;
      if |bs| > n && n == 0 then Setup(false, bs)
      else Relabelling(ResizedAsWritten(bs, n), entries.value, icons)
  }

  /** `setupButtonsOnToggleGroup` with the shrink starting at index `n`. */
  function SetupCorrected(bs: seq<Button>, entries: Option<seq<string>>, entryValues: Option<seq<string>>, icons: Icons): Setup
    requires PairConsistent(entries, entryValues)
  {
    if entries.None? || entryValues.None? then Setup(true, [])
    else Relabelling(ResizedCorrected(bs, |entryValues.value|), entries.value, icons)
  }

  /** A completed setup with both arrays present: one button per entry value, entry texts, the icons. */
  predicate LabelledAfter(r: seq<Button>, entries: seq<string>, entryValues: seq<string>, icons: Icons)
    requires |entries| == |entryValues|
  {
    && |r| == |entryValues|
    && (icons.Some? ==> |icons.value| >= |r|)
    && forall i :: 0 <= i < |r| ==> r[i].text == entries[i] && r[i].icon == IconAt(icons, i)
  }

  /**
   * After the intended setup: with a null array there are no buttons; otherwise
   * it completes exactly when the icons are null or cover every entry, and then
   * button i shows entry i with icon i, keeping the first buttons' checked flags.
   */
  lemma {:induction false} SetupCorrectedShape(bs: seq<Button>, entries: Option<seq<string>>, entryValues: Option<seq<string>>, icons: Icons)
    requires PairConsistent(entries, entryValues)
    ensures entries.None? ==> SetupCorrected(bs, entries, entryValues, icons) == Setup(true, [])
    ensures entries.Some? ==>
              var r := SetupCorrected(bs, entries, entryValues, icons);
              && (r.completed <==> icons.None? || |icons.value| >= |entryValues.value|)
              && (r.completed ==> LabelledAfter(r.buttons, entries.value, entryValues.value, icons))
              && |r.buttons| == |entryValues.value|
              && forall i :: 0 <= i < |r.buttons| && i < |bs| ==> r.buttons[i].checked == bs[i].checked
  {
    if entries.Some? {
      var n := |entryValues.value|;
      var resized := ResizedCorrected(bs, n);
      assert forall i :: 0 <= i < n && i < |bs| ==> resized[i] == bs[i] by {
        if |bs| < n {
          assert resized[..|bs|] == bs;
        }
      }
    }
  }

  /** Finding: shrinking a non-empty group to zero entries throws in the source. */
  lemma ShrinkToZeroThrowsAsWritten(b: Button)
    ensures !SetupAsWritten([b], Some([]), Some([]), None).completed
    ensures SetupCorrected([b], Some([]), Some([]), None) == Setup(true, [])
  {
  }

  /** Otherwise the source's resize differs only in which checked flags survive: labels and count agree. */
  lemma {:induction false} AsWrittenAgreesOnLabels(bs: seq<Button>, entries: seq<string>, entryValues: seq<string>, icons: Icons)
    requires |entries| == |entryValues| && |entryValues| >= 1
    ensures var w := SetupAsWritten(bs, Some(entries), Some(entryValues), icons);
            var c := SetupCorrected(bs, Some(entries), Some(entryValues), icons);
            && w.completed == c.completed && |w.buttons| == |c.buttons|
            && (w.completed ==> forall i :: 0 <= i < |w.buttons| ==>
                  w.buttons[i].text == c.buttons[i].text && w.buttons[i].icon == c.buttons[i].icon)
  {
  }

  // ---------------------------------------------------------------------------
  // The preference

  /** The instance state saved for a non-persistent toggle-group preference (icons are not saved). */
  datatype EntriesState = EntriesState(entries: Option<seq<string>>, entryValues: Option<seq<string>>)

  class AbstractToggleGroupPreference {
    const pref: Preference
    var entries: Option<seq<string>>
    var entryValues: Option<seq<string>>
    var icons: Icons

    /** The pair is kept consistent: `setEntries` checks it and restore brings back a saved consistent pair. */
    ghost predicate Valid()
      reads this
    {
      PairConsistent(entries, entryValues)
    }

    constructor (key: string, isPersistent: bool, store: Store)
      ensures Valid() && fresh(pref)
      ensures pref.key == key && pref.isPersistent == isPersistent && pref.store == store && pref.notifyCount == 0
      ensures entries.None? && entryValues.None? && icons.None?
    {
      pref := new Preference(key, isPersistent, store);
      entries, entryValues, icons := None, None, None;
    }

    /** `copyOfEntries`: a new array with the entries, which the preference does not share. */
    method CopyOfEntries() returns (r: Option<array<string>>)
      ensures r.None? <==> entries.None?
      ensures r.Some? ==> fresh(r.value) && r.value[..] == entries.value
    {
      if entries.None? {
        return None;
      }
      var items := entries.value;
      var a := new string[|items|](i requires 0 <= i < |items| => items[i]);
      r := Some(a);
    }

    /** `copyOfEntryValues`. */
    method CopyOfEntryValues() returns (r: Option<array<string>>)
      ensures r.None? <==> entryValues.None?
      ensures r.Some? ==> fresh(r.value) && r.value[..] == entryValues.value
    {
      if entryValues.None? {
        return None;
      }
      var items := entryValues.value;
      var a := new string[|items|](i requires 0 <= i < |items| => items[i]);
      r := Some(a);
    }

    /** `copyOfIcons`. */
    method CopyOfIcons() returns (r: Option<array<Option<Drawable>>>)
      ensures r.None? <==> icons.None?
      ensures r.Some? ==> fresh(r.value) && r.value[..] == icons.value
    {
      if icons.None? {
        return None;
      }
      var items := icons.value;
      var a := new Option<Drawable>[|items|](i requires 0 <= i < |items| => items[i]);
      r := Some(a);
    }

    /** `setEntries`: validates first; a rejected call changes nothing, an accepted one sets the three arrays and notifies. */
    method SetEntries(entries: Option<seq<string>>, entryValues: Option<seq<string>>, icons: Icons) returns (r: Outcome)
      requires Valid()
      modifies this, pref
      ensures Valid()
      ensures r == CheckEntries(entries, entryValues, icons)
      ensures r.Completed? ==> this.entries == entries && this.entryValues == entryValues && this.icons == icons
                               && pref.notifyCount == old(pref.notifyCount) + 1
      ensures r.Failed? ==> this.entries == old(this.entries) && this.entryValues == old(this.entryValues)
                            && this.icons == old(this.icons) && pref.notifyCount == old(pref.notifyCount)
      ensures pref.store == old(pref.store)
    {
      r := CheckEntries(entries, entryValues, icons);
      if r.Failed? {
        return;
      }
      this.entries := entries;
      this.entryValues := entryValues;
      this.icons := icons;
      pref.NotifyChanged();
    }

    /** `onSaveInstanceState`: only a non-persistent preference saves, and then entries and entry values. */
    method OnSaveInstanceState() returns (s: Option<EntriesState>)
      requires Valid()
      ensures s.Some? <==> !pref.isPersistent
      ensures s.Some? ==> s.value == EntriesState(entries, entryValues) && PairConsistent(s.value.entries, s.value.entryValues)
    {
      if pref.isPersistent {
        return None;
      }
      s := Some(EntriesState(entries, entryValues));
    }

    /** `onRestoreInstanceState`: assigns the saved arrays directly, without `checkEntries`; icons stay. */
    method OnRestoreInstanceState(s: Option<EntriesState>)
      requires Valid()
      requires s.Some? ==> PairConsistent(s.value.entries, s.value.entryValues)
      modifies this
      ensures Valid() && icons == old(icons)
      ensures s.Some? ==> entries == s.value.entries && entryValues == s.value.entryValues
      ensures s.None? ==> entries == old(entries) && entryValues == old(entryValues)
    {
      if s.Some? {
        entries := s.value.entries;
        entryValues := s.value.entryValues;
      }
    }

    /** The relabelling loop over every child. */
    method RelabelButtons(group: ButtonToggleGroup) returns (ok: bool)
      requires entries.Some? && |group.buttons| <= |entries.value|
      modifies group
      ensures Setup(ok, group.buttons) == Relabelling(old(group.buttons), entries.value, icons)
      ensures group.isSingleSelection == old(group.isSingleSelection)
    {
      var n := |group.buttons|;
      var i := 0;
      while i < n
        invariant 0 <= i <= n == |group.buttons|
        invariant icons.Some? ==> i <= |icons.value|
        invariant group.buttons == RelabelledUpTo(old(group.buttons), entries.value, icons, i)
        invariant group.isSingleSelection == old(group.isSingleSelection)
      {
        group.SetText(i, entries.value[i]);
        if icons.Some? && i >= |icons.value| {
          return false;
        }
        group.SetIcon(i, IconAt(icons, i));
        i := i + 1;
      }
      ok := true;
    }

    /** The append loop: fresh buttons until there are `n`. */
    static method GrowTo(group: ButtonToggleGroup, n: nat)
      requires |group.buttons| <= n
      modifies group
      ensures group.buttons == Grown(old(group.buttons), n)
      ensures group.isSingleSelection == old(group.isSingleSelection)
    {
      var i := |group.buttons|;
      while i < n
        invariant |old(group.buttons)| <= i <= n && i == |group.buttons|
        invariant group.buttons == old(group.buttons) + seq(i - |old(group.buttons)|, _ => NewButton)
        invariant group.isSingleSelection == old(group.isSingleSelection)
      {
        group.AddView(NewButton);
        i := i + 1;
      }
    }

    /** `setupButtonsOnToggleGroup` as the source has it (see `ResizedAsWritten`). */
    method SetupButtonsOnToggleGroup(group: ButtonToggleGroup) returns (ok: bool)
      requires Valid()
      modifies group
      ensures Setup(ok, group.buttons) == SetupAsWritten(old(group.buttons), entries, entryValues, icons)
      ensures group.isSingleSelection == old(group.isSingleSelection)
    {
      if entries.None? || entryValues.None? {
        group.RemoveAllViews();
        return true;
      }
      var n := |entryValues.value|;
      var difference := |group.buttons| - n;
      if difference > 0 {
        var removed := group.RemoveViews(n - 1, difference);
        if !removed {
          return false;
        }
      } else if difference < 0 {
        GrowTo(group, n);
      }
      ok := RelabelButtons(group);
    }

    /** `setupButtonsOnToggleGroup` with `removeViews(n, difference)`: the version the bind path uses. */
    method SetupButtonsCorrected(group: ButtonToggleGroup) returns (ok: bool)
      requires Valid()
      modifies group
      ensures Setup(ok, group.buttons) == SetupCorrected(old(group.buttons), entries, entryValues, icons)
      ensures group.isSingleSelection == old(group.isSingleSelection)
    {
      if entries.None? || entryValues.None? {
        group.RemoveAllViews();
        return true;
      }
      var n := |entryValues.value|;
      var difference := |group.buttons| - n;
      if difference > 0 {
        var removed := group.RemoveViews(n, difference);
        assert removed;
      } else if difference < 0 {
        GrowTo(group, n);
      }
      ok := RelabelButtons(group);
    }
  }
}
