# Custom preferences: a verified model of their state logic

This project models the state logic of a library of custom androidx
`Preference` widgets, with the widgets' Android views taken out of the picture:

- **Toggle-group preferences.** `AbstractToggleGroupPreference` validates its
  parallel entries / entryValues / icons arrays. It also resizes and relabels
  the buttons of a `MaterialButtonToggleGroup` to match them.
- **Single-select preference.** `ToggleGroupPreference` keeps one value.
- **Multi-select preference.** `MultiSelectToggleGroupPreference` keeps a set
  of values. Each button reflects the stored value or values. A click is
  offered to the change listener, which may veto it; a vetoed click is undone
  on the group.
- **Colour-list adapter.** `MaterialColorPickerAdapter` picks the tick colour
  by a majority vote over dark colours. It holds one selected colour, which
  clicks change. A click notifies only the old colour's first position and
  the clicked item. So when a colour occurs twice in the list, a copy that
  loses the check is not redrawn and keeps its check mark
  (`ColorAdapter.DuplicateLeftStale`).
- **Colour preference.** `PredefinedColorPickerPreference` keeps a nullable
  colour int. `Int.MIN_VALUE` stands for "no colour" in the store and in the
  parcel. The summary is `#` plus the unsigned hex of the colour.
- **Slider preference.** `SliderPreference` has six properties. `setProperties`
  updates only the non-null ones, and `Properties.Builder` builds that update.
  A touch may be vetoed, which moves the slider back. The instance state is
  written to and read from a parcel.
- **Time preference and `Preferences.kt`.** `TimePickerPreference` and the
  `Preferences.kt` extensions share the `HH:mm` time codec. The extensions
  read and write a `LocalTime` under a key, for both SharedPreferences and
  PreferenceDataStore.
- **Dialog dispatch.** `AbstractCustomDialogPreference.displayDialog` offers a
  display request to a fixed chain of callbacks, stopping at the first that
  handles it. If none handles it, the preference shows its dialog, but only
  when no dialog is already shown under the preference dialog tag.

The androidx parts the preferences build on are reduced to values in module
`Framework`:

- The SharedPreferences store is a map. Persisting null removes the key.
- `notifyChanged` calls are counted.
- `callChangeListener` is a predicate passed in by the caller.
- `ColorUtil.isDarkColor` and `Color.parseColor` are functions passed in by
  the caller.

Kotlin `Int` is the newtype `int32`. `Float` is kept as its 32-bit pattern,
because no arithmetic is done on it. An exception is modelled as a
`Result`/`Outcome` value carrying the exception's class name, or, for the
`require` checks of `checkEntries`, the failed requirement's message.

Exceptions are handled like this:

- A method whose source can throw returns an `Outcome`. For example,
  `setEntries` returns the result of `checkEntries`, and `onSetInitialValue`
  fails for a default that does not parse.
- A thrown call changes nothing.
- A setup that throws part-way leaves the buttons as they were at that point.
  In the relabelling loop that includes the text just set on the button whose
  icon lookup threw.

Modules and files:

| module | file | models |
|---|---|---|
| `Framework` | framework.dfy | the androidx parts above, `indexOf` |
| `ToggleGroup` | toggle_group.dfy | `AbstractToggleGroupPreference`, the toggle group's button list |
| `SingleSelect` | single_select.dfy | `ToggleGroupPreference` |
| `MultiSelect` | multi_select.dfy | `MultiSelectToggleGroupPreference` |
| `ColorAdapter` | color_adapter.dfy | `MaterialColorPickerAdapter` |
| `ColorPreference` | color_preference.dfy | `PredefinedColorPickerPreference` |
| `Slider` | slider.dfy | `SliderPreference` |
| `LocalTimeCodec` | local_time.dfy | the `HH:mm` codec, `Preferences.kt` |
| `TimePicker` | time_picker.dfy | `TimePickerPreference` |
| `Dialog` | dialog.dfy | `AbstractCustomDialogPreference.displayDialog` |

## Model

| member | source | states |
|---|---|---|
| ToggleGroup.CheckEntries | custom-preferences/src/main/java/com/sixtyninefourtwenty/custompreferences/AbstractToggleGroupPreference.kt:61-79 | passes exactly when entries and entryValues are both null, or both present with one item per option and icons null or of that length; fails with "both null or non-null" exactly when one of the pair is null, and with the same-count message exactly when the pair's lengths differ; null icons are always allowed |
| ToggleGroup.AbstractToggleGroupPreference.SetEntries | custom-preferences/src/main/java/com/sixtyninefourtwenty/custompreferences/AbstractToggleGroupPreference.kt:81-92 | validates first: a rejected call leaves entries, entryValues, icons and the notification count unchanged; an accepted one sets exactly those three fields and notifies once; the consistent-pair invariant is kept |
| ToggleGroup.AbstractToggleGroupPreference.CopyOfEntries | custom-preferences/src/main/java/com/sixtyninefourtwenty/custompreferences/AbstractToggleGroupPreference.kt:57 | null exactly when the entries are; otherwise a newly allocated array (so the preference never shares it) holding the entries |
| ToggleGroup.AbstractToggleGroupPreference.CopyOfEntryValues | custom-preferences/src/main/java/com/sixtyninefourtwenty/custompreferences/AbstractToggleGroupPreference.kt:58 | the same for the entry values |
| ToggleGroup.AbstractToggleGroupPreference.CopyOfIcons | custom-preferences/src/main/java/com/sixtyninefourtwenty/custompreferences/AbstractToggleGroupPreference.kt:59 | the same for the icons |
| ToggleGroup.AbstractToggleGroupPreference.OnSaveInstanceState | custom-preferences/src/main/java/com/sixtyninefourtwenty/custompreferences/AbstractToggleGroupPreference.kt:147-158 | a state exists exactly for a non-persistent preference; it carries entries and entryValues (a consistent pair) and no icons |
| ToggleGroup.AbstractToggleGroupPreference.OnRestoreInstanceState | custom-preferences/src/main/java/com/sixtyninefourtwenty/custompreferences/AbstractToggleGroupPreference.kt:160-171 | assigns the saved entries and entryValues directly, without validation; icons are left as they were; no state changes nothing |
| ToggleGroup.AbstractToggleGroupPreference.GrowTo | custom-preferences/src/main/java/com/sixtyninefourtwenty/custompreferences/AbstractToggleGroupPreference.kt:107-118 | the append loop: the old buttons followed by new unlabelled, unchecked buttons up to the entry count |
| ToggleGroup.AbstractToggleGroupPreference.RelabelButtons | custom-preferences/src/main/java/com/sixtyninefourtwenty/custompreferences/AbstractToggleGroupPreference.kt:119-127 | the relabelling loop: button i gets entry i and icon i (no icon for null icons); at the first index past a shorter icons array it throws after setting that button's text and before setting its icon, with the earlier buttons already relabelled and the later ones untouched |
| ToggleGroup.AbstractToggleGroupPreference.SetupButtonsOnToggleGroup | custom-preferences/src/main/java/com/sixtyninefourtwenty/custompreferences/AbstractToggleGroupPreference.kt:94-128 | the setup as written: null arrays remove every button; shrinking removes `difference` buttons from index `size - 1` (and throws for `size` 0); growing appends; then every button is relabelled, throwing as the relabelling loop does |
| ToggleGroup.AbstractToggleGroupPreference.SetupButtonsCorrected | custom-preferences/src/main/java/com/sixtyninefourtwenty/custompreferences/AbstractToggleGroupPreference.kt:94-128 | the setup with shrinking from index `size`, which never throws in the resize; then the relabelling loop, with its throw when the icons run out |
| ToggleGroup.SetupCorrectedShape | custom-preferences/src/main/java/com/sixtyninefourtwenty/custompreferences/AbstractToggleGroupPreference.kt:100-127 | after setup: null arrays leave no button; otherwise there is one button per entry value, the setup completes exactly when icons are null or cover every entry, and then button i shows entry i with icon i; the buttons kept keep their checked flags |
| ToggleGroup.RelabellingThrows | custom-preferences/src/main/java/com/sixtyninefourtwenty/custompreferences/AbstractToggleGroupPreference.kt:119-126 | when the icons run out at index k the loop throws: buttons before k show entry and icon, button k shows its entry with its old icon, later buttons are untouched, and no checked flag changes |
| ToggleGroup.ThrownRelabelShowsText | custom-preferences/src/main/java/com/sixtyninefourtwenty/custompreferences/AbstractToggleGroupPreference.kt:122-125 | two buttons, two entries and one icon: the loop throws with the second button already showing its new text |
| ToggleGroup.ShrinkToZeroThrowsAsWritten | custom-preferences/src/main/java/com/sixtyninefourtwenty/custompreferences/AbstractToggleGroupPreference.kt:104-106 | shrinking a one-button group to zero entries throws as written, and leaves no button with the correction |
| ToggleGroup.AsWrittenAgreesOnLabels | custom-preferences/src/main/java/com/sixtyninefourtwenty/custompreferences/AbstractToggleGroupPreference.kt:104-127 | for at least one entry, the setup as written and the corrected one agree on completion, button count, texts and icons |
| SingleSelect.SelectedIndex | custom-preferences/src/main/java/com/sixtyninefourtwenty/custompreferences/ToggleGroupPreference.kt:86-94 | the button for a value is non-negative exactly when the value and the entry values are present and the value is an entry value; then it is the value's first position |
| SingleSelect.SimpleSummary | custom-preferences/src/main/java/com/sixtyninefourtwenty/custompreferences/ToggleGroupPreference.kt:203-214 | the entry at the value's first position among the entry values when the value is there, and "not set" otherwise (null value, null arrays, value not an entry value) |
| SingleSelect.ToggleGroupPreference.SetValueInternal | custom-preferences/src/main/java/com/sixtyninefourtwenty/custompreferences/ToggleGroupPreference.kt:72-78 | stores the value and persists it as a string (null removes the key); notifies exactly when asked to |
| SingleSelect.ToggleGroupPreference.SetValue | custom-preferences/src/main/java/com/sixtyninefourtwenty/custompreferences/ToggleGroupPreference.kt:68-70 | the public setter both persists and notifies once |
| SingleSelect.ToggleGroupPreference.SetValueOnToggleGroup | custom-preferences/src/main/java/com/sixtyninefourtwenty/custompreferences/ToggleGroupPreference.kt:80-97 | no button is checked for a null value, null entry values or a value that is not an entry value; otherwise exactly the button at the value's first position; texts and icons untouched |
| SingleSelect.ToggleGroupPreference.OnBindViewHolder | custom-preferences/src/main/java/com/sixtyninefourtwenty/custompreferences/ToggleGroupPreference.kt:124-128 | single selection is set, the buttons are set up, and the value's button (only) is checked; the entry values captured for the click listeners match the buttons |
| SingleSelect.ToggleGroupPreference.OnButtonClick | custom-preferences/src/main/java/com/sixtyninefourtwenty/custompreferences/ToggleGroupPreference.kt:128-144 | accepted: the button's entry value becomes the value and is persisted, with no notification; vetoed: value and store unchanged, the old value's button re-checked, or the group cleared when the old value is not an entry value |
| SingleSelect.ToggleGroupPreference.OnSetInitialValue | custom-preferences/src/main/java/com/sixtyninefourtwenty/custompreferences/ToggleGroupPreference.kt:151-153 | the value becomes the persisted string, or else the default, through the public setter |
| SingleSelect.ToggleGroupPreference.OnSaveInstanceState | custom-preferences/src/main/java/com/sixtyninefourtwenty/custompreferences/ToggleGroupPreference.kt:155-164 | a state exactly for a non-persistent preference, with the arrays and the value |
| SingleSelect.ToggleGroupPreference.OnRestoreInstanceState | custom-preferences/src/main/java/com/sixtyninefourtwenty/custompreferences/ToggleGroupPreference.kt:166-174 | the arrays as the base restores them, the value through the public setter; no state changes nothing |
| SingleSelect.SaveRestoreRoundTrip | custom-preferences/src/main/java/com/sixtyninefourtwenty/custompreferences/ToggleGroupPreference.kt:155-174 | save, any other value, restore: the value, the arrays and the store are as before |
| MultiSelect.ExpectedCheckedMeans | custom-preferences/src/main/java/com/sixtyninefourtwenty/custompreferences/MultiSelectToggleGroupPreference.kt:83-95 | button i is checked for a value set exactly when entry value i is a member and does not occur earlier among the entry values |
| MultiSelect.ExpectedCheckedDistinct | custom-preferences/src/main/java/com/sixtyninefourtwenty/custompreferences/MultiSelectToggleGroupPreference.kt:91-95 | with distinct entry values the checked buttons are exactly those whose entry value is in the set |
| MultiSelect.FillIndices | custom-preferences/src/main/java/com/sixtyninefourtwenty/custompreferences/MultiSelectToggleGroupPreference.kt:85-90 | a new `IntArray` of entry-value size with every slot in -1 .. size-1; it throws exactly when the set has more members than slots, and otherwise its non-negative slots are { indexOf(v) \| v in values, indexOf(v) >= 0 } |
| MultiSelect.PositionsIndexSet | custom-preferences/src/main/java/com/sixtyninefourtwenty/custompreferences/MultiSelectToggleGroupPreference.kt:85-90 | a buffer holding each member's index, then unused slots, designates the buttons the set should check |
| MultiSelect.CheckAll | custom-preferences/src/main/java/com/sixtyninefourtwenty/custompreferences/MultiSelectToggleGroupPreference.kt:91-95 | starting from a cleared multi-selection group, the checked buttons are exactly the buffer's non-negative slots; texts and icons untouched |
| MultiSelect.MultiSelectToggleGroupPreference.SetValuesOnToggleGroup | custom-preferences/src/main/java/com/sixtyninefourtwenty/custompreferences/MultiSelectToggleGroupPreference.kt:74-98 | no button checked for a null or empty set or null entry values; otherwise the group is cleared and exactly the members' first positions are checked; throws exactly when the set outgrows the index buffer, leaving the group cleared |
| MultiSelect.MultiSelectToggleGroupPreference.OnBindViewHolder | custom-preferences/src/main/java/com/sixtyninefourtwenty/custompreferences/MultiSelectToggleGroupPreference.kt:127-131 | multiple selection is set, the buttons set up, and the checked buttons are the ones the value set designates; `ok` is false exactly when setup or the index buffer threw |
| MultiSelect.Proposal | custom-preferences/src/main/java/com/sixtyninefourtwenty/custompreferences/MultiSelectToggleGroupPreference.kt:109-113 | the proposed set holds the toggled entry value exactly when the button was checked, and agrees with the stored set (null read as empty) on every other string |
| MultiSelect.MultiSelectToggleGroupPreference.OnButtonChecked | custom-preferences/src/main/java/com/sixtyninefourtwenty/custompreferences/MultiSelectToggleGroupPreference.kt:100-125 | throws, changing nothing, for null entry values or a button past them; an accepted proposal becomes the set and is persisted without notifying; a vetoed one leaves set and store and flips the button back |
| MultiSelect.AcceptedToggleInSync | custom-preferences/src/main/java/com/sixtyninefourtwenty/custompreferences/MultiSelectToggleGroupPreference.kt:109-122 | for distinct entry values, a group that showed the set before a toggle shows the accepted proposal after it |
| MultiSelect.MultiSelectToggleGroupPreference.SetValueInternal | custom-preferences/src/main/java/com/sixtyninefourtwenty/custompreferences/MultiSelectToggleGroupPreference.kt:66-72 | stores the set and persists it as a string set; notifies exactly when asked to |
| MultiSelect.MultiSelectToggleGroupPreference.SetValues | custom-preferences/src/main/java/com/sixtyninefourtwenty/custompreferences/MultiSelectToggleGroupPreference.kt:62-64 | the public setter both persists and notifies once |
| MultiSelect.MultiSelectToggleGroupPreference.OnSetInitialValue | custom-preferences/src/main/java/com/sixtyninefourtwenty/custompreferences/MultiSelectToggleGroupPreference.kt:142-144 | the set becomes the persisted string set, or else the default, through the public setter |
| MultiSelect.ValuesSummary | custom-preferences/src/main/java/com/sixtyninefourtwenty/custompreferences/MultiSelectToggleGroupPreference.kt:190-201 | `summaryWhenSet(values)` for every non-null set, the empty one included; "not set" exactly for null |
| MultiSelect.MultiSelectToggleGroupPreference.OnSaveInstanceState | custom-preferences/src/main/java/com/sixtyninefourtwenty/custompreferences/MultiSelectToggleGroupPreference.kt:146-155 | a state exactly for a non-persistent preference, with the arrays and the set |
| MultiSelect.MultiSelectToggleGroupPreference.OnRestoreInstanceState | custom-preferences/src/main/java/com/sixtyninefourtwenty/custompreferences/MultiSelectToggleGroupPreference.kt:157-165 | the arrays as the base restores them, the set through the public setter; no state changes nothing |
| MultiSelect.WriteValues | custom-preferences/src/main/java/com/sixtyninefourtwenty/custompreferences/MultiSelectToggleGroupPreference.kt:178-181 | the string array written for a set has each member once, and reading it back as a set gives the set (null for null) |
| MultiSelect.ParcelRoundTrip | custom-preferences/src/main/java/com/sixtyninefourtwenty/custompreferences/MultiSelectToggleGroupPreference.kt:146-181 | save, parcel, any other set, restore: the set and the arrays are as before |
| ColorAdapter.CountDarkIsCardinality | colorpicker/src/main/kotlin/com/github/dhaval2404/colorpicker/adapter/MaterialColorPickerAdapter.kt:28 | `count { isDark }` is the number of positions holding a dark colour |
| ColorAdapter.MajorityDarkMeans | colorpicker/src/main/kotlin/com/github/dhaval2404/colorpicker/adapter/MaterialColorPickerAdapter.kt:27-30 | the list is dark exactly when twice the number of dark positions is at least its length; an empty list counts as dark |
| ColorAdapter.MaterialColorPickerAdapter.constructor | colorpicker/src/main/kotlin/com/github/dhaval2404/colorpicker/adapter/MaterialColorPickerAdapter.kt:19-30 | keeps the list; the majority rule decides `isDarkColor`; selection "", circle shape, no tick colour per card |
| ColorAdapter.MaterialColorPickerAdapter.SetColorShape | colorpicker/src/main/kotlin/com/github/dhaval2404/colorpicker/adapter/MaterialColorPickerAdapter.kt:32-34 | sets the shape, nothing else |
| ColorAdapter.MaterialColorPickerAdapter.SetDefaultColor | colorpicker/src/main/kotlin/com/github/dhaval2404/colorpicker/adapter/MaterialColorPickerAdapter.kt:36-38 | stores any string as the selection, in the list or not; nothing else changes |
| ColorAdapter.MaterialColorPickerAdapter.SetTickColorPerCard | colorpicker/src/main/kotlin/com/github/dhaval2404/colorpicker/adapter/MaterialColorPickerAdapter.kt:40-42 | sets the flag, nothing else |
| ColorAdapter.MaterialColorPickerAdapter.GetSelectedColor | colorpicker/src/main/kotlin/com/github/dhaval2404/colorpicker/adapter/MaterialColorPickerAdapter.kt:44 | the selection |
| ColorAdapter.MaterialColorPickerAdapter.GetItem | colorpicker/src/main/kotlin/com/github/dhaval2404/colorpicker/adapter/MaterialColorPickerAdapter.kt:46 | the colour at a position inside the list, `IndexOutOfBoundsException` exactly outside it |
| ColorAdapter.MaterialColorPickerAdapter.GetItemCount | colorpicker/src/main/kotlin/com/github/dhaval2404/colorpicker/adapter/MaterialColorPickerAdapter.kt:48 | the length of the (immutable) list |
| ColorAdapter.MaterialColorPickerAdapter.OnItemClick | colorpicker/src/main/kotlin/com/github/dhaval2404/colorpicker/adapter/MaterialColorPickerAdapter.kt:66-75 | the clicked colour becomes the selection and nothing else changes; the items notified are the old selection's first position (-1 exactly when it was not in the list) and the clicked one |
| ColorAdapter.MaterialColorPickerAdapter.Bind | colorpicker/src/main/kotlin/com/github/dhaval2404/colorpicker/adapter/MaterialColorPickerAdapter.kt:78-95 | the item shows its colour in the current shape; the check shows exactly when its colour is the selection; the tick is white exactly when (tick colour per card ? its own colour is dark : the list is mostly dark) |
| ColorAdapter.AtMostOneChecked | colorpicker/src/main/kotlin/com/github/dhaval2404/colorpicker/adapter/MaterialColorPickerAdapter.kt:86-87 | with distinct colours the checked items are the selection's index alone, or none when it is not in the list |
| ColorAdapter.ClickRefreshesEveryChange | colorpicker/src/main/kotlin/com/github/dhaval2404/colorpicker/adapter/MaterialColorPickerAdapter.kt:70-74 | with distinct colours every item whose check changes on a click is one of the two notified |
| ColorAdapter.DuplicateLeftStale | colorpicker/src/main/kotlin/com/github/dhaval2404/colorpicker/adapter/MaterialColorPickerAdapter.kt:70-74 | with a repeated colour a click can change an item that is not notified: in ["#000000", "#000000", "#ffffff"], clicking item 2 unchecks item 1, but only item 0 and item 2 are notified |
| ColorAdapter.ClickThenBind | colorpicker/src/main/kotlin/com/github/dhaval2404/colorpicker/adapter/MaterialColorPickerAdapter.kt:66-95 | after a click on item n, an item shows the check exactly when its colour is item n's (every copy is checked) |
| ColorPreference.FromSentinel | custom-preferences/src/main/java/com/sixtyninefourtwenty/custompreferences/PredefinedColorPickerPreference.kt:134 | an int reads back as no colour exactly when it is `Int.MIN_VALUE`, and as itself otherwise |
| ColorPreference.SentinelRoundTrip | custom-preferences/src/main/java/com/sixtyninefourtwenty/custompreferences/PredefinedColorPickerPreference.kt:131-135 | writing a colour or the sentinel and reading it back gives the colour exactly when it is not `Int.MIN_VALUE`, which reads back as no colour |
| ColorPreference.PredefinedColorPickerPreference.SetColor | custom-preferences/src/main/java/com/sixtyninefourtwenty/custompreferences/PredefinedColorPickerPreference.kt:57-62 | stores the colour, persists it (or `Int.MIN_VALUE` for null) and notifies once |
| ColorPreference.PredefinedColorPickerPreference.RequireColor | custom-preferences/src/main/java/com/sixtyninefourtwenty/custompreferences/PredefinedColorPickerPreference.kt:69-70 | the colour when set; `IllegalStateException` exactly when it is null |
| ColorPreference.DefaultColorInt | custom-preferences/src/main/java/com/sixtyninefourtwenty/custompreferences/PredefinedColorPickerPreference.kt:133 | the sentinel for a null or blank default (Kotlin whitespace); otherwise the parsed colour, throwing exactly when parsing fails |
| ColorPreference.PredefinedColorPickerPreference.OnSetInitialValue | custom-preferences/src/main/java/com/sixtyninefourtwenty/custompreferences/PredefinedColorPickerPreference.kt:131-135 | the persisted int, or else the default's int, read back with the sentinel rule, through the setter; a default that does not parse throws before anything changes |
| ColorPreference.PersistThenInitialValue | custom-preferences/src/main/java/com/sixtyninefourtwenty/custompreferences/PredefinedColorPickerPreference.kt:131-135 | for a persisting preference, setting a colour and then initialising from the store gives it back exactly when it is not `Int.MIN_VALUE` |
| ColorPreference.PredefinedColorPickerPreference.SetAvailableColors | custom-preferences/src/main/java/com/sixtyninefourtwenty/custompreferences/PredefinedColorPickerPreference.kt:86-88 | the preference keeps the caller's array itself; the colour is unchanged |
| ColorPreference.PredefinedColorPickerPreference.CopyOfAvailableColors | custom-preferences/src/main/java/com/sixtyninefourtwenty/custompreferences/PredefinedColorPickerPreference.kt:90 | a newly allocated array with the same colours |
| ColorPreference.PredefinedColorPickerPreference.CreateDialog | custom-preferences/src/main/java/com/sixtyninefourtwenty/custompreferences/PredefinedColorPickerPreference.kt:93-107 | the picker gets the title when there is one, the available colours, and the colour as its default when set |
| ColorPreference.PredefinedColorPickerPreference.OnColorPicked | custom-preferences/src/main/java/com/sixtyninefourtwenty/custompreferences/PredefinedColorPickerPreference.kt:108-112 | a picked colour goes through the setter exactly when the change listener accepts it; otherwise nothing changes |
| ColorPreference.PredefinedColorPickerPreference.SwatchColor | custom-preferences/src/main/java/com/sixtyninefourtwenty/custompreferences/PredefinedColorPickerPreference.kt:117-125 | the swatch is tinted with the colour, or transparent without one |
| ColorPreference.PredefinedColorPickerPreference.OnSaveInstanceState | custom-preferences/src/main/java/com/sixtyninefourtwenty/custompreferences/PredefinedColorPickerPreference.kt:137-146 | a state exactly for a non-persistent preference, with the colour and the colours |
| ColorPreference.PredefinedColorPickerPreference.OnRestoreInstanceState | custom-preferences/src/main/java/com/sixtyninefourtwenty/custompreferences/PredefinedColorPickerPreference.kt:148-156 | the colour through the setter, then the colours; no state changes nothing |
| ColorPreference.ReadSavedState | custom-preferences/src/main/java/com/sixtyninefourtwenty/custompreferences/PredefinedColorPickerPreference.kt:163-166 | a parcel reads as a state exactly when it starts with an int and a non-null int array; the colour is the int under the sentinel rule and the colours are the array's contents |
| ColorPreference.ParcelRoundTrip | custom-preferences/src/main/java/com/sixtyninefourtwenty/custompreferences/PredefinedColorPickerPreference.kt:163-176 | reading what was written gives the colours back always, and the whole state back exactly when the colour is not `Int.MIN_VALUE` |
| ColorPreference.SaveRestoreRoundTrip | custom-preferences/src/main/java/com/sixtyninefourtwenty/custompreferences/PredefinedColorPickerPreference.kt:137-176 | save, parcel, any other colour, restore: the colour and the colours are as before |
| ColorPreference.HexRoundTrip | custom-preferences/src/main/java/com/sixtyninefourtwenty/custompreferences/PredefinedColorPickerPreference.kt:194 | `Integer.toHexString` has at most eight digits, which read back as the unsigned value and so as the same colour int |
| ColorPreference.ColorSummary | custom-preferences/src/main/java/com/sixtyninefourtwenty/custompreferences/PredefinedColorPickerPreference.kt:190-199 | "not set" exactly without a colour; otherwise "#" and at most eight lower-case hex digits without leading zeros ("0" only for colour 0) that read back as the colour |
| Slider.Apply | custom-preferences/src/main/java/com/sixtyninefourtwenty/custompreferences/SliderPreference.kt:96-113 | each property takes the update's field when it is non-null and keeps its value otherwise |
| Slider.ApplyLaws | custom-preferences/src/main/java/com/sixtyninefourtwenty/custompreferences/SliderPreference.kt:87-115 | an all-null update changes nothing, repeating an update changes nothing more, two updates are one merged update, and a full update replaces the state |
| Slider.SliderPreference.SetProperties | custom-preferences/src/main/java/com/sixtyninefourtwenty/custompreferences/SliderPreference.kt:88-115 | exactly the non-null arguments overwrite their properties; one notification; nothing is persisted, not even a new value |
| Slider.SliderPreference.SetPropertiesOf | custom-preferences/src/main/java/com/sixtyninefourtwenty/custompreferences/SliderPreference.kt:120-127 | the same as the six-argument call with the record's fields |
| Slider.PropertiesBuilder.constructor | custom-preferences/src/main/java/com/sixtyninefourtwenty/custompreferences/SliderPreference.kt:139-144 | a new builder has every field null |
| Slider.PropertiesBuilder.SetValue | custom-preferences/src/main/java/com/sixtyninefourtwenty/custompreferences/SliderPreference.kt:146 | sets that one field and returns the builder itself |
| Slider.PropertiesBuilder.SetValueFrom | custom-preferences/src/main/java/com/sixtyninefourtwenty/custompreferences/SliderPreference.kt:147 | the same for `valueFrom` |
| Slider.PropertiesBuilder.SetValueTo | custom-preferences/src/main/java/com/sixtyninefourtwenty/custompreferences/SliderPreference.kt:148 | the same for `valueTo` |
| Slider.PropertiesBuilder.SetStepSize | custom-preferences/src/main/java/com/sixtyninefourtwenty/custompreferences/SliderPreference.kt:149 | the same for `stepSize` |
| Slider.PropertiesBuilder.SetTickVisible | custom-preferences/src/main/java/com/sixtyninefourtwenty/custompreferences/SliderPreference.kt:150 | the same for `isTickVisible` |
| Slider.PropertiesBuilder.SetLabelVisible | custom-preferences/src/main/java/com/sixtyninefourtwenty/custompreferences/SliderPreference.kt:151 | the same for `isLabelVisible` |
| Slider.PropertiesBuilder.Build | custom-preferences/src/main/java/com/sixtyninefourtwenty/custompreferences/SliderPreference.kt:152 | the record of the builder's fields |
| Slider.BuildAndApply | custom-preferences/src/main/java/com/sixtyninefourtwenty/custompreferences/SliderPreference.kt:120-127 | a built record with a value and a lower bound, applied, changes exactly those two properties |
| Slider.StyledProperties | custom-preferences/src/main/java/com/sixtyninefourtwenty/custompreferences/SliderPreference.kt:178-188 | `init` leaves the value alone and sets each other property to its styled attribute or, when absent, its default |
| Slider.SliderPreference.constructor | custom-preferences/src/main/java/com/sixtyninefourtwenty/custompreferences/SliderPreference.kt:178-188 | the defaults 0, 0, 100, 1, tick visible, label visible, overridden by the styled attributes except the value; one notification |
| Slider.SliderPreference.SetValueInternal | custom-preferences/src/main/java/com/sixtyninefourtwenty/custompreferences/SliderPreference.kt:170-176 | sets the value and persists it as a float; notifies exactly when asked to; the other properties are unchanged |
| Slider.SliderPreference.SetValue | custom-preferences/src/main/java/com/sixtyninefourtwenty/custompreferences/SliderPreference.kt:43-45 | the value setter persists and notifies |
| Slider.SliderPreference.SetValueFrom | custom-preferences/src/main/java/com/sixtyninefourtwenty/custompreferences/SliderPreference.kt:46-52 | sets that property alone and notifies, persisting nothing |
| Slider.SliderPreference.SetValueTo | custom-preferences/src/main/java/com/sixtyninefourtwenty/custompreferences/SliderPreference.kt:53-59 | the same for `valueTo` |
| Slider.SliderPreference.SetStepSize | custom-preferences/src/main/java/com/sixtyninefourtwenty/custompreferences/SliderPreference.kt:60-66 | the same for `stepSize` |
| Slider.SliderPreference.SetTickVisible | custom-preferences/src/main/java/com/sixtyninefourtwenty/custompreferences/SliderPreference.kt:67-73 | the same for `isTickVisible` |
| Slider.SliderPreference.SetLabelVisible | custom-preferences/src/main/java/com/sixtyninefourtwenty/custompreferences/SliderPreference.kt:74-80 | the same for `isLabelVisible` |
| Slider.SliderPreference.OnBindViewHolder | custom-preferences/src/main/java/com/sixtyninefourtwenty/custompreferences/SliderPreference.kt:194-206 | the slider shows the six properties; the label floats exactly when it is visible and is gone otherwise |
| Slider.SliderPreference.OnStopTrackingTouch | custom-preferences/src/main/java/com/sixtyninefourtwenty/custompreferences/SliderPreference.kt:157-168 | an accepted slider value becomes the value and is persisted without notifying; a vetoed one leaves the preference as it was and moves the slider back to the value |
| Slider.SliderPreference.OnSetInitialValue | custom-preferences/src/main/java/com/sixtyninefourtwenty/custompreferences/SliderPreference.kt:212-214 | the persisted float, or else the default (0 for null), through the value setter |
| Slider.SliderPreference.OnSaveInstanceState | custom-preferences/src/main/java/com/sixtyninefourtwenty/custompreferences/SliderPreference.kt:216-230 | a state exactly for a non-persistent preference, with all six properties |
| Slider.SliderPreference.OnRestoreInstanceState | custom-preferences/src/main/java/com/sixtyninefourtwenty/custompreferences/SliderPreference.kt:232-247 | all six properties through `setProperties`: one notification, nothing persisted; no state changes nothing |
| Slider.WriteState | custom-preferences/src/main/java/com/sixtyninefourtwenty/custompreferences/SliderPreference.kt:275-285 | six items: four floats, then the two booleans |
| Slider.ReadState | custom-preferences/src/main/java/com/sixtyninefourtwenty/custompreferences/SliderPreference.kt:264-271 | a state is read only from a parcel of at least six items |
| Slider.ParcelRoundTrip | custom-preferences/src/main/java/com/sixtyninefourtwenty/custompreferences/SliderPreference.kt:264-284 | the read order matches the write order: reading what was written gives the state back, whatever follows it in the parcel |
| Slider.SaveRestoreRoundTrip | custom-preferences/src/main/java/com/sixtyninefourtwenty/custompreferences/SliderPreference.kt:216-247 | save, parcel, any other update, restore: all six properties are as before |
| LocalTimeCodec.TimeToString | custom-preferences/src/main/java/com/sixtyninefourtwenty/custompreferences/TimePickerPreference.kt:176 | five characters: two digits giving the hour, a colon, two digits giving the minute (zero-padded, 24-hour) |
| LocalTimeCodec.StringToTime | custom-preferences/src/main/java/com/sixtyninefourtwenty/custompreferences/TimePickerPreference.kt:166 | only text shaped `dd:dd` parses, and the time has zero seconds and nanoseconds |
| LocalTimeCodec.FormatThenParse | custom-preferences/src/main/java/com/sixtyninefourtwenty/custompreferences/TimePickerPreference.kt:160-176 | parsing a formatted time gives the time truncated to the minute |
| LocalTimeCodec.FormatThenParseExact | custom-preferences/src/main/java/com/sixtyninefourtwenty/custompreferences/TimePickerPreference.kt:87 | for a time with zero seconds, as every picked time is, the round trip is exact |
| LocalTimeCodec.ParseThenFormat | custom-preferences/src/main/java/com/sixtyninefourtwenty/custompreferences/TimePickerPreference.kt:166-176 | every accepted text other than "24:00" is the format of what it parses to |
| LocalTimeCodec.DigitsDetermined | custom-preferences/src/main/java/com/sixtyninefourtwenty/custompreferences/TimePickerPreference.kt:160 | two two-digit numerals of equal value are the same characters |
| LocalTimeCodec.GetLocalTimeOrNull | custom-preferences/src/main/java/com/sixtyninefourtwenty/custompreferences/Preferences.kt:19-20 | null exactly when no string is stored under the key; otherwise the stored string's parse, throwing exactly when it does not parse |
| LocalTimeCodec.GetLocalTime | custom-preferences/src/main/java/com/sixtyninefourtwenty/custompreferences/Preferences.kt:13-14 | `defValue` exactly where `getLocalTimeOrNull` gives null, its time where it gives one, and it throws exactly when that does |
| LocalTimeCodec.PutLocalTime | custom-preferences/src/main/java/com/sixtyninefourtwenty/custompreferences/Preferences.kt:22-23 | stores the `HH:mm` text of the time, or removes the key for null; no other key changes |
| LocalTimeCodec.PutThenGet | custom-preferences/src/main/java/com/sixtyninefourtwenty/custompreferences/Preferences.kt:19-23 | `putLocalTime(k, t)` then `getLocalTimeOrNull(k)` gives t truncated to the minute, and null for null |
| LocalTimeCodec.DataStoreAgrees | custom-preferences/src/main/java/com/sixtyninefourtwenty/custompreferences/Preferences.kt:25-32 | the PreferenceDataStore variants give the same results as the SharedPreferences ones on a data store backed by the same store |
| TimePicker.TimePickerPreference.SetTime | custom-preferences/src/main/java/com/sixtyninefourtwenty/custompreferences/TimePickerPreference.kt:65-70 | stores the time, persists its `HH:mm` text (or null) and notifies once |
| TimePicker.TimePickerPreference.RequireTime | custom-preferences/src/main/java/com/sixtyninefourtwenty/custompreferences/TimePickerPreference.kt:77 | the time when set; `IllegalStateException` exactly when it is null |
| TimePicker.TimePickerPreference.PickerStart | custom-preferences/src/main/java/com/sixtyninefourtwenty/custompreferences/TimePickerPreference.kt:82-83 | the picker opens at the time's hour and minute, or at 00:00 without one |
| TimePicker.TimePickerPreference.HandleNewlyPickedValue | custom-preferences/src/main/java/com/sixtyninefourtwenty/custompreferences/TimePickerPreference.kt:92-96 | the time goes through the setter exactly when the change listener accepts it; otherwise nothing changes |
| TimePicker.TimePickerPreference.OnPositiveButtonClick | custom-preferences/src/main/java/com/sixtyninefourtwenty/custompreferences/TimePickerPreference.kt:86-88 | an accepted pick becomes the time, and `getLocalTimeOrNull` on the store then reads it back exactly; a vetoed pick changes nothing |
| TimePicker.TimePickerPreference.OnSetInitialValue | custom-preferences/src/main/java/com/sixtyninefourtwenty/custompreferences/TimePickerPreference.kt:102-107 | the persisted string, or else the default, parsed and set through the setter (null with neither), and the string persisted again; a string that does not parse throws before anything changes |
| TimePicker.TimePickerPreference.OnSaveInstanceState | custom-preferences/src/main/java/com/sixtyninefourtwenty/custompreferences/TimePickerPreference.kt:109-118 | a state exactly for a non-persistent preference, with the time |
| TimePicker.TimePickerPreference.OnRestoreInstanceState | custom-preferences/src/main/java/com/sixtyninefourtwenty/custompreferences/TimePickerPreference.kt:120-128 | the saved time through the setter; no state changes nothing |
| TimePicker.SaveRestoreRoundTrip | custom-preferences/src/main/java/com/sixtyninefourtwenty/custompreferences/TimePickerPreference.kt:109-128 | save, any other time, restore: the time is as before |
| Dialog.Consult | custom-preferences/src/main/java/com/sixtyninefourtwenty/custompreferences/AbstractCustomDialogPreference.kt:34-56 | the parties consulted, in order, and whether one handled the request, are those of the reference dispatch over callback fragment, fragment chain upward, context, activity |
| Dialog.ConsultFragments | custom-preferences/src/main/java/com/sixtyninefourtwenty/custompreferences/AbstractCustomDialogPreference.kt:35-46 | the first part of the dispatch, the callback fragment and then the fragment chain going upward, consults what the reference dispatch consults over those parties and stops exactly when it would |
| Dialog.AnyHandlesMeans | custom-preferences/src/main/java/com/sixtyninefourtwenty/custompreferences/AbstractCustomDialogPreference.kt:41-46 | the request is handled exactly when some party in the chain is a callback that answers true |
| Dialog.ConsultedIff | custom-preferences/src/main/java/com/sixtyninefourtwenty/custompreferences/AbstractCustomDialogPreference.kt:34-56 | a party is consulted exactly when it is a callback and no party before it has handled the request |
| Dialog.StopsAtFirst | custom-preferences/src/main/java/com/sixtyninefourtwenty/custompreferences/AbstractCustomDialogPreference.kt:41-46 | once some party has handled the request, no later party is consulted |
| Dialog.CallbackFragmentFirst | custom-preferences/src/main/java/com/sixtyninefourtwenty/custompreferences/AbstractCustomDialogPreference.kt:35-38 | a callback fragment that is a callback is consulted first |
| Dialog.SitesDistinct | custom-preferences/src/main/java/com/sixtyninefourtwenty/custompreferences/AbstractCustomDialogPreference.kt:35-56 | no party appears twice in the chain |
| Dialog.ShownArguments | custom-preferences/src/main/java/com/sixtyninefourtwenty/custompreferences/AbstractCustomDialogPreference.kt:70 | the dialog's arguments are a copy of its previous arguments (none when null) with "key" set to the preference key |
| Dialog.DisplayDialog | custom-preferences/src/main/java/com/sixtyninefourtwenty/custompreferences/AbstractCustomDialogPreference.kt:33-72 | when some party handles the request, or a dialog is already registered under the tag, the fragment manager is unchanged; otherwise one dialog is shown under the tag with those arguments |
| Dialog.DisplayTwice | custom-preferences/src/main/java/com/sixtyninefourtwenty/custompreferences/AbstractCustomDialogPreference.kt:62-64 | with a show taken as registered at once (see Left out), two display requests show at most one dialog, and when one was already registered under the tag the fragment manager is left entirely unchanged (nothing shown, no tag registered); with the asynchronous commit of `DialogFragment.show`, two requests made before the commit both pass the tag check |

## Left out

- Android views, layout inflation, drawing and `MaterialButton` construction. Each widget is reduced to the fields the preference reads or writes. `onBindViewHolder` of the colour preference is modelled only by the colour it tints the swatch with (`SwatchColor`).
- View ids and `View.generateViewId`. Buttons are addressed by index, so the `checkedId` to index lookup is not modelled.
- Listener detach and re-attach around the multi-select callbacks, and `clearOnButtonCheckedListeners`. These are framework re-entrancy. A veto is modelled as a plain revert.
- The colour-picker dialog files, `MaterialColorPicker.kt` and the dialog lifecycle. `ColorUtil.isDarkColor` and `Color.parseColor` (`toColorInt`) are not part of this model; they are passed in as functions.
- Resource and attribute reading in the constructors, `onGetDefaultValue` and `setAvailableColorsArrayRes`. These are `TypedArray` and resource lookups. The styled slider attributes and the initial colour array are passed in as parameters.
- `setOnPreferenceChange`. It only installs the change listener, which the model passes to each operation as a predicate.
- The time preference's locale-dependent summary (`DateFormat`, the system time zone) and its picker title.
- Validation done by the Material `Slider` (a value outside its range or off its step throws inside the slider). Floats are opaque bit patterns here.
- `setTargetFragment` in `displayDialog`. The asynchronous commit of `DialogFragment.show` is also not modelled: a show is taken as registered at once.
- Framework.Preference.ShouldPersist: every preference is taken as attached to a `PreferenceManager`. androidx's `shouldPersist()` also needs the manager, so a `time`, `value` or `color` setter called before the preference is added to a screen writes nothing there and reads the default, while the model writes to and reads from its store.
- LocalTimeCodec.PutLocalTime: `Editor.putLocalTime` only stages the change in the editor until `apply` or `commit`; the model gives the store as it is after the commit, and does not model the editor's pending state.
- `ClassCastException`s: a default value of the wrong type, or a persisted value of another type under the key. `getPersistedX` here falls back to the default when the stored value has a different type.
- Slider.SliderPreference.SetValueInternal: androidx `persistFloat` skips the write when the value equals the persisted one by float equality. Writing +0.0f over a persisted -0.0f (or over any value equal to it as a float but with other bits) therefore leaves the old bits in the store. The model stores the new bits, since floats are opaque bit patterns here.
- MultiSelect.MultiSelectToggleGroupPreference.SetValueInternal: persisting a null set is modelled as removing the key. androidx's `persistStringSet(null)` can throw a `NullPointerException` instead, and the model does not capture that.
- ColorPreference.PredefinedColorPickerPreference.OnRestoreInstanceState: the state is restored from its parcelled form, so the colours come back in a new array. An in-process restore that hands back the very array that was saved, shared with the saved state, is not modelled.
- ToggleGroup.AbstractToggleGroupPreference.SetEntries: the model keeps the arrays' contents as values. It does not capture that the source keeps the caller's arrays, so a caller that later mutates its array changes the preference.
- ToggleGroup.AbstractToggleGroupPreference.OnRestoreInstanceState: requires the saved entries and entry values to be a consistent pair, as every state saved by the preference is. A parcel crafted with a mismatched pair is not modelled.
- SingleSelect.ToggleGroupPreference.OnBindViewHolder: uses the corrected button setup (see Findings), not the one the source has.
- MultiSelect.MultiSelectToggleGroupPreference.OnBindViewHolder: the same. Restoring state may leave a non-null icons array whose length differs from the restored entries. The relabelling then throws, and `ok` reports that.
- SingleSelect.ToggleGroupPreference.OnButtonClick: takes the entry values captured at bind time as a parameter. It requires one captured value per button, which holds after a completed bind.

## Findings

| source | as written | input that shows it | evidently intended | confidence | as-written member | corrected member |
|---|---|---|---|---|---|---|
| custom-preferences/src/main/java/com/sixtyninefourtwenty/custompreferences/AbstractToggleGroupPreference.kt:106 | shrinking the group calls `removeViews(entryValues.size - 1, difference)` | a group with one button and `setEntries(arrayOf(), arrayOf())`: the start index is -1, so `removeViews` throws during bind. With 3 buttons and 2 entries, buttons 0 and 2 are kept, not 0 and 1 | `removeViews(entryValues.size, difference)`: the trailing buttons go and the first `size` stay | high, not executed | ToggleGroup.ShrinkToZeroThrowsAsWritten | ToggleGroup.AbstractToggleGroupPreference.SetupButtonsCorrected |
