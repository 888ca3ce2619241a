/**
 * `MaterialColorPickerAdapter`: the list of colour strings a colour picker
 * shows, the one selected colour that clicks change, and the check mark and
 * tick colour each item is bound with.
 */
module ColorAdapter {
  import opened Framework

  /** `ColorShape`. */
  datatype ColorShape = Circle | Square

  /** The tint of the check icon. */
  datatype Tick = White | Black

  /** What `bind(position)` puts on an item: its background, its shape, whether the check shows, and its tint. */
  datatype ItemView = ItemView(background: string, shape: ColorShape, checkVisible: bool, tick: Tick)

  /** `colors.count { isDark(it) }`. */
  function CountDark(colors: seq<string>, isDark: string -> bool): (r: nat)
    ensures r <= |colors|
  {
    if |colors| == 0 then 0
    else CountDark(colors[..|colors| - 1], isDark) + (if isDark(colors[|colors| - 1]) then 1 else 0)
  }

  /** The positions holding a dark colour. */
  function DarkPositions(colors: seq<string>, isDark: string -> bool): set<int> {
    set i | 0 <= i < |colors| && isDark(colors[i])
  }

  /** The count is the number of dark positions. */
  lemma {:induction false} CountDarkIsCardinality(colors: seq<string>, isDark: string -> bool)
    ensures CountDark(colors, isDark) == |DarkPositions(colors, isDark)|
  {
    if |colors| > 0 {
      var n := |colors| - 1;
      var prefix := colors[..n];
      CountDarkIsCardinality(prefix, isDark);
      DarkPositionsSnoc(colors, isDark);
    }
  }

  lemma {:induction false} DarkPositionsSnoc(colors: seq<string>, isDark: string -> bool)
    requires |colors| > 0
    ensures var n := |colors| - 1;
            DarkPositions(colors, isDark) ==
              DarkPositions(colors[..n], isDark) + (if isDark(colors[n]) then {n} else {})
  {
    var n := |colors| - 1;
    var prefix := colors[..n];
    forall i | 0 <= i < n
      ensures colors[i] == prefix[i]
    {
    }
  }

  /** The adapter's majority rule: dark when at least half of the colours are dark. */
  predicate MajorityDark(colors: seq<string>, isDark: string -> bool) {
    CountDark(colors, isDark) * 2 >= |colors|
  }

  /** The rule in terms of positions; an empty list counts as dark. */
  lemma {:induction false} MajorityDarkMeans(colors: seq<string>, isDark: string -> bool)
    ensures MajorityDark(colors, isDark) <==> 2 * |DarkPositions(colors, isDark)| >= |colors|
    ensures |colors| == 0 ==> MajorityDark(colors, isDark)
  {
    CountDarkIsCardinality(colors, isDark);
  }

  /** The positions whose colour is `selected`: every one of them shows the check. */
  function CheckedPositions(colors: seq<string>, selected: string): set<int> {
    set i | 0 <= i < |colors| && colors[i] == selected
  }

  predicate Distinct(s: seq<string>) {
    forall i, j :: 0 <= i < j < |s| ==> s[i] != s[j]
  }

  /** With distinct colours at most one item shows the check, and the selected colour's index is it. */
  lemma {:induction false} AtMostOneChecked(colors: seq<string>, selected: string)
    requires Distinct(colors)
    ensures CheckedPositions(colors, selected) ==
              if selected in colors then {IndexOf(colors, selected)} else {}
  {
    var k := IndexOf(colors, selected);
    forall i | i in CheckedPositions(colors, selected)
      ensures i == k
    {
    }
  }

  /**
   * The click notifies the old and the new selection's first positions. With
   * distinct colours those are the only items whose check changes.
   */
  lemma {:induction false} ClickRefreshesEveryChange(colors: seq<string>, before: string, n: int)
    requires Distinct(colors) && 0 <= n < |colors|
    ensures forall i :: 0 <= i < |colors| && ((i in CheckedPositions(colors, before)) != (i in CheckedPositions(colors, colors[n]))) ==>
              i == IndexOf(colors, before) || i == n
  {
    AtMostOneChecked(colors, before);
    AtMostOneChecked(colors, colors[n]);
  }

  /** With a repeated colour a click can change an item it does not notify: the second copy stays checked. */
  lemma DuplicateLeftStale()
    ensures var colors := ["#000000", "#000000", "#ffffff"];
            && 1 in CheckedPositions(colors, "#000000") && 1 !in CheckedPositions(colors, colors[2])
            && IndexOf(colors, "#000000") == 0
  {
    var colors := ["#000000", "#000000", "#ffffff"];
    assert colors[0] == "#000000";
  }

  class MaterialColorPickerAdapter {
    const colors: seq<string>
    /** `ColorUtil.isDarkColor`, which is not part of this model. */
    const isDark: string -> bool
    var isDarkColor: bool
    var color: string
    var colorShape: ColorShape
    var isTickColorPerCard: bool

    constructor (colors: seq<string>, isDark: string -> bool)
      ensures this.colors == colors && this.isDark == isDark
      ensures isDarkColor == MajorityDark(colors, isDark)
      ensures color == "" && colorShape == Circle && !isTickColorPerCard
    {
      this.colors := colors;
      this.isDark := isDark;
      color := "";
      colorShape := Circle;
      isTickColorPerCard := false;
      var darkColors := CountDark(colors, isDark);
      isDarkColor := darkColors * 2 >= |colors|;
    }

    method SetColorShape(colorShape: ColorShape)
      modifies this
      ensures this.colorShape == colorShape
      ensures color == old(color) && isDarkColor == old(isDarkColor) && isTickColorPerCard == old(isTickColorPerCard)
    {
      this.colorShape := colorShape;
    }

    /** `setDefaultColor`: any string, in the list or not. */
    method SetDefaultColor(color: string)
      modifies this
      ensures this.color == color
      ensures colorShape == old(colorShape) && isDarkColor == old(isDarkColor) && isTickColorPerCard == old(isTickColorPerCard)
    {
      this.color := color;
    }

    method SetTickColorPerCard(tickColorPerCard: bool)
      modifies this
      ensures isTickColorPerCard == tickColorPerCard
      ensures color == old(color) && colorShape == old(colorShape) && isDarkColor == old(isDarkColor)
    {
      isTickColorPerCard := tickColorPerCard;
    }

    /** `getSelectedColor`. */
    method GetSelectedColor() returns (r: string)
      ensures r == color
    {
      r := color;
    }

    /** `getItem`: `colors[position]`, throwing outside the list. */
    method GetItem(position: int) returns (r: Result<string>)
      ensures r.Ok? <==> 0 <= position < |colors|
      ensures r.Ok? ==> r.value == colors[position]
      ensures r.Thrown? ==> r.exception == "IndexOutOfBoundsException"
    {
      if 0 <= position < |colors| {
        r := Ok(colors[position]);
      } else {
        r := Thrown("IndexOutOfBoundsException");
      }
    }

    method GetItemCount() returns (r: nat)
      ensures r == |colors|
    {
      r := |colors|;
    }

    /**
     * The item click listener for the item bound at `newIndex`: the colour there
     * becomes the selection, and the items at the old selection's first position
     * (-1 when it is not in the list) and at `newIndex` are notified.
     */
    method OnItemClick(newIndex: int) returns (oldIndex: int, notified: int)
      requires 0 <= newIndex < |colors|
      modifies this
      ensures color == colors[newIndex]
      ensures oldIndex == IndexOf(colors, old(color)) && notified == newIndex
      ensures oldIndex == -1 <==> old(color) !in colors
      ensures colorShape == old(colorShape) && isDarkColor == old(isDarkColor) && isTickColorPerCard == old(isTickColorPerCard)
    {
      var item := GetItem(newIndex);
      oldIndex := IndexOf(colors, color);
      color := item.value;
      notified := newIndex;
    }

    /**
     * `bind(position)`: the check shows exactly on items whose colour is the
     * selection; the tick is white when the item's own colour is dark (with a
     * tick colour per card) or the list is mostly dark (without), black otherwise.
     */
    method Bind(position: int) returns (v: ItemView)
      requires 0 <= position < |colors|
      ensures v.background == colors[position] && v.shape == colorShape
      ensures v.checkVisible <==> position in CheckedPositions(colors, color)
      ensures v.tick == White <==> if isTickColorPerCard then isDark(colors[position]) else isDarkColor
    {
      var item := GetItem(position);
      var c := item.value;
      var isChecked := c == color;
      var darkColor := isDarkColor;
      if isTickColorPerCard {
        darkColor := isDark(c);
      }
      v := ItemView(c, colorShape, isChecked, if darkColor then White else Black);
    }
  }

  /** After a click, the clicked item and every copy of its colour show the check. */
  method ClickThenBind(a: MaterialColorPickerAdapter, n: int, position: int) returns (v: ItemView)
    requires 0 <= n < |a.colors| && 0 <= position < |a.colors|
    modifies a
    ensures v.checkVisible <==> a.colors[position] == a.colors[n]
  {
    var _, _ := a.OnItemClick(n);
    v := a.Bind(position);
  }
}
