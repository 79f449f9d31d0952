/** The preferences sheet: a pop-up of preset boiling times (each item's tag is
    its number of minutes, plus an item titled "Custom"), a slider in whole
    minutes with a text field describing it, and the OK and Cancel buttons. */
module PrefsView {
  import opened Decimal
  import opened PrefsStore

  /** One entry of the presets pop-up. */
  datatype PopupItem = PopupItem(title: string, tag: nat)

  /** A selected time in seconds as whole minutes, rounded down. */
  function MinutesOf(selectedTime: nat): (m: nat)
    ensures m * 60 <= selectedTime < (m + 1) * 60
  {
    selectedTime / 60
  }

  /** Saving `slider` minutes stores slider * 60 seconds; loading the sheet
      again shows the same number of minutes, except that a zero slider stores
      0, which the getter reads as the six-minute default. */
  lemma SaveThenLoad(slider: nat)
    ensures slider > 0 ==> SelectedTimeFrom(slider * 60) == slider * 60
    ensures MinutesOf(SelectedTimeFrom(slider * 60)) == if slider > 0 then slider else 6
  {
  }

  /** The text beside the slider: the number, a space and "minute" when the
      number is one, "minutes" for every other number. */
  function SliderText(minutes: nat): (r: string)
    ensures r == "1 minute" <==> minutes == 1
    ensures var unit := if minutes == 1 then " minute" else " minutes";
      |r| > |unit| && r[|r| - |unit|..] == unit &&
      AllDigits(r[..|r| - |unit|]) && ParseDigits(r[..|r| - |unit|]) == minutes
  {
    var number := NatToString(minutes);
    var unit := if minutes == 1 then "minute" else "minutes";
    var r := number + " " + unit;
    assert r[..|number|] == number;
    assert r[|number|..] == " " + unit;
    ParseNatToString(minutes);
    r
  }

  /** The index of the first item that satisfies `matches`, or -1 when none does. */
  function FirstMatch(items: seq<PopupItem>, matches: PopupItem -> bool): (k: int)
    ensures -1 <= k < |items|
    ensures k >= 0 ==> matches(items[k])
    ensures forall j :: 0 <= j < |items| && (k < 0 || j < k) ==> !matches(items[j])
  {
    if items == [] then -1
    else if matches(items[0]) then 0
    else
      var k := FirstMatch(items[1..], matches);
      if k < 0 then -1 else k + 1
  }

  /** The first item whose tag is `tag`: what the loading loop looks for. */
  function FirstTagIndex(items: seq<PopupItem>, tag: nat): (k: int)
    ensures -1 <= k < |items|
    ensures k >= 0 ==> items[k].tag == tag
    ensures forall j :: 0 <= j < |items| && (k < 0 || j < k) ==> items[j].tag != tag
  {
    FirstMatch(items, (item: PopupItem) => item.tag == tag)
  }

  /** The first item titled `title`: the selection that selecting an item by
      title leaves (-1, nothing selected, when no item has that title). */
  function IndexOfTitle(items: seq<PopupItem>, title: string): (k: int)
    ensures -1 <= k < |items|
    ensures k >= 0 ==> items[k].title == title
    ensures forall j :: 0 <= j < |items| && (k < 0 || j < k) ==> items[j].title != title
  {
    FirstMatch(items, (item: PopupItem) => item.title == title)
  }

  /** The pop-up selection on opening the sheet: the first preset whose tag is
      the stored number of minutes, and "Custom" when none is. */
  function PresetSelection(items: seq<PopupItem>, minutes: nat): (k: int)
    ensures -1 <= k < |items|
    ensures (exists j :: 0 <= j < |items| && items[j].tag == minutes) ==>
      0 <= k && items[k].tag == minutes && forall j :: 0 <= j < k ==> items[j].tag != minutes
    ensures (forall j :: 0 <= j < |items| ==> items[j].tag != minutes) ==>
      (k >= 0 ==> items[k].title == "Custom") &&
      forall j :: 0 <= j < |items| && (k < 0 || j < k) ==> items[j].title != "Custom"
  {
    var k := FirstTagIndex(items, minutes);
    if k >= 0 then k else IndexOfTitle(items, "Custom")
  }

  class PrefsViewController {
    const prefs: Preferences
    const items: seq<PopupItem>
    /** Index of the selected pop-up item; -1 when nothing is selected. */
    var selectedIndex: int
    /** The slider's integer value, in minutes. */
    var sliderValue: nat
    var sliderEnabled: bool
    var customTimeText: string

    /** The sheet shows the stored preference as it does right after loading. */
    ghost predicate ShowsStoredPrefs()
      reads this, prefs
    {
      sliderValue == MinutesOf(prefs.SelectedTime()) &&
      selectedIndex == PresetSelection(items, sliderValue) &&
      sliderEnabled &&
      customTimeText == SliderText(sliderValue)
    }

    /** Loading the sheet shows the stored preference. */
    constructor (prefs: Preferences, items: seq<PopupItem>)
      ensures this.prefs == prefs && this.items == items
      ensures ShowsStoredPrefs()
    {
      this.prefs := prefs;
      this.items := items;
      selectedIndex := -1;
      sliderValue := 0;
      sliderEnabled := false;
      customTimeText := "";
      new;
      ShowExistingPrefs();
    }

    method ShowExistingPrefs()
      modifies this
      ensures ShowsStoredPrefs()
    {
      var selectedTimeInMinutes := MinutesOf(prefs.SelectedTime());
      selectedIndex := IndexOfTitle(items, "Custom");
      sliderEnabled := true;
      for i := 0 to |items|
        invariant forall j :: 0 <= j < i ==> items[j].tag != selectedTimeInMinutes
        invariant selectedIndex == IndexOfTitle(items, "Custom")
      {
        if items[i].tag == selectedTimeInMinutes {
          selectedIndex := i;
          break;
        }
      }
      sliderValue := selectedTimeInMinutes;
      ShowSliderValueAsText();
    }

    method ShowSliderValueAsText()
      modifies this
      ensures customTimeText == SliderText(sliderValue)
      ensures selectedIndex == old(selectedIndex) && sliderValue == old(sliderValue)
      ensures sliderEnabled == old(sliderEnabled)
    {
      customTimeText := SliderText(sliderValue);
    }

    /** The user picks item `index` of the pop-up. "Custom" only enables the
        slider; a preset moves the slider to its tag and disables it. */
    method PopUpValueChanged(index: nat)
      requires index < |items|
      modifies this
      ensures selectedIndex == index
      ensures items[index].title == "Custom" ==>
        sliderEnabled && sliderValue == old(sliderValue) && customTimeText == old(customTimeText)
      ensures items[index].title != "Custom" ==>
        !sliderEnabled && sliderValue == items[index].tag &&
        customTimeText == SliderText(items[index].tag)
    {
      selectedIndex := index;
      if items[index].title == "Custom" {
        sliderEnabled := true;
        return;
      }
      var newTimeDuration := items[index].tag;
      sliderValue := newTimeDuration;
      ShowSliderValueAsText();
      sliderEnabled := false;
    }

    /** The user moves the slider to `value` minutes. */
    method SliderValueChanged(value: nat)
      modifies this
      ensures sliderValue == value && customTimeText == SliderText(value)
      ensures selectedIndex == old(selectedIndex) && sliderEnabled == old(sliderEnabled)
    {
      sliderValue := value;
      ShowSliderValueAsText();
    }

    /** Cancel closes the sheet and keeps the stored preference. */
    method ClickCancel()
      ensures prefs.savedTime == old(prefs.savedTime)
    {
    }

    /** OK stores the slider's minutes as seconds and closes the sheet; a sheet
        opened afterwards shows the same minutes, or six for a zero slider. */
    method OkClicked()
      modifies prefs
      ensures prefs.savedTime == sliderValue * 60
      ensures MinutesOf(prefs.SelectedTime()) == if sliderValue > 0 then sliderValue else 6
    {
      SaveNewPrefs();
      SaveThenLoad(sliderValue);
    }

    method SaveNewPrefs()
      modifies prefs
      ensures prefs.savedTime == sliderValue * 60
    {
      prefs.SetSelectedTime(sliderValue * 60);
    }
  }
}
