# Egg timer: window and preferences controllers

A Dafny model of the two controllers of the macOS egg-timer application.

- The timer window (`ViewController`) shows the remaining time as "M:SS", or "Done!" at zero. It shows one of six egg pictures, chosen from how much of the selected boiling time has elapsed. It enables Start, Stop and Reset (and the matching menu items) from the engine's `isStoped`/`isPaused` flags. Its Start, Stop and Reset actions drive the countdown engine. A change of preferences resets the countdown at once when it is stopped or paused. While it runs, the change is applied only when the user answers "Reset" to a confirmation alert.
- The preferences sheet (`PrefsViewController`) converts the stored time in seconds into whole minutes. It selects the first preset whose tag equals those minutes, or "Custom" when none does. It describes the slider value as "1 minute" or "N minutes". OK stores the slider's minutes times 60 as the new boiling time.

Modules, one per file:

- `Decimal` (decimal.dfy): decimal numerals and `%02d`, with the parser that reads them back.
- `EggTimerEngine` (engine.dfy): the countdown engine as the window sees it. It has a duration in seconds and two flags, `isStoped` and `isPaused`. Each of start, resume, stop and reset has an effect on those flags (`Run`, `Halt`, `Clear`). The engine's own source is not part of this model. The effects are the ones the window's button table assumes: start and resume leave the engine running; stop leaves a started countdown paused; reset leaves it stopped. None of them changes the duration.
- `PrefsStore` (preferences.dfy): the stored "selectedTime". Its getter answers 360 seconds whenever the stored value is not positive. The getter follows `2 - EggTimer/EggTimer/Models/Preferences.swift`; the `Preferences` file next to the two controllers is not part of this model. Both controllers read the same stored value, so it is one shared object here.
- `TimerView` (timer_view.dfy): the window. It holds the pure display and decision functions and the `ViewController` class. The class's fields are the label, the picture, the button and menu enables, the engine and the store.
- `PrefsView` (prefs_view.dfy): the sheet. It holds the pure conversions and searches and the `PrefsViewController` class. The class's fields are the pop-up selection index, the slider value and enable, and the slider's text.
- `PrefsChangedEvent` (prefs_changed.dfy): OK on the sheet followed by the window's "PrefsChanged" handler.

Times are whole seconds (`nat`). The percentage of the picture choice is an exact `real`.

The engine's own code is not modelled: the window only reads and writes its two flags and its duration, and the model keeps just those.

## Model

| member | source | states |
|---|---|---|
| `Decimal.NatToString` | EggTimer/EggTimer/Controllers/ViewController.swift:105 | the unpadded minutes: at least one digit, all digits, one digit exactly below 10, no leading zero |
| `Decimal.ParseNatToString` | EggTimer/EggTimer/Controllers/ViewController.swift:105 | reading the minutes numeral back gives the number of minutes |
| `Decimal.Pad2` | EggTimer/EggTimer/Controllers/ViewController.swift:104 | `%02d` below 100: exactly two digits that read back as the value, with a leading zero exactly below 10 |
| `TimerView.TextToDisplay` | EggTimer/EggTimer/Controllers/ViewController.swift:96-108 | "Done!" if and only if no time remains; otherwise a colon third from the end, followed by two digits whose first is below 6 and which spell the seconds modulo 60 |
| `TimerView.TextToDisplayRoundTrip` | EggTimer/EggTimer/Controllers/ViewController.swift:101-107 | reading the label back ("Done!" as 0, "M:SS" as 60·M+SS) gives the remaining seconds, for every time |
| `TimerView.TextToDisplayInjective` | EggTimer/EggTimer/Controllers/ViewController.swift:96-108 | two different remaining times never show the same label |
| `TimerView.ImageToDisplay` | EggTimer/EggTimer/Controllers/ViewController.swift:112-118 | when stopped: the "100" picture exactly at zero and "stopped" otherwise, whatever the percentage; "stopped" is never shown while not stopped |
| `TimerView.PercentageScaled` | EggTimer/EggTimer/Controllers/ViewController.swift:113 | the percentage complete times the selected time is 100·(selected − remaining) |
| `TimerView.PercentageComplete` | EggTimer/EggTimer/Controllers/ViewController.swift:113 | the percentage complete is at most 100, exactly 100 when no time remains, and non-negative exactly when the remaining time is at most the selected time |
| `TimerView.QuarterImage` | EggTimer/EggTimer/Controllers/ViewController.swift:121-132 | the half-open quarter ranges, with "100" as the default: "100" exactly outside [0, 100), otherwise the picture of quarter floor(p/25); never "stopped" |
| `TimerView.ImageCountsQuarters` | EggTimer/EggTimer/Controllers/ViewController.swift:112-134 | not stopped: the picture is the number of whole quarters of the selected time elapsed (0, 25, 50, 75, 100 for none to all); more remaining than selected (a negative percentage) shows "100" |
| `TimerView.ButtonsFor` | EggTimer/EggTimer/Controllers/ViewController.swift:142-154 | stop is enabled exactly when start is not; start exactly when stopped or paused; reset exactly when paused and not stopped |
| `TimerView.ViewController.ConfigureButtonsAndMenus` | EggTimer/EggTimer/Controllers/ViewController.swift:137-163 | the buttons follow the enable table for the engine's flags and the menu items get exactly the same three flags; label and picture unchanged |
| `TimerView.ClickedStart` | EggTimer/EggTimer/Controllers/ViewController.swift:35-44 | afterwards the engine runs; a paused engine keeps its duration, any other takes the selected time; only Stop is then enabled |
| `TimerView.ViewController.ClickToStart` | EggTimer/EggTimer/Controllers/ViewController.swift:35-44 | the engine flags become `ClickedStart` of the old flags and the selected time; buttons and menus are stop-only |
| `TimerView.ViewController.ClickToStop` | EggTimer/EggTimer/Controllers/ViewController.swift:46-49 | the engine is halted, and buttons and menus follow the table for the new flags |
| `TimerView.ViewController.ClickToReset` | EggTimer/EggTimer/Controllers/ViewController.swift:51-55 | the engine is reset; the label shows the selected time, the picture is "stopped", and only Start is enabled |
| `TimerView.ViewController.UpdateDisplay` | EggTimer/EggTimer/Controllers/ViewController.swift:89-92 | label and picture are those of the given remaining time, the selected time and the engine's stopped flag |
| `TimerView.ViewController.TimeRemainingOnTimer` | EggTimer/EggTimer/Controllers/ViewController.swift:73-75 | a progress callback shows the reported remaining time |
| `TimerView.ViewController.TimerHasFinished` | EggTimer/EggTimer/Controllers/ViewController.swift:77-80 | the completion callback shows "Done!" and the picture for zero remaining |
| `TimerView.ViewController.constructor` | EggTimer/EggTimer/Controllers/ViewController.swift:24-28 | a loaded window has a stopped engine, shows the selected time and the "stopped" picture, and enables Start only |
| `TimerView.PrefsChanged` | EggTimer/EggTimer/Controllers/ViewController.swift:181-205 | stopped or paused, or running and answered with the first button: the engine ends stopped with the selected time as its duration; running and answered otherwise: nothing changes |
| `TimerView.ViewController.CheckForResetAfterPrefsChange` | EggTimer/EggTimer/Controllers/ViewController.swift:181-199 | the engine flags become `PrefsChanged` of the old flags; when applied the display is reset, and otherwise label, picture, buttons and menus are unchanged |
| `TimerView.ViewController.UpdateFromPrefs` | EggTimer/EggTimer/Controllers/ViewController.swift:202-205 | the engine is stopped with the selected time as its duration, and the display and buttons are reset |
| `EggTimerEngine.EggTimer.constructor` | EggTimer/EggTimer/Controllers/ViewController.swift:20 | a new engine is stopped and not paused |
| `EggTimerEngine.EggTimer.StartTimer` | EggTimer/EggTimer/Controllers/ViewController.swift:40 | the engine runs (neither stopped nor paused) with its duration kept |
| `EggTimerEngine.EggTimer.ResumeTimer` | EggTimer/EggTimer/Controllers/ViewController.swift:37 | the engine runs with its duration kept |
| `EggTimerEngine.EggTimer.StopTimer` | EggTimer/EggTimer/Controllers/ViewController.swift:47 | a started engine becomes paused; a stopped one stays stopped |
| `EggTimerEngine.EggTimer.ResetTimer` | EggTimer/EggTimer/Controllers/ViewController.swift:52 | the engine is stopped and not paused, duration kept |
| `PrefsStore.SelectedTimeFrom` | EggTimer/EggTimer/Controllers/PrefsViewController.swift:59 | the selected time read here is always positive: the stored value when positive, 360 otherwise (the getter of the sibling Preferences.swift, lines 13-17) |
| `PrefsStore.Preferences.SelectedTime` | EggTimer/EggTimer/Controllers/ViewController.swift:39 | the selected time loaded into the engine is never zero |
| `PrefsStore.Preferences.SetSelectedTime` | EggTimer/EggTimer/Controllers/PrefsViewController.swift:84 | the stored value is the assigned one, and the getter then answers it when positive (setter of the sibling Preferences.swift, lines 18-20) |
| `PrefsView.MinutesOf` | EggTimer/EggTimer/Controllers/PrefsViewController.swift:59 | the minutes are the whole minutes in the selected time, rounded down |
| `PrefsView.SaveThenLoad` | EggTimer/EggTimer/Controllers/PrefsViewController.swift:84 | storing slider·60 and loading again (line 59) gives back the slider's minutes; a zero slider reads back as 6 |
| `PrefsView.SliderText` | EggTimer/EggTimer/Controllers/PrefsViewController.swift:76-80 | "1 minute" if and only if the value is 1; otherwise the text ends in " minutes"; the leading digits read back as the value |
| `PrefsView.FirstMatch` | EggTimer/EggTimer/Controllers/PrefsViewController.swift:64-69 | the first-match scan: an index whose item matches with no matching item before it, or -1 exactly when no item matches |
| `PrefsView.FirstTagIndex` | EggTimer/EggTimer/Controllers/PrefsViewController.swift:64-69 | the index of an item tagged with the minutes, with no such item before it, or -1 exactly when no item has that tag |
| `PrefsView.IndexOfTitle` | EggTimer/EggTimer/Controllers/PrefsViewController.swift:61 | the index of the first item titled "Custom", or -1 when there is none |
| `PrefsView.PresetSelection` | EggTimer/EggTimer/Controllers/PrefsViewController.swift:61-69 | the first item tagged with the minutes when there is one, else the first "Custom" item (-1 when there is neither) |
| `PrefsView.PrefsViewController.constructor` | EggTimer/EggTimer/Controllers/PrefsViewController.swift:19-22 | a loaded sheet shows the stored preference |
| `PrefsView.PrefsViewController.ShowExistingPrefs` | EggTimer/EggTimer/Controllers/PrefsViewController.swift:58-73 | the slider holds the stored minutes and is enabled whether or not a preset matched; the selection is the first matching preset, else "Custom"; the text describes the slider |
| `PrefsView.PrefsViewController.ShowSliderValueAsText` | EggTimer/EggTimer/Controllers/PrefsViewController.swift:76-80 | the text field holds `SliderText` of the slider value; nothing else changes |
| `PrefsView.PrefsViewController.PopUpValueChanged` | EggTimer/EggTimer/Controllers/PrefsViewController.swift:29-38 | "Custom" enables the slider and leaves its value and text; a preset sets the slider to the item's tag, describes it, and disables the slider |
| `PrefsView.PrefsViewController.SliderValueChanged` | EggTimer/EggTimer/Controllers/PrefsViewController.swift:40-42 | moving the slider updates its text to describe the new value |
| `PrefsView.PrefsViewController.ClickCancel` | EggTimer/EggTimer/Controllers/PrefsViewController.swift:44-46 | Cancel leaves the stored time unchanged |
| `PrefsView.PrefsViewController.OkClicked` | EggTimer/EggTimer/Controllers/PrefsViewController.swift:48-51 | OK stores slider·60; a reload then shows the slider's minutes (6 for a zero slider) |
| `PrefsView.PrefsViewController.SaveNewPrefs` | EggTimer/EggTimer/Controllers/PrefsViewController.swift:83-86 | the stored time becomes the slider value times 60 |
| `PrefsChangedEvent.OkThenNotify` | EggTimer/EggTimer/Controllers/ViewController.swift:174-177 | OK followed by the notification handler: a stopped or paused countdown ends with the slider's minutes (or 6 minutes) as its duration and shows it |

## Left out

- The countdown engine's own source is not part of this model. The model leaves out its ticking, its scheduling and threading, how it computes the remaining time, and when it calls the window back. Its effect on the two flags is assumed as stated above.
- Sound (`prepareSound`, `playSound`, ViewController.swift:212-228): playing audio is a side effect through a foreign library.
- The notification centre (ViewController.swift:174-177, PrefsViewController.swift:85): replaced by the direct call in `OkThenNotify`.
- The confirmation alert (ViewController.swift:186-194): user interface only. The user's answer is a parameter.
- Picture resources are an enumeration. Closing the sheet's window and the application delegate are also out: the menu items are the `menus` field.
- The menu actions `startTimerMenuItemSelected`, `stopTimerMenuItemSelected` and `resetTimerMenuItemSelected` (ViewController.swift:57-67) only forward to the same three actions and are not modelled separately.
- Floating point: times are whole seconds, so `floor`, the truncating `Int(...)` conversions and fractional remaining times are out of scope. The percentage is exact, so rounding at a quarter boundary is out of scope. The slider's `doubleValue` is taken to be its integer value.
- The slider's minimum and maximum, which clamp a value assigned to it, come from the interface file and are not modelled. The pop-up's items are a parameter, and their tags are taken to be non-negative.
- The initial enable states of the window's buttons come from the interface file. The constructor uses the stopped row of the table, which is also what the application delegate gives the menu items at launch.
- `PrefsView.PrefsViewController.PopUpValueChanged`: the pop-up only sends its action once the user has picked one of its items, so the index must be in range; the no-selection case (tag -1) is not modelled.
- `TimerView.ImageToDisplay`: with a selected time of zero, the floating-point percentage is infinite or not a number and matches no quarter. This is modelled as the "100" picture. The getter never answers zero, so this case does not arise.
