/** The egg-timer window: how it shows the remaining time and the egg picture,
    which buttons and menu items it enables, and how its actions and a change of
    preferences drive the countdown engine. */
module TimerView {
  import opened Decimal
  import opened EggTimerEngine
  import opened PrefsStore

  datatype Option<T> = None | Some(value: T)

  // ---------------------------------------------------------------- time label

  /** The label text for `timeRemaining` seconds: "Done!" at zero, otherwise
      the minutes unpadded, a colon and the seconds as two digits. */
  function TextToDisplay(timeRemaining: nat): (r: string)
    ensures r == "Done!" <==> timeRemaining == 0
    ensures timeRemaining > 0 ==>
      |r| >= 4 && r[|r| - 3] == ':' && AllDigits(r[|r| - 2..]) &&
      DigitValue(r[|r| - 2]) < 6 &&
      10 * DigitValue(r[|r| - 2]) + DigitValue(r[|r| - 1]) == timeRemaining % 60
  {
    if timeRemaining == 0 then "Done!"
    else NatToString(timeRemaining / 60) + ":" + Pad2(timeRemaining % 60)
  }

  /** Reads a label back into seconds: "Done!" is zero, and "M:SS" is
      60 * M + SS when SS is two digits below 60. */
  function ParseTimeText(s: string): Option<nat> {
    if s == "Done!" then Some(0)
    else if |s| < 4 || s[|s| - 3] != ':' then None
    else
      var minutes, seconds := s[..|s| - 3], s[|s| - 2..];
      if AllDigits(minutes) && AllDigits(seconds) && ParseDigits(seconds) < 60
      then Some(60 * ParseDigits(minutes) + ParseDigits(seconds))
      else None
  }

  lemma {:induction false} TextToDisplayRoundTrip(t: nat)
    ensures ParseTimeText(TextToDisplay(t)) == Some(t)
  {
    if t > 0 {
      var m, ss := NatToString(t / 60), Pad2(t % 60);
      var r := TextToDisplay(t);
      assert r == m + ":" + ss;
      assert r[..|r| - 3] == m;
      assert r[|r| - 2..] == ss;
      ParseNatToString(t / 60);
    }
  }

  /** Two different remaining times never show the same label. */
  lemma TextToDisplayInjective(a: nat, b: nat)
    ensures TextToDisplay(a) == TextToDisplay(b) ==> a == b
  {
    TextToDisplayRoundTrip(a);
    TextToDisplayRoundTrip(b);
  }

  // ---------------------------------------------------------------- egg image

  /** The picture resources: "0", "25", "50", "75", "100" and "stopped". */
  datatype Image = Image0 | Image25 | Image50 | Image75 | Image100 | ImageStopped

  /** How far the countdown is, in percent of the selected time. */
  function PercentageComplete(timeRemaining: nat, selectedTime: nat): (p: real)
    requires selectedTime > 0
    ensures p <= 100.0 && (p == 100.0 <==> timeRemaining == 0)
    ensures p >= 0.0 <==> timeRemaining <= selectedTime
  {
    100.0 - (timeRemaining as real / selectedTime as real * 100.0)
  }

  /** The quarter a percentage falls in; anything outside [0, 100) is "100". */
  function QuarterImage(p: real): (img: Image)
    ensures img != ImageStopped
    ensures img == Image100 <==> p < 0.0 || 100.0 <= p
    ensures 0.0 <= p < 100.0 ==> (p / 25.0).Floor <= 3 && img == QuarterAt((p / 25.0).Floor)
  {
    if 0.0 <= p < 25.0 then Image0
    else if 25.0 <= p < 50.0 then Image25
    else if 50.0 <= p < 75.0 then Image50
    else if 75.0 <= p < 100.0 then Image75
    else Image100
  }

  /** The picture for `timeRemaining` seconds. A selected time of zero would
      make the floating-point percentage infinite or not a number, which falls
      in no quarter. */
  function ImageToDisplay(timeRemaining: nat, selectedTime: nat, isStoped: bool): (img: Image)
    ensures isStoped ==> (img == Image100 <==> timeRemaining == 0)
    ensures img == ImageStopped <==> isStoped && timeRemaining != 0
  {
    if isStoped then (if timeRemaining == 0 then Image100 else ImageStopped)
    else if selectedTime == 0 then Image100
    else QuarterImage(PercentageComplete(timeRemaining, selectedTime))
  }

  /** Picture k of the five running pictures, counted by quarters elapsed. */
  function QuarterAt(k: nat): Image
    requires k <= 4
  {
    [Image0, Image25, Image50, Image75, Image100][k]
  }

  /** Comparisons survive division by a positive scale. */
  lemma Unscale(x: real, y: real, s: real)
    requires s > 0.0
    ensures x * s <= y * s <==> x <= y
    ensures x * s < y * s <==> x < y
  {
  }

  /** The percentage, scaled by the selected time, is a whole number of quarters. */
  lemma PercentageScaled(t: nat, sel: nat)
    requires sel > 0
    ensures PercentageComplete(t, sel) * sel as real == 25.0 * (4 * (sel - t)) as real
  {
  }

  lemma CancelFactor(a: int, b: int, c: int)
    requires c > 0 && a * c < b * c
    ensures a < b
  {
  }

  /** A percentage p with p * s == 25 * e lies in quarter q when q * s <= e < (q + 1) * s. */
  lemma InQuarter(p: real, s: real, e: int, q: int)
    requires s > 0.0 && p * s == 25.0 * e as real
    requires q as real * s <= e as real < (q + 1) as real * s
    ensures 25.0 * q as real <= p < 25.0 * (q + 1) as real
  {
  }

  lemma QuarterImageAt(p: real, q: int)
    requires 0 <= q <= 4 && 25.0 * q as real <= p < 25.0 * (q + 1) as real
    ensures QuarterImage(p) == QuarterAt(q)
  {
  }

  /** The whole quarters elapsed, q = 4 * (sel - t) / sel, as real bounds. */
  lemma ElapsedQuarters(t: nat, sel: nat) returns (q: nat)
    requires 0 < sel && t <= sel
    ensures q == 4 * (sel - t) / sel && q <= 4
    ensures q as real * sel as real <= (4 * (sel - t)) as real < (q + 1) as real * sel as real
  {
    var e := 4 * (sel - t);
    q := e / sel;
    assert q * sel <= e < (q + 1) * sel;
    CancelFactor(q, 5, sel);
  }

  /** A running countdown shows the picture of the number of whole quarters of
      the selected time that have elapsed, and the finished egg whenever more
      time remains than is selected (a preference lowered while it runs). */
  lemma ImageCountsQuarters(t: nat, sel: nat)
    requires sel > 0
    ensures t > sel ==> ImageToDisplay(t, sel, false) == Image100
    ensures t <= sel ==>
      (4 * (sel - t) / sel <= 4 && ImageToDisplay(t, sel, false) == QuarterAt(4 * (sel - t) / sel))
  {
    var p := PercentageComplete(t, sel);
    var s := sel as real;
    PercentageScaled(t, sel);
    if t > sel {
      Unscale(p, 0.0, s);
    } else {
      var q := ElapsedQuarters(t, sel);
      InQuarter(p, s, 4 * (sel - t), q);
      QuarterImageAt(p, q);
    }
  }

  // ---------------------------------------------------------- buttons and menus

  /** Which of start, stop and reset are enabled. */
  datatype Enables = Enables(start: bool, stop: bool, reset: bool)

  /** The enable table: stopped offers start only, paused offers start and
      reset, running offers stop only. */
  function ButtonsFor(isStoped: bool, isPaused: bool): (e: Enables)
    ensures e.stop == !e.start
    ensures e.start <==> isStoped || isPaused
    ensures e.reset <==> !isStoped && isPaused
  {
    if isStoped then Enables(true, false, false)
    else if isPaused then Enables(true, false, true)
    else Enables(false, true, false)
  }

  // ------------------------------------------------------- actions on the engine

  /** The Start action: a paused countdown resumes with its duration as it is;
      otherwise the selected time is loaded and a new countdown starts. */
  function ClickedStart(f: TimerFlags, selectedTime: nat): (r: TimerFlags)
    ensures !r.isStoped && !r.isPaused
    ensures r.duration == if f.isPaused then f.duration else selectedTime
    ensures ButtonsFor(r.isStoped, r.isPaused) == Enables(false, true, false)
  {
    if f.isPaused then Run(f) else Run(f.(duration := selectedTime))
  }

  /** The answer to "Reset timer with the new setting?". */
  datatype ModalResponse = AlertFirstButtonReturn | AlertSecondButtonReturn

  /** A change of preferences: applied at once to a stopped or paused engine,
      and to a running one only when the user answers with the first button
      ("Reset"); applying it loads the selected time and resets. */
  function PrefsChanged(f: TimerFlags, selectedTime: nat, answer: ModalResponse): (r: TimerFlags)
    ensures f.isStoped || f.isPaused || answer == AlertFirstButtonReturn ==>
      r == TimerFlags(selectedTime, true, false)
    ensures !f.isStoped && !f.isPaused && answer != AlertFirstButtonReturn ==> r == f
  {
    if f.isStoped || f.isPaused then Clear(f.(duration := selectedTime))
    else if answer == AlertFirstButtonReturn then Clear(f.(duration := selectedTime))
    else f
  }

  // ------------------------------------------------------------- the window

  class ViewController {
    var timeLabel: string
    var eggImage: Image
    var buttons: Enables
    /** The start, stop and reset items of the application menu. */
    var menus: Enables
    const eggTimer: EggTimer
    const prefs: Preferences

    /** Loading the window: a fresh engine, and the display shows the selected time. */
    constructor (prefs: Preferences)
      ensures this.prefs == prefs && fresh(eggTimer)
      ensures eggTimer.isStoped && !eggTimer.isPaused
      ensures timeLabel == TextToDisplay(prefs.SelectedTime())
      ensures eggImage == ImageStopped
      ensures buttons == menus == Enables(true, false, false)
    {
      this.prefs := prefs;
      eggTimer := new EggTimer();
      timeLabel := TextToDisplay(prefs.SelectedTime());
      eggImage := ImageToDisplay(prefs.SelectedTime(), prefs.SelectedTime(), true);
      buttons := ButtonsFor(true, false);
      menus := ButtonsFor(true, false);
    }

    method UpdateDisplay(timeRemaining: nat)
      modifies this
      ensures timeLabel == TextToDisplay(timeRemaining)
      ensures eggImage == ImageToDisplay(timeRemaining, prefs.SelectedTime(), eggTimer.isStoped)
      ensures buttons == old(buttons) && menus == old(menus)
    {
      timeLabel := TextToDisplay(timeRemaining);
      eggImage := ImageToDisplay(timeRemaining, prefs.SelectedTime(), eggTimer.isStoped);
    }

    method ConfigureButtonsAndMenus()
      modifies this
      ensures buttons == ButtonsFor(eggTimer.isStoped, eggTimer.isPaused)
      ensures menus == buttons
      ensures timeLabel == old(timeLabel) && eggImage == old(eggImage)
    {
      var enableStart: bool, enableStop: bool, enableReset: bool;
      if eggTimer.isStoped {
        enableStart, enableStop, enableReset := true, false, false;
      } else if eggTimer.isPaused {
        enableStart, enableStop, enableReset := true, false, true;
      } else {
        enableStart, enableStop, enableReset := false, true, false;
      }
      buttons := Enables(enableStart, enableStop, enableReset);
      menus := Enables(enableStart, enableStop, enableReset);
    }

    method ClickToStart()
      modifies this, eggTimer
      ensures eggTimer.Flags() == ClickedStart(old(eggTimer.Flags()), prefs.SelectedTime())
      ensures buttons == menus == Enables(false, true, false)
      ensures timeLabel == old(timeLabel) && eggImage == old(eggImage)
    {
      if eggTimer.isPaused {
        eggTimer.ResumeTimer();
      } else {
        eggTimer.duration := prefs.SelectedTime();
        eggTimer.StartTimer();
      }
      ConfigureButtonsAndMenus();
    }

    method ClickToStop()
      modifies this, eggTimer
      ensures eggTimer.Flags() == Halt(old(eggTimer.Flags()))
      ensures buttons == menus == ButtonsFor(eggTimer.isStoped, eggTimer.isPaused)
      ensures timeLabel == old(timeLabel) && eggImage == old(eggImage)
    {
      eggTimer.StopTimer();
      ConfigureButtonsAndMenus();
    }

    method ClickToReset()
      modifies this, eggTimer
      ensures eggTimer.Flags() == Clear(old(eggTimer.Flags()))
      ensures timeLabel == TextToDisplay(prefs.SelectedTime())
      ensures eggImage == ImageStopped
      ensures buttons == menus == Enables(true, false, false)
    {
      eggTimer.ResetTimer();
      UpdateDisplay(prefs.SelectedTime());
      ConfigureButtonsAndMenus();
    }

    /** The engine's progress callback. */
    method TimeRemainingOnTimer(timeRemaining: nat)
      modifies this
      ensures timeLabel == TextToDisplay(timeRemaining)
      ensures eggImage == ImageToDisplay(timeRemaining, prefs.SelectedTime(), eggTimer.isStoped)
      ensures buttons == old(buttons) && menus == old(menus)
    {
      UpdateDisplay(timeRemaining);
    }

    /** The engine's completion callback (the sound it also plays is not modelled). */
    method TimerHasFinished()
      modifies this
      ensures timeLabel == "Done!"
      ensures eggImage == ImageToDisplay(0, prefs.SelectedTime(), eggTimer.isStoped)
      ensures buttons == old(buttons) && menus == old(menus)
    {
      UpdateDisplay(0);
    }

    method UpdateFromPrefs()
      modifies this, eggTimer
      ensures eggTimer.Flags() == TimerFlags(prefs.SelectedTime(), true, false)
      ensures timeLabel == TextToDisplay(prefs.SelectedTime())
      ensures eggImage == ImageStopped
      ensures buttons == menus == Enables(true, false, false)
    {
      eggTimer.duration := prefs.SelectedTime();
      ClickToReset();
    }

    /** Handler of the "PrefsChanged" notification; `answer` is the user's reply
        to the confirmation alert, consulted only while the countdown runs. */
    method CheckForResetAfterPrefsChange(answer: ModalResponse)
      modifies this, eggTimer
      ensures eggTimer.Flags() == PrefsChanged(old(eggTimer.Flags()), prefs.SelectedTime(), answer)
      ensures old(eggTimer.isStoped || eggTimer.isPaused) || answer == AlertFirstButtonReturn ==>
        timeLabel == TextToDisplay(prefs.SelectedTime()) && eggImage == ImageStopped &&
        buttons == menus == Enables(true, false, false)
      ensures !old(eggTimer.isStoped || eggTimer.isPaused) && answer != AlertFirstButtonReturn ==>
        timeLabel == old(timeLabel) && eggImage == old(eggImage) &&
        buttons == old(buttons) && menus == old(menus)
    {
      if eggTimer.isStoped || eggTimer.isPaused {
        UpdateFromPrefs();
      } else if answer == AlertFirstButtonReturn {
        UpdateFromPrefs();
      }
    }
  }
}
