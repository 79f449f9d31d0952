/** The "PrefsChanged" notification: OK on the preferences sheet saves the new
    time and posts it, and the timer window handles it. The notification centre
    itself is replaced by the direct call it amounts to. */
module PrefsChangedEvent {
  import opened PrefsStore
  import opened TimerView
  import opened PrefsView

  /** OK on `sheet`, then the window's handler with the user's `answer` to its
      alert. A stopped or paused countdown (or a running one the user agrees to
      reset) ends up stopped with the slider's minutes as its duration, six
      minutes for a zero slider; a running one the user keeps is untouched. */
  method OkThenNotify(sheet: PrefsViewController, window: ViewController, answer: ModalResponse)
    requires sheet.prefs == window.prefs
    modifies sheet.prefs, window, window.eggTimer
    ensures window.eggTimer.Flags() ==
      PrefsChanged(old(window.eggTimer.Flags()), SelectedTimeFrom(sheet.sliderValue * 60), answer)
    ensures old(window.eggTimer.isStoped || window.eggTimer.isPaused) ==>
      window.eggTimer.duration == (if sheet.sliderValue > 0 then sheet.sliderValue * 60 else DefaultTime) &&
      window.timeLabel == TextToDisplay(window.eggTimer.duration)
  {
    sheet.OkClicked();
    window.CheckForResetAfterPrefsChange(answer);
  }
}
