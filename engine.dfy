/** The countdown engine the egg-timer window drives. Its own source is not part
    of this model: only the state the window reads and writes is kept (the
    configured duration in whole seconds and the two flags `isStoped` and
    `isPaused`), and each engine call has the effect on those flags that the
    window's button table relies on. */
module EggTimerEngine {

  /** The engine state the window can observe. */
  datatype TimerFlags = TimerFlags(duration: nat, isStoped: bool, isPaused: bool)

  /** `startTimer` and `resumeTimer`: the countdown runs, neither stopped nor paused. */
  function Run(f: TimerFlags): TimerFlags {
    f.(isStoped := false, isPaused := false)
  }

  /** `stopTimer`: a running countdown is halted part-way and counts as paused;
      an engine that never started stays stopped. */
  function Halt(f: TimerFlags): TimerFlags {
    f.(isPaused := !f.isStoped)
  }

  /** `resetTimer`: back to the stopped state, ready for a fresh start. */
  function Clear(f: TimerFlags): TimerFlags {
    f.(isStoped := true, isPaused := false)
  }

  class EggTimer {
    var duration: nat
    var isStoped: bool
    var isPaused: bool

    function Flags(): TimerFlags
      reads this
    {
      TimerFlags(duration, isStoped, isPaused)
    }

    constructor ()
      ensures isStoped && !isPaused
    {
      duration := 0;
      isStoped := true;
      isPaused := false;
    }

    method StartTimer()
      modifies this
      ensures Flags() == Run(old(Flags()))
    {
      isStoped, isPaused := false, false;
    }

    method ResumeTimer()
      modifies this
      ensures Flags() == Run(old(Flags()))
    {
      isStoped, isPaused := false, false;
    }

    method StopTimer()
      modifies this
      ensures Flags() == Halt(old(Flags()))
    {
      isPaused := !isStoped;
    }

    method ResetTimer()
      modifies this
      ensures Flags() == Clear(old(Flags()))
    {
      isStoped, isPaused := true, false;
    }
  }
}
