/** The user's chosen boiling time, kept in the user-defaults store under the key
    "selectedTime". Both windows read and write the same stored entry, so the
    store is one shared object here. */
module PrefsStore {

  /** Six minutes: what the getter answers while nothing positive is stored. */
  const DefaultTime: nat := 360

  /** The getter: the stored value when it is positive, the default otherwise
      (an absent key reads as 0). */
  function SelectedTimeFrom(saved: int): (t: nat)
    ensures t > 0
    ensures t == saved || (saved <= 0 && t == DefaultTime)
  {
    if saved > 0 then saved else DefaultTime
  }

  class Preferences {
    /** The raw stored number of seconds. */
    var savedTime: int

    constructor (saved: int)
      ensures savedTime == saved
    {
      savedTime := saved;
    }

    function SelectedTime(): (t: nat)
      reads this
      ensures t > 0
    {
      SelectedTimeFrom(savedTime)
    }

    /** The setter: stores the value as given. */
    method SetSelectedTime(v: int)
      modifies this
      ensures savedTime == v
      ensures SelectedTime() == SelectedTimeFrom(v)
    {
      savedTime := v;
    }
  }
}
