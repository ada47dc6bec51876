/** The controller's three lifecycle states (`VoiceState` in Voice.ts). */
module States {

  datatype VoiceState = Stopped | Ready | CallInProgress
  {
    /** The enum's string value, which is what error messages print. */
    function Name(): (n: string)
      ensures |n| > 0 && n[|n| - 1] in {'D', 'Y', 'S'}
    {
      match this
      case Stopped => "STOPPED"
      case Ready => "READY"
      case CallInProgress => "CALL_IN_PROGRESS"
    }
  }

  /** Distinct states print distinctly: their names even end in different
      letters, which is what lets an error message be read back. */
  lemma NameLastLetterIdentifies(a: VoiceState, b: VoiceState)
    ensures a.Name()[|a.Name()| - 1] == b.Name()[|b.Name()| - 1] <==> a == b
  {
  }
}
