/**
 * The completeness check: the last stage of the classifier branch. It reads
 * the classifier's verdict; "YES" ends the user's turn (a user-stopped-speaking
 * frame, then a notify that opens the output gate), "NO" is swallowed, and any
 * other frame passes through unchanged.
 */
module CompletenessCheck {
  import opened Wrappers
  import opened Frames
  import opened FrameFilters

  function CheckFrame(f: Frame, d: Direction): (effects: seq<Effect>)
    // "YES": the end of the turn is announced downstream before the notifier fires.
    ensures f == TextFrame("YES") ==> effects == [Push(UserStoppedSpeakingFrame, Downstream), Notify]
    // The notifier fires exactly for the frames the bot's wake check accepts.
    ensures Notify in effects <==> WakeCheckFilter(f) == Some(true)
    ensures forall i :: 0 <= i < |effects| && effects[i] == Notify ==>
              0 < i && effects[i - 1] == Push(UserStoppedSpeakingFrame, Downstream)
    // "NO" is the only frame that is swallowed.
    ensures effects == [] <==> f == TextFrame("NO")
    // Anything that is not a verdict, system frames included, goes on unchanged.
    ensures f != TextFrame("YES") && f != TextFrame("NO") ==> effects == [Push(f, d)]
  {
    if f.TextFrame? && f.text == "YES" then
      [Push(UserStoppedSpeakingFrame, Downstream), Notify]
    else if f.TextFrame? && f.text == "NO" then
      []
    else
      [Push(f, d)]
  }
}
