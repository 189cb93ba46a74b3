/**
 * The plain telephony bot's call handling: a dial-out closure with its own
 * attempt counter (at most five rounds), retries on dial-out errors, and the
 * decisions taken when the call state changes and when the first participant
 * joins.
 *
 * The transport is reduced to the log of dial requests and captured
 * participants, the pipeline task to the frames queued into it and whether it
 * was asked to cancel.
 */
module PstnBot {
  import opened Wrappers
  import opened Dialing
  import opened DialIn

  const MaxAttempts: nat := 5

  /** The requests the dial-out has issued after `count` starts with these settings. */
  function DialedAfter(settings: Option<seq<DialoutSetting>>, count: nat): seq<DialRequest>
  {
    if settings.None? then [] else Rounds(DialRequests(settings.value), DialingRounds(count, MaxAttempts))
  }

  class CallSession {
    const dialoutSettings: Option<seq<DialoutSetting>>
    const hasDialin: bool
    var attemptCount: nat
    var dialed: seq<DialRequest>
    /** Participants whose transcription is captured, in order. */
    var captured: seq<string>
    /** How many times the conversation context was queued to make the bot speak. */
    var contextsQueued: nat
    var cancels: nat

    ghost predicate Valid()
      reads this
    {
      dialed == DialedAfter(dialoutSettings, attemptCount)
    }

    constructor (body: Body)
      ensures Valid()
      ensures dialoutSettings == body.dialoutSettings
      ensures hasDialin == NormaliseDialinTupled(body).settings.Some?
      ensures attemptCount == 0 && dialed == [] && captured == [] && contextsQueued == 0 && cancels == 0
    {
      dialoutSettings := body.dialoutSettings;
      hasDialin := NormaliseDialinTupled(body).settings.Some?;
      attemptCount := 0;
      dialed := [];
      captured := [];
      contextsQueued := 0;
      cancels := 0;
    }

    /**
     * The dial-out closure: bump the shared counter; past the maximum give
     * up; otherwise dial every configured target in list order. Absent
     * settings make the loop raise (`failed`) before anything is dialed.
     */
    method StartDialout(settings: Option<seq<DialoutSetting>>) returns (failed: bool)
      requires Valid() && settings == dialoutSettings
      modifies this`attemptCount, this`dialed
      ensures Valid()
      ensures attemptCount == old(attemptCount) + 1
      ensures failed <==> attemptCount <= MaxAttempts && settings.None?
      ensures dialed == old(dialed) + (if attemptCount <= MaxAttempts && settings.Some?
                                       then DialRequests(settings.value) else [])
    {
      attemptCount := attemptCount + 1;
      if attemptCount > MaxAttempts {
        assert DialingRounds(attemptCount, MaxAttempts) == DialingRounds(attemptCount - 1, MaxAttempts);
        return false;
      }
      if settings.None? {
        return true;
      }
      assert DialingRounds(attemptCount, MaxAttempts) == DialingRounds(attemptCount - 1, MaxAttempts) + 1;
      var targets := settings.value;
      for i := 0 to |targets|
        invariant dialed == old(dialed) + DialRequests(targets[..i])
        invariant attemptCount == old(attemptCount) + 1
      {
        DialRequestsStep(targets, i);
        var setting := targets[i];
        if "phoneNumber" in setting {
          if "callerId" in setting {
            dialed := dialed + [PhoneDial(setting["phoneNumber"], Some(setting["callerId"]))];
          } else {
            dialed := dialed + [PhoneDial(setting["phoneNumber"], None)];
          }
        } else if "sipUri" in setting {
          dialed := dialed + [SipDial(setting["sipUri"])];
        }
      }
      assert targets[..|targets|] == targets;
      return false;
    }

    /** A dial-out error retries through the same counter. */
    method OnDialoutError() returns (failed: bool)
      requires Valid()
      modifies this`attemptCount, this`dialed
      ensures Valid()
      ensures attemptCount == old(attemptCount) + 1
      ensures dialed == old(dialed) + (if attemptCount <= MaxAttempts && dialoutSettings.Some?
                                       then DialRequests(dialoutSettings.value) else [])
    {
      failed := StartDialout(dialoutSettings);
    }

    /** "joined" starts the dial-out when there are targets; "left" cancels the task. */
    method OnCallStateUpdated(state: string)
      requires Valid()
      modifies this`attemptCount, this`dialed, this`cancels
      ensures Valid()
      ensures var dials := state == "joined" && dialoutSettings.Some? && dialoutSettings.value != [];
              && attemptCount == old(attemptCount) + (if dials then 1 else 0)
              && dialed == old(dialed) + (if dials && attemptCount <= MaxAttempts
                                          then DialRequests(dialoutSettings.value) else [])
      ensures cancels == old(cancels) + (if state == "left" then 1 else 0)
    {
      if state == "joined" && dialoutSettings.Some? && dialoutSettings.value != [] {
        var _ := StartDialout(dialoutSettings);
      }
      if state == "left" {
        cancels := cancels + 1;
      }
    }

    /** The first participant is transcribed; the bot greets first only on a dial-in call. */
    method OnFirstParticipantJoined(participantId: string)
      modifies this`captured, this`contextsQueued
      ensures captured == old(captured) + [participantId]
      ensures contextsQueued == old(contextsQueued) + (if hasDialin then 1 else 0)
    {
      captured := captured + [participantId];
      if hasDialin {
        contextsQueued := contextsQueued + 1;
      }
    }
  }

  /** Every start, whether from joining or from an error, shares one counter: the log never exceeds five rounds. */
  lemma DialingStaysBounded(settings: seq<DialoutSetting>, count: nat)
    ensures |DialedAfter(Some(settings), count)| <= MaxAttempts * |DialRequests(settings)|
  {
    BoundedDialing(DialRequests(settings), count, MaxAttempts);
  }

  /** A call with targets: joining dials once, then six errors add only four more rounds. */
  method JoinThenErrors(body: Body) returns (dialed: seq<DialRequest>, count: nat)
    requires HasDialout(body)
    ensures count == 7
    ensures dialed == Rounds(DialRequests(body.dialoutSettings.value), 5)
  {
    var session := new CallSession(body);
    session.OnCallStateUpdated("joined");
    var errors := 0;
    while errors < 6
      invariant 0 <= errors <= 6
      invariant session.Valid() && session.dialoutSettings == body.dialoutSettings
      invariant session.attemptCount == 1 + errors
    {
      var _ := session.OnDialoutError();
      errors := errors + 1;
    }
    dialed, count := session.dialed, session.attemptCount;
  }
}
