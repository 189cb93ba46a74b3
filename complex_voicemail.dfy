/**
 * The voicemail-detecting telephony bot's stateful parts: the flag recording
 * that a human answered, the dial-out handler with its bounded attempt
 * counter, and the pipeline handler's running/task/runner bookkeeping and
 * lazily built conversation context.
 *
 * The transport is reduced to a log of the dial requests handed to it, and
 * the pipeline task to whether one exists and how often it was asked to
 * cancel.
 */
module ComplexVoicemail {
  import opened Wrappers
  import opened Frames
  import opened Dialing

  class CallFlowState {
    var humanDetected: bool

    constructor ()
      ensures !humanDetected
    {
      humanDetected := false;
    }

    /** The only change the state allows: once a human is detected, that stays so. */
    method SetHumanDetected()
      modifies this
      ensures humanDetected
    {
      humanDetected := true;
    }
  }

  class DialOutHandler {
    const settings: seq<DialoutSetting>
    const maxAttempts: int
    var attemptCount: nat
    /** Every request handed to the transport, in order. */
    var dialed: seq<DialRequest>

    /** The transport has seen exactly one round per counted attempt within the maximum. */
    ghost predicate Valid()
      reads this
    {
      dialed == Rounds(DialRequests(settings), DialingRounds(attemptCount, maxAttempts))
    }

    constructor (settings: seq<DialoutSetting>, maxAttempts: int := 5)
      ensures Valid()
      ensures this.settings == settings && this.maxAttempts == maxAttempts
      ensures attemptCount == 0 && dialed == []
    {
      this.settings := settings;
      this.maxAttempts := maxAttempts;
      attemptCount := 0;
      dialed := [];
    }

    /**
     * Counts the attempt, even one that gives up, and while the count is
     * within the maximum dials every configured target in list order.
     */
    method StartDialout()
      requires Valid()
      modifies this`attemptCount, this`dialed
      ensures Valid()
      ensures attemptCount == old(attemptCount) + 1
      ensures dialed == old(dialed) + (if attemptCount <= maxAttempts then DialRequests(settings) else [])
    {
      attemptCount := attemptCount + 1;
      if attemptCount > maxAttempts {
        assert DialingRounds(attemptCount, maxAttempts) == DialingRounds(attemptCount - 1, maxAttempts);
        return;
      }
      assert DialingRounds(attemptCount, maxAttempts) == DialingRounds(attemptCount - 1, maxAttempts) + 1;
      DialEverySetting();
    }

    /** One dialing round: every configured target, in list order. */
    method DialEverySetting()
      modifies this`dialed
      ensures dialed == old(dialed) + DialRequests(settings)
    {
      for i := 0 to |settings|
        invariant dialed == old(dialed) + DialRequests(settings[..i])
      {
        DialRequestsStep(settings, i);
        var setting := settings[i];
        if "phoneNumber" in setting {
          if "callerId" in setting {
            dialed := dialed + [PhoneDial(setting["phoneNumber"], Some(setting["callerId"]))];
          } else {
            dialed := dialed + [PhoneDial(setting["phoneNumber"], None)];
          }
        } else if "sipUri" in setting {
          dialed := dialed + [SipDial(setting["sipUri"])];
        }
      }
      assert settings[..|settings|] == settings;
    }

    /** A failed dial-out retries through the same counter. */
    method OnDialoutError()
      requires Valid()
      modifies this
      ensures Valid()
      ensures attemptCount == old(attemptCount) + 1
      ensures dialed == old(dialed) + (if attemptCount <= maxAttempts then DialRequests(settings) else [])
    {
      StartDialout();
    }
  }

  /** However many errors arrive, the transport sees at most `maxAttempts` rounds. */
  method RetriesAreBounded(settings: seq<DialoutSetting>, errors: nat) returns (dialed: seq<DialRequest>)
    ensures |dialed| <= 5 * |DialRequests(settings)|
  {
    var handler := new DialOutHandler(settings);
    handler.StartDialout();
    var e := 0;
    while e < errors
      invariant handler.Valid() && handler.maxAttempts == 5 && handler.settings == settings
    {
      handler.OnDialoutError();
      e := e + 1;
    }
    BoundedDialing(DialRequests(settings), handler.attemptCount, 5);
    dialed := handler.dialed;
  }

  /** How a run of the pipeline ended. */
  datatype RunOutcome = Finished | Cancelled | Raised

  /** The messages a fresh context starts with: the system prompt, only when there is a non-empty one. */
  function InitialMessages(systemPrompt: Option<string>): (msgs: seq<Message>)
    ensures |msgs| <= 1
    ensures msgs != [] <==> systemPrompt.Some? && systemPrompt.value != ""
    ensures msgs != [] ==> msgs[0] == Message("system", StringContent(systemPrompt.value))
  {
    if systemPrompt.Some? && systemPrompt.value != "" then [Message("system", StringContent(systemPrompt.value))]
    else []
  }

  class PipelineHandler {
    const systemPrompt: Option<string>
    var isRunning: bool
    var hasTask: bool
    var hasRunner: bool
    /** The context aggregator, reduced to the messages of the context it holds. */
    var context: Option<seq<Message>>
    /** How many times the task was asked to cancel. */
    var cancels: nat
    /** The contexts queued into the task, in order. */
    var queued: seq<seq<Message>>

    constructor (systemPrompt: Option<string>)
      ensures this.systemPrompt == systemPrompt
      ensures !isRunning && !hasTask && !hasRunner && context.None? && cancels == 0 && queued == []
    {
      this.systemPrompt := systemPrompt;
      isRunning := false;
      hasTask := false;
      hasRunner := false;
      context := None;
      cancels := 0;
      queued := [];
    }

    method SetupLlmContext() returns (messages: seq<Message>)
      modifies this`context
      ensures messages == InitialMessages(systemPrompt)
      ensures context == Some(messages)
    {
      messages := [];
      if systemPrompt.Some? && systemPrompt.value != "" {
        messages := messages + [Message("system", StringContent(systemPrompt.value))];
      }
      context := Some(messages);
    }

    /** Builds the context on first use; later calls return the same one. */
    method GetContextAggregator() returns (messages: seq<Message>)
      modifies this`context
      ensures old(context).Some? ==> context == old(context)
      ensures old(context).None? ==> context == Some(InitialMessages(systemPrompt))
      ensures context == Some(messages)
    {
      if context.None? {
        messages := SetupLlmContext();
      }
      messages := context.value;
    }

    method CreateTask()
      modifies this`hasTask
      ensures hasTask
    {
      hasTask := true;
    }

    /** The part of `start` before the run: a runner is made and the handler counts as running. */
    method BeginRun()
      modifies this`hasRunner, this`isRunning
      ensures hasRunner && isRunning
    {
      hasRunner := true;
      isRunning := true;
    }

    /** The part of `start` after the run, whatever its outcome: everything is cleared. */
    method EndRun(outcome: RunOutcome)
      modifies this`hasRunner, this`isRunning, this`hasTask
      ensures !isRunning && !hasTask && !hasRunner
    {
      match outcome {
        case Finished =>
        case Cancelled =>
        case Raised =>
      }
      isRunning := false;
      hasTask := false;
      hasRunner := false;
    }

    /** A whole run with nothing interleaved. */
    method Start(outcome: RunOutcome)
      modifies this`hasRunner, this`isRunning, this`hasTask
      ensures !isRunning && !hasTask && !hasRunner
    {
      BeginRun();
      EndRun(outcome);
    }

    /**
     * Stopping: a running task is asked to cancel and, if that does not
     * raise, the handler stops counting as running; a task that exists but is
     * not running is dropped; with no task there is nothing to do.
     */
    method Stop(cancelRaises: bool)
      modifies this`isRunning, this`hasTask, this`cancels
      ensures old(hasTask && isRunning) ==>
                cancels == old(cancels) + 1 && hasTask && isRunning == cancelRaises
      ensures old(!isRunning && hasTask) ==> !hasTask && !isRunning && cancels == old(cancels)
      ensures old(!hasTask) ==> !hasTask && isRunning == old(isRunning) && cancels == old(cancels)
    {
      if hasTask && isRunning {
        cancels := cancels + 1;
        if !cancelRaises {
          isRunning := false;
        }
      } else if !isRunning && hasTask {
        hasTask := false;
      } else if !hasTask {
      } else {
        assert false;
      }
    }

    /** Queues the context into the task, only when both exist. */
    method QueueContextFrame()
      modifies this`queued
      ensures hasTask && context.Some? ==> queued == old(queued) + [context.value]
      ensures !(hasTask && context.Some?) ==> queued == old(queued)
    {
      if !hasTask || context.None? {
        return;
      }
      queued := queued + [context.value];
    }
  }

  /** The context is built once: a second request returns what the first built. */
  method ContextBuiltOnce(systemPrompt: Option<string>) returns (first: seq<Message>, second: seq<Message>)
    ensures first == second == InitialMessages(systemPrompt)
  {
    var handler := new PipelineHandler(systemPrompt);
    first := handler.GetContextAggregator();
    second := handler.GetContextAggregator();
  }

  /** A stop that arrives while the run is in progress, then the run ends: the handler is left clean. */
  method StopDuringRun(outcome: RunOutcome) returns (running: bool, task: bool, cancelled: nat)
    ensures !running && !task && cancelled == 1
  {
    var handler := new PipelineHandler(None);
    handler.CreateTask();
    handler.BeginRun();
    handler.Stop(false);
    handler.EndRun(outcome);
    running, task, cancelled := handler.isRunning, handler.hasTask, handler.cancels;
  }
}
