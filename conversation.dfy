/**
 * The natural-conversation bot's wiring: one notifier shared by the
 * classifier branch (the context filter, the classifier, the completeness
 * check), the idle fallback and the output gate, which starts open because
 * the bot speaks first.
 */
module Conversation {
  import opened Frames
  import opened Notifier
  import opened OutputGate
  import ContextFilter
  import CompletenessCheck

  /** The frames an effect list pushes, in order. */
  function Pushes(effects: seq<Effect>): (r: seq<Routed>)
    ensures |r| <= |effects|
    ensures forall x :: x in r <==> Push(x.0, x.1) in effects
  {
    if effects == [] then []
    else if effects[0].Push? then [(effects[0].frame, effects[0].direction)] + Pushes(effects[1..])
    else Pushes(effects[1..])
  }

  lemma {:induction false} PushesSnoc(effects: seq<Effect>, e: Effect)
    ensures Pushes(effects + [e]) == Pushes(effects) + (if e.Push? then [(e.frame, e.direction)] else [])
    decreases |effects|
  {
    if effects == [] {
      assert effects + [e] == [e];
      assert [e][1..] == [];
    } else {
      assert (effects + [e])[0] == effects[0];
      assert (effects + [e])[1..] == effects[1..] + [e];
      PushesSnoc(effects[1..], e);
    }
  }

  /** One more effect of a prefix: its push, if any, is added last, and a notify is noticed. */
  lemma PushesPrefix(effects: seq<Effect>, i: nat)
    requires i < |effects|
    ensures var e := effects[i];
            Pushes(effects[..i + 1]) == Pushes(effects[..i]) + (if e.Push? then [(e.frame, e.direction)] else [])
    ensures (Notify in effects[..i + 1]) == (Notify in effects[..i] || effects[i] == Notify)
  {
    assert effects[..i + 1] == effects[..i] + [effects[i]];
    PushesSnoc(effects[..i], effects[i]);
  }

  class ConversationSession {
    const notifier: EventNotifier
    const gate: OutputGate
    /** What the context filter sends on to the classifier. */
    var classifierRequests: seq<Routed>
    /** What the completeness check sends on downstream. */
    var verdictOutput: seq<Routed>

    ghost predicate Valid()
      reads this, gate
    {
      gate.notifier == notifier && gate.Valid()
    }

    /** The gate starts open and no notification is pending. */
    constructor ()
      ensures Valid() && fresh(notifier) && fresh(gate)
      ensures gate.State() == InitialGate(true) && gate.pushed == [] && !notifier.pending
      ensures classifierRequests == [] && verdictOutput == []
    {
      var n := new EventNotifier();
      notifier := n;
      gate := new OutputGate(n, true);
      classifierRequests := [];
      verdictOutput := [];
    }

    /** Carries out a stage's effects in order: pushes go to `log`, a notify sets the notifier. */
    method Apply(effects: seq<Effect>, log: seq<Routed>) returns (newLog: seq<Routed>)
      modifies notifier
      ensures newLog == log + Pushes(effects)
      ensures notifier.pending == (old(notifier.pending) || Notify in effects)
    {
      newLog := log;
      for i := 0 to |effects|
        invariant newLog == log + Pushes(effects[..i])
        invariant notifier.pending == (old(notifier.pending) || Notify in effects[..i])
      {
        PushesPrefix(effects, i);
        match effects[i] {
          case Push(f, d) =>
            newLog := newLog + [(f, d)];
          case Notify =>
            notifier.Notify();
        }
      }
      assert effects[..|effects|] == effects;
    }

    /** A frame reaching the context filter at the head of the classifier branch. */
    method JudgeReceives(f: Frame, d: Direction)
      requires Valid()
      modifies this, notifier
      ensures Valid() && unchanged(gate)
      ensures classifierRequests == old(classifierRequests) + Pushes(ContextFilter.FilterEffects(f, d))
      ensures verdictOutput == old(verdictOutput)
      ensures notifier.pending == (old(notifier.pending) || f.LLMMessagesFrame?)
    {
      var effects := ContextFilter.FilterFrame(f, d);
      classifierRequests := Apply(effects, classifierRequests);
    }

    /** A frame from the classifier reaching the completeness check. */
    method VerdictReceives(f: Frame, d: Direction)
      requires Valid()
      modifies this, notifier
      ensures Valid() && unchanged(gate)
      ensures verdictOutput == old(verdictOutput) + Pushes(CompletenessCheck.CheckFrame(f, d))
      ensures classifierRequests == old(classifierRequests)
      ensures notifier.pending == (old(notifier.pending) || f == TextFrame("YES"))
    {
      verdictOutput := Apply(CompletenessCheck.CheckFrame(f, d), verdictOutput);
    }

    /** The idle processor's callback when the user has said nothing for a while. */
    method IdleTimeout()
      modifies notifier
      ensures notifier.pending
    {
      notifier.Notify();
    }

    /** A frame from the response generator reaching the output gate. */
    method GateReceives(f: Frame, d: Direction)
      requires Valid()
      modifies gate
      ensures Valid()
      ensures gate.State() == Receive(old(gate.State()), f, d).0
      ensures gate.pushed == old(gate.pushed) + Receive(old(gate.State()), f, d).1
    {
      gate.ProcessFrame(f, d);
    }

    /** One turn of the gate's background task. */
    method GateTaskTurn()
      requires Valid()
      modifies gate, notifier
      ensures Valid()
      ensures Session(gate.State(), notifier.pending)
           == Step(Session(old(gate.State()), old(notifier.pending)), GateTaskRuns).0
      ensures gate.pushed == old(gate.pushed) + Step(Session(old(gate.State()), old(notifier.pending)), GateTaskRuns).1
    {
      gate.RunGateTask();
    }
  }

  /**
   * The first half of a user turn: the bot has started, the user starts
   * speaking (the gate closes) and the response generator's early answer is
   * held.
   */
  method AnswerHeldWhileSpeaking(answer: string) returns (s: ConversationSession)
    ensures s.Valid() && fresh(s) && fresh(s.gate) && fresh(s.notifier)
    ensures s.gate.State() == GateState(false, [(TextFrame(answer), Downstream)], true)
    ensures s.gate.pushed == [(StartFrame, Downstream), (StartInterruptionFrame, Downstream)]
    ensures s.classifierRequests == [(StartInterruptionFrame, Downstream)] && s.verdictOutput == []
    ensures !s.notifier.pending
  {
    s := new ConversationSession();
    s.GateReceives(StartFrame, Downstream);
    assert s.gate.State() == GateState(true, [], true);
    s.JudgeReceives(StartInterruptionFrame, Downstream);
    assert s.classifierRequests == [(StartInterruptionFrame, Downstream)];
    s.GateReceives(StartInterruptionFrame, Downstream);
    assert s.gate.State() == GateState(false, [], true);
    s.GateReceives(TextFrame(answer), Downstream);
  }

  /**
   * One user turn end to end: after the answer is held, the classifier is
   * asked about what the user said and answers "YES", and the gate task then
   * releases the held answer, after the end-of-turn frame has gone downstream.
   */
  method UserTurn(said: string, answer: string)
    returns (requests: seq<Routed>, verdicts: seq<Routed>, delivered: seq<Routed>)
    ensures requests == [(StartInterruptionFrame, Downstream),
                         (LLMMessagesFrame([ContextFilter.SystemMessage,
                                            Message("user", StringContent(said))]), Downstream)]
    ensures verdicts == [(UserStoppedSpeakingFrame, Downstream)]
    ensures delivered == [(StartFrame, Downstream), (StartInterruptionFrame, Downstream),
                          (TextFrame(answer), Downstream)]
  {
    var s := AnswerHeldWhileSpeaking(answer);
    var context := OpenAILLMContextFrame([Message("user", StringContent(said))]);
    ContextFilter.SingleUserRequest(said);
    s.JudgeReceives(context, Downstream);
    assert !s.notifier.pending;
    s.VerdictReceives(TextFrame("YES"), Downstream);
    assert s.notifier.pending;
    s.GateTaskTurn();
    requests := s.classifierRequests;
    verdicts := s.verdictOutput;
    delivered := s.gate.pushed;
  }
}
