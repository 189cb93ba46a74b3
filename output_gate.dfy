/**
 * The output gate at the end of the response branch, and the event machine
 * formed by the gate and the notifier.
 *
 * While closed the gate holds back every non-system frame travelling
 * downstream; when its background task observes the notifier it opens and
 * releases what it holds, in arrival order. An interruption discards what is
 * held and closes the gate. The background task's "wait, open, flush" is one
 * atomic step here (`GateTaskRuns`).
 */
module OutputGate {
  import opened Frames
  import opened Notifier

  datatype GateState = GateState(open: bool, buffer: seq<Routed>, taskRunning: bool)

  /** The frames the gate may hold back: non-system frames travelling downstream. */
  predicate Holdable(x: Routed)
  {
    !IsSystemFrame(x.0) && x.1 == Downstream
  }

  /** An open gate holds nothing, and it only ever holds holdable frames. */
  predicate GateInv(s: GateState)
  {
    (s.open ==> s.buffer == []) && forall i :: 0 <= i < |s.buffer| ==> Holdable(s.buffer[i])
  }

  /** A new gate: open or closed as configured, nothing held, no background task yet. */
  function InitialGate(startOpen: bool): (s: GateState)
    ensures GateInv(s) && s.open == startOpen && s.buffer == [] && !s.taskRunning
  {
    GateState(startOpen, [], false)
  }

  /** The gate's reaction to one frame: its new state and what it pushes on. */
  function Receive(s: GateState, f: Frame, d: Direction): (r: (GateState, seq<Routed>))
    // System frames are always pushed on, in their own direction.
    ensures IsSystemFrame(f) ==> r.1 == [(f, d)]
    ensures f == StartFrame ==> r.0 == s.(buffer := [], taskRunning := true)
    ensures f == CancelFrame ==> r.0 == s.(taskRunning := false)
    ensures f == StartInterruptionFrame ==> r.0 == s.(buffer := [], open := false)
    ensures IsSystemFrame(f) && f !in {StartFrame, CancelFrame, StartInterruptionFrame} ==> r.0 == s
    // Other frames going upstream pass untouched, whatever the gate's state.
    ensures !IsSystemFrame(f) && d == Upstream ==> r == (s, [(f, d)])
    // Other frames going downstream are pushed on by an open gate and held by a closed one.
    ensures !IsSystemFrame(f) && d == Downstream && s.open ==> r == (s, [(f, d)])
    ensures !IsSystemFrame(f) && d == Downstream && !s.open ==> r == (s.(buffer := s.buffer + [(f, d)]), [])
    ensures GateInv(s) ==> GateInv(r.0)
  {
    if IsSystemFrame(f) then
      var s1 := if f == StartFrame then s.(buffer := [], taskRunning := true) else s;
      var s2 := if f == EndFrame || f == CancelFrame then s1.(taskRunning := false) else s1;
      var s3 := if f == StartInterruptionFrame then s2.(buffer := [], open := false) else s2;
      (s3, [(f, d)])
    else if d != Downstream then
      (s, [(f, d)])
    else if s.open then
      (s, [(f, d)])
    else
      (s.(buffer := s.buffer + [(f, d)]), [])
  }

  /** The background task after its wait returned: open, push everything held, in order, once. */
  function Flush(s: GateState): (r: (GateState, seq<Routed>))
    ensures r.0.open && r.0.buffer == [] && r.0.taskRunning == s.taskRunning
    ensures r.1 == s.buffer
    ensures GateInv(r.0)
  {
    (s.(open := true, buffer := []), s.buffer)
  }

  /** The gate and the notifier it waits on. */
  datatype Session = Session(gate: GateState, pending: bool)

  /**
   * What can happen: a frame reaches the gate; someone notifies (the
   * completeness check, the context filter or the idle fallback); the
   * gate's background task gets to run.
   */
  datatype Event = Arrive(frame: Frame, direction: Direction) | NotifyEvent | GateTaskRuns

  function Step(st: Session, e: Event): (Session, seq<Routed>)
  {
    match e
    case Arrive(f, d) =>
      var r := Receive(st.gate, f, d);
      (st.(gate := r.0), r.1)
    case NotifyEvent =>
      (st.(pending := true), [])
    case GateTaskRuns =>
      if st.gate.taskRunning && st.pending then
        var r := Flush(st.gate);
        (Session(r.0, false), r.1)
      else
        (st, [])
  }

  /** The final state after a sequence of events, and everything the gate pushed on, in order. */
  function Run(st: Session, evs: seq<Event>): (Session, seq<Routed>)
    decreases |evs|
  {
    if evs == [] then (st, [])
    else
      var s1 := Step(st, evs[0]);
      var s2 := Run(s1.0, evs[1..]);
      (s2.0, s1.1 + s2.1)
  }

  /** The invariant holds in every reachable state. */
  lemma {:induction false} RunPreservesInv(st: Session, evs: seq<Event>)
    requires GateInv(st.gate)
    ensures GateInv(Run(st, evs).0.gate)
    decreases |evs|
  {
    if evs != [] {
      RunPreservesInv(Step(st, evs[0]).0, evs[1..]);
    }
  }

  /**
   * No premature delivery: until a notification arrives, a closed gate stays
   * closed and pushes on nothing but system frames and upstream frames,
   * however often its background task gets to run.
   */
  lemma {:induction false} NoPrematureDelivery(st: Session, evs: seq<Event>)
    requires !st.gate.open
    requires !st.pending
    requires NotifyEvent !in evs
    ensures !Run(st, evs).0.gate.open && !Run(st, evs).0.pending
    ensures forall i :: 0 <= i < |Run(st, evs).1| ==> !Holdable(Run(st, evs).1[i])
    decreases |evs|
  {
    if evs != [] {
      assert NotifyEvent !in evs[1..] by {
        assert forall e :: e in evs[1..] ==> e in evs;
      }
      NoPrematureDelivery(Step(st, evs[0]).0, evs[1..]);
    }
  }

  /**
   * An end frame is not a system frame, so a closed gate holds it like any
   * other downstream frame and its background task keeps running.
   */
  lemma EndFrameHeldWhileClosed(s: GateState)
    requires !s.open
    ensures Receive(s, EndFrame, Downstream) == (s.(buffer := s.buffer + [(EndFrame, Downstream)]), [])
  {
  }

  /** The holdable frames of a pushed sequence. */
  function HeldOut(xs: seq<Routed>): seq<Routed>
  {
    if xs == [] then []
    else (if Holdable(xs[0]) then [xs[0]] else []) + HeldOut(xs[1..])
  }

  /** The holdable frames that arrive in a sequence of events. */
  function HeldIn(evs: seq<Event>): seq<Routed>
  {
    if evs == [] then []
    else (if evs[0].Arrive? && Holdable((evs[0].frame, evs[0].direction))
          then [(evs[0].frame, evs[0].direction)] else []) + HeldIn(evs[1..])
  }

  lemma {:induction false} HeldOutAppend(a: seq<Routed>, b: seq<Routed>)
    ensures HeldOut(a + b) == HeldOut(a) + HeldOut(b)
    decreases |a|
  {
    if a == [] {
      assert a + b == b;
    } else {
      var ab := a + b;
      assert ab[0] == a[0];
      assert ab[1..] == a[1..] + b;
      HeldOutAppend(a[1..], b);
    }
  }

  lemma {:induction false} HeldOutAllHoldable(xs: seq<Routed>)
    requires forall i :: 0 <= i < |xs| ==> Holdable(xs[i])
    ensures HeldOut(xs) == xs
  {
    if xs != [] {
      HeldOutAllHoldable(xs[1..]);
    }
  }

  /** The events that discard held frames: a start frame or an interruption. */
  predicate Discards(e: Event)
  {
    e.Arrive? && (e.frame == StartFrame || e.frame == StartInterruptionFrame)
  }

  /** One step moves held frames between arrival, buffer and output without loss. */
  lemma StepConserves(st: Session, e: Event)
    requires GateInv(st.gate)
    requires !Discards(e)
    ensures HeldOut(Step(st, e).1) + Step(st, e).0.gate.buffer == st.gate.buffer + HeldIn([e])
  {
    assert [e][1..] == [];
    match e {
      case Arrive(f, d) =>
        assert [(f, d)][1..] == [];
        var r := Receive(st.gate, f, d);
        if IsSystemFrame(f) || d == Upstream || st.gate.open {
          assert HeldOut(r.1) == HeldIn([e]);
        } else {
          assert HeldOut(r.1) == [];
        }
      case NotifyEvent =>
      case GateTaskRuns =>
        if st.gate.taskRunning && st.pending {
          HeldOutAllHoldable(st.gate.buffer);
        }
    }
  }

  lemma ConcatAssoc<T>(x: seq<T>, y: seq<T>, z: seq<T>)
    ensures (x + y) + z == x + (y + z)
  {
  }

  lemma HeldInCons(evs: seq<Event>)
    requires evs != []
    ensures HeldIn(evs) == HeldIn([evs[0]]) + HeldIn(evs[1..])
  {
    assert [evs[0]][1..] == [];
  }

  /**
   * Conservation: without a discarding event, every held frame that arrives
   * is pushed on exactly once and in arrival order, after those held at the
   * start, or is still held at the end.
   */
  lemma {:induction false} Conservation(st: Session, evs: seq<Event>)
    requires GateInv(st.gate)
    requires forall i :: 0 <= i < |evs| ==> !Discards(evs[i])
    ensures HeldOut(Run(st, evs).1) + Run(st, evs).0.gate.buffer == st.gate.buffer + HeldIn(evs)
    decreases |evs|
  {
    if evs == [] {
      HeldOutAllHoldable(st.gate.buffer);
    } else {
      var s1 := Step(st, evs[0]);
      var s2 := Run(s1.0, evs[1..]);
      assert Run(st, evs) == (s2.0, s1.1 + s2.1);
      StepConserves(st, evs[0]);
      assert GateInv(s1.0.gate);
      assert forall i :: 0 <= i < |evs[1..]| ==> !Discards(evs[1..][i]) by {
        forall i | 0 <= i < |evs[1..]| ensures !Discards(evs[1..][i]) {
          assert evs[1..][i] == evs[i + 1];
        }
      }
      Conservation(s1.0, evs[1..]);
      HeldOutAppend(s1.1, s2.1);
      HeldInCons(evs);
      var a, b, c := HeldOut(s1.1), HeldOut(s2.1), s2.0.gate.buffer;
      var m, h0, h1 := s1.0.gate.buffer, HeldIn([evs[0]]), HeldIn(evs[1..]);
      assert HeldOut(Run(st, evs).1) + Run(st, evs).0.gate.buffer == a + b + c;
      assert b + c == m + h1;
      assert a + m == st.gate.buffer + h0;
      ConcatAssoc(a, b, c);
      ConcatAssoc(a, m, h1);
      ConcatAssoc(st.gate.buffer, h0, h1);
    }
  }

  /**
   * Interruption discard: after an interruption, the gate only ever pushes on
   * held frames that arrived after it; nothing held before is delivered.
   */
  lemma InterruptionDiscards(st: Session, d: Direction, rest: seq<Event>)
    requires GateInv(st.gate)
    requires forall i :: 0 <= i < |rest| ==> !Discards(rest[i])
    ensures var r := Run(st, [Arrive(StartInterruptionFrame, d)] + rest);
            HeldOut(r.1) + r.0.gate.buffer == HeldIn(rest)
  {
    var evs := [Arrive(StartInterruptionFrame, d)] + rest;
    assert evs[0] == Arrive(StartInterruptionFrame, d) && evs[1..] == rest;
    var s1 := Step(st, evs[0]);
    assert s1.0.gate.buffer == [] && GateInv(s1.0.gate);
    assert s1.1 == [(StartInterruptionFrame, d)];
    assert HeldOut(s1.1) == [] by {
      assert s1.1[1..] == [];
    }
    var s2 := Run(s1.0, rest);
    assert Run(st, evs) == (s2.0, s1.1 + s2.1);
    Conservation(s1.0, rest);
    HeldOutAppend(s1.1, s2.1);
    assert HeldOut(s1.1 + s2.1) == HeldOut(s2.1);
  }

  /** `a` is `b` with some elements left out: the rest of `b`, in the same order. */
  predicate SubSeq<T(==)>(a: seq<T>, b: seq<T>)
    decreases |b|
  {
    if a == [] then true
    else if b == [] then false
    else (a[0] == b[0] && SubSeq(a[1..], b[1..])) || SubSeq(a, b[1..])
  }

  lemma {:induction false} SubSeqRefl<T>(a: seq<T>)
    ensures SubSeq(a, a)
  {
    if a != [] {
      SubSeqRefl(a[1..]);
    }
  }

  lemma {:induction false} SubSeqMembers<T>(a: seq<T>, b: seq<T>)
    requires SubSeq(a, b)
    ensures forall x :: x in a ==> x in b
    decreases |b|
  {
    if a != [] {
      if a[0] == b[0] && SubSeq(a[1..], b[1..]) {
        SubSeqMembers(a[1..], b[1..]);
        assert forall x :: x in a ==> x == a[0] || x in a[1..];
      } else {
        SubSeqMembers(a, b[1..]);
      }
    }
  }

  lemma {:induction false} SubSeqTrans<T>(a: seq<T>, b: seq<T>, c: seq<T>)
    requires SubSeq(a, b) && SubSeq(b, c)
    ensures SubSeq(a, c)
    decreases |c|
  {
    if a != [] {
      if b[0] == c[0] && SubSeq(b[1..], c[1..]) {
        if a[0] == b[0] && SubSeq(a[1..], b[1..]) {
          SubSeqTrans(a[1..], b[1..], c[1..]);
        } else {
          SubSeqTrans(a, b[1..], c[1..]);
        }
      } else {
        SubSeqTrans(a, b, c[1..]);
      }
    }
  }

  /** Leaving out elements of both halves leaves out elements of the whole. */
  lemma {:induction false} SubSeqAppend<T>(a: seq<T>, b: seq<T>, c: seq<T>, d: seq<T>)
    requires SubSeq(a, b) && SubSeq(c, d)
    ensures SubSeq(a + c, b + d)
    decreases |b|
  {
    if a == [] {
      SubSeqPrefix(c, b, d);
      assert a + c == c;
    } else {
      assert (a + c)[0] == a[0] && (a + c)[1..] == a[1..] + c;
      assert (b + d)[0] == b[0] && (b + d)[1..] == b[1..] + d;
      if a[0] == b[0] && SubSeq(a[1..], b[1..]) {
        SubSeqAppend(a[1..], b[1..], c, d);
      } else {
        SubSeqAppend(a, b[1..], c, d);
      }
    }
  }

  lemma {:induction false} SubSeqPrefix<T>(c: seq<T>, b: seq<T>, d: seq<T>)
    requires SubSeq(c, d)
    ensures SubSeq(c, b + d)
    decreases |b|
  {
    if b == [] {
      assert b + d == d;
    } else {
      assert (b + d)[1..] == b[1..] + d;
      SubSeqPrefix(c, b[1..], d);
    }
  }

  /** One step, discarding or not, delivers or keeps held frames only from those held or arriving, in order. */
  lemma StepKeepsOrder(st: Session, e: Event)
    requires GateInv(st.gate)
    ensures SubSeq(HeldOut(Step(st, e).1) + Step(st, e).0.gate.buffer, st.gate.buffer + HeldIn([e]))
  {
    if Discards(e) {
      var r := Step(st, e);
      assert r.1 == [(e.frame, e.direction)] && r.1[1..] == [];
      assert HeldOut(r.1) + r.0.gate.buffer == [];
    } else {
      StepConserves(st, e);
      SubSeqRefl(st.gate.buffer + HeldIn([e]));
    }
  }

  /**
   * Over any run, with start frames and interruptions allowed, what the gate
   * delivers and still holds of the held frames is a subsequence of what it
   * held and what arrived: nothing is duplicated, invented or reordered.
   */
  lemma {:induction false} RunKeepsOrder(st: Session, evs: seq<Event>)
    requires GateInv(st.gate)
    ensures SubSeq(HeldOut(Run(st, evs).1) + Run(st, evs).0.gate.buffer, st.gate.buffer + HeldIn(evs))
    decreases |evs|
  {
    if evs == [] {
      var empty: seq<Routed> := [];
      assert Run(st, evs) == (st, empty) && HeldOut(empty) == [];
      SubSeqRefl(st.gate.buffer);
      assert HeldIn(evs) == [];
      assert HeldOut(Run(st, evs).1) + Run(st, evs).0.gate.buffer == st.gate.buffer;
      assert st.gate.buffer + HeldIn(evs) == st.gate.buffer;
    } else {
      var s1 := Step(st, evs[0]);
      var s2 := Run(s1.0, evs[1..]);
      assert Run(st, evs) == (s2.0, s1.1 + s2.1);
      StepKeepsOrder(st, evs[0]);
      RunKeepsOrder(s1.0, evs[1..]);
      HeldOutAppend(s1.1, s2.1);
      HeldInCons(evs);
      var a, b, c := HeldOut(s1.1), HeldOut(s2.1), s2.0.gate.buffer;
      var m, h0, h1 := s1.0.gate.buffer, HeldIn([evs[0]]), HeldIn(evs[1..]);
      SubSeqRefl(a);
      SubSeqAppend(a, a, b + c, m + h1);
      SubSeqRefl(h1);
      SubSeqAppend(a + m, st.gate.buffer + h0, h1, h1);
      ConcatAssoc(a, m, h1);
      ConcatAssoc(a, b, c);
      ConcatAssoc(st.gate.buffer, h0, h1);
      SubSeqTrans(a + (b + c), a + (m + h1), st.gate.buffer + HeldIn(evs));
    }
  }

  /**
   * After an interruption, whatever follows (further interruptions and start
   * frames included), the held frames the gate delivers or still holds are
   * among those that arrived after the interruption, in their arrival order;
   * nothing held before it is ever delivered.
   */
  lemma InterruptedFramesNeverDelivered(st: Session, d: Direction, rest: seq<Event>)
    requires GateInv(st.gate)
    ensures var r := Run(st, [Arrive(StartInterruptionFrame, d)] + rest);
            SubSeq(HeldOut(r.1) + r.0.gate.buffer, HeldIn(rest))
            && forall x :: x in HeldOut(r.1) ==> x in HeldIn(rest)
  {
    var evs := [Arrive(StartInterruptionFrame, d)] + rest;
    assert evs[0] == Arrive(StartInterruptionFrame, d) && evs[1..] == rest;
    var s1 := Step(st, evs[0]);
    assert s1.0.gate.buffer == [] && GateInv(s1.0.gate);
    assert HeldOut(s1.1) == [] by {
      assert s1.1 == [(StartInterruptionFrame, d)] && s1.1[1..] == [];
    }
    var s2 := Run(s1.0, rest);
    assert Run(st, evs) == (s2.0, s1.1 + s2.1);
    RunKeepsOrder(s1.0, rest);
    HeldOutAppend(s1.1, s2.1);
    assert HeldOut(s1.1 + s2.1) == HeldOut(s2.1);
    assert [] + HeldIn(rest) == HeldIn(rest);
    SubSeqMembers(HeldOut(s2.1) + s2.0.gate.buffer, HeldIn(rest));
  }

  /** Running a sequence that starts with `e` is a step followed by the rest. */
  lemma RunCons(st: Session, e: Event, rest: seq<Event>)
    ensures var s1 := Step(st, e);
            Run(st, [e] + rest) == (Run(s1.0, rest).0, s1.1 + Run(s1.0, rest).1)
  {
    assert ([e] + rest)[0] == e && ([e] + rest)[1..] == rest;
  }

  /** The five steps of `LateVerdictAfterInterruption`, one at a time. */
  lemma LateVerdictSteps(a: Frame, b: Frame)
    requires !IsSystemFrame(a) && !IsSystemFrame(b)
    ensures Step(Session(GateState(false, [], true), false), Arrive(a, Downstream))
         == (Session(GateState(false, [(a, Downstream)], true), false), [])
    ensures Step(Session(GateState(false, [(a, Downstream)], true), false), Arrive(b, Downstream))
         == (Session(GateState(false, [(a, Downstream), (b, Downstream)], true), false), [])
    ensures Step(Session(GateState(false, [(a, Downstream), (b, Downstream)], true), false),
                 Arrive(StartInterruptionFrame, Downstream))
         == (Session(GateState(false, [], true), false), [(StartInterruptionFrame, Downstream)])
    ensures Step(Session(GateState(false, [], true), false), NotifyEvent)
         == (Session(GateState(false, [], true), true), [])
    ensures Step(Session(GateState(false, [], true), true), GateTaskRuns)
         == (Session(GateState(true, [], true), false), [])
  {
    assert [] + [(a, Downstream)] == [(a, Downstream)];
    assert [(a, Downstream)] + [(b, Downstream)] == [(a, Downstream), (b, Downstream)];
  }

  /**
   * Two frames held by a closed gate, then an interruption, then a late
   * "YES": the gate opens but pushes on only the interruption frame.
   */
  lemma LateVerdictAfterInterruption(a: Frame, b: Frame)
    requires !IsSystemFrame(a) && !IsSystemFrame(b)
    ensures var st := Session(GateState(false, [], true), false);
            var evs := [Arrive(a, Downstream), Arrive(b, Downstream), Arrive(StartInterruptionFrame, Downstream),
                        NotifyEvent, GateTaskRuns];
            var r := Run(st, evs);
            r.1 == [(StartInterruptionFrame, Downstream)] && r.0.gate.open && r.0.gate.buffer == [] && !r.0.pending
  {
    var st := Session(GateState(false, [], true), false);
    var s1 := Session(GateState(false, [(a, Downstream)], true), false);
    var s2 := Session(GateState(false, [(a, Downstream), (b, Downstream)], true), false);
    var s3 := Session(GateState(false, [], true), false);
    var s4 := Session(GateState(false, [], true), true);
    var s5 := Session(GateState(true, [], true), false);
    var interrupt := (StartInterruptionFrame, Downstream);
    var empty: seq<Event> := [];
    var none: seq<Routed> := [];
    LateVerdictSteps(a, b);
    var e4 := [GateTaskRuns];
    var e3 := [NotifyEvent] + e4;
    var e2 := [Arrive(StartInterruptionFrame, Downstream)] + e3;
    var e1 := [Arrive(b, Downstream)] + e2;
    var e0 := [Arrive(a, Downstream)] + e1;
    assert e4 == [GateTaskRuns] + empty;
    assert Run(s5, empty) == (s5, none);
    RunCons(s4, GateTaskRuns, empty);
    assert none + none == none;
    assert Run(s4, e4) == (s5, none);
    RunCons(s3, NotifyEvent, e4);
    assert Run(s3, e3) == (s5, none);
    RunCons(s2, Arrive(StartInterruptionFrame, Downstream), e3);
    assert [interrupt] + none == [interrupt];
    assert Run(s2, e2) == (s5, [interrupt]);
    RunCons(s1, Arrive(b, Downstream), e2);
    assert none + [interrupt] == [interrupt];
    assert Run(s1, e1) == (s5, [interrupt]);
    RunCons(st, Arrive(a, Downstream), e1);
    assert e0 == [Arrive(a, Downstream), Arrive(b, Downstream), Arrive(StartInterruptionFrame, Downstream),
                  NotifyEvent, GateTaskRuns];
  }

  /**
   * The gate as a processor object. Its fields are the source's flags and
   * buffer; `pushed` records what it pushes on, in order.
   */
  class OutputGate {
    var gateOpen: bool
    var framesBuffer: seq<Routed>
    var taskRunning: bool
    var pushed: seq<Routed>
    const notifier: EventNotifier

    function State(): GateState
      reads this
    {
      GateState(gateOpen, framesBuffer, taskRunning)
    }

    ghost predicate Valid()
      reads this
    {
      GateInv(State())
    }

    constructor (notifier: EventNotifier, startOpen: bool)
      ensures Valid()
      ensures State() == InitialGate(startOpen) && pushed == [] && this.notifier == notifier
    {
      gateOpen := startOpen;
      framesBuffer := [];
      taskRunning := false;
      pushed := [];
      this.notifier := notifier;
    }

    method CloseGate()
      modifies this`gateOpen
      ensures !gateOpen
    {
      gateOpen := false;
    }

    method OpenGate()
      modifies this`gateOpen
      ensures gateOpen
    {
      gateOpen := true;
    }

    method ProcessFrame(f: Frame, d: Direction)
      requires Valid()
      modifies this
      ensures Valid()
      ensures State() == Receive(old(State()), f, d).0
      ensures pushed == old(pushed) + Receive(old(State()), f, d).1
    {
      if IsSystemFrame(f) {
        if f == StartFrame {
          StartTask();
        }
        if f == EndFrame || f == CancelFrame {
          StopTask();
        }
        if f == StartInterruptionFrame {
          framesBuffer := [];
          CloseGate();
        }
        pushed := pushed + [(f, d)];
        return;
      }
      if d != Downstream {
        pushed := pushed + [(f, d)];
        return;
      }
      if gateOpen {
        pushed := pushed + [(f, d)];
        return;
      }
      framesBuffer := framesBuffer + [(f, d)];
    }

    /** Clears the buffer and starts the background task. */
    method StartTask()
      modifies this`framesBuffer, this`taskRunning
      ensures framesBuffer == [] && taskRunning
    {
      framesBuffer := [];
      taskRunning := true;
    }

    /** Cancels the background task; whatever is held stays held and is never flushed. */
    method StopTask()
      modifies this`taskRunning
      ensures !taskRunning
    {
      taskRunning := false;
    }

    /**
     * One turn of the background task: if it is running and a notification is
     * pending, consume it, open the gate, push on every held frame in order,
     * then empty the buffer.
     */
    method RunGateTask()
      requires Valid()
      modifies this, notifier
      ensures Valid()
      ensures Session(State(), notifier.pending) == Step(Session(old(State()), old(notifier.pending)), GateTaskRuns).0
      ensures pushed == old(pushed) + Step(Session(old(State()), old(notifier.pending)), GateTaskRuns).1
    {
      if !taskRunning || !notifier.pending {
        return;
      }
      var released := notifier.TryWait();
      OpenGate();
      var i := 0;
      while i < |framesBuffer|
        invariant 0 <= i <= |framesBuffer|
        invariant framesBuffer == old(framesBuffer) && gateOpen && taskRunning == old(taskRunning)
        invariant !notifier.pending
        invariant pushed == old(pushed) + framesBuffer[..i]
      {
        pushed := pushed + [framesBuffer[i]];
        i := i + 1;
      }
      assert framesBuffer[..i] == framesBuffer;
      framesBuffer := [];
    }
  }
}
