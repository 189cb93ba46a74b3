/**
 * The three frame predicates of the natural-conversation bot and the effect of
 * filtering a stream of frames with one of them (what a function filter in
 * front of a parallel branch lets that branch see).
 */
module FrameFilters {
  import opened Wrappers
  import opened Frames

  /**
   * `wake_check_filter`: reads `frame.text`; a frame without a `text`
   * attribute raises, modelled as `None`.
   */
  function WakeCheckFilter(f: Frame): (r: Option<bool>)
    ensures r.Some? <==> f.TextFrame?
    ensures r == Some(true) <==> f == TextFrame("YES")
  {
    if f.TextFrame? then Some(f.text == "YES") else None
  }

  /** `block_user_stopped_speaking`: passes everything except a user-stopped-speaking frame. */
  predicate BlockUserStoppedSpeaking(f: Frame)
  {
    !f.UserStoppedSpeakingFrame?
  }

  /** `pass_only_llm_trigger_frames`: context, message-list and interruption frames only. */
  predicate PassOnlyLlmTriggerFrames(f: Frame)
  {
    f.OpenAILLMContextFrame? || f.LLMMessagesFrame? || f.StartInterruptionFrame? || f.StopInterruptionFrame?
  }

  /**
   * Whether a function filter acting on downstream frames lets a frame
   * through: system frames, end frames and frames travelling upstream always
   * pass; any other frame passes when the predicate accepts it.
   */
  predicate FilterPasses(keep: Frame -> bool, f: Frame, d: Direction)
  {
    IsSystemFrame(f) || f.EndFrame? || d == Upstream || keep(f)
  }

  /** What a function filter pushes on from the stream `rs`, in the original order. */
  function Filtered(rs: seq<Routed>, keep: Frame -> bool): (r: seq<Routed>)
    ensures |r| <= |rs|
    ensures forall i :: 0 <= i < |r| ==> FilterPasses(keep, r[i].0, r[i].1) && r[i] in rs
    ensures (forall i :: 0 <= i < |rs| ==> FilterPasses(keep, rs[i].0, rs[i].1)) ==> r == rs
  {
    if rs == [] then []
    else if FilterPasses(keep, rs[0].0, rs[0].1) then [rs[0]] + Filtered(rs[1..], keep)
    else Filtered(rs[1..], keep)
  }

  /** Filtering a stream piece by piece is the same as filtering it whole. */
  lemma {:induction false} FilteredAppend(a: seq<Routed>, b: seq<Routed>, keep: Frame -> bool)
    ensures Filtered(a + b, keep) == Filtered(a, keep) + Filtered(b, keep)
  {
    if a != [] {
      assert (a + b)[0] == a[0] && (a + b)[1..] == a[1..] + b;
      FilteredAppend(a[1..], b, keep);
    } else {
      assert a + b == b;
    }
  }

  /**
   * A frame reaches a filtered branch exactly when it is in the stream and
   * the filter lets it through.
   */
  lemma {:induction false} FilteredMembers(rs: seq<Routed>, keep: Frame -> bool, x: Routed)
    ensures x in Filtered(rs, keep) <==> x in rs && FilterPasses(keep, x.0, x.1)
  {
    if rs != [] {
      FilteredMembers(rs[1..], keep, x);
    }
  }

  /**
   * The pass-through branch: its predicate rejects user-stopped-speaking
   * frames, but those are system frames, which the filter never holds back,
   * so the branch sees the whole stream unchanged.
   */
  lemma PassThroughBranch(rs: seq<Routed>)
    ensures !BlockUserStoppedSpeaking(UserStoppedSpeakingFrame)
    ensures Filtered(rs, BlockUserStoppedSpeaking) == rs
  {
  }

  /**
   * The response branch sees a frame iff it is in the stream and is a trigger
   * frame, a system frame, an end frame, or travelling upstream; in
   * particular the gate behind it receives every start, cancel and end frame.
   */
  lemma ResponseBranch(rs: seq<Routed>, f: Frame, d: Direction)
    ensures (f, d) in Filtered(rs, PassOnlyLlmTriggerFrames) <==>
              (f, d) in rs && (PassOnlyLlmTriggerFrames(f) || IsSystemFrame(f) || f.EndFrame? || d == Upstream)
    ensures !PassOnlyLlmTriggerFrames(StartFrame) && !PassOnlyLlmTriggerFrames(EndFrame)
    ensures f in {StartFrame, CancelFrame, EndFrame} ==>
              ((f, d) in Filtered(rs, PassOnlyLlmTriggerFrames) <==> (f, d) in rs)
  {
    FilteredMembers(rs, PassOnlyLlmTriggerFrames, (f, d));
  }
}
