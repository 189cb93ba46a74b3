/**
 * The statement-judge context filter: the first stage of the classifier
 * branch. It reduces a full conversation context to a minimal classification
 * request (classifier instruction, the assistant message just before the
 * user's turn, the user's turn as one message), treats a ready-made message
 * list as an already complete turn, and drops everything else.
 */
module ContextFilter {
  import opened Wrappers
  import opened Frames
  import opened Text

  /** The classifier instruction. Its wording is not part of the model. */
  const ClassifierStatement: string := "speech-completeness classifier instruction"

  const SystemMessage: Message := Message("system", StringContent(ClassifierStatement))

  function Reverse<T>(s: seq<T>): (r: seq<T>)
    ensures |r| == |s|
    ensures forall i :: 0 <= i < |s| ==> r[i] == s[|s| - 1 - i]
  {
    if s == [] then [] else Reverse(s[1..]) + [s[0]]
  }

  /** The texts of the parts whose type is "text", in list order. */
  function TextsOf(parts: seq<ContentPart>): seq<string>
  {
    if parts == [] then []
    else (if parts[0].kind == "text" then [parts[0].text] else []) + TextsOf(parts[1..])
  }

  /**
   * Where the trailing block of user messages starts: every message from
   * there on is a user message, and the one just before (if any) is not.
   */
  function TrailingUserStart(msgs: seq<Message>): (k: nat)
    ensures k <= |msgs|
    ensures forall i :: k <= i < |msgs| ==> msgs[i].role == "user"
    ensures k > 0 ==> msgs[k - 1].role != "user"
  {
    if msgs == [] || msgs[|msgs| - 1].role != "user" then |msgs|
    else TrailingUserStart(msgs[..|msgs| - 1])
  }

  /** The trailing user block's start is the only index with the two properties above. */
  lemma {:induction false} TrailingUserStartUnique(msgs: seq<Message>, k: nat)
    requires k <= |msgs|
    requires forall i :: k <= i < |msgs| ==> msgs[i].role == "user"
    requires k > 0 ==> msgs[k - 1].role != "user"
    ensures TrailingUserStart(msgs) == k
  {
    if k < |msgs| {
      var init := msgs[..|msgs| - 1];
      assert forall i :: k <= i < |init| ==> init[i] == msgs[i];
      TrailingUserStartUnique(init, k);
    }
  }

  /**
   * How one user message changes the list of collected texts during the
   * backward walk: a string content is appended; each text part of a list
   * content is inserted at the front, so the parts end up reversed ahead of
   * what was collected so far; any other content adds nothing.
   */
  function Absorb(acc: seq<string>, m: Message): seq<string>
  {
    match m.content
    case StringContent(s) => acc + [s]
    case PartsContent(parts) => Reverse(TextsOf(parts)) + acc
    case OtherContent => acc
  }

  /**
   * The list the backward walk builds from a block of user messages (given in
   * chronological order): the last message is absorbed first, the first one last.
   */
  function Collected(block: seq<Message>): seq<string>
  {
    if block == [] then [] else Absorb(Collected(block[1..]), block[0])
  }

  /** Every message after index `j` is a user message. */
  predicate UsersAfter(msgs: seq<Message>, j: int)
  {
    forall i :: 0 <= i < |msgs| && j < i ==> msgs[i].role == "user"
  }

  /** The trailing user block starts right after the last non-user message, or at 0 when there is none. */
  lemma TrailingStartAt(msgs: seq<Message>)
    ensures forall j {:trigger UsersAfter(msgs, j)} ::
              0 <= j < |msgs| && msgs[j].role != "user" && UsersAfter(msgs, j) ==> TrailingUserStart(msgs) == j + 1
    ensures UsersAfter(msgs, -1) ==> TrailingUserStart(msgs) == 0
  {
    forall j | 0 <= j < |msgs| && msgs[j].role != "user" && UsersAfter(msgs, j)
      ensures TrailingUserStart(msgs) == j + 1
    {
      TrailingUserStartUnique(msgs, j + 1);
    }
    if UsersAfter(msgs, -1) {
      TrailingUserStartUnique(msgs, 0);
    }
  }

  /**
   * The message that bounds the trailing user block, kept when it is an
   * assistant message: the last non-user message of the context decides, and
   * a context of user messages only has no boundary.
   */
  function BoundaryAssistant(msgs: seq<Message>): (r: Option<Message>)
    ensures r.Some? ==> r.value in msgs && r.value.role == "assistant"
    ensures forall j {:trigger UsersAfter(msgs, j)} ::
              0 <= j < |msgs| && msgs[j].role != "user" && UsersAfter(msgs, j)
              ==> r == (if msgs[j].role == "assistant" then Some(msgs[j]) else None)
    ensures UsersAfter(msgs, -1) ==> r.None?
  {
    TrailingStartAt(msgs);
    var k := TrailingUserStart(msgs);
    if k > 0 && msgs[k - 1].role == "assistant" then Some(msgs[k - 1]) else None
  }

  /**
   * A context ending in an assistant message followed by the user's turn keeps
   * exactly that assistant message, whatever came before it.
   */
  lemma BoundaryBeforeTurn(pre: seq<Message>, a: Message, users: seq<Message>)
    requires a.role == "assistant"
    requires forall i :: 0 <= i < |users| ==> users[i].role == "user"
    ensures BoundaryAssistant(pre + [a] + users) == Some(a)
    ensures TrailingUserStart(pre + [a] + users) == |pre| + 1
  {
    var msgs := pre + [a] + users;
    assert msgs[|pre|] == a;
    UsersAfterTurn(pre, a, users);
    TrailingStartAt(msgs);
  }

  lemma UsersAfterTurn(pre: seq<Message>, a: Message, users: seq<Message>)
    requires forall i :: 0 <= i < |users| ==> users[i].role == "user"
    ensures UsersAfter(pre + [a] + users, |pre|)
  {
    var msgs := pre + [a] + users;
    forall i | 0 <= i < |msgs| && |pre| < i
      ensures msgs[i].role == "user"
    {
      assert msgs[i] == users[i - |pre| - 1];
    }
  }

  /**
   * The classification request built from the collected texts: none when
   * nothing was collected; otherwise the classifier instruction, the
   * boundary assistant message when there is one, and one user message whose
   * content is the collected texts, reversed, joined with single spaces.
   */
  function ClassificationRequest(userTexts: seq<string>, lastAssistant: Option<Message>): (r: Option<seq<Message>>)
    ensures r.None? <==> userTexts == []
    ensures r.Some? ==> |r.value| == (if lastAssistant.Some? then 3 else 2)
    ensures r.Some? ==> r.value[0] == SystemMessage
    ensures r.Some? && lastAssistant.Some? ==> r.value[1] == lastAssistant.value
    ensures r.Some? ==> r.value[|r.value| - 1] == Message("user", StringContent(Join(Reverse(userTexts), " ")))
  {
    if userTexts == [] then None
    else
      var anchor := if lastAssistant.Some? then [lastAssistant.value] else [];
      Some([SystemMessage] + anchor + [Message("user", StringContent(Join(Reverse(userTexts), " ")))])
  }

  /** The request the filter pushes for a context holding `msgs`. */
  function RequestFor(msgs: seq<Message>): Option<seq<Message>>
  {
    ClassificationRequest(Collected(msgs[TrailingUserStart(msgs)..]), BoundaryAssistant(msgs))
  }

  /**
   * The reversed walk over the context's messages: collects the trailing user
   * messages' texts and stops at the first non-user message, keeping it only
   * when it is an assistant message.
   */
  method CollectUserText(messages: seq<Message>) returns (userTexts: seq<string>, lastAssistant: Option<Message>)
    ensures userTexts == Collected(messages[TrailingUserStart(messages)..])
    ensures lastAssistant == BoundaryAssistant(messages)
  {
    userTexts := [];
    lastAssistant := None;
    var i := |messages|;
    while i > 0
      invariant 0 <= i <= |messages|
      invariant forall j :: i <= j < |messages| ==> messages[j].role == "user"
      invariant userTexts == Collected(messages[i..])
      invariant lastAssistant == None
    {
      var message := messages[i - 1];
      if message.role != "user" {
        if message.role == "assistant" {
          lastAssistant := Some(message);
        }
        break;
      }
      userTexts := AbsorbMessage(userTexts, message);
      assert messages[i - 1..][0] == message && messages[i - 1..][1..] == messages[i..];
      i := i - 1;
    }
    TrailingUserStartUnique(messages, i);
  }

  /**
   * One user message of the walk: a string content is appended, each text
   * part of a list content is inserted at the front, other contents add nothing.
   */
  method AbsorbMessage(acc: seq<string>, message: Message) returns (userTexts: seq<string>)
    ensures userTexts == Absorb(acc, message)
  {
    userTexts := acc;
    match message.content {
      case StringContent(s) =>
        userTexts := userTexts + [s];
      case PartsContent(parts) =>
        var j := 0;
        while j < |parts|
          invariant 0 <= j <= |parts|
          invariant userTexts == Reverse(TextsOf(parts[..j])) + acc
        {
          TextsOfSnoc(parts, j);
          if parts[j].kind == "text" {
            var before := Reverse(TextsOf(parts[..j]));
            assert [parts[j].text] + (before + acc) == ([parts[j].text] + before) + acc;
            userTexts := [parts[j].text] + userTexts;
          } else {
            assert [] + Reverse(TextsOf(parts[..j])) == Reverse(TextsOf(parts[..j]));
          }
          j := j + 1;
        }
        assert parts[..j] == parts;
      case OtherContent =>
    }
  }

  /** Extending a part list by one part extends its texts at the end. */
  lemma {:induction false} TextsOfSnoc(parts: seq<ContentPart>, j: nat)
    requires j < |parts|
    ensures Reverse(TextsOf(parts[..j + 1]))
         == (if parts[j].kind == "text" then [parts[j].text] else []) + Reverse(TextsOf(parts[..j]))
  {
    var p := parts[..j + 1];
    TextsOfAppend(parts[..j], [parts[j]]);
    assert p == parts[..j] + [parts[j]];
    ReverseAppend(TextsOf(parts[..j]), TextsOf([parts[j]]));
    assert [parts[j]][1..] == [];
  }

  lemma {:induction false} TextsOfAppend(a: seq<ContentPart>, b: seq<ContentPart>)
    ensures TextsOf(a + b) == TextsOf(a) + TextsOf(b)
  {
    if a == [] {
      assert a + b == b;
    } else {
      assert (a + b)[0] == a[0] && (a + b)[1..] == a[1..] + b;
      TextsOfAppend(a[1..], b);
    }
  }

  lemma ReverseAppend<T>(a: seq<T>, b: seq<T>)
    ensures Reverse(a + b) == Reverse(b) + Reverse(a)
  {
  }

  lemma {:induction false} ReverseReverse<T>(s: seq<T>)
    ensures Reverse(Reverse(s)) == s
  {
    if s != [] {
      ReverseReverse(s[1..]);
      ReverseAppend(Reverse(s[1..]), [s[0]]);
    }
  }

  /**
   * Processing one frame on the classifier branch: system frames are forwarded
   * in their direction; a message-list frame counts as a finished turn, so it
   * notifies and is not forwarded; a context frame yields one downstream
   * classification request when user text was found, and nothing otherwise;
   * every other frame is dropped.
   */
  function FilterEffects(f: Frame, d: Direction): (effects: seq<Effect>)
    ensures IsSystemFrame(f) ==> effects == [Push(f, d)]
    ensures f.LLMMessagesFrame? ==> effects == [Notify]
    ensures f.OpenAILLMContextFrame? && RequestFor(f.contextMessages).Some? ==>
              effects == [Push(LLMMessagesFrame(RequestFor(f.contextMessages).value), Downstream)]
    ensures f.OpenAILLMContextFrame? && RequestFor(f.contextMessages).None? ==> effects == []
    ensures !IsSystemFrame(f) && !f.LLMMessagesFrame? && !f.OpenAILLMContextFrame? ==> effects == []
    // A classification request is never produced together with a notification.
    ensures !(Notify in effects && exists e :: e in effects && e.Push? && e.frame.LLMMessagesFrame?)
  {
    if IsSystemFrame(f) then [Push(f, d)]
    else if f.LLMMessagesFrame? then [Notify]
    else if f.OpenAILLMContextFrame? && RequestFor(f.contextMessages).Some? then
      [Push(LLMMessagesFrame(RequestFor(f.contextMessages).value), Downstream)]
    else []
  }

  /** The filter's `process_frame`, running the reversed walk for a context frame. */
  method FilterFrame(f: Frame, d: Direction) returns (effects: seq<Effect>)
    ensures effects == FilterEffects(f, d)
  {
    if IsSystemFrame(f) {
      return [Push(f, d)];
    }
    if f.LLMMessagesFrame? {
      return [Notify];
    }
    effects := [];
    if f.OpenAILLMContextFrame? {
      var userTexts, lastAssistant := CollectUserText(f.contextMessages);
      var request := ClassificationRequest(userTexts, lastAssistant);
      if request.Some? {
        effects := [Push(LLMMessagesFrame(request.value), Downstream)];
      }
    }
  }

  /** Strings of a block whose contents are all strings, in chronological order. */
  function Strings(block: seq<Message>): seq<string>
    requires forall i :: 0 <= i < |block| ==> block[i].content.StringContent?
  {
    if block == [] then [] else [block[0].content.s] + Strings(block[1..])
  }

  /** When every user content is a string, the walk collects them newest first. */
  lemma {:induction false} CollectedAllStrings(block: seq<Message>)
    requires forall i :: 0 <= i < |block| ==> block[i].content.StringContent?
    ensures Reverse(Collected(block)) == Strings(block)
  {
    if block != [] {
      CollectedAllStrings(block[1..]);
      ReverseAppend(Collected(block[1..]), [block[0].content.s]);
    }
  }

  /**
   * So, with string contents only, the request's user message is the user's
   * turn in chronological order, joined with single spaces.
   */
  lemma AllStringsRequest(msgs: seq<Message>)
    requires forall i :: TrailingUserStart(msgs) <= i < |msgs| ==> msgs[i].content.StringContent?
    requires TrailingUserStart(msgs) < |msgs|
    ensures RequestFor(msgs).Some?
    ensures var r := RequestFor(msgs).value;
            r[|r| - 1] == Message("user", StringContent(Join(Strings(msgs[TrailingUserStart(msgs)..]), " ")))
  {
    var block := msgs[TrailingUserStart(msgs)..];
    CollectedAllStrings(block);
    assert block[0].content.StringContent?;
    assert Collected(block) != [] by {
      assert |Reverse(Collected(block))| == |Strings(block)| >= 1;
    }
  }

  /** A single list-valued user message is also read in order. */
  lemma SinglePartsMessage(m: Message)
    requires m.content.PartsContent?
    ensures Reverse(Collected([m])) == TextsOf(m.content.parts)
  {
    assert [m][1..] == [];
    ReverseReverse(TextsOf(m.content.parts));
  }

  /**
   * Nothing is collected, and so no request is pushed, exactly when the
   * block holds no string content and no text part.
   */
  lemma {:induction false} CollectedEmpty(block: seq<Message>)
    ensures Collected(block) == [] <==>
      forall i :: 0 <= i < |block| ==>
        !block[i].content.StringContent? && (block[i].content.PartsContent? ==> TextsOf(block[i].content.parts) == [])
  {
    if block != [] {
      CollectedEmpty(block[1..]);
      assert forall i :: 1 <= i < |block| ==> block[i] == block[1..][i - 1];
    }
  }

  /** The user texts of the mixed context, newest first before reversal. */
  lemma MixedContentCollected()
    ensures var msgs := [Message("user", PartsContent([ContentPart("text", "c"), ContentPart("text", "d")])),
                         Message("user", StringContent("s"))];
            Collected(msgs) == ["d", "c", "s"] && BoundaryAssistant(msgs) == None && TrailingUserStart(msgs) == 0
  {
    var msgs := [Message("user", PartsContent([ContentPart("text", "c"), ContentPart("text", "d")])),
                 Message("user", StringContent("s"))];
    TrailingUserStartUnique(msgs, 0);
    assert msgs[0..] == msgs;
    assert msgs[1..][1..] == [];
    var parts := [ContentPart("text", "c"), ContentPart("text", "d")];
    assert parts[1..][1..] == [];
    assert TextsOf(parts) == ["c", "d"];
    assert Reverse(["c", "d"]) == ["d", "c"] by {
      assert ["c", "d"][1..] == ["d"];
      assert ["d"][1..] == [];
    }
    assert Collected(msgs[1..]) == ["s"] by {
      assert msgs[1..] == [msgs[1]];
      assert Collected(msgs[1..][1..]) == [];
    }
    assert Collected(msgs) == Absorb(["s"], msgs[0]);
  }

  /**
   * Mixing contents breaks the chronological order: a list message with parts
   * "c", "d" followed by a string message "s" yields the user text "s c d".
   */
  lemma MixedContentOrder()
    ensures var msgs := [Message("user", PartsContent([ContentPart("text", "c"), ContentPart("text", "d")])),
                         Message("user", StringContent("s"))];
            RequestFor(msgs) == Some([SystemMessage, Message("user", StringContent("s c d"))])
  {
    var msgs := [Message("user", PartsContent([ContentPart("text", "c"), ContentPart("text", "d")])),
                 Message("user", StringContent("s"))];
    MixedContentCollected();
    MixedContentText();
    assert msgs[0..] == msgs;
    assert RequestFor(msgs) == ClassificationRequest(["d", "c", "s"], None);
    assert [SystemMessage] + [] + [Message("user", StringContent("s c d"))]
        == [SystemMessage, Message("user", StringContent("s c d"))];
  }

  /** The collected texts of the mixed context, reversed and joined. */
  lemma MixedContentText()
    ensures Join(Reverse(["d", "c", "s"]), " ") == "s c d"
  {
    assert Reverse(["d", "c", "s"]) == ["s", "c", "d"] by {
      assert ["d", "c", "s"][1..] == ["c", "s"];
      assert ["c", "s"][1..] == ["s"];
      assert ["s"][1..] == [];
    }
    assert Join(["s", "c", "d"], " ") == "s c d" by {
      assert ["s", "c", "d"][1..] == ["c", "d"];
      assert ["c", "d"][1..] == ["d"];
    }
  }

  /** A context holding one user message "t" yields the request [instruction, t]. */
  lemma SingleUserRequest(t: string)
    ensures RequestFor([Message("user", StringContent(t))])
         == Some([SystemMessage, Message("user", StringContent(t))])
  {
    var msgs := [Message("user", StringContent(t))];
    TrailingUserStartUnique(msgs, 0);
    assert msgs[0..] == msgs && msgs[1..] == [];
    assert Collected(msgs) == [t];
    assert Reverse([t]) == [t] by { assert [t][1..] == []; }
    assert RequestFor(msgs) == ClassificationRequest([t], None);
    assert [SystemMessage] + [] + [Message("user", StringContent(t))] == [SystemMessage, Message("user", StringContent(t))];
  }

  /** The filter's typical case: the assistant's last words and the user's reply. */
  lemma AnchoredRequest(sys: Message, said: string, reply: string)
    requires sys.role == "system"
    ensures var msgs := [sys, Message("assistant", StringContent(said)), Message("user", StringContent(reply))];
            RequestFor(msgs) == Some([SystemMessage, Message("assistant", StringContent(said)),
                                      Message("user", StringContent(reply))])
  {
    var msgs := [sys, Message("assistant", StringContent(said)), Message("user", StringContent(reply))];
    TrailingUserStartUnique(msgs, 2);
    assert msgs[2..] == [msgs[2]];
    assert [msgs[2]][1..] == [];
    assert Collected(msgs[2..]) == [reply];
    assert Reverse([reply]) == [reply] by { assert [reply][1..] == []; }
    assert BoundaryAssistant(msgs) == Some(msgs[1]);
    assert Join([reply], " ") == reply;
    assert RequestFor(msgs) == ClassificationRequest([reply], Some(msgs[1]));
    assert [SystemMessage] + [msgs[1]] + [Message("user", StringContent(reply))]
        == [SystemMessage, Message("assistant", StringContent(said)), Message("user", StringContent(reply))];
  }
}
