/** The two ends of the chat stream together: what the chat window shows once it has read the
    stream the service wrote for a conversation, however the bytes were cut into chunks. */
module ChatPipeline {
  import opened Wrappers
  import opened ChatModel
  import opened StreamEvents
  import opened ChatService
  import opened UseChat

  /** The window after an empty assistant reply was appended, as the hook sets it up. */
  function Pending(sent: seq<ChatMessage>, reply: string): View
  {
    View(sent + [ChatMessage(Assistant, reply)], None)
  }

  lemma {:induction false} FrameTextsAppend(a: seq<StreamEvent>, b: seq<StreamEvent>)
    ensures FrameTexts(a + b) == FrameTexts(a) + FrameTexts(b)
    decreases |a|
  {
    if a == [] {
      assert a + b == b;
    } else {
      assert (a + b)[1..] == a[1..] + b;
      FrameTextsAppend(a[1..], b);
    }
  }

  lemma {:induction false} ReceiveAllAppend(v: View, a: seq<StreamEvent>, b: seq<StreamEvent>)
    ensures ReceiveAll(v, a + b) == ReceiveAll(ReceiveAll(v, a), b)
    decreases |a|
  {
    if a == [] {
      assert a + b == b;
    } else {
      assert (a + b)[1..] == a[1..] + b;
      ReceiveAllAppend(Receive(v, a[0]), a[1..], b);
    }
  }

  lemma ConcatCons(t: string, rest: seq<string>)
    ensures Concat([t] + rest) == t + Concat(rest)
  {
    assert ([t] + rest)[1..] == rest;
  }

  lemma TextShown(sent: seq<ChatMessage>, reply: string, t: string)
    ensures Receive(Pending(sent, reply), Text(t)) == Pending(sent, reply + t)
  {
    var ms := sent + [ChatMessage(Assistant, reply)];
    assert ms[..|ms| - 1] == sent;
  }

  /** Reading text frames and finished tool calls appends every text to the reply, in order, and
      leaves the status line clear. */
  lemma {:induction false} UnitsShown(sent: seq<ChatMessage>, reply: string, u: seq<StreamEvent>)
    requires Units(u)
    ensures ReceiveAll(Pending(sent, reply), u) == Pending(sent, reply + Concat(FrameTexts(u)))
    decreases |u|
  {
    if u == [] {
      assert reply + Concat(FrameTexts(u)) == reply;
    } else if u[0].Text? {
      var t := u[0].content;
      var rest := FrameTexts(u[1..]);
      TextShown(sent, reply, t);
      UnitsShown(sent, reply + t, u[1..]);
      ConcatCons(t, rest);
      assert FrameTexts(u) == [t] + rest;
      assert reply + t + Concat(rest) == reply + (t + Concat(rest));
    } else {
      var v := Pending(sent, reply);
      assert Receive(Receive(v, u[0]), u[1]) == v;
      assert ReceiveAll(v, u) == ReceiveAll(Receive(Receive(v, u[0]), u[1]), u[2..]);
      assert FrameTexts(u) == FrameTexts(u[1..]) == FrameTexts(u[2..]);
      UnitsShown(sent, reply, u[2..]);
    }
  }

  /** Whatever events arrive, the earlier messages stay and the last one remains the assistant's
      reply. */
  lemma {:induction false} ReplyStaysLast(sent: seq<ChatMessage>, v: View, es: seq<StreamEvent>)
    requires |v.messages| == |sent| + 1 && v.messages[..|sent|] == sent
    requires v.messages[|sent|].role == Assistant
    ensures var w := ReceiveAll(v, es);
      |w.messages| == |sent| + 1 && w.messages[..|sent|] == sent && w.messages[|sent|].role == Assistant
    decreases |es|
  {
    if es != [] {
      var w := Receive(v, es[0]);
      assert v.messages[..|v.messages| - 1] == sent;
      assert |w.messages| == |sent| + 1 && w.messages[..|sent|] == sent && w.messages[|sent|].role == Assistant;
      ReplyStaysLast(sent, w, es[1..]);
    }
  }

  /** The reply the window shows once a whole stream of the given shape has been read: the
      texts in order for a finished or unfinished run, the generic error for a failed one. */
  lemma WellFormedStreamShown(sent: seq<ChatMessage>, fs: seq<StreamEvent>, outcome: Outcome)
    requires WellFormedStream(fs, outcome)
    ensures var w := ReceiveAll(Pending(sent, []), fs);
      && |w.messages| == |sent| + 1 && w.messages[..|sent|] == sent
      && (outcome != Failed ==>
            w == Pending(sent, Concat(FrameTexts(fs))))
      && (outcome == Failed ==>
            w.messages[|sent|] == ChatMessage(Assistant, STREAM_ERROR_MESSAGE))
  {
    var v := Pending(sent, []);
    assert v.messages[..|sent|] == sent;
    match outcome
    case Unfinished =>
      UnitsShown(sent, [], fs);
      assert "" + Concat(FrameTexts(fs)) == Concat(FrameTexts(fs));
      assert Pending(sent, Concat(FrameTexts(fs))).messages[..|sent|] == sent;
    case Finished =>
      var u := fs[..|fs| - 1];
      assert fs == u + [Done];
      UnitsShown(sent, [], u);
      ReceiveAllAppend(v, u, [Done]);
      FrameTextsAppend(u, [Done]);
      assert FrameTexts([Done]) == [];
      assert FrameTexts(fs) == FrameTexts(u);
      assert "" + Concat(FrameTexts(u)) == Concat(FrameTexts(u));
      assert Pending(sent, Concat(FrameTexts(fs))).messages[..|sent|] == sent;
    case Failed =>
      var p := fs[..|fs| - 1];
      assert fs == p + [Error(STREAM_ERROR_MESSAGE)];
      ReplyStaysLast(sent, v, p);
      ReceiveAllAppend(v, p, [Error(STREAM_ERROR_MESSAGE)]);
      var w := ReceiveAll(v, p);
      assert w.messages[..|w.messages| - 1] == sent;
      assert ReceiveAll(w, [Error(STREAM_ERROR_MESSAGE)]) == Receive(w, Error(STREAM_ERROR_MESSAGE));
  }

  /** A well-formed stream, cut into any chunks and read to its end by the hook, leaves the sent
      messages followed by one reply: the streamed texts, or the generic error of a failed run. */
  lemma StreamRead(sent: seq<ChatMessage>, fs: seq<StreamEvent>, outcome: Outcome, chunks: seq<string>)
    requires WellFormedStream(fs, outcome) && Concat(chunks) == Encode(fs)
    ensures var shown := AfterReply(sent + [ChatMessage(Assistant, [])], HttpResponse(true, true, chunks, EndOfStream));
      && |shown| == |sent| + 1 && shown[..|sent|] == sent
      && (outcome != Failed ==> shown[|sent|] == ChatMessage(Assistant, Concat(FrameTexts(fs))))
      && (outcome == Failed ==> shown[|sent|] == ChatMessage(Assistant, STREAM_ERROR_MESSAGE))
  {
    var v := Pending(sent, []);
    assert AfterReply(v.messages, HttpResponse(true, true, chunks, EndOfStream)) == Consume(v, [], chunks).0.messages;
    EncodedStreamAnyChunking(v, fs, chunks);
    WellFormedStreamShown(sent, fs, outcome);
  }

  /** End to end: the service runs the conversation the hook sent, the stream travels in any
      chunking and is read to its end; the window then holds the sent messages followed by one
      reply, which is every text the service streamed, in order, unless the run failed, in which
      case it is the service's generic error message. */
  lemma ConversationShown(sent: seq<ChatMessage>, model: Oracle, fuel: nat,
                          hostMemberSeq: int, stores: Stores, chunks: seq<string>)
    requires Concat(chunks) == Encode(Drive(Seed(sent), model, fuel, hostMemberSeq, stores).frames)
    ensures var r := Drive(Seed(sent), model, fuel, hostMemberSeq, stores);
      var shown := AfterReply(sent + [ChatMessage(Assistant, [])], HttpResponse(true, true, chunks, EndOfStream));
      && |shown| == |sent| + 1 && shown[..|sent|] == sent
      && (r.outcome != Failed ==> shown[|sent|] == ChatMessage(Assistant, Concat(FrameTexts(r.frames))))
      && (r.outcome == Failed ==> shown[|sent|] == ChatMessage(Assistant, STREAM_ERROR_MESSAGE))
  {
    var r := Drive(Seed(sent), model, fuel, hostMemberSeq, stores);
    DriveWellFormed(Seed(sent), model, fuel, hostMemberSeq, stores);
    StreamRead(sent, r.frames, r.outcome, chunks);
  }
}
