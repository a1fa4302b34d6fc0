/** A streamed response on the wire: handleStreaming writing to sseResponseWriter, and a
    client parsing what was sent (pkg/engine/engine.go, pkg/transport/http/sse.go). */
module StreamWire {
  import opened StreamEvents
  import opened StreamRun
  import opened StreamProtocol
  import opened StreamOutput
  import opened ProviderEvents
  import opened Wrappers
  import Sse

  predicate IsProgress(name: string) {
    !Sse.IsEnding(name) && name != "response.created"
  }

  lemma {:induction false} ProgressNames()
    ensures IsProgress("response.in_progress")
    ensures IsProgress("response.output_item.added")
    ensures IsProgress("response.content_part.added")
    ensures IsProgress("response.output_text.delta")
    ensures IsProgress("response.output_text.done")
    ensures IsProgress("response.function_call_arguments.delta")
  {
  }

  lemma {:induction false} MoreProgressNames()
    ensures IsProgress("response.function_call_arguments.done")
    ensures IsProgress("response.reasoning.delta")
    ensures IsProgress("response.reasoning.done")
    ensures IsProgress("response.content_part.done")
    ensures IsProgress("response.output_item.done")
  {
  }

  /** The event types of pkg/api/events.go. */
  function Kind(e: StreamEvent): Sse.EventType {
    ProgressNames();
    MoreProgressNames();
    match e
    case ResponseCreated(_, _) => Sse.ResponseCreated
    case ResponseInProgress(_, _) => Sse.Progress("response.in_progress")
    case OutputItemAdded(_, _, _) => Sse.Progress("response.output_item.added")
    case ContentPartAdded(_, _, _, _) => Sse.Progress("response.content_part.added")
    case OutputTextDelta(_, _, _, _) => Sse.Progress("response.output_text.delta")
    case OutputTextDone(_, _, _, _) => Sse.Progress("response.output_text.done")
    case ArgumentsDelta(_, _, _, _) => Sse.Progress("response.function_call_arguments.delta")
    case ArgumentsDone(_, _, _, _) => Sse.Progress("response.function_call_arguments.done")
    case ReasoningTextDelta(_, _, _, _) => Sse.Progress("response.reasoning.delta")
    case ReasoningTextDone(_, _, _) => Sse.Progress("response.reasoning.done")
    case ContentPartDone(_, _, _, _) => Sse.Progress("response.content_part.done")
    case OutputItemDone(_, _, _) => Sse.Progress("response.output_item.done")
    case ResponseCompleted(_, _) => Sse.ResponseCompleted
    case ResponseIncomplete(_, _) => Sse.ResponseIncomplete
    case ResponseFailed(_, _) => Sse.ResponseFailed
    case ResponseCancelled(_, _) => Sse.ResponseCancelled
  }

  /** The names on the wire of the events that open and close a response or an item. */
  lemma {:induction false} OpeningNames(e: StreamEvent)
    ensures e.ResponseCreated? ==> Kind(e).Name() == "response.created"
    ensures e.ResponseInProgress? ==> Kind(e).Name() == "response.in_progress"
    ensures e.ResponseCompleted? ==> Kind(e).Name() == "response.completed"
    ensures e.ResponseIncomplete? ==> Kind(e).Name() == "response.incomplete"
    ensures e.ResponseFailed? ==> Kind(e).Name() == "response.failed"
    ensures e.ResponseCancelled? ==> Kind(e).Name() == "response.cancelled"
    ensures e.OutputItemAdded? ==> Kind(e).Name() == "response.output_item.added"
    ensures e.OutputItemDone? ==> Kind(e).Name() == "response.output_item.done"
  {
  }

  /** And of those about the content of an item. */
  lemma {:induction false} ContentNames(e: StreamEvent)
    ensures e.ContentPartAdded? ==> Kind(e).Name() == "response.content_part.added"
    ensures e.ContentPartDone? ==> Kind(e).Name() == "response.content_part.done"
    ensures e.OutputTextDelta? ==> Kind(e).Name() == "response.output_text.delta"
    ensures e.OutputTextDone? ==> Kind(e).Name() == "response.output_text.done"
  {
  }

  lemma {:induction false} CallAndReasoningNames(e: StreamEvent)
    ensures e.ArgumentsDelta? ==> Kind(e).Name() == "response.function_call_arguments.delta"
    ensures e.ArgumentsDone? ==> Kind(e).Name() == "response.function_call_arguments.done"
    ensures e.ReasoningTextDelta? ==> Kind(e).Name() == "response.reasoning.delta"
    ensures e.ReasoningTextDone? ==> Kind(e).Name() == "response.reasoning.done"
  {
  }

  /** `encode` is the JSON encoding of an event. */
  function Sends(log: seq<StreamEvent>, encode: StreamEvent -> string): seq<Sse.Written> {
    seq(|log|, i requires 0 <= i < |log| => Sse.Sent(Kind(log[i]), encode(log[i])))
  }

  function Wire(log: seq<StreamEvent>, encode: StreamEvent -> string): seq<Sse.Event> {
    seq(|log|, i requires 0 <= i < |log| => Sse.Event(Kind(log[i]).Name(), encode(log[i])))
  }

  lemma {:induction false} EventsOfSends(log: seq<StreamEvent>, encode: StreamEvent -> string)
    ensures Sse.EventsOf(Sends(log, encode)) == Wire(log, encode)
  {
    if log != [] {
      EventsOfSends(log[..|log| - 1], encode);
      assert Sends(log, encode)[..|log| - 1] == Sends(log[..|log| - 1], encode);
    }
  }

  predicate Named(name: string) {
    name != "" && Sse.OneLine(name)
  }

  lemma {:induction false} NamesAreLines()
    ensures Named("response.in_progress")
    ensures Named("response.output_item.added")
    ensures Named("response.content_part.added")
    ensures Named("response.output_text.delta")
    ensures Named("response.output_text.done")
    ensures Named("response.function_call_arguments.delta")
  {
  }

  lemma {:induction false} DoneNamesAreLines()
    ensures Named("response.function_call_arguments.done")
    ensures Named("response.reasoning.delta")
    ensures Named("response.reasoning.done")
    ensures Named("response.content_part.done")
    ensures Named("response.output_item.done")
  {
  }

  lemma {:induction false} ClosingNamesAreLines()
    ensures Named("response.created")
    ensures Named("response.completed")
    ensures Named("response.incomplete")
    ensures Named("response.failed")
    ensures Named("response.cancelled")
  {
  }

  lemma {:induction false} KindNamed(e: StreamEvent)
    ensures Named(Kind(e).Name())
  {
    NamesAreLines();
    DoneNamesAreLines();
    ClosingNamesAreLines();
  }

  lemma {:induction false} KindTerminal(e: StreamEvent)
    ensures Kind(e).IsTerminal() <==> e.IsTerminal()
  {
  }

  /** A proper and finished log, with [DONE], is that of a completed writer. */
  lemma {:induction false} ProperIsComplete(log: seq<StreamEvent>, encode: StreamEvent -> string)
    requires Proper(log) && log != [] && log[|log| - 1].IsTerminal() && |log| > 1
    ensures Sse.Shape(Sse.Completed, Sends(log, encode) + [Sse.Done])
  {
    var (sends, n) := (Sends(log, encode), |log|);
    forall i | 0 <= i < n - 1
      ensures sends[i].Sent? && !sends[i].kind.IsTerminal()
    {
      ProperMeans(log, i);
      KindTerminal(log[i]);
    }
    KindTerminal(log[n - 1]);
    assert (sends + [Sse.Done])[..n - 1] == sends[..n - 1];
  }

  /** However a streamed response ends, a client that parses the bytes sent hears every
      event, in order, and then [DONE]. */
  lemma {:induction false} ClientHearsTheStream(es: seq<ProviderEvent>, cancelled: nat -> bool, includeUsage: bool, encode: StreamEvent -> string)
    requires forall e :: Sse.OneLine(encode(e)) && encode(e) != Sse.DONE
    ensures var log := LogOf(es, cancelled, includeUsage);
      var sent := Sends(log, encode) + [Sse.Done];
      && Sse.Shape(Sse.Completed, sent)
      && Sse.ParseLines(Sse.Lines(Sse.Render(sent)), "") == Sse.Parsed(Wire(log, encode), true)
  {
    EveryStreamIsProper(es, cancelled, includeUsage);
    AtLeastTwo(es[..StopAt(es, cancelled, 0)]);
    HearProper(LogOf(es, cancelled, includeUsage), encode);
  }

  lemma {:induction false} AtLeastTwo(es: seq<ProviderEvent>)
    ensures |After(es).log| >= 2
  {
    AfterLinked(es);
  }

  lemma {:induction false} HearProper(log: seq<StreamEvent>, encode: StreamEvent -> string)
    requires forall e :: Sse.OneLine(encode(e)) && encode(e) != Sse.DONE
    requires Proper(log) && |log| > 1 && log[|log| - 1].IsTerminal()
    ensures var sent := Sends(log, encode) + [Sse.Done];
      && Sse.Shape(Sse.Completed, sent)
      && Sse.ParseLines(Sse.Lines(Sse.Render(sent)), "") == Sse.Parsed(Wire(log, encode), true)
  {
    var sent := Sends(log, encode) + [Sse.Done];
    ProperIsComplete(log, encode);
    forall w | w in sent && w.Sent?
      ensures Sse.Framed(Sse.Event(w.kind.Name(), w.data))
    {
      var i :| 0 <= i < |log| && w == Sends(log, encode)[i];
      KindNamed(log[i]);
    }
    Sse.ReaderHearsTheWriter(Sse.Completed, sent);
    EventsOfSends(log, encode);
    assert sent[..|log|] == Sends(log, encode);
  }

  // ----- Writing event by event -----

  /** What an idle writer has got after i events of a proper and finished log. */
  function LogAfter(log: seq<StreamEvent>, encode: StreamEvent -> string, i: nat): seq<Sse.Written>
    requires i <= |log|
  {
    Sends(log[..i], encode) + (if i == |log| then [Sse.Done] else [])
  }

  function StateAfter(log: seq<StreamEvent>, i: nat): Sse.WriterState {
    if i == 0 then Sse.Idle else if i < |log| then Sse.Streaming else Sse.Completed
  }

  /** The event at i of a proper log is the one that the writer expects there. */
  lemma {:induction false} KindInPlace(log: seq<StreamEvent>, i: nat)
    requires Proper(log) && i < |log| && log[|log| - 1].IsTerminal()
    ensures Kind(log[i]).IsTerminal() <==> i == |log| - 1
    ensures Kind(log[i]).ResponseCreated? <==> i == 0
  {
    ProperMeans(log, i);
    KindTerminal(log[i]);
  }

  lemma {:induction false} OneMoreWritten(log: seq<StreamEvent>, encode: StreamEvent -> string, i: nat)
    requires Proper(log) && i < |log| && log[|log| - 1].IsTerminal()
    ensures Sse.Logged(LogAfter(log, encode, i), Kind(log[i]), encode(log[i])) == LogAfter(log, encode, i + 1)
    ensures Sse.StateAfter(Kind(log[i])) == StateAfter(log, i + 1)
  {
    KindInPlace(log, i);
    assert Sends(log[..i + 1], encode) == Sends(log[..i], encode) + [Sse.Sent(Kind(log[i]), encode(log[i]))];
  }

  lemma {:induction false} NothingWritten(w: Sse.SseResponseWriter, log: seq<StreamEvent>, encode: StreamEvent -> string)
    requires w.Valid() && w.state == Sse.Idle && log != []
    ensures w.log == LogAfter(log, encode, 0) && w.state == StateAfter(log, 0)
  {
  }

  lemma {:induction false} AllWritten(log: seq<StreamEvent>, encode: StreamEvent -> string)
    requires log != []
    ensures LogAfter(log, encode, |log|) == Sends(log, encode) + [Sse.Done] && StateAfter(log, |log|) == Sse.Completed
  {
    assert log[..|log|] == log;
  }

  method WriteNext(
    w: Sse.SseResponseWriter, log: seq<StreamEvent>, encode: StreamEvent -> string, responseID: Option<string>, i: nat)
    returns (ok: bool)
    requires Proper(log) && i < |log| && log[|log| - 1].IsTerminal()
    requires w.Valid() && w.log == LogAfter(log, encode, i) && w.state == StateAfter(log, i)
    modifies w
    ensures w.Valid() && ok && w.log == LogAfter(log, encode, i + 1) && w.state == StateAfter(log, i + 1)
    ensures w.created == if i == 0 && responseID.Some? && old(w.armed) then [responseID.value] else old(w.created)
  {
    KindInPlace(log, i);
    OneMoreWritten(log, encode, i);
    ok := w.WriteEvent(Kind(log[i]), encode(log[i]), responseID);
  }

  /** One call for each event: every one is accepted, the callback hears the response's id
      once, and the writer ends completed. */
  method WriteEvents(
    w: Sse.SseResponseWriter, log: seq<StreamEvent>, encode: StreamEvent -> string, responseID: StreamEvent -> Option<string>)
    returns (ok: bool)
    requires w.Valid() && w.state == Sse.Idle && w.created == []
    requires Proper(log) && |log| > 1 && log[|log| - 1].IsTerminal()
    modifies w
    ensures w.Valid() && ok && w.state == Sse.Completed
    ensures w.log == Sends(log, encode) + [Sse.Done]
    ensures w.created == if responseID(log[0]).Some? && old(w.armed) then [responseID(log[0]).value] else []
  {
    hide *;
    NothingWritten(w, log, encode);
    AllWritten(log, encode);
    ok := WriteNext(w, log, encode, responseID(log[0]), 0);
    for i := 1 to |log|
      invariant w.Valid() && ok && w.log == LogAfter(log, encode, i) && w.state == StateAfter(log, i)
      invariant w.created == if responseID(log[0]).Some? && old(w.armed) then [responseID(log[0]).value] else []
    {
      ok := WriteNext(w, log, encode, responseID(log[i]), i);
      if !ok {
        return;
      }
    }
  }

  /** What the client of a writer that took a whole stream hears. */
  lemma {:induction false} ClientHearsTheWriter(w: Sse.SseResponseWriter, log: seq<StreamEvent>, encode: StreamEvent -> string)
    requires w.Valid() && w.log == Sends(log, encode) + [Sse.Done]
    requires forall e :: Sse.OneLine(encode(e)) && encode(e) != Sse.DONE
    requires Proper(log) && |log| > 1 && log[|log| - 1].IsTerminal()
    ensures Sse.ParseLines(Sse.Lines(w.output), "") == Sse.Parsed(Wire(log, encode), true)
  {
    HearProper(log, encode);
  }
}
