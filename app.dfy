/**
  The chat application's handling of one session: the process-wide history that
  starts as the preamble, its reset, and the submission of a user message, which
  anonymises the message, appends it, asks the completion service for a reply,
  appends the reply and returns the displayed transcript.

  The anonymiser and the completion service are external: they are given to the
  model as functions. `None` from either stands for the call raising an exception.
 */
module App {
  import opened Wrappers
  import opened History

  /** The model identifier every completion request names. */
  const ModelName: string := "gpt-3.5-turbo"

  /** What is sent to the completion service: the model and the whole history. */
  datatype Request = Request(model: string, messages: seq<Turn>)

  /** Why a submission did not produce a transcript. */
  datatype ChatError =
    | DetectionError  // the anonymiser raised
    | TransportError  // the completion call, or reading its first choice, raised

  /** The anonymiser: the redacted text, or `None` when it raises. */
  type Anonymizer = string -> Option<string>

  /** The completion service: the reply text, or `None` when the call raises. */
  type Completer = Request -> Option<string>

  /** Everything one submission does: the history it leaves, the request it sent to
      the completion service (if it got that far) and what it returns. */
  datatype Step = Step(history: seq<Turn>, sent: Option<Request>, response: Result<Pairs, ChatError>)

  /** One submission of `input` against history `h`, in the order the application
      performs it: anonymise, append the user turn, request a completion on the
      whole history, append the reply, project the transcript. A step only appends,
      at most two turns; the completion service is contacted exactly when
      anonymisation succeeded; and it succeeds exactly when both turns were
      appended, returning the transcript of the new history. */
  function PredictStep(h: seq<Turn>, input: string, anonymize: Anonymizer, complete: Completer): (s: Step)
    ensures |h| <= |s.history| <= |h| + 2 && s.history[..|h|] == h
    ensures s.sent.Some? <==> anonymize(input).Some?
    ensures s.response.Success? <==> |s.history| == |h| + 2
    ensures s.response.Success? ==> s.response.value == Transcript(s.history)
    ensures s.response.Failure? ==> (s.response.error == DetectionError <==> anonymize(input).None?)
    ensures s.sent.Some? ==> (s.response.Success? <==> complete(s.sent.value).Some?)
    ensures anonymize(input).Some? ==> |s.history| > |h|
    ensures |s.history| > |h| ==>
              anonymize(input).Some? && s.history[|h|] == Turn(User, anonymize(input).value)
    ensures |s.history| == |h| + 2 ==>
              s.sent.Some? && complete(s.sent.value).Some? &&
              s.history[|h| + 1] == Turn(Assistant, complete(s.sent.value).value)
  {
    match anonymize(input)
    case None => Step(h, None, Failure(DetectionError))
    case Some(redacted) =>
      var withUser := h + [Turn(User, redacted)];
      var request := Request(ModelName, withUser);
      match complete(request)
      case None => Step(withUser, Some(request), Failure(TransportError))
      case Some(reply) =>
        var withReply := withUser + [Turn(Assistant, reply)];
        Step(withReply, Some(request), Success(Transcript(withReply)))
  }

  /** Every user turn after the preamble holds text the anonymiser produced. */
  ghost predicate Redacted(h: seq<Turn>, anonymize: Anonymizer)
  {
    forall j :: PreambleLength <= j < |h| && h[j].role == User ==>
      exists x :: anonymize(x) == Some(h[j].content)
  }

  /** If the anonymiser raises, nothing is appended, nothing is sent and the
      submission fails with a detection error. */
  lemma PredictFailsClosed(h: seq<Turn>, input: string, anonymize: Anonymizer, complete: Completer)
    requires anonymize(input).None?
    ensures PredictStep(h, input, anonymize, complete) == Step(h, None, Failure(DetectionError))
  {
  }

  /** Once anonymisation succeeds, the user turn appended is the anonymised text and
      the completion service receives the old history, preamble included, followed
      by that turn: the raw input is neither stored nor sent. */
  lemma PredictSendsRedacted(h: seq<Turn>, input: string, anonymize: Anonymizer, complete: Completer, redacted: string)
    requires anonymize(input) == Some(redacted)
    ensures var s := PredictStep(h, input, anonymize, complete);
      s.history[|h|] == Turn(User, redacted) &&
      s.sent == Some(Request(ModelName, h + [Turn(User, redacted)]))
  {
  }

  /** What a submission stores and sends depends on its input only through the
      anonymiser's output: two inputs that anonymise alike are indistinguishable. */
  lemma PredictDependsOnlyOnRedacted(h: seq<Turn>, x: string, y: string, anonymize: Anonymizer, complete: Completer)
    requires anonymize(x) == anonymize(y)
    ensures PredictStep(h, x, anonymize, complete) == PredictStep(h, y, anonymize, complete)
  {
  }

  /** A submission keeps every stored user turn a product of the anonymiser, and
      every user turn in the request it sends is one too. */
  lemma PredictKeepsRedacted(h: seq<Turn>, input: string, anonymize: Anonymizer, complete: Completer)
    requires Redacted(h, anonymize)
    ensures var s := PredictStep(h, input, anonymize, complete);
      Redacted(s.history, anonymize) &&
      (s.sent.Some? ==> Redacted(s.sent.value.messages, anonymize))
  {
  }

  /** A completed submission on a well-formed history appends the anonymised user
      turn and then the reply, keeps the history well-formed, and returns the old
      transcript grown by the single pair (anonymised input, reply). */
  lemma PredictCompletes(h: seq<Turn>, input: string, anonymize: Anonymizer, complete: Completer, redacted: string, reply: string)
    requires WellFormed(h)
    requires anonymize(input) == Some(redacted)
    requires complete(Request(ModelName, h + [Turn(User, redacted)])) == Some(reply)
    ensures var s := PredictStep(h, input, anonymize, complete);
      s.history == h + [Turn(User, redacted), Turn(Assistant, reply)] &&
      WellFormed(s.history) &&
      s.response == Success(Transcript(h) + [(redacted, reply)])
  {
    var s := PredictStep(h, input, anonymize, complete);
    assert s.history == h + [Turn(User, redacted), Turn(Assistant, reply)];
    WellFormedAppendExchange(h, redacted, reply);
    TranscriptAppendPair(h, Turn(User, redacted), Turn(Assistant, reply));
  }

  /** When the completion call raises, the anonymised user turn stays appended with
      no reply and the submission fails with a transport error, whatever the history.
      On a history of even length the history becomes odd and the transcript hides
      that turn; on one of odd length (left by an earlier failure) the turn completes a
      pair with the last turn before it, which the transcript then shows. */
  lemma PredictTransportFailure(h: seq<Turn>, input: string, anonymize: Anonymizer, complete: Completer, redacted: string)
    requires anonymize(input) == Some(redacted)
    requires complete(Request(ModelName, h + [Turn(User, redacted)])).None?
    ensures var s := PredictStep(h, input, anonymize, complete);
      s.history == h + [Turn(User, redacted)] &&
      s.response == Failure(TransportError)
    ensures var s := PredictStep(h, input, anonymize, complete);
      |h| >= PreambleLength && |h| % 2 == 0 ==>
        |s.history| % 2 == 1 && Transcript(s.history) == Transcript(h)
    ensures var s := PredictStep(h, input, anonymize, complete);
      |h| > PreambleLength && |h| % 2 == 1 ==>
        Transcript(s.history) == Transcript(h) + [(h[|h| - 1].content, redacted)]
  {
  }

  /** After a failed completion call, the next completed submission displays the two
      user messages as one pair, the first shown as if the second were its reply, and
      the history is no longer well-formed; the new reply is hidden as a trailing turn. */
  lemma MisalignedAfterTransportFailure(h: seq<Turn>, x1: string, x2: string, anonymize: Anonymizer, complete: Completer,
                                        r1: string, r2: string, reply: string)
    requires WellFormed(h)
    requires anonymize(x1) == Some(r1) && anonymize(x2) == Some(r2)
    requires complete(Request(ModelName, h + [Turn(User, r1)])).None?
    requires complete(Request(ModelName, h + [Turn(User, r1), Turn(User, r2)])) == Some(reply)
    ensures var s1 := PredictStep(h, x1, anonymize, complete);
      var s2 := PredictStep(s1.history, x2, anonymize, complete);
      s2.response == Success(Transcript(h) + [(r1, r2)]) &&
      !WellFormed(s2.history)
  {
    var s1 := PredictStep(h, x1, anonymize, complete);
    assert s1.history == h + [Turn(User, r1)];
    assert s1.history + [Turn(User, r2)] == h + [Turn(User, r1), Turn(User, r2)];
    var s2 := PredictStep(s1.history, x2, anonymize, complete);
    var both := h + [Turn(User, r1), Turn(User, r2)];
    assert s2.history == both + [Turn(Assistant, reply)];
    TranscriptAppendPair(h, Turn(User, r1), Turn(User, r2));
    TranscriptOmitsTrailing(both, Turn(Assistant, reply));
    assert s2.history[|h| + 1].role == User && (|h| + 1) % 2 == 1;
  }

  /**
    The application's one conversation. The anonymiser and the completion service
    are fixed when the session is created; `history` is the list the submissions
    append to and the reset replaces; `requests` records every request sent to the
    completion service, which a reset does not undo.
   */
  class ChatSession {
    const anonymize: Anonymizer
    const complete: Completer
    var history: seq<Turn>
    ghost var requests: seq<Request>

    /** Nothing the anonymiser did not produce is stored as, or sent as, a user turn. */
    ghost predicate Valid()
      reads this
    {
      Redacted(history, anonymize) &&
      forall r :: r in requests ==> Redacted(r.messages, anonymize)
    }

    /** The history starts as the preamble. */
    constructor (anonymize: Anonymizer, complete: Completer)
      ensures this.anonymize == anonymize && this.complete == complete
      ensures history == Preamble() && WellFormed(history) && Transcript(history) == []
      ensures requests == []
      ensures Valid()
    {
      this.anonymize := anonymize;
      this.complete := complete;
      history := Preamble();
      requests := [];
    }

    /** Puts the history back to exactly the preamble, whatever it held: the state
        after a reset is the initial one, and a second reset changes nothing. */
    method ClearHistory()
      requires Valid()
      modifies this
      ensures history == Preamble() && WellFormed(history) && Transcript(history) == []
      ensures requests == old(requests)
      ensures Valid()
    {
      history := Preamble();
    }

    /** Handles one user message as `PredictStep` describes: the history and the
        response are those of the step, the request it sent is recorded, and a
        completed submission keeps a well-formed history well-formed. */
    method Predict(input: string) returns (response: Result<Pairs, ChatError>)
      requires Valid()
      modifies this
      ensures var s := PredictStep(old(history), input, anonymize, complete);
        history == s.history && response == s.response &&
        requests == old(requests) + (if s.sent.Some? then [s.sent.value] else [])
      ensures old(WellFormed(history)) && response.Success? ==> WellFormed(history)
      ensures Valid()
    {
      ghost var before := history;
      PredictKeepsRedacted(before, input, anonymize, complete);
      var redacted := anonymize(input);
      if redacted.None? {
        return Failure(DetectionError);
      }
      history := history + [Turn(User, redacted.value)];
      var request := Request(ModelName, history);
      requests := requests + [request];
      var reply := complete(request);
      if reply.None? {
        return Failure(TransportError);
      }
      history := history + [Turn(Assistant, reply.value)];
      response := Success(Transcript(history));
      if WellFormed(before) {
        PredictCompletes(before, input, anonymize, complete, redacted.value, reply.value);
      }
    }
  }
}
