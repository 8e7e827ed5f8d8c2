/** The ext_proc stream loop: what it answers to which message, and how it ends. */
module Streams {
  import opened Pools
  import opened System
  import opened Admission

  datatype Kind =
    | RequestHeaders | RequestBody | RequestTrailers
    | ResponseHeaders | ResponseBody | ResponseTrailers | UnknownKind

  /** The canonical code of an error: that of an `errutil.Error`, or `Foreign`. */
  datatype Code = ResourceExhausted | Internal | ServiceUnavailable | BadRequest | BadConfiguration | Foreign

  datatype Failure = Failure(code: Code, text: string)

  datatype Response = Continue | Immediate(status: nat, body: Option<string>)

  datatype Received = Message(kind: Kind) | Eof | Canceled | Broken

  /** One round of the loop as the environment decides it: whether the context is done, what
      is received, what `MayActivate` returns (`None` for nil) and whether sending works. */
  datatype Turn = Turn(done: bool, received: Received, activation: Option<Failure>, sendOk: bool)

  /** How the loop returns; `Running` when it has not. */
  datatype Ending = Running | ContextDone | Closed | ReceiveFailed | SendFailed | Unhandled(f: Failure)

  /** The error code that an HTTP status stands for on this stream. */
  function CodeOf(status: nat): Option<Code> {
    match status
    case 400 => Some(BadRequest)
    case 404 => Some(BadConfiguration)
    case 429 => Some(ResourceExhausted)
    case 500 => Some(Internal)
    case 503 => Some(ServiceUnavailable)
    case _ => None
  }

  /** The immediate response for an error, or `None` when the error itself is returned. */
  function ErrResponse(f: Failure): (r: Option<Response>)
    ensures r == None <==> f.code == Foreign
    ensures r.Some? ==> r.value.Immediate? && CodeOf(r.value.status) == Some(f.code)
    ensures r.Some? ==> (r.value.body == None <==> f.text == "")
    ensures r.Some? && f.text != "" ==> r.value.body == Some(f.text)
  {
    var body := if f.text == "" then None else Some(f.text);
    match f.code
    case ResourceExhausted => Some(Immediate(429, body))
    case Internal => Some(Immediate(500, body))
    case ServiceUnavailable => Some(Immediate(503, body))
    case BadRequest => Some(Immediate(400, body))
    case BadConfiguration => Some(Immediate(404, body))
    case Foreign => None
  }

  predicate IsHeaders(t: Turn) {
    !t.done && t.received == Message(RequestHeaders)
  }

  /** The loop goes round again after this turn. */
  predicate Passes(t: Turn) {
    !t.done && t.received.Message? && (IsHeaders(t) ==> t.activation == None && t.sendOk)
  }

  /** How a turn that does not pass ends the stream. */
  function EndingOf(t: Turn): Ending
    requires !Passes(t)
  {
    if t.done then ContextDone
    else if t.received.Eof? || t.received.Canceled? then Closed
    else if t.received.Broken? then ReceiveFailed
    else if t.activation.Some? && t.activation.value.code == Foreign then Unhandled(t.activation.value)
    else if !t.sendOk then SendFailed
    else Closed
  }

  /** The answer due to a request-headers message. */
  function Answer(t: Turn): Option<Response> {
    if t.activation == None then Some(Continue) else ErrResponse(t.activation.value)
  }

  predicate Answered(t: Turn) {
    IsHeaders(t) && Answer(t).Some? && t.sendOk
  }

  function Replies(turns: seq<Turn>, n: nat): seq<Response>
    requires n <= |turns|
  {
    if n == 0 then []
    else Replies(turns, n - 1) + if Answered(turns[n - 1]) then [Answer(turns[n - 1]).value] else []
  }

  /** The loop, on `turns`, sent these responses and ended so after `used` of them. */
  ghost predicate Serves(turns: seq<Turn>, sent: seq<Response>, ending: Ending, used: nat) {
    && used <= |turns|
    && (ending.Running? ==> used == |turns|)
    && (forall i :: 0 <= i < used && (ending.Running? || i < used - 1) ==> Passes(turns[i]))
    && (!ending.Running? ==> used > 0 && !Passes(turns[used - 1]) && ending == EndingOf(turns[used - 1]))
    && sent == Replies(turns, used)
  }

  method Process(turns: seq<Turn>) returns (sent: seq<Response>, ending: Ending, used: nat)
    ensures Serves(turns, sent, ending, used)
  {
    sent, used := [], 0;
    while used < |turns|
      invariant used <= |turns|
      invariant forall i :: 0 <= i < used ==> Passes(turns[i])
      invariant sent == Replies(turns, used)
    {
      var t := turns[used];
      used := used + 1;
      if t.done {
        return sent, ContextDone, used;
      }
      match t.received {
        case Eof => return sent, Closed, used;
        case Canceled => return sent, Closed, used;
        case Broken => return sent, ReceiveFailed, used;
        case Message(kind) =>
          if kind == RequestHeaders {
            if t.activation.Some? {
              var resp := ErrResponse(t.activation.value);
              if resp == None {
                return sent, Unhandled(t.activation.value), used;
              }
              if !t.sendOk {
                return sent, SendFailed, used;
              }
              return sent + [resp.value], Closed, used;
            }
            if !t.sendOk {
              return sent, SendFailed, used;
            }
            sent := sent + [Continue];
          }
      }
    }
    return sent, Running, used;
  }

  /** The specification leaves no choice: one stream of turns, one behaviour. */
  lemma ServesOneWay(turns: seq<Turn>, sent: seq<Response>, ending: Ending, used: nat,
                     sent': seq<Response>, ending': Ending, used': nat)
    requires Serves(turns, sent, ending, used) && Serves(turns, sent', ending', used')
    ensures sent == sent' && ending == ending' && used == used'
  {
    NoEarlierStop(turns, sent, ending, used, sent', ending', used');
    NoEarlierStop(turns, sent', ending', used', sent, ending, used);
    var goesOn := used > 0 && Passes(turns[used - 1]);
    assert used > 0 && (ending.Running? || ending'.Running?) ==> goesOn;
  }

  lemma NoEarlierStop(turns: seq<Turn>, sent: seq<Response>, ending: Ending, used: nat,
                      sent': seq<Response>, ending': Ending, used': nat)
    requires Serves(turns, sent, ending, used) && Serves(turns, sent', ending', used')
    ensures used' <= used
  {
    var goesOn := used > 0 && Passes(turns[used - 1]);
    assert 0 < used < used' ==> goesOn;
  }

  /** The indices of the request-headers messages received in the first `n` turns. */
  function HeaderTurns(turns: seq<Turn>, n: nat): seq<nat>
    requires n <= |turns|
  {
    if n == 0 then [] else HeaderTurns(turns, n - 1) + if IsHeaders(turns[n - 1]) then [n - 1] else []
  }

  lemma {:induction false} HeaderTurnsInOrder(turns: seq<Turn>, n: nat)
    requires n <= |turns|
    ensures forall k :: 0 <= k < |HeaderTurns(turns, n)| ==>
              HeaderTurns(turns, n)[k] < n && IsHeaders(turns[HeaderTurns(turns, n)[k]])
    ensures forall j, k :: 0 <= j < k < |HeaderTurns(turns, n)| ==> HeaderTurns(turns, n)[j] < HeaderTurns(turns, n)[k]
    ensures forall i: nat :: i < n && IsHeaders(turns[i]) ==> i in HeaderTurns(turns, n)
  {
    if n > 0 {
      HeaderTurnsInOrder(turns, n - 1);
    }
  }

  lemma {:induction false} PassingReplies(turns: seq<Turn>, n: nat)
    requires n <= |turns| && forall i :: 0 <= i < n ==> Passes(turns[i])
    ensures |Replies(turns, n)| == |HeaderTurns(turns, n)|
    ensures forall k :: 0 <= k < |Replies(turns, n)| ==> Replies(turns, n)[k] == Continue
  {
    if n > 0 {
      PassingReplies(turns, n - 1);
    }
  }

  /** The last turn adds at most one headers message and at most one reply. */
  lemma LastTurn(turns: seq<Turn>, n: nat)
    requires 0 < n <= |turns|
    ensures HeaderTurns(turns, n) == HeaderTurns(turns, n - 1) + if IsHeaders(turns[n - 1]) then [n - 1] else []
    ensures Replies(turns, n) ==
            Replies(turns, n - 1) + if Answered(turns[n - 1]) then [Answer(turns[n - 1]).value] else []
    ensures Answered(turns[n - 1]) ==> IsHeaders(turns[n - 1])
  {
  }

  /** All replies but the one of the last turn are CONTINUE, one for each headers message. */
  lemma StreamShape(turns: seq<Turn>, sent: seq<Response>, ending: Ending, used: nat)
    requires Serves(turns, sent, ending, used)
    ensures |sent| <= |HeaderTurns(turns, used)| <= |sent| + 1
    ensures |HeaderTurns(turns, used)| == |sent| + 1 <==> ending.SendFailed? || ending.Unhandled?
    ensures forall k :: 0 <= k < |sent| - 1 ==> sent[k] == Continue
    ensures |sent| > 0 && sent[|sent| - 1].Immediate? ==>
              ending == Closed && HeaderTurns(turns, used)[|sent| - 1] == used - 1
  {
    if ending.Running? {
      PassingReplies(turns, used);
    } else {
      LastTurn(turns, used);
      PassingReplies(turns, used - 1);
    }
  }

  lemma {:induction false} PassingAnswers(turns: seq<Turn>, n: nat, k: nat)
    requires n <= |turns| && k < |HeaderTurns(turns, n)| && forall i :: 0 <= i < n ==> Passes(turns[i])
    ensures HeaderTurns(turns, n)[k] < n && Answer(turns[HeaderTurns(turns, n)[k]]) == Some(Continue)
  {
    LastTurn(turns, n);
    if k < |HeaderTurns(turns, n - 1)| {
      PassingAnswers(turns, n - 1, k);
    }
  }

  lemma StreamAnswers(turns: seq<Turn>, sent: seq<Response>, ending: Ending, used: nat, k: nat)
    requires Serves(turns, sent, ending, used) && k < |sent|
    ensures k < |HeaderTurns(turns, used)| && HeaderTurns(turns, used)[k] < |turns|
    ensures Answer(turns[HeaderTurns(turns, used)[k]]) == Some(sent[k])
  {
    if ending.Running? {
      PassingReplies(turns, used);
      PassingAnswers(turns, used, k);
    } else {
      LastTurn(turns, used);
      PassingReplies(turns, used - 1);
      if k < |HeaderTurns(turns, used - 1)| {
        PassingAnswers(turns, used - 1, k);
      }
    }
  }

  /** Stream discipline. The i-th response answers the i-th request-headers message and no
      other message is answered; all responses but the last are CONTINUE; an immediate
      response ends the stream; and at most the last headers message goes unanswered, which
      ends the stream with an error. */
  lemma StreamDiscipline(turns: seq<Turn>, sent: seq<Response>, ending: Ending, used: nat)
    requires Serves(turns, sent, ending, used)
    ensures |sent| <= |HeaderTurns(turns, used)| <= |sent| + 1
    ensures forall k :: 0 <= k < |sent| ==>
              HeaderTurns(turns, used)[k] < |turns| && Answer(turns[HeaderTurns(turns, used)[k]]) == Some(sent[k])
    ensures forall k :: 0 <= k < |sent| - 1 ==> sent[k] == Continue
    ensures |sent| > 0 && sent[|sent| - 1].Immediate? ==>
              ending == Closed && HeaderTurns(turns, used)[|sent| - 1] == used - 1
    ensures |HeaderTurns(turns, used)| == |sent| + 1 <==> ending.SendFailed? || ending.Unhandled?
  {
    StreamShape(turns, sent, ending, used);
    forall k | 0 <= k < |sent|
      ensures HeaderTurns(turns, used)[k] < |turns| && Answer(turns[HeaderTurns(turns, used)[k]]) == Some(sent[k])
    {
      StreamAnswers(turns, sent, ending, used, k);
    }
  }

  /** How a stream ends, read off its last turn: a done context and a broken receive are
      reported, an orderly end of the stream and an immediate response close it, a failed send
      and a foreign error are returned. */
  lemma StreamEnding(turns: seq<Turn>, sent: seq<Response>, ending: Ending, used: nat)
    requires Serves(turns, sent, ending, used) && used > 0
    ensures var t := turns[used - 1];
            && (ending == ContextDone <==> t.done)
            && (ending == ReceiveFailed <==> !t.done && t.received == Broken)
            && (ending == Closed <==> || (!t.done && (t.received == Eof || t.received == Canceled))
                                      || (|sent| > 0 && sent[|sent| - 1] != Continue))
            && (forall f :: ending == Unhandled(f) <==>
                  !t.done && t.received == Message(RequestHeaders) && t.activation == Some(f) && f.code == Foreign)
            && (ending == SendFailed <==>
                  && !t.done && t.received == Message(RequestHeaders) && !t.sendOk
                  && (t.activation.Some? ==> t.activation.value.code != Foreign))
  {
    LastTurn(turns, used);
    var goesOn := Passes(turns[used - 1]);
    assert ending.Running? ==> goesOn;
    if ending.Running? {
      PassingReplies(turns, used);
    } else {
      PassingReplies(turns, used - 1);
    }
  }

  /** The status of an immediate response, by the code of the error it reports. */
  lemma StatusPerCode(turns: seq<Turn>, sent: seq<Response>, ending: Ending, used: nat)
    requires Serves(turns, sent, ending, used) && |sent| > 0 && sent[|sent| - 1].Immediate?
    ensures used > 0 && turns[used - 1].activation.Some?
    ensures var status, code := sent[|sent| - 1].status, turns[used - 1].activation.value.code;
            && (code == BadRequest <==> status == 400)
            && (code == BadConfiguration <==> status == 404)
            && (code == ResourceExhausted <==> status == 429)
            && (code == Internal <==> status == 500)
            && (code == ServiceUnavailable <==> status == 503)
  {
    StreamShape(turns, sent, ending, used);
    StreamAnswers(turns, sent, ending, used, |sent| - 1);
  }

  /** A message that is not a request-headers message is passed over: it neither ends the stream
      nor is answered. */
  lemma OtherMessagesPass(turns: seq<Turn>, sent: seq<Response>, ending: Ending, used: nat, i: nat)
    requires Serves(turns, sent, ending, used) && i < used
    requires !turns[i].done && turns[i].received.Message? && turns[i].received.kind != RequestHeaders
    ensures ending == Running || i < used - 1
    ensures Replies(turns, i + 1) == Replies(turns, i)
  {
    var goesOn := Passes(turns[i]);
    assert goesOn;
  }

  // ----- Together with MayActivate -----

  /** `MayActivate` returns this error (`None` for nil) on this outcome, whatever its text. */
  predicate ReturnedFor(o: Outcome, e: Option<Failure>) {
    match o
    case Admitted(_) => e == None
    case NotSynced => e.Some? && e.value.code == Foreign
    case Unavailable => e.Some? && e.value.code == ServiceUnavailable
  }

  lemma AnswerToOutcome(t: Turn, o: Outcome)
    requires ReturnedFor(o, t.activation)
    ensures Answer(t) == Some(Continue) <==> o.Admitted?
    ensures Answer(t) == None <==> o == NotSynced
    ensures Answer(t).Some? && Answer(t).value.Immediate? ==> o == Unavailable && Answer(t).value.status == 503
    ensures t.activation.Some? && t.activation.value.code == Foreign <==> o == NotSynced
  {
  }

  /** Every headers message of the stream was put to `MayActivate` by a request of the run,
      `ids[i]` at turn `i`, and got the error that belongs to that request's outcome. */
  ghost predicate Driven(run: Run, turns: seq<Turn>, ids: seq<nat>)
    requires |run.states| > 0
  {
    && |ids| == |turns|
    && (forall i :: 0 <= i < |turns| && IsHeaders(turns[i]) ==>
          && ids[i] in Last(run).reqs && Last(run).reqs[ids[i]].ctrl.Done?
          && ReturnedFor(Last(run).reqs[ids[i]].ctrl.outcome, turns[i].activation))
  }

  /** The run holds evidence that request `r` may pass. */
  ghost predicate MayPass(run: Run, r: nat)
    requires |run.states| == |run.labels| + 1
  {
    exists why :: Evidence(run, |run.labels|, r, why)
  }

  ghost predicate CameTooEarly(run: Run, r: nat)
    requires |run.states| == |run.labels| + 1
  {
    exists k: nat :: k < |run.labels| && FoundNoPool(run, k, r)
  }

  lemma AnswerOfRun(c: Config, run: Run, t: Turn, r: nat)
    requires IsRun(c, run) && r in Last(run).reqs && Last(run).reqs[r].ctrl.Done?
    requires ReturnedFor(Last(run).reqs[r].ctrl.outcome, t.activation)
    ensures Answer(t) == Some(Continue) <==> MayPass(run, r)
    ensures Answer(t) == None <==> CameTooEarly(run, r)
    ensures Answer(t).Some? && Answer(t).value.Immediate? ==> Answer(t).value.status == 503
  {
    var o := Last(run).reqs[r].ctrl.outcome;
    AnswerToOutcome(t, o);
    NotSyncedIffNoPool(c, run, |run.labels|, r);
    forall why
      ensures o == Admitted(why) <==> Evidence(run, |run.labels|, r, why)
    {
      AdmittedIffEvidence(c, run, |run.labels|, r, why);
    }
  }

  /** A stream whose headers messages are requests of a run: a request gets CONTINUE if and only
      if the run holds evidence that it may pass; any other response is 503 (Service Unavailable,
      section 15.6.4 of RFC 9110); and the stream ends with an unhandled error if and only if its
      last request came before there was a pool. */
  lemma StreamOfRun(c: Config, run: Run, turns: seq<Turn>, ids: seq<nat>,
                    sent: seq<Response>, ending: Ending, used: nat)
    requires IsRun(c, run) && Serves(turns, sent, ending, used) && Driven(run, turns, ids)
    ensures |sent| <= |HeaderTurns(turns, used)|
    ensures forall k :: 0 <= k < |sent| ==> HeaderTurns(turns, used)[k] < |turns|
    ensures forall k :: 0 <= k < |sent| ==> (sent[k] == Continue <==> MayPass(run, ids[HeaderTurns(turns, used)[k]]))
    ensures forall k :: 0 <= k < |sent| && sent[k] != Continue ==> sent[k].Immediate? && sent[k].status == 503
    ensures ending.Unhandled? <==> used > 0 && IsHeaders(turns[used - 1]) && CameTooEarly(run, ids[used - 1])
  {
    StreamDiscipline(turns, sent, ending, used);
    HeaderTurnsInOrder(turns, used);
    forall k | 0 <= k < |sent|
      ensures sent[k] == Continue <==> MayPass(run, ids[HeaderTurns(turns, used)[k]])
      ensures sent[k] != Continue ==> sent[k].Immediate? && sent[k].status == 503
    {
      var i := HeaderTurns(turns, used)[k];
      AnswerOfRun(c, run, turns[i], ids[i]);
    }
    if used > 0 && IsHeaders(turns[used - 1]) {
      AnswerOfRun(c, run, turns[used - 1], ids[used - 1]);
      EndsUnhandled(turns, sent, ending, used);
    }
  }

  lemma EndsUnhandled(turns: seq<Turn>, sent: seq<Response>, ending: Ending, used: nat)
    requires Serves(turns, sent, ending, used) && used > 0
    ensures ending.Unhandled? <==> IsHeaders(turns[used - 1]) && Answer(turns[used - 1]) == None
  {
    var goesOn := Passes(turns[used - 1]);
    assert ending.Running? ==> goesOn;
  }
}
