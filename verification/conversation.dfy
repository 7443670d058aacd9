/** The conversation as a whole: a reference state machine over a tagged
    variant of stages, the records the handler can actually produce, and
    what sequences of turns do.

    Between turns the caller sends back the record it last received with
    `content` replaced by the user's new input; `Turn` models that. */
module Conversation {
  import opened Wrappers
  import PhoneNumber
  import opened PhoneModify

  /** The stage of the flow, with the failed attempts made at it. */
  datatype Phase = Idle | AwaitingCode(failures: nat) | AwaitingPhone(failures: nat)

  /** What one turn did, as the user is told. */
  datatype Outcome =
    | CodeSent
    | CodeAccepted
    | CodeRejected
    | CodeAbandoned
    | PhoneChanged
    | PhoneRejected
    | PhoneAbandoned

  /** A stage the two-strikes policy allows: fewer failures than attempts. */
  predicate WithinBudget(p: Phase)
  {
    match p
    case Idle => true
    case AwaitingCode(f) => f < MaxAttempts
    case AwaitingPhone(f) => f < MaxAttempts
  }

  /** One turn of the reference machine. A resend is not an attempt; the
      new number is judged by the reference reading of the pattern. */
  function Next(p: Phase, input: string): (t: (Phase, Outcome))
    ensures WithinBudget(p) ==> WithinBudget(t.0)
    ensures p.Idle? ==> t.0 == AwaitingCode(0)
    ensures t.0.AwaitingPhone? ==> p.AwaitingCode? || p.AwaitingPhone?
    ensures p.AwaitingPhone? ==> !t.0.AwaitingCode?
    ensures p.AwaitingCode? && t.0.AwaitingPhone? ==> t.0.failures == 0
  {
    match p
    case Idle => (AwaitingCode(0), CodeSent)
    case AwaitingCode(f) =>
      if ResendMarker in input then (p, CodeSent)
      else if input == ExpectedCode then (AwaitingPhone(0), CodeAccepted)
      else if f + 1 >= MaxAttempts then (Idle, CodeAbandoned)
      else (AwaitingCode(f + 1), CodeRejected)
    case AwaitingPhone(f) =>
      if PhoneNumber.Accepted(input) then (Idle, PhoneChanged)
      else if f + 1 >= MaxAttempts then (Idle, PhoneAbandoned)
      else (AwaitingPhone(f + 1), PhoneRejected)
  }

  /** The message and the new content that report each outcome. */
  function Reply(o: Outcome): (string, string)
  {
    match o
    case CodeSent => (MsgCodeSent, VerificationPrompt)
    case CodeAccepted => (MsgCodeChecked, NewPhonePrompt)
    case CodeRejected => (MsgCodeChecked, WrongCodePrompt)
    case CodeAbandoned => (CodeFailedText, CodeFailedText)
    case PhoneChanged => (MsgPhoneChanged, PhoneChangedText)
    case PhoneRejected => (PhoneFailedText, PhoneFailedText)
    case PhoneAbandoned => (PhoneFailedText, PhoneFailedText)
  }

  /** The reference machine over a sequence of inputs. */
  function RunPhase(p: Phase, inputs: seq<string>): Phase
    decreases |inputs|
  {
    if |inputs| == 0 then p else RunPhase(Next(p, inputs[0]).0, inputs[1..])
  }

  /** The records a conversation begun from `NewForm` can be in: idle with
      the flag and counter cleared, or inside the flow (step 1 or 2) with
      the flag set and fewer failures than the budget. */
  predicate Settled(r: DataForm)
  {
    || (r.interfaceStep == 0 && r.intentLabel == 0 && r.times == 0)
    || (1 <= r.interfaceStep <= 2 && r.intentLabel == 1 && 0 <= r.times < MaxAttempts)
  }

  /** The stage a settled record encodes. */
  function PhaseOf(r: DataForm): (p: Phase)
    requires Settled(r)
    ensures WithinBudget(p)
    ensures p.Idle? <==> r.interfaceStep == 0
  {
    if r.interfaceStep == 0 then Idle
    else if r.interfaceStep == 1 then AwaitingCode(r.times)
    else AwaitingPhone(r.times)
  }

  /** The caller's next turn: the last record, with the user's new input. */
  function Turn(r: DataForm, input: string): DataForm
  {
    r.(content := input)
  }

  /** The handler over a sequence of inputs; `None` once a turn gets no
      response. */
  function Run(r: DataForm, inputs: seq<string>): Option<DataForm>
    decreases |inputs|
  {
    if |inputs| == 0 then Some(r)
    else
      match PhoneNumberModify(Turn(r, inputs[0]))
      case None => None
      case Some(e) => Run(e.data, inputs[1..])
  }

  // ---------------------------------------------------------------------
  // One turn
  // ---------------------------------------------------------------------

  /** On a settled record the handler is the reference machine: it always
      answers, the answer is settled again, encodes the reference's next
      stage and reports the reference's outcome. */
  lemma StepRefinesNext(r: DataForm)
    requires Settled(r)
    ensures PhoneNumberModify(r).Some?
    ensures var e := PhoneNumberModify(r).value;
      && Settled(e.data)
      && PhaseOf(e.data) == Next(PhaseOf(r), r.content).0
      && (e.msg, e.data.content) == Reply(Next(PhaseOf(r), r.content).1)
  {
    PhoneNumber.ValidatorMatchesPattern(r.content);
  }

  /** The new content of every answer is always one of six fixed texts,
      never copied from the user's input (though an input may happen to
      equal one of them). */
  lemma AnswerReplacesContent(r: DataForm)
    requires KnownStep(r.interfaceStep)
    ensures PhoneNumberModify(r).value.data.content in
      {VerificationPrompt, NewPhonePrompt, WrongCodePrompt, CodeFailedText, PhoneFailedText, PhoneChangedText}
  {
  }

  /** The prompt the stub issues asks for a resend itself: a caller that
      sends it back unchanged at step 1 gets it again, and nothing else
      moves. */
  lemma EchoedPromptResends(r: DataForm)
    requires r.interfaceStep == 1
    ensures PhoneNumberModify(Turn(r, VerificationPrompt)) ==
            Some(Envelope(SuccessCode, MsgCodeSent, Turn(r, VerificationPrompt)))
  {
    assert ResendMarker in SendVerificationCode();
  }

  // ---------------------------------------------------------------------
  // Sequences of turns
  // ---------------------------------------------------------------------

  /** From a settled record every sequence of inputs is answered throughout;
      the record stays settled, keeps its identity and follows the
      reference machine stage by stage. */
  lemma {:induction false} RunRefinesRunPhase(r: DataForm, inputs: seq<string>)
    requires Settled(r)
    ensures Run(r, inputs).Some?
    ensures Settled(Run(r, inputs).value)
    ensures SameIdentity(r, Run(r, inputs).value)
    ensures PhaseOf(Run(r, inputs).value) == RunPhase(PhaseOf(r), inputs)
    decreases |inputs|
  {
    if |inputs| > 0 {
      var t := Turn(r, inputs[0]);
      StepRefinesNext(t);
      var e := PhoneNumberModify(t).value;
      RunRefinesRunPhase(e.data, inputs[1..]);
    }
  }

  /** Any number of resend requests at step 1 leave step, counter and flag
      exactly as they were: a resend never consumes an attempt. */
  lemma {:induction false} ResendsKeepCounters(r: DataForm, inputs: seq<string>)
    requires r.interfaceStep == 1
    requires forall i :: 0 <= i < |inputs| ==> ResendMarker in inputs[i]
    ensures Run(r, inputs) == Some(if |inputs| == 0 then r else Turn(r, VerificationPrompt))
    decreases |inputs|
  {
    if |inputs| > 0 {
      var next := Turn(r, VerificationPrompt);
      assert PhoneNumberModify(Turn(r, inputs[0])) == Some(Envelope(SuccessCode, MsgCodeSent, next));
      ResendsKeepCounters(next, inputs[1..]);
      if |inputs| > 1 {
        assert Turn(next, VerificationPrompt) == next;
      }
    }
  }

  /** A code that is neither right nor a resend request. */
  predicate WrongCode(c: string)
  {
    ResendMarker !in c && c != ExpectedCode
  }

  /** Two strikes: from a settled record awaiting the code, at most two wrong
      codes in a row abandon the conversation. */
  lemma WrongCodesAbandon(r: DataForm, c1: string, c2: string)
    requires Settled(r) && r.interfaceStep == 1
    requires WrongCode(c1) && WrongCode(c2)
    ensures Run(r, [c1]).Some? && Run(r, [c1, c2]).Some?
    ensures Run(r, [c1]).value.interfaceStep == 0 || Run(r, [c1, c2]).value.interfaceStep == 0
  {
    var e1 := PhoneNumberModify(Turn(r, c1)).value;
    assert Run(r, [c1, c2]) == Run(e1.data, [c2]) by {
      assert [c1, c2][1..] == [c2];
    }
    assert KnownStep(e1.data.interfaceStep);
    assert Run(e1.data, [c2]) == Some(PhoneNumberModify(Turn(e1.data, c2)).value.data);
  }

  /** Two strikes: from a settled record awaiting the new number, at most
      two invalid numbers in a row abandon the conversation. */
  lemma InvalidNumbersAbandon(r: DataForm, n1: string, n2: string)
    requires Settled(r) && r.interfaceStep == 2
    requires !PhoneNumber.ValidateChinesePhoneNumber(n1)
    requires !PhoneNumber.ValidateChinesePhoneNumber(n2)
    ensures Run(r, [n1]).Some? && Run(r, [n1, n2]).Some?
    ensures Run(r, [n1]).value.interfaceStep == 0 || Run(r, [n1, n2]).value.interfaceStep == 0
  {
    var e1 := PhoneNumberModify(Turn(r, n1)).value;
    assert Run(r, [n1, n2]) == Run(e1.data, [n2]) by {
      assert [n1, n2][1..] == [n2];
    }
    assert KnownStep(e1.data.interfaceStep);
    assert Run(e1.data, [n2]) == Some(PhoneNumberModify(Turn(e1.data, n2)).value.data);
  }

  /** Two wrong codes right after the code was issued: the first asks again
      and keeps the count, the second abandons with the failure text. */
  lemma TwoWrongCodesAfterIssue(r: DataForm, c1: string, c2: string)
    requires r.interfaceStep == 1 && r.times == 0
    requires WrongCode(c1) && WrongCode(c2)
    ensures var e1 := PhoneNumberModify(Turn(r, c1)).value;
      && e1.msg == MsgCodeChecked && e1.data.content == WrongCodePrompt
      && e1.data.interfaceStep == 1 && e1.data.times == 1
      && var e2 := PhoneNumberModify(Turn(e1.data, c2)).value;
         && e2.msg == CodeFailedText && e2.data.content == CodeFailedText
         && e2.data.interfaceStep == 0 && e2.data.intentLabel == 0 && e2.data.times == 0
  {
  }

  /** Two invalid numbers right after the code was accepted: the first
      keeps step 2 and counts, the second abandons with the failure text. */
  lemma TwoInvalidNumbersAfterCode(r: DataForm, n1: string, n2: string)
    requires r.interfaceStep == 2 && r.times == 0
    requires !PhoneNumber.ValidateChinesePhoneNumber(n1)
    requires !PhoneNumber.ValidateChinesePhoneNumber(n2)
    ensures var e1 := PhoneNumberModify(Turn(r, n1)).value;
      && e1.msg == PhoneFailedText && e1.data.content == PhoneFailedText
      && e1.data.interfaceStep == 2 && e1.data.times == 1
      && var e2 := PhoneNumberModify(Turn(e1.data, n2)).value;
         && e2.msg == PhoneFailedText && e2.data.content == PhoneFailedText
         && e2.data.interfaceStep == 0 && e2.data.intentLabel == 0 && e2.data.times == 0
  {
  }

  /** An invalid number and then a valid one: the flow ends in success with
      the counter cleared. */
  lemma InvalidThenValidNumber(r: DataForm, n1: string, n2: string)
    requires r.interfaceStep == 2 && r.times == 0
    requires !PhoneNumber.ValidateChinesePhoneNumber(n1)
    requires PhoneNumber.ValidateChinesePhoneNumber(n2)
    ensures var e1 := PhoneNumberModify(Turn(r, n1)).value;
      && e1.msg == PhoneFailedText && e1.data.interfaceStep == 2 && e1.data.times == 1
      && var e2 := PhoneNumberModify(Turn(e1.data, n2)).value;
         && e2.msg == MsgPhoneChanged && e2.data.content == PhoneChangedText
         && e2.data.interfaceStep == 0 && e2.data.intentLabel == 0 && e2.data.times == 0
  {
  }

  /** The whole flow: opening turn, right code, valid number. The record
      comes back as a fresh one holding the success text; in particular the
      stored `phone` is not replaced by the new number. */
  lemma HappyPath(opening: string, userId: int, name: string, phone: string)
    ensures Run(NewForm(opening, userId, name, phone), [opening, ExpectedCode, "13800138000"]) ==
            Some(NewForm(PhoneChangedText, userId, name, phone))
  {
    PhoneNumber.ValidatorAcceptsExamples();
    var number := "13800138000";
    var inputs := [opening, ExpectedCode, number];
    var r0 := NewForm(opening, userId, name, phone);
    var r1 := r0.(interfaceStep := 1, intentLabel := 1, content := VerificationPrompt);
    assert PhoneNumberModify(Turn(r0, opening)).value.data == r1;
    var r2 := r1.(interfaceStep := 2, times := 0, content := NewPhonePrompt);
    assert PhoneNumberModify(Turn(r1, ExpectedCode)).value.data == r2;
    var r3 := NewForm(PhoneChangedText, userId, name, phone);
    assert PhoneNumberModify(Turn(r2, number)).value.data == r3;
    assert Run(r3, []) == Some(r3);
    assert Run(r2, [number]) == Some(r3);
    assert Run(r1, [ExpectedCode, number]) == Some(r3) by {
      assert [ExpectedCode, number][1..] == [number];
    }
    assert Run(r0, inputs) == Some(r3) by {
      assert inputs[1..] == [ExpectedCode, number];
    }
  }
}
