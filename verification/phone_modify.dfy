/** The phone-number-change conversation: the caller-held `DataForm` record,
    the four step handlers and the dispatcher `phone_number_modify`.

    Each handler in the source mutates the request object in place and
    returns `{"code", "msg", "data"}` with `data` the dump of the mutated
    record. Here every handler is a pure function from the submitted record
    to an `Envelope` holding the new record. */
module PhoneModify {
  import opened Wrappers
  import PhoneNumber

  /** The submitted record. `sessionId`, `interfaceStep`, `times` and
      `intentLabel` have defaults; the others must be supplied. */
  datatype DataForm = DataForm(
    content: string,
    sessionId: string,
    interfaceStep: int,
    times: int,
    intentLabel: int,
    userId: int,
    name: string,
    phone: string)

  /** The response `{code, msg, data}`. */
  datatype Envelope = Envelope(code: int, msg: string, data: DataForm)

  /** The status code of every response: 0, which the module's header note
      documents as success. */
  const SuccessCode: int := 0

  /** The one-time code the stub issues and the verifier expects. */
  const ExpectedCode: string := "123456"

  /** Content containing this character asks for the code to be resent. */
  const ResendMarker: char := 'R'

  /** Failed attempts at one step after which the conversation is abandoned. */
  const MaxAttempts: int := 2

  /** The prompt returned by the code-issuing stub: two lines, the first
      announcing the code, the second explaining how to ask for a resend. */
  const VerificationPrompt: string := CodeSentLine + "\n" + ResendHintLine
  const CodeSentLine: string := "验证码(123456)已发送至您的手机，如果收到验证码，请告诉我验证码。"
  const ResendHintLine: string := "如需验证码重发，请输入 \"R\"。"

  const NewPhonePrompt: string := "请输入您要预留的新手机号"
  const WrongCodePrompt: string := "验证码输入错误，请重新输入"
  const CodeFailedText: string := "校验验证码失败"
  const PhoneFailedText: string := "手机号校验失败"
  const PhoneChangedText: string :=
    "好的，已为您修改好新的预留手机号，您可登录 \"我的\"--> \"个人主页\" --> \"预留手机号\" 进行查看。"

  const MsgCodeSent: string := "发送验证码"
  const MsgCodeChecked: string := "校验验证码"
  const MsgPhoneChanged: string := "手机号修改成功!!"

  /** A record as first submitted: the defaults for the optional fields. */
  function NewForm(content: string, userId: int, name: string, phone: string): (r: DataForm)
    ensures r.sessionId == "0" && r.interfaceStep == 0 && r.times == 0 && r.intentLabel == 0
    ensures r.content == content && r.userId == userId && r.name == name && r.phone == phone
  {
    DataForm(content, "0", 0, 0, 0, userId, name, phone)
  }

  /** No handler touches the caller's identity or session id. */
  predicate SameIdentity(a: DataForm, b: DataForm)
  {
    a.sessionId == b.sessionId && a.userId == b.userId && a.name == b.name && a.phone == b.phone
  }

  /** `e` abandons the conversation: back to step 0, flow flag and counter
      cleared, `text` as both message and content. */
  predicate IsReset(req: DataForm, e: Envelope, text: string)
  {
    && e.code == SuccessCode
    && e.msg == text
    && e.data == req.(content := text, interfaceStep := 0, times := 0, intentLabel := 0)
  }

  /** `needle` occurs in `hay` starting at index `i`. */
  predicate OccursAt(needle: string, hay: string, i: int)
  {
    0 <= i && i + |needle| <= |hay| && forall k :: 0 <= k < |needle| ==> hay[i + k] == needle[k]
  }

  /** `needle` is a substring of `hay`. */
  ghost predicate Contains(needle: string, hay: string)
  {
    exists i :: OccursAt(needle, hay, i)
  }

  /** The code-issuing stub: a fixed prompt that carries the demonstration
      code and tells the user how to ask for a resend. */
  function SendVerificationCode(): (prompt: string)
    ensures Contains(ExpectedCode, prompt)
    ensures ResendMarker in prompt
  {
    assert OccursAt(ExpectedCode, VerificationPrompt, 4);
    assert VerificationPrompt[|VerificationPrompt| - 3] == ResendMarker;
    VerificationPrompt
  }

  /** Step 0: enter the flow and issue a code. The retry counter is left as
      submitted. */
  function SendVerification(req: DataForm): (e: Envelope)
    ensures e.code == SuccessCode && e.msg == MsgCodeSent
    ensures e.data.interfaceStep == 1 && e.data.intentLabel == 1
    ensures e.data.content == VerificationPrompt
    ensures e.data.times == req.times && SameIdentity(req, e.data)
  {
    Envelope(SuccessCode, MsgCodeSent,
             req.(intentLabel := 1, interfaceStep := 1, content := SendVerificationCode()))
  }

  /** Step 1, resend requested: only the content changes. */
  function ResendVerification(req: DataForm): (e: Envelope)
    ensures e.code == SuccessCode && e.msg == MsgCodeSent
    ensures e.data == req.(content := VerificationPrompt)
  {
    Envelope(SuccessCode, MsgCodeSent, req.(content := SendVerificationCode()))
  }

  /** Step 1, a code submitted: the right code moves on to step 2 with a
      fresh counter; a wrong one costs an attempt, and the second failure
      abandons the conversation. */
  function HandleVerification(req: DataForm): (e: Envelope)
    ensures e.code == SuccessCode && SameIdentity(req, e.data)
    ensures req.content == ExpectedCode ==>
      && e.msg == MsgCodeChecked
      && e.data == req.(interfaceStep := 2, times := 0, content := NewPhonePrompt)
    ensures req.content != ExpectedCode && req.times + 1 >= MaxAttempts ==>
      IsReset(req, e, CodeFailedText)
    ensures req.content != ExpectedCode && req.times + 1 < MaxAttempts ==>
      && e.msg == MsgCodeChecked
      && e.data == req.(times := req.times + 1, content := WrongCodePrompt)
  {
    if req.content == ExpectedCode then
      Envelope(SuccessCode, MsgCodeChecked,
               req.(interfaceStep := 2, times := 0, content := NewPhonePrompt))
    else
      var failed := req.(times := req.times + 1);
      if failed.times >= MaxAttempts then
        Envelope(SuccessCode, CodeFailedText,
                 failed.(content := CodeFailedText, intentLabel := 0, times := 0, interfaceStep := 0))
      else
        Envelope(SuccessCode, MsgCodeChecked, failed.(content := WrongCodePrompt))
  }

  /** Step 2, a new number submitted: a valid one ends the flow with the
      success text; an invalid one costs an attempt, and the second failure
      abandons the conversation. Both failures carry the same message. */
  function HandlePhoneNumberUpdate(req: DataForm): (e: Envelope)
    ensures e.code == SuccessCode && SameIdentity(req, e.data)
    ensures PhoneNumber.ValidateChinesePhoneNumber(req.content) ==>
      && e.msg == MsgPhoneChanged
      && e.data == req.(intentLabel := 0, times := 0, interfaceStep := 0, content := PhoneChangedText)
    ensures !PhoneNumber.ValidateChinesePhoneNumber(req.content) ==> e.msg == PhoneFailedText
    ensures !PhoneNumber.ValidateChinesePhoneNumber(req.content) && req.times + 1 >= MaxAttempts ==>
      IsReset(req, e, PhoneFailedText)
    ensures !PhoneNumber.ValidateChinesePhoneNumber(req.content) && req.times + 1 < MaxAttempts ==>
      e.data == req.(times := req.times + 1, content := PhoneFailedText)
  {
    if PhoneNumber.ValidateChinesePhoneNumber(req.content) then
      Envelope(SuccessCode, MsgPhoneChanged,
               req.(intentLabel := 0, times := 0, interfaceStep := 0, content := PhoneChangedText))
    else
      var failed := req.(times := req.times + 1);
      if failed.times >= MaxAttempts then
        Envelope(SuccessCode, PhoneFailedText,
                 failed.(content := PhoneFailedText, intentLabel := 0, times := 0, interfaceStep := 0))
      else
        Envelope(SuccessCode, PhoneFailedText, failed.(content := PhoneFailedText))
  }

  /** Whether `step` is one of the three stages the dispatcher knows. */
  predicate KnownStep(step: int)
  {
    0 <= step <= 2
  }

  /** `phone_number_modify`: dispatch on the submitted step. An unknown step
      falls through every test and yields no response. */
  function PhoneNumberModify(req: DataForm): (r: Option<Envelope>)
    ensures r.Some? <==> KnownStep(req.interfaceStep)
    ensures r.Some? ==> r.value.code == SuccessCode
    ensures r.Some? ==> SameIdentity(req, r.value.data) && KnownStep(r.value.data.interfaceStep)
    ensures req.interfaceStep == 0 ==>
      && r.value.msg == MsgCodeSent
      && r.value.data == req.(intentLabel := 1, interfaceStep := 1, content := VerificationPrompt)
    ensures req.interfaceStep == 1 && ResendMarker in req.content ==>
      && r.value.msg == MsgCodeSent
      && r.value.data == req.(content := VerificationPrompt)
    ensures req.interfaceStep == 1 && ResendMarker !in req.content ==> r == Some(HandleVerification(req))
    ensures req.interfaceStep == 2 ==> r == Some(HandlePhoneNumberUpdate(req))
  {
    if req.interfaceStep == 0 then
      Some(SendVerification(req))
    else if req.interfaceStep == 1 then
      if ResendMarker in req.content then Some(ResendVerification(req))
      else Some(HandleVerification(req))
    else if req.interfaceStep == 2 then
      Some(HandlePhoneNumberUpdate(req))
    else
      None
  }
}
