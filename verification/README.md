# Phone-number change conversation, modelled in Dafny

The repository's request-handling examples contain one piece of real logic:
the conversation in `Resole_CORS_Issue/resole_cors_example.py` by which a
user changes the mobile number on file. The client holds a `DataForm`
record. It sends the record on every turn and gets back
`{code, msg, data}`, where `data` is the next version of the record. The
dispatcher `phone_number_modify` reads `interface_step` and picks a stage:

- step 0 issues a verification code;
- step 1 checks the code, or resends it when the input contains `R`;
- step 2 validates the new number with the regular expression
  `^(?:\+86)?1[3-9]\d{9}$`.

A counter `times` allows two failed attempts per stage. After the second
failure the conversation goes back to step 0.

The model has four modules:

- `Wrappers` (`wrappers.dfy`): `Option`, for the dispatcher's fall-through `None`.
- `PhoneNumber` (`phone_number.dfy`): the validator.
  - `ValidateChinesePhoneNumber` reads the pattern left to right, the way the
    regex engine does. The optional `+86` group is tried first and dropped
    when it fails.
  - `Accepted` is an independent reading of the pattern as a property of
    whole strings.
  - Both follow Python's `re.match` semantics. `\d` is Unicode category Nd:
    the 68 ten-digit blocks of Unicode 15.0, as in Python 3.12. `$` also
    matches before one final `"\n"`.
- `PhoneModify` (`phone_modify.dfy`): the record `DataForm`, the response
  `Envelope`, the code-issuing stub, the four step handlers and the
  dispatcher `PhoneNumberModify`. Each is a pure function from the
  submitted record to the response.
- `Conversation` (`conversation.dfy`): what the conversation does as a whole.
  - The reference machine `Next` works over the stages
    `Idle | AwaitingCode(failures) | AwaitingPhone(failures)`.
  - `Settled` holds the records a conversation started from default fields
    can reach.
  - `Run` feeds a sequence of user inputs through the handler. Between
    turns the caller sends back the last record with new `content`.

## Model

| member | source | states |
|---|---|---|
| `PhoneNumber.ValidateChinesePhoneNumber` | Resole_CORS_Issue/resole_cors_example.py:34-44 | `re.match` of the pattern read left to right, `+86` tried first; its meaning over all strings is given by `ValidatorMatchesPattern` |
| `PhoneNumber.IsDecimalDigit` | Resole_CORS_Issue/resole_cors_example.py:43 | what `\d` matches: a Unicode 15.0 Nd character; `AsciiDecimalDigits` gives its meaning on ASCII |
| `PhoneNumber.DecimalRunMeansDigits` | Resole_CORS_Issue/resole_cors_example.py:43 | `\d{n}` at a position matches exactly when the next n characters exist and are all decimal digits |
| `PhoneNumber.MobilePrefixMeans` | Resole_CORS_Issue/resole_cors_example.py:43 | eleven characters form a mobile number exactly when `1[3-9]\d{9}` matches at their start |
| `PhoneNumber.MatchMobileFromMeans` | Resole_CORS_Issue/resole_cors_example.py:43 | `1[3-9]\d{9}$` from a position matches exactly when the rest of the string, minus at most one final newline, is an 11-character mobile number |
| `PhoneNumber.ValidatorMatchesPattern` | Resole_CORS_Issue/resole_cors_example.py:43-44 | the validator accepts a string exactly when the string is one of three things: a mobile number; `+86` followed by a mobile number; either of those plus one final newline |
| `PhoneNumber.ValidatorWithoutNewline` | Resole_CORS_Issue/resole_cors_example.py:43-44 | for a string with no final newline, acceptance means: 11 characters (`1`, a digit 3-9, nine digits), or 14 characters (`+86` and such a number) |
| `PhoneNumber.AsciiDecimalDigits` | Resole_CORS_Issue/resole_cors_example.py:43 | among ASCII characters `\d` matches exactly '0'..'9', so on ASCII input the pattern means what it reads as |
| `PhoneNumber.ValidatorAcceptsExamples` | Resole_CORS_Issue/resole_cors_example.py:43-44 | "13800138000" and "+8613800138000" are accepted; so are a single final newline and full-width trailing digits |
| `PhoneNumber.ValidatorRejectsExamples` | Resole_CORS_Issue/resole_cors_example.py:43-44 | "12345", "23800138000" (wrong leading digit), "12800138000", a 12-digit string and two final newlines are rejected |
| `PhoneModify.NewForm` | Resole_CORS_Issue/resole_cors_example.py:23-32 | a first submission has session id "0", step 0, counter 0 and flag 0, with the required fields as given |
| `PhoneModify.SendVerificationCode` | Resole_CORS_Issue/resole_cors_example.py:46-52 | the issued prompt contains the demonstration code "123456" and the resend marker `R` |
| `PhoneModify.SendVerification` | Resole_CORS_Issue/resole_cors_example.py:54-66 | step 0 enters the flow: step 1, flag 1, the prompt as content; the counter and the identity fields are kept |
| `PhoneModify.ResendVerification` | Resole_CORS_Issue/resole_cors_example.py:68-78 | a resend changes nothing but the content, so step, counter and flag survive |
| `PhoneModify.HandleVerification` | Resole_CORS_Issue/resole_cors_example.py:80-103 | right code: step 2, counter 0, new-number prompt, flag kept. Wrong code and counter+1 >= 2: reset to step 0 with flag 0, counter 0 and the failure text. Otherwise: counter+1 and the retry prompt |
| `PhoneModify.HandlePhoneNumberUpdate` | Resole_CORS_Issue/resole_cors_example.py:105-129 | valid number: reset to step 0 with the success text. Invalid number: the failure message; reset when counter+1 >= 2, otherwise stay at step 2 with counter+1 |
| `PhoneModify.PhoneNumberModify` | Resole_CORS_Issue/resole_cors_example.py:131-151 | a response exists exactly when the step is 0, 1 or 2. Every response has code 0, keeps session id, user id, name and phone, and leaves the step in {0,1,2}. Step 0 gives message "发送验证码", step 1, flag 1 and the prompt with `times` kept; at step 1 a content containing `R` gives the same message and only replaces the content, any other goes to the code check; step 2 goes to the number check — for every record, forged or not |
| `Conversation.Next` | Resole_CORS_Issue/resole_cors_example.py:140-151 | the reference machine keeps failures within the two-attempt budget; stages go Idle → AwaitingCode → AwaitingPhone → Idle, and AwaitingCode → Idle when the code attempts run out: from Idle it always awaits the code, it awaits the number only from the code or number stage, never goes back from the number stage to the code stage, and enters the number stage with no failures |
| `Conversation.StepRefinesNext` | Resole_CORS_Issue/resole_cors_example.py:140-151 | on a settled record the handler always answers; the new record is settled and encodes the reference machine's next stage; message and content report the reference outcome |
| `Conversation.AnswerReplacesContent` | Resole_CORS_Issue/resole_cors_example.py:63-129 | every answer's content is always one of the six fixed texts, never copied from the input |
| `Conversation.EchoedPromptResends` | Resole_CORS_Issue/resole_cors_example.py:143-146 | sending the issued prompt back unchanged at step 1 is a resend request |
| `Conversation.RunRefinesRunPhase` | Resole_CORS_Issue/resole_cors_example.py:140-151 | from a settled record every input sequence is answered; the record stays settled, keeps its identity and follows the reference machine stage by stage |
| `Conversation.ResendsKeepCounters` | Resole_CORS_Issue/resole_cors_example.py:143-146 | any number of resend requests at step 1 leave step, counter and flag as they were |
| `Conversation.WrongCodesAbandon` | Resole_CORS_Issue/resole_cors_example.py:94-103 | from a settled record at step 1, one or two wrong codes in a row bring the conversation back to step 0 |
| `Conversation.InvalidNumbersAbandon` | Resole_CORS_Issue/resole_cors_example.py:120-129 | from a settled record at step 2, one or two invalid numbers in a row bring the conversation back to step 0 |
| `Conversation.TwoWrongCodesAfterIssue` | Resole_CORS_Issue/resole_cors_example.py:94-103 | with the counter at 0, the first wrong code gives the retry prompt and counter 1; the second resets to step 0 with the failure text |
| `Conversation.TwoInvalidNumbersAfterCode` | Resole_CORS_Issue/resole_cors_example.py:120-129 | with the counter at 0, the first invalid number keeps step 2 with counter 1; the second resets to step 0, flag 0, counter 0, with the failure text |
| `Conversation.InvalidThenValidNumber` | Resole_CORS_Issue/resole_cors_example.py:114-129 | from step 2 with the counter at 0, an invalid number, then a valid one, ends at step 0 with the success message and counter 0 |
| `Conversation.HappyPath` | Resole_CORS_Issue/resole_cors_example.py:140-151 | opening turn, right code, valid number: the record comes back as a fresh record holding the success text, with `phone` unchanged |

Behaviour of the code worth knowing:

- The step 0 handler (lines 63-65) sets step 1 but leaves `times` as
  submitted, although every other step change resets it. `SendVerification`
  and `PhoneNumberModify` model it that way. `Settled` shows that this
  matters only for a record the caller has forged.
- The validator also accepts one final newline (`$` under `re.match`) and any
  Unicode decimal digit in the last nine positions (`\d`).
  `ValidatorAcceptsExamples` shows both.
- After one invalid number at step 2 (line 128) the message is the same as
  after the second, abandoning one (line 127). Only the record's step,
  counter and flag tell the two apart.
- The new number is validated but never stored. `phone` is never assigned
  (`HappyPath`).

## Left out

- The FastAPI application, the CORS middleware, the `/chat` route and
  `uvicorn.run` (lines 12-21, 153-167) are left out. They are framework
  plumbing with no logic of their own.
- Pydantic's request parsing is left out: required fields, type coercion,
  `model_dump`. The model starts from an already-typed record and returns
  the record itself as `data`.
- `async`/`await` is left out. The handlers run one after the other without
  interleaving, so they are pure functions here.
- `SSE_Example/sse_example.py` is not part of this model. It streams text
  with timed delays and calls the Unicode library's `upper`/`lower`.
- `Usage_of_jsonable_encoder/test_jsonable_encoder.py` is not part of this
  model. It wraps a library encoder and `datetime.strftime`, and it has a
  float field.
- `PhoneNumber.ValidateChinesePhoneNumber`: `\d` follows Unicode 15.0
  (Python 3.12). Other Python versions ship other Unicode tables, with
  different sets of Nd digits.
