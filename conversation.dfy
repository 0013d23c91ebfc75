/** The per-chat conversation of the guarded variants (bots.js, bot1.js, bot2.js): `/start` puts the
    chat in `awaiting_count`; a count within `1..maxLimit` moves it to `awaiting_ref`; a referral code
    of 15 UTF-16 units after trimming starts a batch and deletes the chat's state. */
module Conversation {
  import opened Wrappers
  import opened Wallets
  import opened Text

  const RefCodeLength: nat := 15

  datatype Stage = AwaitingCount | AwaitingRef(count: nat)

  /** A batch request handed to `main`. */
  datatype Request = Request(chat: ChatId, count: nat, refCode: string)

  /** `count` as `parseInt` read it, accepted when it is a number in `1..limit`. */
  predicate ValidCount(number: Option<int>, limit: int)
  {
    number.Some? && 1 <= number.value <= limit
  }

  predicate ValidRefCode(code: string)
  {
    Utf16Length(code) == RefCodeLength
  }

  /** A stage that can only hold counts that were accepted. */
  predicate StageOk(stage: Option<Stage>)
  {
    stage.Some? && stage.value.AwaitingRef? ==> stage.value.count >= 1
  }

  /** The conversation's answer to one text of a chat (after the blocked and admin checks): the
      chat's next stage (None: no state) and the batch it starts, if any. `number` is what
      `parseInt` read from the text, None standing for NaN. */
  function Converse(chat: ChatId, stage: Option<Stage>, text: string, number: Option<int>, limit: int)
    : (Option<Stage>, Option<Request>)
  {
    if text == "/start" then (Some(AwaitingCount), None)
    else if stage.None? then (None, None)
    else match stage.value
      case AwaitingCount =>
        if ValidCount(number, limit) then (Some(AwaitingRef(number.value)), None) else (stage, None)
      case AwaitingRef(count) =>
        var code := Trim(text);
        if ValidRefCode(code) then (None, Some(Request(chat, count, code))) else (stage, None)
  }

  /** In `awaiting_count` only a count in `1..limit` advances, to `awaiting_ref` with that count;
      any other text leaves the stage as it was, and no batch starts. */
  lemma CountStage(chat: ChatId, text: string, number: Option<int>, limit: int)
    requires text != "/start"
    ensures var (next, started) := Converse(chat, Some(AwaitingCount), text, number, limit);
      && started == None
      && (next != Some(AwaitingCount) <==> ValidCount(number, limit))
      && (ValidCount(number, limit) ==> next == Some(AwaitingRef(number.value)))
  {
  }

  /** In `awaiting_ref` a batch starts exactly when the trimmed text is 15 UTF-16 units long; it then
      carries the trimmed code and the stored count, and the chat's state is deleted; otherwise
      nothing changes. */
  lemma RefStage(chat: ChatId, count: nat, text: string, number: Option<int>, limit: int)
    requires text != "/start"
    ensures var (next, started) := Converse(chat, Some(AwaitingRef(count)), text, number, limit);
      && (started.Some? <==> ValidRefCode(Trim(text)))
      && (started.Some? ==> started == Some(Request(chat, count, Trim(text))) && next == None)
      && (started.None? ==> next == Some(AwaitingRef(count)))
  {
  }

  /** Every batch the conversation starts is a well-formed request: at least one wallet, and a code of
      15 UTF-16 units with no white space at either end that trimming leaves as it is. Accepted
      stages stay well formed. */
  lemma StartedRequestsAreValid(chat: ChatId, stage: Option<Stage>, text: string, number: Option<int>, limit: int)
    requires StageOk(stage)
    ensures var (next, started) := Converse(chat, stage, text, number, limit);
      && StageOk(next)
      && (started.Some? ==>
            && started.value.chat == chat
            && started.value.count >= 1
            && ValidRefCode(started.value.refCode)
            && Trim(started.value.refCode) == started.value.refCode)
  {
    if text != "/start" && stage.Some? && stage.value.AwaitingRef? {
      var code := Trim(text);
      TrimIdempotent(text);
      assert Trim(code) == code;
      assert Converse(chat, stage, text, number, limit).1 ==
        if ValidRefCode(code) then Some(Request(chat, stage.value.count, code)) else None;
    }
  }
}
