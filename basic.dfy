/** bot.js, the unguarded variant: no block list, no admin, no quota, no cancellation and no
    retry. A batch makes exactly `count` attempts, keeps the wallets that were created, and writes
    the ledger once at the end. */
module Basic {
  import opened Wrappers
  import opened Wallets
  import opened Ledger
  import opened Text
  import opened Conversation

  /** The wallets a batch of `n` attempts keeps, in slot order: the records of the logins that
      completed, `login(k)` being the result of the attempt for slot `k + 1`. */
  function Collected(login: nat -> LoginResult, n: nat): seq<WalletRecord>
  {
    if n == 0 then []
    else
      var o := CreateWalletIgnoringStatus(login(n - 1));
      Collected(login, n - 1) + (if o.Created? then [o.record] else [])
  }

  /** When every login completed, the n-th wallet kept is the n-th login's record. */
  lemma {:induction false} CollectedAllLoggedIn(login: nat -> LoginResult, n: nat)
    requires forall k :: 0 <= k < n ==> login(k).LoggedIn?
    ensures |Collected(login, n)| == n
    ensures forall k :: 0 <= k < n ==> Collected(login, n)[k] == login(k).record
  {
    if n > 0 {
      CollectedAllLoggedIn(login, n - 1);
    }
  }

  /** A batch keeps at most one wallet per attempt, and one for every attempt exactly when every
      login completed; each completed login's record is kept. */
  lemma {:induction false} CollectedBound(login: nat -> LoginResult, n: nat)
    ensures |Collected(login, n)| <= n
    ensures |Collected(login, n)| == n <==> forall k :: 0 <= k < n ==> login(k).LoggedIn?
    ensures forall k :: 0 <= k < n && login(k).LoggedIn? ==> login(k).record in Collected(login, n)
  {
    if n > 0 {
      CollectedBound(login, n - 1);
      var o := CreateWalletIgnoringStatus(login(n - 1));
      if !login(n - 1).LoggedIn? {
        assert |Collected(login, n)| == |Collected(login, n - 1)| <= n - 1;
      }
    }
  }

  /** The conversation of bot.js for one text. A chat without state is first put in
      `awaiting_count`; `/start` resets to it; any positive count is accepted (there is no upper
      bound), and any text at `awaiting_ref` starts a batch with the trimmed text as the code. */
  function ConverseBasic(chat: ChatId, stage: Option<Stage>, text: string, number: Option<int>)
    : (Option<Stage>, Option<Request>)
  {
    var current := if stage.None? then AwaitingCount else stage.value;
    if text == "/start" then (Some(AwaitingCount), None)
    else match current
      case AwaitingCount =>
        if number.Some? && number.value > 0 then (Some(AwaitingRef(number.value)), None)
        else (Some(AwaitingCount), None)
      case AwaitingRef(count) => (None, Some(Request(chat, count, Trim(text))))
  }

  /** The rules of bot.js's conversation: every message leaves the chat with a state unless it
      starts a batch; a count is accepted, and stored as read, exactly when it is positive, however
      large; anything else keeps the chat at `awaiting_count`; at
      `awaiting_ref` every text other than `/start` starts a batch, with the trimmed text as the
      code and no length check. */
  lemma BasicConversationRules(chat: ChatId, stage: Option<Stage>, text: string, number: Option<int>)
    requires StageOk(stage)
    ensures var (next, started) := ConverseBasic(chat, stage, text, number);
      && (next.None? <==> started.Some?)
      && StageOk(next)
      && (text == "/start" ==> next == Some(AwaitingCount))
      && (text != "/start" && (stage.None? || stage == Some(AwaitingCount)) ==>
            && started == None
            && (number.Some? && number.value > 0 ==> next == Some(AwaitingRef(number.value)))
            && (!(number.Some? && number.value > 0) ==> next == Some(AwaitingCount)))
      && (text != "/start" && stage.Some? && stage.value.AwaitingRef? ==>
            started == Some(Request(chat, stage.value.count, Trim(text))))
      && (started.Some? ==> started.value.count >= 1 && Trim(started.value.refCode) == started.value.refCode)
  {
    var (next, started) := ConverseBasic(chat, stage, text, number);
    if started.Some? {
      TrimIdempotent(text);
    }
  }

  class BasicBot {
    var userState: map<ChatId, Stage>
    var walletFiles: map<ChatId, LedgerFile>

    ghost predicate Valid()
      reads this
    {
      forall c :: c in userState ==> StageOk(Some(userState[c]))
    }

    constructor (files: map<ChatId, LedgerFile>)
      ensures Valid() && userState == map[] && walletFiles == files
    {
      userState := map[];
      walletFiles := files;
    }

    /** `main(count, refCode, chat)`: exactly `count` attempts, the created wallets collected in
        order, then one read-concatenate-write of the chat's ledger (written even when no wallet
        was created). `login(k)` is the result of the `k`-th `createWallet` call. */
    method ProcessRequest(chat: ChatId, count: nat, login: nat -> LoginResult) returns (wallets: seq<WalletRecord>, calls: nat)
      modifies this`walletFiles
      ensures calls == count
      ensures wallets == Collected(login, count)
      ensures walletFiles == old(walletFiles)[chat := Concat(FileOf(old(walletFiles), chat), wallets)]
    {
      wallets, calls := [], 0;
      for i := 0 to count
        invariant calls == i
        invariant wallets == Collected(login, i)
      {
        var o := CreateWalletIgnoringStatus(login(calls));
        calls := calls + 1;
        if o.Created? {
          wallets := wallets + [o.record];
        }
      }
      var existing := Existing(FileOf(walletFiles, chat));
      walletFiles := walletFiles[chat := Json(existing + wallets)];
    }

    /** The `message` handler of bot.js, running `main` when a batch starts. */
    method OnMessage(chat: ChatId, text: string, number: Option<int>, login: nat -> LoginResult)
      returns (started: Option<Request>, wallets: seq<WalletRecord>)
      requires Valid()
      modifies this
      ensures Valid()
      ensures var stage := if chat in old(userState) then Some(old(userState)[chat]) else None;
        var (next, request) := ConverseBasic(chat, stage, text, number);
        && started == request
        && userState == (if next.Some? then old(userState)[chat := next.value] else old(userState) - {chat})
      ensures started.None? ==> wallets == [] && walletFiles == old(walletFiles)
      ensures started.Some? ==>
        && wallets == Collected(login, started.value.count)
        && walletFiles == old(walletFiles)[chat := Concat(FileOf(old(walletFiles), chat), wallets)]
    {
      wallets := [];
      if chat !in userState {
        userState := userState[chat := AwaitingCount];
      }
      if text == "/start" {
        userState := userState[chat := AwaitingCount];
        return None, [];
      }
      match userState[chat]
      case AwaitingCount =>
        started := None;
        if number.Some? && number.value > 0 {
          userState := userState[chat := AwaitingRef(number.value)];
        }
      case AwaitingRef(count) =>
        started := Some(Request(chat, count, Trim(text)));
        var calls;
        wallets, calls := ProcessRequest(chat, count, login);
        userState := userState - {chat};
    }
  }
}
