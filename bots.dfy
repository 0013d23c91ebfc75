/** The guarded bots: bots.js (the canonical one), bot1.js (adds a configurable `maxLimit`) and
    bot2.js (adds a global caption). One class holds the process-wide state all three mutate; the
    variant decides the few places where they differ. */
module Bots {
  import opened Wrappers
  import opened Wallets
  import opened Ledger
  import opened Quota
  import opened Text
  import opened Lists
  import opened Batch
  import opened Conversation

  /** bots.js, bot1.js, bot2.js. */
  datatype Variant = Original | WithMaxLimit | WithCaption

  /** `DEFAULT_MAX_LIMIT`, and the fixed limit of bots.js. */
  const DefaultMaxLimit: int := 100

  datatype Stats = Stats(totalUsers: int, totalWalletRequests: int)

  /** `adminState[admin].stage`. */
  datatype AdminStage =
    | Idle | Blocking | Unblocking | Cancelling | ChangingWelcome | SettingSuffix
    | ChangingMaxLimit | SettingCaption | Broadcasting

  /** The `callback_data` of the admin menu's buttons, and anything else a callback may carry. */
  datatype Button =
    | BlockUser | UnblockUser | CancelRequest | ShowStats | ChangeWelcome | SetSuffix
    | RemoveSuffix | ChangeMaxLimit | SetGlobalCaption | BroadcastButton | OtherButton

  /** A text the model follows to its recipient: the welcome text and broadcast messages. */
  datatype Delivery = Delivery(to: ChatId, text: string)

  /** How `main` ended: refused by the daily quota (with the count used today), or the loop ran. */
  datatype BatchOutcome = LimitReached(used: int) | Ran(run: Run)

  /** The stage a button opens, per variant; None when its `case` changes no stage (or is absent). */
  function ButtonStage(variant: Variant, button: Button): Option<AdminStage>
  {
    match button
    case BlockUser => Some(Blocking)
    case UnblockUser => Some(Unblocking)
    case CancelRequest => Some(Cancelling)
    case ChangeWelcome => Some(ChangingWelcome)
    case SetSuffix => Some(SettingSuffix)
    case ChangeMaxLimit => if variant == Original then None else Some(ChangingMaxLimit)
    case SetGlobalCaption => if variant == WithCaption then Some(SettingCaption) else None
    case BroadcastButton => Some(Broadcasting)
    case _ => None
  }

  /** The welcome text sent by `handleStart` (without its Markdown decoration): bots.js adds the
      suffix, bot1.js sends the welcome message alone, bot2.js adds the caption and then the suffix,
      each on its own line and only when non-empty. */
  function WelcomeText(variant: Variant, welcome: string, caption: string, suffix: string): (r: string)
    ensures welcome <= r
    ensures variant == WithMaxLimit || (caption == [] && suffix == []) ==> r == welcome
    ensures variant == WithCaption && caption != [] ==>
      |r| >= |welcome| + 1 + |caption| && r[|welcome|] == '\n' && r[|welcome| + 1..|welcome| + 1 + |caption|] == caption
    ensures variant != WithMaxLimit && suffix != [] ==>
      |r| > |suffix| && r[|r| - |suffix| - 1] == '\n' && r[|r| - |suffix|..] == suffix
    ensures variant == Original ==> |r| == |welcome| + (if suffix == [] then 0 else 1 + |suffix|)
    ensures variant == WithCaption ==>
      |r| == |welcome| + (if caption == [] then 0 else 1 + |caption|) + (if suffix == [] then 0 else 1 + |suffix|)
  {
    match variant
    case Original => AppendLine(welcome, suffix)
    case WithMaxLimit => welcome
    case WithCaption =>
      var w := AppendLine(welcome, caption);
      var r := AppendLine(w, suffix);
      assert w <= r;
      r
  }

  /** What `main` does with a request, given the usage records, ledger files and cancel flags it
      starts from: the usage record is refreshed for today, the batch is refused when today's count
      plus `count` exceeds `limit`, and otherwise the loop runs from today's count. */
  function BatchOutcomeOf(usage: map<ChatId, Usage>, files: map<ChatId, LedgerFile>, cancelled: set<ChatId>,
                          limit: int, chat: ChatId, count: nat, today: string, env: Env): BatchOutcome
  {
    var u := Refresh(usage, chat, today);
    if !Admits(u, count, limit) then LimitReached(u.count)
    else Ran(Batch.Batch(env, count, chat in cancelled, u.count, FileOf(files, chat)))
  }

  /** The quota gate: a batch is refused exactly when today's count (zero if the record is missing or
      dated another day) plus `count` exceeds the limit, and then nothing is attempted. A batch that
      runs never takes today's usage past the limit. */
  lemma QuotaGate(usage: map<ChatId, Usage>, files: map<ChatId, LedgerFile>, cancelled: set<ChatId>,
                  limit: int, chat: ChatId, count: nat, today: string, env: Env)
    ensures var o := BatchOutcomeOf(usage, files, cancelled, limit, chat, count, today, env);
      var used := if chat in usage && usage[chat].date == today then usage[chat].count else 0;
      && (o.LimitReached? <==> used + count > limit)
      && (o.LimitReached? ==> o.used == used)
      && (o.Ran? ==> used <= o.run.usage <= used + count <= limit)
  {
    var used := if chat in usage && usage[chat].date == today then usage[chat].count else 0;
    UsageCharge(env, count, chat in cancelled, used, FileOf(files, chat));
  }

  /** Whether the admin's pending stage accepts `number` (what `parseInt(text.trim())` read): the
      stages that need a chat ID or a limit keep waiting on input they refuse, and a stage the
      variant's `switch` has no case for does nothing. */
  predicate AdminAccepts(variant: Variant, stage: AdminStage, number: Option<int>)
  {
    match stage
    case Idle => false
    case Blocking => number.Some?
    case Unblocking => number.Some?
    case Cancelling => number.Some?
    case ChangingMaxLimit => variant != Original && number.Some? && number.value > 0
    case SettingCaption => variant == WithCaption
    case _ => true
  }

  /** The notice the cancelled user is sent. */
  const CancelNotice: string := "Your wallet creation request has been cancelled by the admin."

  class Bot {
    const variant: Variant
    /** `ADMIN_ID`. */
    const adminId: ChatId
    var blockedUsers: seq<ChatId>
    var usageData: map<ChatId, Usage>
    var stats: Stats
    var usersList: seq<ChatId>
    var welcomeMessage: string
    var suffix: string
    var maxLimit: int
    var globalCaption: string
    /** The chats whose `pendingRequests[chat].cancel` is set. */
    var cancelled: set<ChatId>
    var adminState: map<ChatId, AdminStage>
    var userState: map<ChatId, Stage>
    /** The ledger files `wallet_<chat>.json`. */
    var walletFiles: map<ChatId, LedgerFile>

    /** bots.js has no `maxLimit` setting: its limit is 100 throughout. Every stored stage holds an
        accepted count. */
    ghost predicate Valid()
      reads this
    {
      && (variant == Original ==> maxLimit == DefaultMaxLimit)
      && (forall c :: c in userState ==> StageOk(Some(userState[c])))
    }

    /** Start-up, given what `loadJSON`/`loadText` produced (or their defaults). */
    constructor (variant: Variant, adminId: ChatId, blocked: seq<ChatId>, usage: map<ChatId, Usage>,
                 stats: Stats, users: seq<ChatId>, welcome: string, suffix: string,
                 storedMaxLimit: int, caption: string, files: map<ChatId, LedgerFile>)
      ensures Valid()
      ensures this.variant == variant && this.adminId == adminId
      ensures blockedUsers == blocked && usageData == usage && this.stats == stats
      ensures usersList == users && welcomeMessage == welcome && this.suffix == suffix
      ensures maxLimit == (if variant == Original then DefaultMaxLimit else storedMaxLimit)
      ensures globalCaption == (if variant == WithCaption then caption else "")
      ensures cancelled == {} && adminState == map[] && userState == map[] && walletFiles == files
    {
      this.variant := variant;
      this.adminId := adminId;
      blockedUsers := blocked;
      usageData := usage;
      this.stats := stats;
      usersList := users;
      welcomeMessage := welcome;
      this.suffix := suffix;
      maxLimit := if variant == Original then DefaultMaxLimit else storedMaxLimit;
      globalCaption := if variant == WithCaption then caption else "";
      cancelled := {};
      adminState := map[];
      userState := map[];
      walletFiles := files;
    }

    /** `isBlocked`: membership in the block list. */
    function IsBlocked(chat: ChatId): (b: bool)
      reads this
      ensures b <==> exists k :: 0 <= k < |blockedUsers| && blockedUsers[k] == chat
    {
      chat in blockedUsers
    }

    /** `pendingRequests[target] = { cancel: true }`; nothing ever resets it. */
    method MarkCancelled(target: ChatId)
      modifies this`cancelled
      ensures cancelled == old(cancelled) + {target}
    {
      cancelled := cancelled + {target};
    }

    /** `createAndProcessWallet` up to its result: the second cancellation check, then
        `createWallet`, bumping the shared failure count on a 409. The reward claims that follow a
        login are network calls whose failures are swallowed; they do not affect the result. */
    method CreateAndProcessWallet(chat: ChatId, login: LoginResult, failures: nat)
      returns (outcome: Outcome, failures': nat)
      ensures chat in cancelled ==> outcome == CancelledByAdmin
      ensures chat !in cancelled ==> outcome == CreateWallet(login)
      ensures failures' == failures + (if outcome == Conflict then 1 else 0)
    {
      if chat in cancelled {
        return CancelledByAdmin, failures;
      }
      outcome := CreateWallet(login);
      failures' := failures;
      if outcome == Conflict {
        failures' := failures' + 1;
      }
    }

    /** One pass of `main`'s loop body: the cancellation check at its top, then
        `createAndProcessWallet` and what the loop does with its result (`i--` and a retry after a
        409, the ledger append after a wallet, the quota charge for every used slot). `s` is the run
        these locals stand for; the pass takes them to `Step(env, s)`. */
    method Pass(chat: ChatId, today: string, env: Env, ghost s: Run,
                i: nat, failureCount: nat, invocations: nat, calls: nat, checks: nat,
                wallets: seq<WalletRecord>, slots: seq<nat>)
      returns (i': nat, failureCount': nat, invocations': nat, calls': nat, checks': nat,
               wallets': seq<WalletRecord>, slots': seq<nat>, status': Status)
      requires s.status == Running
      requires s.i == i && s.failures == failureCount && s.invocations == invocations
      requires s.calls == calls && s.checks == checks && s.cancelFlag == (chat in cancelled)
      requires s.wallets == wallets && s.slots == slots
      requires chat in usageData && usageData[chat] == Usage(today, s.usage)
      requires FileOf(walletFiles, chat) == s.ledger
      modifies this`usageData, this`walletFiles, this`cancelled
      ensures var n := Step(env, s);
        && n.i == i' && n.failures == failureCount' && n.invocations == invocations'
        && n.calls == calls' && n.checks == checks' && n.cancelFlag == (chat in cancelled)
        && n.wallets == wallets' && n.slots == slots' && n.status == status'
        && usageData == old(usageData)[chat := Usage(today, n.usage)]
        && walletFiles == (if n.wallets == s.wallets then old(walletFiles) else old(walletFiles)[chat := n.ledger])
        && cancelled == old(cancelled) + (if n.cancelFlag then {chat} else {})
    {
      i', failureCount', invocations', calls', checks', wallets', slots', status' :=
        i, failureCount, invocations, calls, checks, wallets, slots, Running;
      if env.adminCancels(checks') {
        MarkCancelled(chat);
      }
      checks' := checks' + 1;
      if chat in cancelled {
        status' := StoppedByCancel;
        return;
      }
      invocations' := invocations' + 1;
      // the check inside createAndProcessWallet
      if env.adminCancels(checks') {
        MarkCancelled(chat);
      }
      checks' := checks' + 1;
      var o;
      o, failureCount' := CreateAndProcessWallet(chat, env.login(calls'), failureCount');
      if o == CancelledByAdmin {
        status' := StoppedByCancel;
        return;
      }
      calls' := calls' + 1;
      if o == Conflict {
        if failureCount' >= MaxConflicts {
          status' := StoppedByReferral;
        }
        // otherwise `i--; continue;`: the same slot again
        return;
      }
      if o.Created? {
        wallets' := wallets' + [o.record];
        slots' := slots' + [i + 1];
        walletFiles := walletFiles[chat := Append(FileOf(walletFiles, chat), o.record)];
      }
      usageData := usageData[chat := usageData[chat].(count := usageData[chat].count + 1)];
      i' := i' + 1;
    }

    /** `main`'s loop, from `failureCount = { value: 0 }` to the end of the `for`: passes until
        the batch is complete, cancelled or stopped by the third 409. */
    method RunBatch(chat: ChatId, count: nat, today: string, env: Env) returns (r: Run)
      requires chat in usageData && usageData[chat].date == today
      requires Valid()
      modifies this`usageData, this`walletFiles, this`cancelled
      ensures Valid()
      ensures r == Batch.Batch(env, count, chat in old(cancelled), old(usageData)[chat].count,
                               FileOf(old(walletFiles), chat))
      ensures usageData == old(usageData)[chat := Usage(today, r.usage)]
      ensures walletFiles == (if r.wallets == [] then old(walletFiles) else old(walletFiles)[chat := r.ledger])
      ensures cancelled == old(cancelled) + (if r.cancelFlag then {chat} else {})
    {
      ghost var u0 := usageData[chat].count;
      ghost var l0 := FileOf(walletFiles, chat);
      ghost var s0 := Start(chat in cancelled, u0, l0);
      ghost var s := s0;

      var i, failureCount, invocations, calls, checks := 0, 0, 0, 0, 0;
      var wallets: seq<WalletRecord> := [];
      var slots: seq<nat> := [];
      var status := Running;
      while status == Running && i < count
        invariant s.wallets == [] ==> s.ledger == l0
        invariant s.i == i && s.failures == failureCount && s.invocations == invocations
        invariant s.calls == calls && s.checks == checks && s.cancelFlag == (chat in cancelled)
        invariant s.wallets == wallets && s.slots == slots && s.status == status
        invariant usageData == old(usageData)[chat := Usage(today, s.usage)]
        invariant walletFiles == (if s.wallets == [] then old(walletFiles) else old(walletFiles)[chat := s.ledger])
        invariant cancelled == old(cancelled) + (if s.cancelFlag then {chat} else {})
        invariant RunFrom(env, count, s) == RunFrom(env, count, s0)
        decreases Measure(count, s)
      {
        ghost var before, files1 := s, walletFiles;
        StepDecreases(env, count, s);
        i, failureCount, invocations, calls, checks, wallets, slots, status :=
          Pass(chat, today, env, s, i, failureCount, invocations, calls, checks, wallets, slots);
        s := Step(env, s);
        if s.wallets != before.wallets {
          assert s.wallets != [];
          assert walletFiles == files1[chat := s.ledger];
          assert walletFiles == old(walletFiles)[chat := s.ledger];
        } else {
          assert s.ledger == before.ledger;
        }
      }
      if status == Running {
        status := Done;
      }
      r := Run(i, failureCount, invocations, calls, checks, chat in cancelled, wallets, slots,
               usageData[chat].count, FileOf(walletFiles, chat), status);
    }

    /** What `main` leaves behind, `old` being the state it started from: the outcome the quota gate
        and `Batch` give, and the usage record, statistics, ledger files and cancel flags that
        outcome implies. A refused batch only refreshes the usage record. */
    twostate predicate BatchDone(chat: ChatId, count: nat, today: string, env: Env, outcome: BatchOutcome)
      reads this
    {
      && outcome == BatchOutcomeOf(old(usageData), old(walletFiles), old(cancelled), old(maxLimit),
                                   chat, count, today, env)
      && match outcome
         case LimitReached(_) =>
           && usageData == old(usageData)[chat := Refresh(old(usageData), chat, today)]
           && stats == old(stats) && walletFiles == old(walletFiles) && cancelled == old(cancelled)
         case Ran(r) =>
           && usageData == old(usageData)[chat := Usage(today, r.usage)]
           && stats == old(stats).(totalWalletRequests := old(stats).totalWalletRequests + count)
           && walletFiles == (if r.wallets == [] then old(walletFiles) else old(walletFiles)[chat := r.ledger])
           && cancelled == old(cancelled) + (if r.cancelFlag then {chat} else {})
    }

    /** `main(count, refCode, chat)`: refresh today's usage record, refuse the batch if it would
        exceed the limit, otherwise count the request and run the loop; the final state is the one
        `Batch` describes. */
    method ProcessRequest(chat: ChatId, count: nat, today: string, env: Env) returns (outcome: BatchOutcome)
      requires Valid()
      modifies this`usageData, this`stats, this`walletFiles, this`cancelled
      ensures Valid()
      ensures BatchDone(chat, count, today, env, outcome)
    {
      var u := Refresh(usageData, chat, today);
      usageData := usageData[chat := u];
      if !Admits(u, count, maxLimit) {
        return LimitReached(u.count);
      }
      stats := stats.(totalWalletRequests := stats.totalWalletRequests + count);
      var r := RunBatch(chat, count, today, env);
      outcome := Ran(r);
    }

    /** `handleStart`: register the chat once (appending it and counting it as a new user only if
        it was not listed), send the welcome text and put the chat in `awaiting_count`. */
    method HandleStart(chat: ChatId) returns (welcome: Delivery)
      requires Valid()
      modifies this`usersList, this`stats, this`userState
      ensures Valid()
      ensures usersList == AddIfAbsent(old(usersList), chat)
      ensures stats == old(stats).(totalUsers := old(stats).totalUsers + |usersList| - |old(usersList)|)
      ensures userState == old(userState)[chat := AwaitingCount]
      ensures welcome == Delivery(chat, WelcomeText(variant, welcomeMessage, globalCaption, suffix))
    {
      if chat !in usersList {
        usersList := usersList + [chat];
        stats := stats.(totalUsers := stats.totalUsers + 1);
      }
      welcome := Delivery(chat, WelcomeText(variant, welcomeMessage, globalCaption, suffix));
      userState := userState[chat := AwaitingCount];
    }

    /** The admin's `broadcast` stage: the text goes to every registered user, in registration
        order, one delivery per entry of `usersList`. */
    method Broadcast(text: string) returns (sent: seq<Delivery>)
      ensures |sent| == |usersList|
      ensures forall k :: 0 <= k < |sent| ==> sent[k] == Delivery(usersList[k], text)
    {
      sent := [];
      for k := 0 to |usersList|
        invariant |sent| == k
        invariant forall j :: 0 <= j < k ==> sent[j] == Delivery(usersList[j], text)
      {
        sent := sent + [Delivery(usersList[k], text)];
      }
    }

    /** What the admin's text does to a pending stage, `old` being the state before it. A refused
        input changes nothing and keeps the stage; an accepted one performs the stage's update and
        returns the admin to `idle`. */
    twostate predicate AdminTextDone(text: string, number: Option<int>, sent: seq<Delivery>)
      requires old(adminId in adminState)
      reads this
    {
      var stage := old(adminState[adminId]);
      var accepted := AdminAccepts(variant, stage, number);
      && adminState == (if accepted then old(adminState)[adminId := Idle] else old(adminState))
      && blockedUsers == (
           if accepted && stage == Blocking then AddIfAbsent(old(blockedUsers), number.value)
           else if accepted && stage == Unblocking && number.value in old(blockedUsers)
           then Without(old(blockedUsers), number.value)
           else old(blockedUsers))
      && cancelled == (if accepted && stage == Cancelling then old(cancelled) + {number.value} else old(cancelled))
      && welcomeMessage == (if stage == ChangingWelcome then text else old(welcomeMessage))
      && suffix == (if stage == SettingSuffix then text else old(suffix))
      && maxLimit == (if accepted && stage == ChangingMaxLimit then number.value else old(maxLimit))
      && globalCaption == (if accepted && stage == SettingCaption then text else old(globalCaption))
      && (accepted && stage == Cancelling ==> sent == [Delivery(number.value, CancelNotice)])
      && (stage == Broadcasting ==>
            |sent| == |usersList| && forall k :: 0 <= k < |sent| ==> sent[k] == Delivery(usersList[k], text))
      && (stage != Broadcasting && !(accepted && stage == Cancelling) ==> sent == [])
    }

    /** The admin's text in the `block` or `unblock` stage: an id is added only when absent, and
        removed with every occurrence; a text that is not a number changes nothing. */
    method OnBlockListText(text: string, number: Option<int>)
      requires Valid()
      requires adminId in adminState && adminState[adminId] in {Blocking, Unblocking}
      modifies this`blockedUsers, this`adminState
      ensures Valid()
      ensures AdminTextDone(text, number, [])
    {
      if number.None? {
        return;
      }
      if adminState[adminId] == Blocking {
        if number.value !in blockedUsers {
          blockedUsers := blockedUsers + [number.value];
        }
      } else if number.value in blockedUsers {
        blockedUsers := Without(blockedUsers, number.value);
      }
      adminState := adminState[adminId := Idle];
    }

    /** The admin's text in a stage that sets one of the bot's texts or `maxLimit`: the welcome
        text and the suffix take any text; `maxLimit` (bot1.js, bot2.js) only a positive number; the
        global caption only in bot2.js. A stage the variant has no case for changes nothing. */
    method OnSettingText(text: string, number: Option<int>)
      requires Valid()
      requires adminId in adminState
      requires adminState[adminId] in {ChangingWelcome, SettingSuffix, ChangingMaxLimit, SettingCaption}
      modifies this`welcomeMessage, this`suffix, this`maxLimit, this`globalCaption, this`adminState
      ensures Valid()
      ensures AdminTextDone(text, number, [])
    {
      match adminState[adminId]
      case ChangingWelcome =>
        welcomeMessage := text;
        adminState := adminState[adminId := Idle];
      case SettingSuffix =>
        suffix := text;
        adminState := adminState[adminId := Idle];
      case ChangingMaxLimit =>
        if variant == Original {
          // bots.js has no such case: `default: break`
          return;
        }
        if number.None? || number.value <= 0 {
          return;
        }
        maxLimit := number.value;
        adminState := adminState[adminId := Idle];
      case SettingCaption =>
        if variant != WithCaption {
          return;
        }
        globalCaption := text;
        adminState := adminState[adminId := Idle];
    }

    /** The admin's text while a stage is pending. `number` is what `parseInt(text.trim())` read. */
    method OnAdminText(text: string, number: Option<int>) returns (sent: seq<Delivery>)
      requires Valid()
      requires adminId in adminState && adminState[adminId] != Idle
      modifies this`blockedUsers, this`cancelled, this`welcomeMessage, this`suffix, this`maxLimit,
               this`globalCaption, this`adminState
      ensures Valid()
      ensures AdminTextDone(text, number, sent)
    {
      sent := [];
      match adminState[adminId]
      case Blocking =>
        OnBlockListText(text, number);
      case Unblocking =>
        OnBlockListText(text, number);
      case Cancelling =>
        if number.None? {
          return;
        }
        MarkCancelled(number.value);
        sent := [Delivery(number.value, CancelNotice)];
        adminState := adminState[adminId := Idle];
      case ChangingWelcome =>
        OnSettingText(text, number);
      case SettingSuffix =>
        OnSettingText(text, number);
      case ChangingMaxLimit =>
        OnSettingText(text, number);
      case SettingCaption =>
        OnSettingText(text, number);
      case Broadcasting =>
        sent := Broadcast(text);
        adminState := adminState[adminId := Idle];
    }

    /** A text from a chat that is not handled as admin input: `/start`, or the next step of the
        chat's conversation. `number` is what `parseInt(text)` read. Returns the batch the text
        starts, if any; the chat's state is then already deleted. */
    method OnUserText(chat: ChatId, text: string, number: Option<int>)
      returns (started: Option<Request>, sent: seq<Delivery>)
      requires Valid()
      modifies this`usersList, this`stats, this`userState
      ensures Valid()
      ensures old(IsBlocked(chat)) ==>
        && started == None && sent == []
        && usersList == old(usersList) && stats == old(stats) && userState == old(userState)
      ensures !old(IsBlocked(chat)) && text == "/start" ==>
        && started == None
        && usersList == AddIfAbsent(old(usersList), chat)
        && stats == old(stats).(totalUsers := old(stats).totalUsers + |usersList| - |old(usersList)|)
        && userState == old(userState)[chat := AwaitingCount]
        && sent == [Delivery(chat, WelcomeText(variant, welcomeMessage, globalCaption, suffix))]
      ensures !old(IsBlocked(chat)) && text != "/start" ==>
        var stage := if chat in old(userState) then Some(old(userState)[chat]) else None;
        var step := Converse(chat, stage, text, number, maxLimit);
        && started == step.1 && sent == []
        && usersList == old(usersList) && stats == old(stats)
        && userState == (if step.0.Some? then old(userState)[chat := step.0.value] else old(userState) - {chat})
      ensures started.Some? ==>
        && started.value.chat == chat && 1 <= started.value.count
        && ValidRefCode(started.value.refCode)
    {
      started, sent := None, [];
      if IsBlocked(chat) {
        return;
      }
      if text == "/start" {
        var welcome := HandleStart(chat);
        sent := [welcome];
        return;
      }
      if chat !in userState {
        return;
      }
      started := Continue(chat, text, number);
    }

    /** The next step of a chat's conversation (`awaiting_count` or `awaiting_ref`). */
    method Continue(chat: ChatId, text: string, number: Option<int>) returns (started: Option<Request>)
      requires Valid() && chat in userState && text != "/start"
      modifies this`userState
      ensures Valid()
      ensures var step := Converse(chat, Some(old(userState)[chat]), text, number, maxLimit);
        && started == step.1
        && userState == (if step.0.Some? then old(userState)[chat := step.0.value] else old(userState) - {chat})
      ensures started.Some? ==>
        && started.value.chat == chat && 1 <= started.value.count && ValidRefCode(started.value.refCode)
    {
      var stage := Some(userState[chat]);
      var step := Converse(chat, stage, text, number, maxLimit);
      started := step.1;
      if step.0.Some? {
        userState := userState[chat := step.0.value];
      } else {
        // `state.stage = 'processing'`, `main(...)` started, then `delete userState[chatId]`
        userState := userState - {chat};
      }
    }

    /** What a user's message does, `old` being the state before it: a blocked chat changes nothing;
        `/start` registers the chat and sends the welcome text; any other text is the conversation
        step `Converse` at the current limit, and a referral code it accepts runs `main` with the
        stored count. */
    twostate predicate UserMessageDone(chat: ChatId, text: string, number: Option<int>, today: string, env: Env,
                                       new started: Option<Request>, new outcome: Option<BatchOutcome>, sent: seq<Delivery>)
      reads this
    {
      if old(IsBlocked(chat)) then
        && started == None && outcome == None && sent == []
        && userState == old(userState) && usersList == old(usersList) && stats == old(stats)
        && usageData == old(usageData) && walletFiles == old(walletFiles) && cancelled == old(cancelled)
      else if text == "/start" then
        && started == None && outcome == None
        && sent == [Delivery(chat, WelcomeText(variant, old(welcomeMessage), old(globalCaption), old(suffix)))]
        && usersList == AddIfAbsent(old(usersList), chat)
        && stats == old(stats).(totalUsers := old(stats).totalUsers + |usersList| - |old(usersList)|)
        && userState == old(userState)[chat := AwaitingCount]
        && usageData == old(usageData) && walletFiles == old(walletFiles) && cancelled == old(cancelled)
      else
        var stage := if chat in old(userState) then Some(old(userState)[chat]) else None;
        var step := Converse(chat, stage, text, number, old(maxLimit));
        && started == step.1 && sent == [] && usersList == old(usersList)
        && userState == (if step.0.Some? then old(userState)[chat := step.0.value] else old(userState) - {chat})
        && match step.1
           case None =>
             && outcome == None && stats == old(stats)
             && usageData == old(usageData) && walletFiles == old(walletFiles) && cancelled == old(cancelled)
           case Some(request) =>
             outcome.Some? && BatchDone(chat, request.count, today, env, outcome.value)
    }

    /** The `message` handler: a blocked chat is ignored, `/admin` from the admin opens the menu, the
        admin's text goes to a pending stage, and everything else is a user's conversation; an
        accepted referral code runs `main` with the stored count. `number` is what `parseInt` read
        from the text; `today` and `env` are what `main` sees if it runs. */
    method OnMessage(chat: ChatId, text: string, number: Option<int>, today: string, env: Env)
      returns (started: Option<Request>, outcome: Option<BatchOutcome>, sent: seq<Delivery>)
      requires Valid()
      modifies this
      ensures Valid()
      ensures
        if old(IsBlocked(chat)) then
          started == None && outcome == None && sent == [] && unchanged(this)
        else if chat == adminId && (text == "/admin" || (adminId in old(adminState) && old(adminState)[adminId] != Idle)) then
          && AdminMessageDone(text, number, sent)
          && started == None && outcome == None
          && unchanged(this`userState, this`usersList, this`stats, this`usageData, this`walletFiles)
        else
          && UserMessageDone(chat, text, number, today, env, started, outcome, sent)
          && unchanged(this`adminState, this`blockedUsers, this`maxLimit, this`welcomeMessage, this`suffix,
                       this`globalCaption)
      ensures started.Some? ==>
        && !old(IsBlocked(chat)) && started.value.chat == chat
        && 1 <= started.value.count && ValidRefCode(started.value.refCode)
    {
      started, outcome, sent := None, None, [];
      if IsBlocked(chat) {
        return;
      }
      if chat == adminId && (text == "/admin" || (chat in adminState && adminState[chat] != Idle)) {
        sent := OnAdminMessage(text, number);
        return;
      }
      started, outcome, sent := OnUserMessage(chat, text, number, today, env);
    }

    /** What the admin's own message does: `/admin` opens the menu (the admin's stage becomes
        `Idle`), anything else answers the pending stage as `AdminTextDone` says. */
    twostate predicate AdminMessageDone(text: string, number: Option<int>, sent: seq<Delivery>)
      requires text == "/admin" || old(adminId in adminState && adminState[adminId] != Idle)
      reads this
    {
      if text == "/admin" then
        && adminState == old(adminState)[adminId := Idle] && sent == []
        && blockedUsers == old(blockedUsers) && cancelled == old(cancelled)
        && maxLimit == old(maxLimit) && welcomeMessage == old(welcomeMessage) && suffix == old(suffix)
        && globalCaption == old(globalCaption)
      else
        AdminTextDone(text, number, sent)
    }

    /** The admin's own message: `/admin` opens the menu, anything else answers the pending stage. */
    method OnAdminMessage(text: string, number: Option<int>) returns (sent: seq<Delivery>)
      requires Valid()
      requires text == "/admin" || (adminId in adminState && adminState[adminId] != Idle)
      modifies this`blockedUsers, this`cancelled, this`welcomeMessage, this`suffix, this`maxLimit,
               this`globalCaption, this`adminState
      ensures Valid()
      ensures AdminMessageDone(text, number, sent)
    {
      if text == "/admin" {
        adminState := adminState[adminId := Idle];
        sent := [];
      } else {
        sent := OnAdminText(text, number);
      }
    }

    /** A user's message: the conversation step, then `main` when it accepted a referral code. */
    method OnUserMessage(chat: ChatId, text: string, number: Option<int>, today: string, env: Env)
      returns (started: Option<Request>, outcome: Option<BatchOutcome>, sent: seq<Delivery>)
      requires Valid()
      modifies this`usersList, this`stats, this`userState, this`usageData, this`walletFiles, this`cancelled
      ensures Valid()
      ensures UserMessageDone(chat, text, number, today, env, started, outcome, sent)
      ensures started.Some? ==>
        && !old(IsBlocked(chat)) && started.value.chat == chat
        && 1 <= started.value.count && ValidRefCode(started.value.refCode)
    {
      outcome := None;
      started, sent := OnUserText(chat, text, number);
      if started.Some? {
        var o := ProcessRequest(chat, started.value.count, today, env);
        outcome := Some(o);
      }
    }

    /** The `callback_query` handler: a sender other than the admin changes nothing; otherwise the
        button opens its stage, shows the statistics, or (bots.js, bot1.js) clears the suffix. bot2.js
        offers the Remove Suffix button but has no case for it. */
    method OnCallback(from: ChatId, button: Button) returns (shown: Option<Stats>)
      requires Valid()
      modifies this`adminState, this`suffix
      ensures Valid()
      ensures from != adminId ==> adminState == old(adminState) && suffix == old(suffix) && shown == None
      ensures from == adminId ==>
        && adminState == (match ButtonStage(variant, button)
                          case Some(stage) => old(adminState)[from := stage]
                          case None => old(adminState))
        && suffix == (if button == RemoveSuffix && variant != WithCaption then "" else old(suffix))
        && shown == (if button == ShowStats then Some(stats) else None)
    {
      shown := None;
      if from != adminId {
        return;
      }
      if button == ShowStats {
        shown := Some(stats);
      } else if button == RemoveSuffix {
        if variant != WithCaption {
          suffix := "";
        }
      } else {
        var stage := ButtonStage(variant, button);
        if stage.Some? {
          adminState := adminState[from := stage.value];
        }
      }
    }
  }
}
