/** The batch loop of `main` in bots.js, bot1.js and bot2.js as a specification: one `Step` per pass
    of the `for` loop, `RunFrom` iterating it, and the properties of a whole batch as lemmas. The
    method `Bots.Bot.ProcessRequest` is proved to leave exactly the state `Batch` describes. */
module Batch {
  import opened Wallets
  import opened Ledger
  import Basic

  /** The third 409 of a batch stops it. */
  const MaxConflicts: nat := 3

  datatype Status = Running | Done | StoppedByCancel | StoppedByReferral

  /** What the model does not compute: `login(n)` is how the n-th `createWallet` call of the batch
      ended; `adminCancels(k)` says that the admin's cancel stage for this chat ran during the await
      just before the k-th cancellation check of the batch (two checks per pass: at the top of the
      loop and at the start of `createAndProcessWallet`). */
  datatype Env = Env(login: nat -> LoginResult, adminCancels: nat -> bool)

  /** The batch's state: the loop index `i`, the shared `failureCount`, how many times
      `createAndProcessWallet` and `createWallet` were called, how many cancellation checks ran, the
      chat's cancel flag, the `wallets` array, the 1-based slot of each success (the "Wallet i+1 of
      count" number), the chat's usage count for today and its ledger file. */
  datatype Run = Run(
    i: nat,
    failures: nat,
    invocations: nat,
    calls: nat,
    checks: nat,
    cancelFlag: bool,
    wallets: seq<WalletRecord>,
    slots: seq<nat>,
    usage: int,
    ledger: LedgerFile,
    status: Status)

  function Start(cancelFlag: bool, usage: int, ledger: LedgerFile): Run
  {
    Run(0, 0, 0, 0, 0, cancelFlag, [], [], usage, ledger, Running)
  }

  /** One pass of the loop body. */
  function Step(env: Env, s: Run): Run
  {
    if s.cancelFlag || env.adminCancels(s.checks) then
      // the check at the top of the loop body: break
      s.(cancelFlag := true, checks := s.checks + 1, status := StoppedByCancel)
    else if env.adminCancels(s.checks + 1) then
      // the check inside createAndProcessWallet: { cancelled: true }, then break
      s.(cancelFlag := true, checks := s.checks + 2, invocations := s.invocations + 1,
         status := StoppedByCancel)
    else
      var t := s.(checks := s.checks + 2, invocations := s.invocations + 1, calls := s.calls + 1);
      match CreateWallet(env.login(s.calls))
      case Conflict =>
        // failureCount.value++; stop at the third, otherwise i-- and retry the same slot
        if s.failures + 1 >= MaxConflicts then t.(failures := s.failures + 1, status := StoppedByReferral)
        else t.(failures := s.failures + 1)
      case Created(r) =>
        t.(i := s.i + 1, usage := s.usage + 1, wallets := s.wallets + [r], slots := s.slots + [s.i + 1],
           ledger := Append(s.ledger, r))
      case _ =>
        // null: the slot is used up and charged to the quota
        t.(i := s.i + 1, usage := s.usage + 1)
  }

  /** Decreases with every pass: a pass either advances `i`, raises the failure count or stops. */
  function Measure(count: nat, s: Run): nat
  {
    if s.status != Running then 0
    else (if s.i < count then count - s.i else 0) + (if s.failures < MaxConflicts then MaxConflicts - s.failures else 0)
  }

  /** Every pass of a running batch with a slot left lowers the measure. */
  lemma StepDecreases(env: Env, count: nat, s: Run)
    requires s.status == Running && s.i < count
    ensures Measure(count, Step(env, s)) < Measure(count, s)
  {
  }

  function RunFrom(env: Env, count: nat, s: Run): Run
    decreases Measure(count, s)
  {
    if s.status != Running then s
    else if s.i >= count then s.(status := Done)
    else RunFrom(env, count, Step(env, s))
  }

  /** The loop of `main` for a batch of `count` wallets, started with the chat's cancel flag, today's
      usage count (after the quota gate) and its ledger file. */
  function Batch(env: Env, count: nat, cancelFlag: bool, usage: int, ledger: LedgerFile): Run
  {
    RunFrom(env, count, Start(cancelFlag, usage, ledger))
  }

  /** The counters: every `createWallet` call used a slot or was a counted conflict, at most one
      `createAndProcessWallet` call ended before its `createWallet` call (a cancellation), and two
      cancellation checks ran per call, plus the one that stopped the batch at the top of the loop. */
  ghost predicate CountersOk(count: nat, s: Run)
  {
    && s.i <= count
    && s.calls == s.i + s.failures
    && s.failures <= MaxConflicts
    && (s.status == StoppedByReferral <==> s.failures == MaxConflicts)
    && (s.status == StoppedByReferral ==> s.i < count)
    && (s.status == Done ==> s.i == count)
    && s.calls <= s.invocations <= s.calls + 1
    && (s.invocations == s.calls + 1 ==> s.status == StoppedByCancel && s.i < count && s.failures < MaxConflicts)
    && 2 * s.invocations <= s.checks <= 2 * s.invocations + 1
    && (s.status == Running ==> s.checks == 2 * s.invocations)
    && (s.invocations == s.calls + 1 ==> s.checks == 2 * s.invocations)
    && (s.status == StoppedByCancel && s.invocations == s.calls ==> s.checks == 2 * s.invocations + 1)
    && (s.status == StoppedByCancel ==> s.cancelFlag)
  }

  /** One reported slot per wallet, strictly increasing, the j-th at least j + 1 and at most `i`. */
  ghost predicate SlotsOk(s: Run)
  {
    && |s.wallets| == |s.slots| <= s.i
    && (forall j :: 0 <= j < |s.slots| ==> j < s.slots[j] <= s.i)
    && (forall j, k :: 0 <= j < k < |s.slots| ==> s.slots[j] < s.slots[k])
  }

  /** Usage has grown by the slots used; the ledger is the readable part of the first file followed by
      the wallets, or untouched while there are none. */
  ghost predicate BooksOk(u0: int, l0: LedgerFile, s: Run)
  {
    && s.usage == u0 + s.i
    && s.ledger == (if s.wallets == [] then l0 else Json(Existing(l0) + s.wallets))
  }

  /** A cancellation landing before a check stops the batch at that check. */
  ghost predicate CancelsOk(env: Env, s: Run)
  {
    forall k: nat :: k < s.checks && env.adminCancels(k) ==> s.checks == k + 1 && s.status == StoppedByCancel
  }

  /** What holds of every state the loop reaches from `Start(_, u0, l0)`. */
  ghost predicate Inv(env: Env, count: nat, u0: int, l0: LedgerFile, s: Run)
  {
    CountersOk(count, s) && SlotsOk(s) && BooksOk(u0, l0, s) && CancelsOk(env, s)
  }

  lemma StartInv(env: Env, count: nat, cancelFlag: bool, u0: int, l0: LedgerFile)
    ensures Inv(env, count, u0, l0, Start(cancelFlag, u0, l0))
  {
  }

  lemma StepCounters(env: Env, count: nat, s: Run)
    requires CountersOk(count, s) && s.status == Running && s.i < count
    ensures CountersOk(count, Step(env, s))
  {
  }

  lemma StepSlots(env: Env, s: Run)
    requires SlotsOk(s) && s.status == Running
    ensures SlotsOk(Step(env, s))
  {
  }

  /** A success appends its record to the ledger. */
  lemma StepBooks(env: Env, u0: int, l0: LedgerFile, s: Run)
    requires BooksOk(u0, l0, s) && s.status == Running
    ensures BooksOk(u0, l0, Step(env, s))
  {
    var t := Step(env, s);
    if t.wallets != s.wallets && s.wallets != [] {
      assert Existing(l0) + s.wallets + [t.wallets[|s.wallets|]] == Existing(l0) + (s.wallets + [t.wallets[|s.wallets|]]);
    }
  }

  lemma StepCancels(env: Env, s: Run)
    requires CancelsOk(env, s) && s.status == Running
    ensures CancelsOk(env, Step(env, s))
  {
  }

  /** Every pass keeps the invariant. */
  lemma StepInv(env: Env, count: nat, u0: int, l0: LedgerFile, s: Run)
    requires Inv(env, count, u0, l0, s) && s.status == Running && s.i < count
    ensures Inv(env, count, u0, l0, Step(env, s))
  {
    StepCounters(env, count, s);
    StepSlots(env, s);
    StepBooks(env, u0, l0, s);
    StepCancels(env, s);
  }

  lemma {:induction false} RunFromInv(env: Env, count: nat, u0: int, l0: LedgerFile, s: Run)
    requires Inv(env, count, u0, l0, s)
    ensures Inv(env, count, u0, l0, RunFrom(env, count, s))
    ensures RunFrom(env, count, s).status != Running
    decreases Measure(count, s)
  {
    if s.status == Running && s.i < count {
      StepInv(env, count, u0, l0, s);
      RunFromInv(env, count, u0, l0, Step(env, s));
    }
  }

  lemma BatchInv(env: Env, count: nat, cancelFlag: bool, u0: int, l0: LedgerFile)
    ensures Inv(env, count, u0, l0, Batch(env, count, cancelFlag, u0, l0))
    ensures Batch(env, count, cancelFlag, u0, l0).status != Running
  {
    StartInv(env, count, cancelFlag, u0, l0);
    RunFromInv(env, count, u0, l0, Start(cancelFlag, u0, l0));
  }

  /** Termination with a bound on the work: every pass advances `i`, raises the failure count or
      stops, so `createAndProcessWallet` runs at most `count + 2` times and `createWallet` no more
      often than that. */
  lemma AttemptBound(env: Env, count: nat, cancelFlag: bool, u0: int, l0: LedgerFile)
    ensures var r := Batch(env, count, cancelFlag, u0, l0);
      r.status != Running && r.calls <= r.invocations <= count + 2
  {
    BatchInv(env, count, cancelFlag, u0, l0);
  }

  /** A 409 never advances the slot index: every `createWallet` call either used up a slot or was
      one of the counted conflicts. The third conflict, and only it, stops the batch with "Your
      referral code is wrong"; a batch that runs to the end saw at most two. */
  lemma ConflictBound(env: Env, count: nat, cancelFlag: bool, u0: int, l0: LedgerFile)
    ensures var r := Batch(env, count, cancelFlag, u0, l0);
      && r.calls == r.i + r.failures
      && r.failures <= MaxConflicts
      && (r.status == StoppedByReferral <==> r.failures == MaxConflicts)
      && (r.status == Done ==> r.i == count && r.failures < MaxConflicts)
  {
    BatchInv(env, count, cancelFlag, u0, l0);
  }

  /** Usage grows by exactly one per slot that ended in a success or a `null`, never by a conflict
      or a cancellation; so it grows by at most `count`, and the successes are among those slots. */
  lemma UsageCharge(env: Env, count: nat, cancelFlag: bool, u0: int, l0: LedgerFile)
    ensures var r := Batch(env, count, cancelFlag, u0, l0);
      && r.usage == u0 + r.i
      && |r.wallets| <= r.i <= count
  {
    BatchInv(env, count, cancelFlag, u0, l0);
  }

  /** The ledger is append-only: after the batch it holds what could be read before, followed by
      this batch's wallets in order; an unreadable file is replaced by this batch's wallets alone,
      and a batch without a success leaves the file untouched. */
  lemma LedgerAppendOnly(env: Env, count: nat, cancelFlag: bool, u0: int, l0: LedgerFile)
    ensures var r := Batch(env, count, cancelFlag, u0, l0);
      && (r.wallets == [] ==> r.ledger == l0)
      && (r.wallets != [] ==> r.ledger == Json(Existing(l0) + r.wallets))
      && (r.wallets != [] && l0 == Corrupt ==> r.ledger == Json(r.wallets))
  {
    BatchInv(env, count, cancelFlag, u0, l0);
  }

  /** The "Wallet n of count" number reported with each success (bot1.js, bot2.js) is strictly
      increasing, within `1..count`, and never smaller than the number of successes so far. */
  lemma SlotsNeverUnderstate(env: Env, count: nat, cancelFlag: bool, u0: int, l0: LedgerFile)
    ensures var r := Batch(env, count, cancelFlag, u0, l0);
      && |r.slots| == |r.wallets|
      && (forall j :: 0 <= j < |r.slots| ==> j + 1 <= r.slots[j] <= count)
      && (forall j, k :: 0 <= j < k < |r.slots| ==> r.slots[j] < r.slots[k])
  {
    BatchInv(env, count, cancelFlag, u0, l0);
  }

  /** Cancellation is honoured at the next check: if the admin's cancel lands before check `k`, the
      batch makes no check after `k`, stops there if it had not stopped already, and every
      `createWallet` call it made came before that check (call `n` follows checks `2n` and `2n + 1`,
      so at most `k / 2` calls). */
  lemma CancelStopsAttempts(env: Env, count: nat, cancelFlag: bool, u0: int, l0: LedgerFile, k: nat)
    requires env.adminCancels(k)
    ensures var r := Batch(env, count, cancelFlag, u0, l0);
      && r.checks <= k + 1
      && (r.checks == k + 1 ==> r.status == StoppedByCancel)
      && 2 * r.calls <= k
  {
    BatchInv(env, count, cancelFlag, u0, l0);
  }

  /** Nothing clears the cancel flag: a flag left over from an earlier cancellation stops every later
      batch of that chat at its very first check, before any attempt, usage charge or ledger write. */
  lemma StaleFlagBlocksBatch(env: Env, count: nat, u0: int, l0: LedgerFile)
    requires count > 0
    ensures var r := Batch(env, count, true, u0, l0);
      && r.cancelFlag
      && r.status == StoppedByCancel
      && r.invocations == 0 && r.calls == 0
      && r.wallets == [] && r.usage == u0 && r.ledger == l0
  {
    var s0 := Start(true, u0, l0);
    assert Batch(env, count, true, u0, l0) == RunFrom(env, count, Step(env, s0));
  }

  /** A referral code the service always rejects: exactly three `createWallet` calls, then the batch
      stops with nothing created, nothing charged and the ledger untouched. */
  lemma AlwaysConflicting(env: Env, count: nat, u0: int, l0: LedgerFile)
    requires count > 0
    requires forall n :: env.login(n) == HttpError(409)
    requires forall k :: !env.adminCancels(k)
    ensures var r := Batch(env, count, false, u0, l0);
      && r.status == StoppedByReferral
      && r.calls == 3 && r.wallets == [] && r.usage == u0 && r.ledger == l0
  {
    var s0 := Start(false, u0, l0);
    var s1 := Step(env, s0);
    var s2 := Step(env, s1);
    var s3 := Step(env, s2);
    assert s1.failures == 1 && s1.status == Running;
    assert s2.failures == 2 && s2.status == Running;
    assert s3.status == StoppedByReferral;
    assert RunFrom(env, count, s0) == RunFrom(env, count, s1);
    assert RunFrom(env, count, s1) == RunFrom(env, count, s2);
    assert RunFrom(env, count, s2) == s3;
  }

  lemma {:induction false} AlwaysSucceedingFrom(env: Env, count: nat, s: Run)
    requires forall n :: env.login(n).LoggedIn?
    requires forall k :: !env.adminCancels(k)
    requires s.status == Running && !s.cancelFlag && s.i <= count
    requires s.calls == s.i && |s.wallets| == s.i && s.failures == 0
    ensures var r := RunFrom(env, count, s);
      r.status == Done && r.calls == count && |r.wallets| == count && r.usage == s.usage + (count - s.i)
    decreases count - s.i
  {
    if s.i < count {
      AlwaysSucceedingFrom(env, count, Step(env, s));
    }
  }

  /** Every login succeeding and no cancellation: the batch makes exactly `count` wallets, the
      records of the first `count` logins in call order, charges `count` to today's usage and
      appends all of them to the ledger. */
  lemma AlwaysSucceeding(env: Env, count: nat, u0: int, l0: LedgerFile)
    requires forall n :: env.login(n).LoggedIn?
    requires forall k :: !env.adminCancels(k)
    ensures var r := Batch(env, count, false, u0, l0);
      && r.status == Done && r.calls == count && |r.wallets| == count
      && (forall n :: 0 <= n < count ==> r.wallets[n] == env.login(n).record)
      && r.usage == u0 + count
      && (count > 0 ==> r.ledger == Json(Existing(l0) + r.wallets))
  {
    AlwaysSucceedingFrom(env, count, Start(false, u0, l0));
    BatchInv(env, count, false, u0, l0);
    BatchWallets(env, count, false, u0, l0);
    Basic.CollectedAllLoggedIn(env.login, count);
  }

  /** A pass that calls `createWallet` keeps the wallet exactly when that login completed. */
  lemma StepWallets(env: Env, s: Run)
    requires s.wallets == Basic.Collected(env.login, s.calls)
    ensures Step(env, s).wallets == Basic.Collected(env.login, Step(env, s).calls)
  {
    ClassificationsAgreeExceptOnConflict(env.login(s.calls));
  }

  lemma {:induction false} WalletsFrom(env: Env, count: nat, s: Run)
    requires s.wallets == Basic.Collected(env.login, s.calls)
    ensures var r := RunFrom(env, count, s); r.wallets == Basic.Collected(env.login, r.calls)
    decreases Measure(count, s)
  {
    if s.status == Running && s.i < count {
      StepWallets(env, s);
      StepDecreases(env, count, s);
      WalletsFrom(env, count, Step(env, s));
    }
  }

  /** The wallets of a batch are the records of the logins that completed among its `createWallet`
      calls, in call order: a 409 or a `null` keeps nothing, a cancellation makes no call. */
  lemma BatchWallets(env: Env, count: nat, cancelFlag: bool, u0: int, l0: LedgerFile)
    ensures var r := Batch(env, count, cancelFlag, u0, l0);
      r.wallets == Basic.Collected(env.login, r.calls)
  {
    WalletsFrom(env, count, Start(cancelFlag, u0, l0));
  }
}
