/** Wallet records and the classification of the login sequence performed by `createWallet`.
    The HTTP requests, the key generation and the message signing are outside the model: their
    combined result is a `LoginResult`, supplied by the environment. */
module Wallets {

  type ChatId = int

  /** The record saved in a user's ledger; its fields are opaque strings. */
  datatype WalletRecord = WalletRecord(
    address: string,
    privateKey: string,
    username: string,
    accessToken: string,
    message: string,
    signature: string)

  /** What the login-request / login / set-nickname sequence produced: a logged-in wallet, an HTTP
      error response with its status, or an error without a response (network failure, bad body). */
  datatype LoginResult = LoggedIn(record: WalletRecord) | HttpError(status: int) | NoResponse

  /** What `createAndProcessWallet` reports to the batch loop. `createWallet` itself yields only the
      last three: a record, the `{ error: '409' }` marker, or `null`. */
  datatype Outcome = CancelledByAdmin | Conflict | NoWallet | Created(record: WalletRecord)

  /** `createWallet` in bots.js, bot1.js and bot2.js: an HTTP 409 becomes the conflict marker, every
      other error becomes `null`, a completed login becomes the record. */
  function CreateWallet(login: LoginResult): (o: Outcome)
    ensures o != CancelledByAdmin
    ensures o == Conflict <==> login.HttpError? && login.status == 409
    ensures o.Created? <==> login.LoggedIn?
    ensures o.Created? ==> o.record == login.record
  {
    match login
    case LoggedIn(r) => Created(r)
    case HttpError(status) => if status == 409 then Conflict else NoWallet
    case NoResponse => NoWallet
  }

  /** `createWallet` in bot.js: there is no special case, every error whatever its status is `null`. */
  function CreateWalletIgnoringStatus(login: LoginResult): (o: Outcome)
    ensures o == NoWallet || o.Created?
    ensures o.Created? <==> login.LoggedIn?
    ensures o.Created? ==> o.record == login.record
  {
    if login.LoggedIn? then Created(login.record) else NoWallet
  }

  /** The two classifications agree except on a 409, which bot.js drops like any other error. */
  lemma ClassificationsAgreeExceptOnConflict(login: LoginResult)
    ensures CreateWallet(login) == Conflict ==> CreateWalletIgnoringStatus(login) == NoWallet
    ensures CreateWallet(login) != Conflict ==> CreateWalletIgnoringStatus(login) == CreateWallet(login)
  {
  }
}
