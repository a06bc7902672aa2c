/**
 * `POST /runTool`: price a tool run by its model and debit the caller's
 * balance in one transaction, logging a `debit` entry.
 */
module ToolRun {
  import opened Wrappers
  import opened Accounts

  /** Why a debit aborted. */
  datatype DebitError = UserNotFound | InsufficientCredits

  /** The price of one run: the premium model costs two credits, any other one. */
  function Cost(model: string): (c: int)
    ensures 1 <= c <= 2
    ensures c == 2 <==> model == "gpt-4"
  {
    if model == "gpt-4" then 2 else 1
  }

  /** The decision the debit transaction takes on the snapshot it read. */
  function DebitBody(s: Store, uid: Uid, model: string, now: Time): Result<Write, DebitError> {
    if uid !in s.users then Failure(UserNotFound)
    else
      var credits := Credits(s.users[uid]);
      var cost := Cost(model);
      if credits < cost then Failure(InsufficientCredits)
      else
        Success(Write(uid,
          s.users[uid].(creditsRemaining := Some(credits - cost)),
          LedgerEntry(DebitEntry, -cost, model, now)))
  }

  /** The debit transaction of one tool run by `uid` on `model` at `now`. */
  function RunTool(s: Store, uid: Uid, model: string, now: Time): (r: Reply<DebitError>)
    // A debit never creates an account.
    ensures r.error == Some(UserNotFound) <==> uid !in s.users
    // Too few credits is its own outcome, and only that causes it.
    ensures r.error == Some(InsufficientCredits) <==> uid in s.users && BalanceOf(s, uid) < Cost(model)
    // An abort changes nothing.
    ensures r.error.Some? ==> r.store == s
    // A commit lowers the balance by the cost, logs exactly that, and can
    // never leave the balance negative.
    ensures r.error.None? ==>
      && uid in s.users
      && AppendsOne(s, r.store, uid, LedgerEntry(DebitEntry, -Cost(model), model, now))
      && BalanceOf(r.store, uid) == BalanceOf(s, uid) - Cost(model) >= 0
    // Only the balance field of the account is written.
    ensures r.error.None? ==>
      r.store.users[uid] == s.users[uid].(creditsRemaining := Some(BalanceOf(s, uid) - Cost(model)))
  {
    RunTransaction(s, DebitBody(s, uid, model, now))
  }

  /**
   * The HTTP status of a tool run: payment required only for too few
   * credits. A committed run then builds its reply with `prompt.substring`,
   * so a prompt that is not text is charged and still answered 500.
   */
  function StatusOf(error: Option<DebitError>, promptIsText: bool): (code: int)
    ensures code == 200 <==> error.None? && promptIsText
    ensures code == 402 <==> error == Some(InsufficientCredits)
    ensures code == 500 <==> error == Some(UserNotFound) || (error.None? && !promptIsText)
  {
    match error
    case None => if promptIsText then 200 else 500
    case Some(InsufficientCredits) => 402
    case Some(UserNotFound) => 500
  }
}
