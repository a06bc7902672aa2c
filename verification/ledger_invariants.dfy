/**
 * The ledger over time: any sequence of requests, each committed atomically
 * in the order given, keeps every balance equal to the sum of its ledger.
 * Only tool runs and purchase deliveries write here; the activity check reads.
 */
module LedgerInvariants {
  import opened Wrappers
  import opened Accounts
  import opened ToolRun
  import opened PurchaseWebhook

  /** A request that reaches the ledger core. */
  datatype Request =
    | ToolRunRequest(uid: Uid, model: string, now: Time)
    | WebhookDelivery(provider: string, payload: Option<Payload>, now: Time)

  /** The store after one request, committed or aborted. */
  function Step(s: Store, req: Request): Store {
    match req
    case ToolRunRequest(uid, model, now) => RunTool(s, uid, model, now).store
    case WebhookDelivery(provider, payload, now) => HandleWebhook(s, provider, payload, now).store
  }

  /** The store after the requests, first to last. */
  function Replay(s: Store, reqs: seq<Request>): Store
    decreases |reqs|
  {
    if |reqs| == 0 then s else Replay(Step(s, reqs[0]), reqs[1..])
  }

  /** Every request either changes nothing or logs exactly the change it makes. */
  lemma StepKeepsConsistent(s: Store, req: Request)
    requires Consistent(s)
    ensures Consistent(Step(s, req))
  {
    match req
    case ToolRunRequest(uid, model, now) =>
      var r := RunTool(s, uid, model, now);
      if r.error.None? {
        AppendKeepsConsistent(s, r.store, uid, LedgerEntry(DebitEntry, -Cost(model), model, now));
      }
    case WebhookDelivery(provider, payload, now) =>
      var r := HandleWebhook(s, provider, payload, now);
      if r.error.None? {
        var p := ParsePurchase(provider, payload).value;
        AppendKeepsConsistent(s, r.store, p.uid, LedgerEntry(PurchaseEntry, p.credits, PurchaseNote(p.packName), now));
      }
  }

  lemma {:induction false} ReplayKeepsConsistent(s: Store, reqs: seq<Request>)
    requires Consistent(s)
    ensures Consistent(Replay(s, reqs))
    decreases |reqs|
  {
    if |reqs| > 0 {
      StepKeepsConsistent(s, reqs[0]);
      ReplayKeepsConsistent(Step(s, reqs[0]), reqs[1..]);
    }
  }

  /**
   * Conservation: starting from no accounts, after any sequence of debits
   * and purchases every user's balance is the sum of the amounts in their
   * ledger.
   */
  lemma LedgerConservation(reqs: seq<Request>, u: Uid)
    ensures BalanceOf(Replay(EmptyStore, reqs), u) == Sum(LedgerOf(Replay(EmptyStore, reqs), u))
  {
    ReplayKeepsConsistent(EmptyStore, reqs);
  }

  /** The webhook credits whatever non-zero number it is given, negative ones included. */
  predicate CreditsNonNegative(req: Request) {
    req.WebhookDelivery? && req.payload.Some? && req.payload.value.creditsPurchased.Some? ==>
      req.payload.value.creditsPurchased.value >= 0
  }

  lemma StepKeepsNonNegative(s: Store, req: Request)
    requires NonNegative(s)
    requires CreditsNonNegative(req)
    ensures NonNegative(Step(s, req))
  {
    var t := Step(s, req);
    forall u
      ensures BalanceOf(t, u) >= 0
    {
      match req
      case ToolRunRequest(uid, model, now) =>
        if u != uid {
          assert BalanceOf(s, u) >= 0;  // instantiates NonNegative(s) at u
          assert RunTool(s, uid, model, now).error.Some? || Untouched(s, t, u);
        }
      case WebhookDelivery(provider, payload, now) =>
        var r := HandleWebhook(s, provider, payload, now);
        if r.error.None? {
          var p := ParsePurchase(provider, payload).value;
          assert BalanceOf(s, u) >= 0;  // instantiates NonNegative(s) at u
          assert u == p.uid || Untouched(s, t, u);
        }
      }
  }

  /**
   * Balances stay non-negative over any sequence of requests whose credit
   * amounts are non-negative; a debit alone can never overdraw.
   */
  lemma {:induction false} ReplayKeepsNonNegative(s: Store, reqs: seq<Request>)
    requires NonNegative(s)
    requires forall i :: 0 <= i < |reqs| ==> CreditsNonNegative(reqs[i])
    ensures NonNegative(Replay(s, reqs))
    decreases |reqs|
  {
    if |reqs| > 0 {
      StepKeepsNonNegative(s, reqs[0]);
      assert forall i :: 0 <= i < |reqs[1..]| ==> CreditsNonNegative(reqs[1..][i]) by {
        forall i | 0 <= i < |reqs[1..]| ensures CreditsNonNegative(reqs[1..][i]) {
          assert reqs[1..][i] == reqs[i + 1];
        }
      }
      ReplayKeepsNonNegative(Step(s, reqs[0]), reqs[1..]);
    }
  }

  /** Nothing rejects a negative credit amount: one delivery can leave a new account in debt. */
  lemma NegativeCreditIsAccepted(uid: Uid, credits: int, now: Time)
    requires uid != "" && forall i :: 0 <= i < |uid| ==> uid[i] != '/'
    requires credits < 0
    ensures var payload := Some(Payload(Some(uid), None, Some(credits), Absent, false));
      var r := HandleWebhook(EmptyStore, "stripe", payload, now);
      r.error.None? && BalanceOf(r.store, uid) == credits < 0
  {
    PlainIdIsOneSegment(uid);
  }

  /**
   * No idempotency: delivering the same accepted payload twice credits the
   * buyer twice and logs two purchase entries.
   */
  lemma DuplicateDeliveryCreditsTwice(s: Store, provider: string, payload: Option<Payload>, now: Time)
    requires HandleWebhook(s, provider, payload, now).error.None?
    ensures var p := ParsePurchase(provider, payload).value;
      var t := Replay(s, [WebhookDelivery(provider, payload, now), WebhookDelivery(provider, payload, now)]);
      && BalanceOf(t, p.uid) == BalanceOf(s, p.uid) + 2 * p.credits
      && |LedgerOf(t, p.uid)| == |LedgerOf(s, p.uid)| + 2
  {
    var d := WebhookDelivery(provider, payload, now);
    var s1 := Step(s, d);
    var s2 := Step(s1, d);
    assert Replay(s, [d, d]) == Replay(s1, [d]) == Replay(s2, []) == s2 by {
      assert [d, d][1..] == [d];
      assert [d][1..] == [];
    }
  }

  /**
   * Two debits whose costs the balance covers one at a time but not
   * together, committed one after the other, never both succeed: the first
   * is charged, the second is refused as too few credits and leaves the
   * first one's result in place.
   */
  lemma DebitRaceHasOneWinner(s: Store, uid: Uid, model1: string, model2: string, t1: Time, t2: Time)
    requires uid in s.users
    requires Cost(model1) <= BalanceOf(s, uid) < Cost(model1) + Cost(model2)
    ensures var first := RunTool(s, uid, model1, t1);
      var second := RunTool(first.store, uid, model2, t2);
      && first.error.None?
      && second.error == Some(InsufficientCredits)
      && second.store == first.store
  {
  }

  /**
   * An account without a stored balance reads as holding 0 credits: every
   * tool run on it is refused as too few credits, and a purchase sets its
   * balance to exactly the credits bought.
   */
  lemma MissingBalanceReadsAsZero(s: Store, uid: Uid, model: string, p: Purchase, now: Time)
    requires uid in s.users && s.users[uid].creditsRemaining.None?
    requires p.uid == uid
    ensures RunTool(s, uid, model, now).error == Some(InsufficientCredits)
    ensures Credits(CreditWrite(s, p, now).account) == p.credits
  {
  }
}
