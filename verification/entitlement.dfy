/**
 * The premium check of `POST /logActivity`. Entitlement is derived from the
 * stored expiry each time it is asked for; nothing ever clears `isPremium`,
 * so a lapsed subscription is simply one whose expiry is in the past.
 */
module Entitlement {
  import opened Wrappers
  import opened Accounts
  import opened PurchaseWebhook

  /** Premium means: the flag is exactly `true`, an expiry is stored, and it is still ahead of `now`. */
  predicate IsPremium(a: Account, now: Time) {
    a.isPremium == Some(true) && a.premiumExpires.Some? && a.premiumExpires.value > now
  }

  datatype LookupError = AccountNotFound

  /**
   * Whether an activity record is written for `uid` at `now`: a missing
   * account is an error (404); otherwise exactly premium users are logged.
   * The store itself is only read.
   */
  function LogsActivity(s: Store, uid: Uid, now: Time): (r: Result<bool, LookupError>)
    ensures r.Failure? <==> uid !in s.users
    ensures r.Success? ==> (r.value <==> IsPremium(s.users[uid], now))
  {
    if uid !in s.users then Failure(AccountNotFound)
    else Success(IsPremium(s.users[uid], now))
  }

  /** Entitlement only lapses as time passes, and lapses at the stored expiry without any write. */
  lemma EntitlementLapses(a: Account, earlier: Time, later: Time)
    requires earlier <= later
    ensures IsPremium(a, later) ==> IsPremium(a, earlier)
    ensures a.premiumExpires.Some? && later >= a.premiumExpires.value ==> !IsPremium(a, later)
  {
  }

  /**
   * After an accepted premium delivery at `now`, the buyer is premium at
   * exactly the times before `now` plus 30 days.
   */
  lemma PremiumPurchaseEntitlesUntil(s: Store, provider: string, payload: Option<Payload>, now: Time, t: Time)
    requires payload.Some? && payload.value.isPremium
    requires HandleWebhook(s, provider, payload, now).error.None?
    ensures var uid := ParsePurchase(provider, payload).value.uid;
      var after := HandleWebhook(s, provider, payload, now).store;
      uid in after.users && (IsPremium(after.users[uid], t) <==> t < now + PremiumDuration)
  {
  }

  /**
   * A repeat premium purchase restarts the window at the purchase time: the
   * days left over from an earlier purchase are not added, so the buyer is
   * not premium between `now + 30 days` and `previous expiry + 30 days`.
   */
  lemma RepeatPremiumDoesNotStack(s: Store, p: Purchase, now: Time, t: Time)
    requires p.premium && p.uid in s.users
    requires s.users[p.uid].premiumExpires.Some? && s.users[p.uid].premiumExpires.value > now
    requires now + PremiumDuration <= t < s.users[p.uid].premiumExpires.value + PremiumDuration
    ensures !IsPremium(CreditWrite(s, p, now).account, t)
  {
  }

  /** A non-premium delivery never changes anyone's entitlement at any time. */
  lemma PlainPurchaseKeepsEntitlement(s: Store, provider: string, payload: Option<Payload>, now: Time, u: Uid, t: Time)
    requires payload.Some? && !payload.value.isPremium
    ensures var after := HandleWebhook(s, provider, payload, now).store;
      (u in after.users && IsPremium(after.users[u], t)) <==> (u in s.users && IsPremium(s.users[u], t))
  {
    var r := HandleWebhook(s, provider, payload, now);
    if r.error.None? {
      var p := ParsePurchase(provider, payload).value;
      if u != p.uid {
        assert Untouched(s, r.store, u);
      }
    }
  }
}
