/**
 * `POST /purchaseWebhook`: read the buyer, the credit amount and the pack
 * out of a payment provider's payload, then credit the buyer's balance in
 * one transaction (creating the account on a first purchase, granting 30
 * days of premium on a premium pack) and log a `purchase` entry.
 *
 * Signature and receipt verification are not done here, and nothing makes a
 * delivery idempotent: a payload delivered twice credits twice.
 */
module PurchaseWebhook {
  import opened Wrappers
  import opened Accounts

  const MillisPerDay: int := 86_400_000
  const PremiumDurationDays: int := 30
  /** How long one premium purchase entitles, counted from the purchase. */
  const PremiumDuration: int := PremiumDurationDays * MillisPerDay

  /**
   * The payload fields the handler reads. Stripe names the buyer in
   * `client_reference_id`, the mobile stores in `uid`. `isPremium` is the
   * truthiness of the payload's `isPremium` field.
   */
  datatype Payload = Payload(
    clientReferenceId: Option<string>,
    uid: Option<string>,
    creditsPurchased: Option<int>,
    packName: PackName,
    isPremium: bool)

  /** The payload's `pack_name`: absent, JSON `null`, or a name. */
  datatype PackName = Absent | Null | Named(name: string)

  /** Why a delivery was rejected. */
  datatype WebhookError =
    | UnsupportedProvider  // 400: not one of the three known providers
    | MissingFields        // 400: no buyer or no credit amount
    | MalformedPayload     // 500: a known provider but no payload to read
    | InvalidDocumentPath  // 500: the buyer is not a usable document id under `users`

  /** A validated purchase: a non-empty buyer and a non-zero credit amount. */
  datatype Purchase = Purchase(uid: Uid, credits: int, packName: PackName, premium: bool)

  predicate SupportedProvider(provider: string) {
    provider == "stripe" || provider == "google_play" || provider == "app_store"
  }

  /** The payload field that names the buyer for `provider`. */
  function BuyerField(provider: string, p: Payload): Option<string> {
    if provider == "stripe" then p.clientReferenceId else p.uid
  }

  /** A string field that is present and not empty. */
  predicate PresentText(o: Option<string>) {
    o.Some? && o.value != ""
  }

  /** A number field that is present and not zero. */
  predicate PresentAmount(o: Option<int>) {
    o.Some? && o.value != 0
  }

  /** Dispatches on the provider and validates the payload, before any storage access. */
  function ParsePurchase(provider: string, payload: Option<Payload>): (r: Result<Purchase, WebhookError>)
    ensures r == Failure(UnsupportedProvider) <==> !SupportedProvider(provider)
    ensures r == Failure(MalformedPayload) <==> SupportedProvider(provider) && payload.None?
    ensures r == Failure(MissingFields) <==>
      && SupportedProvider(provider)
      && payload.Some?
      && !(PresentText(BuyerField(provider, payload.value)) && PresentAmount(payload.value.creditsPurchased))
    ensures r.Success? <==>
      && SupportedProvider(provider)
      && payload.Some?
      && PresentText(BuyerField(provider, payload.value))
      && PresentAmount(payload.value.creditsPurchased)
    ensures r.Success? ==>
      && payload.Some?
      && Some(r.value.uid) == BuyerField(provider, payload.value) && r.value.uid != ""
      && Some(r.value.credits) == payload.value.creditsPurchased && r.value.credits != 0
      && r.value.packName == payload.value.packName
      && r.value.premium == payload.value.isPremium
  {
    if !SupportedProvider(provider) then Failure(UnsupportedProvider)
    else if payload.None? then Failure(MalformedPayload)
    else
      var p := payload.value;
      var buyer := BuyerField(provider, p);
      if !PresentText(buyer) || !PresentAmount(p.creditsPurchased) then Failure(MissingFields)
      else Success(Purchase(buyer.value, p.creditsPurchased.value, p.packName, p.isPremium))
  }

  /**
   * The ledger note of a purchase, as a template literal prints the pack
   * name: the pack text sits between a fixed prefix and suffix, so it can be
   * read back from the note.
   */
  function PurchaseNote(packName: PackName): (note: string)
    ensures |note| == 17 + |PackText(packName)|
    ensures note[..12] == "Purchase of " && note[|note| - 5..] == " pack"
    ensures note[12..|note| - 5] == PackText(packName)
    ensures packName.Absent? ==> note == "Purchase of undefined pack"
    ensures packName.Null? ==> note == "Purchase of null pack"
  {
    "Purchase of " + PackText(packName) + " pack"
  }

  function PackText(packName: PackName): string {
    match packName
    case Absent => "undefined"
    case Null => "null"
    case Named(name) => name
  }

  /**
   * The number of non-empty `/`-separated segments of a path: the document
   * reference `users/{uid}` resolves the buyer id as a path, not as one key.
   */
  function PathSegments(path: string): nat {
    if |path| == 0 then 0
    else
      var endsSegment := path[0] != '/' && (|path| == 1 || path[1] == '/');
      (if endsSegment then 1 else 0) + PathSegments(path[1..])
  }

  predicate HasEmptySegment(path: string) {
    exists i :: 0 <= i < |path| - 1 && path[i] == '/' && path[i + 1] == '/'
  }

  /**
   * Whether `users/{uid}` names a document: the path must not contain `//`,
   * and with the collection it must have an even number of segments.
   */
  predicate DocumentIdAccepted(uid: Uid) {
    !HasEmptySegment(uid) && PathSegments(uid) % 2 == 1
  }

  /** A slash-free id is one segment, so every non-empty such id names a user document. */
  lemma {:induction false} PlainIdIsOneSegment(uid: Uid)
    requires forall i :: 0 <= i < |uid| ==> uid[i] != '/'
    ensures PathSegments(uid) == (if |uid| == 0 then 0 else 1)
    ensures |uid| > 0 ==> DocumentIdAccepted(uid)
    decreases |uid|
  {
    if |uid| > 0 {
      assert forall i :: 0 <= i < |uid[1..]| ==> uid[1..][i] != '/' by {
        forall i | 0 <= i < |uid[1..]| ensures uid[1..][i] != '/' {
          assert uid[1..][i] == uid[i + 1];
        }
      }
      PlainIdIsOneSegment(uid[1..]);
    }
  }

  /**
   * A buyer id of two segments does not name a user document: a delivery
   * naming it is answered with an error and writes nothing.
   */
  lemma TwoSegmentIdRefused(s: Store, head: string, tail: string, credits: int, now: Time)
    requires |head| > 0 && |tail| > 0
    requires forall i :: 0 <= i < |head| ==> head[i] != '/'
    requires forall i :: 0 <= i < |tail| ==> tail[i] != '/'
    requires credits != 0
    ensures !DocumentIdAccepted(head + "/" + tail)
    ensures var r := HandleWebhook(s, "stripe", Some(Payload(Some(head + "/" + tail), None, Some(credits), Absent, false)), now);
      r.error == Some(InvalidDocumentPath) && r.store == s
  {
    var uid := head + "/" + tail;
    PathSegmentsConcat(head, "/" + tail);
    PlainIdIsOneSegment(head);
    assert ("/" + tail)[1..] == tail;
    PlainIdIsOneSegment(tail);
    assert PathSegments("/" + tail) == PathSegments(tail);
    assert uid == head + ("/" + tail);
  }

  /** Segments of a concatenation add up when a `/` starts the second part. */
  lemma {:induction false} PathSegmentsConcat(a: string, b: string)
    requires |b| > 0 && b[0] == '/'
    ensures PathSegments(a + b) == PathSegments(a) + PathSegments(b)
    decreases |a|
  {
    if |a| == 0 {
      assert a + b == b;
    } else {
      assert (a + b)[0] == a[0];
      assert (a + b)[1] == if |a| == 1 then b[0] else a[1];
      assert (a + b)[1..] == a[1..] + b;
      PathSegmentsConcat(a[1..], b);
    }
  }

  /** The writes of the purchase transaction on the snapshot it read. */
  function CreditWrite(s: Store, p: Purchase, now: Time): (w: Write)
    ensures w.uid == p.uid
    ensures w.account.creditsRemaining == Some(BalanceOf(s, p.uid) + p.credits)
    ensures w.entry == LedgerEntry(PurchaseEntry, p.credits, PurchaseNote(p.packName), now)
    // A premium purchase restarts the window at `now`, whatever was left of it.
    ensures p.premium ==>
      w.account.isPremium == Some(true) && w.account.premiumExpires == Some(now + PremiumDuration)
    // A first purchase creates the account, stamping its creation time.
    ensures p.uid !in s.users ==> w.account.createdAt == Some(now)
    ensures p.uid !in s.users && !p.premium ==> w.account.isPremium.None? && w.account.premiumExpires.None?
    // A later purchase keeps every field it does not write.
    ensures p.uid in s.users ==> w.account.createdAt == s.users[p.uid].createdAt
    ensures p.uid in s.users && !p.premium ==>
      w.account.isPremium == s.users[p.uid].isPremium && w.account.premiumExpires == s.users[p.uid].premiumExpires
  {
    var credits := Some(BalanceOf(s, p.uid) + p.credits);
    var entry := LedgerEntry(PurchaseEntry, p.credits, PurchaseNote(p.packName), now);
    if p.uid in s.users then
      var current := s.users[p.uid];
      var updated :=
        if p.premium then current.(creditsRemaining := credits, isPremium := Some(true), premiumExpires := Some(now + PremiumDuration))
        else current.(creditsRemaining := credits);
      Write(p.uid, updated, entry)
    else
      var created :=
        if p.premium then Account(credits, Some(true), Some(now + PremiumDuration), Some(now))
        else Account(credits, None, None, Some(now));
      Write(p.uid, created, entry)
  }

  /** One webhook delivery at `now`. */
  function HandleWebhook(s: Store, provider: string, payload: Option<Payload>, now: Time): (r: Reply<WebhookError>)
    // Rejections happen before any state change.
    ensures r.error.None? <==>
      ParsePurchase(provider, payload).Success? && DocumentIdAccepted(ParsePurchase(provider, payload).value.uid)
    ensures r.error.Some? ==> r.store == s
    ensures ParsePurchase(provider, payload).Failure? ==> r.error == Some(ParsePurchase(provider, payload).error)
    ensures ParsePurchase(provider, payload).Success? && !DocumentIdAccepted(ParsePurchase(provider, payload).value.uid) ==>
      r.error == Some(InvalidDocumentPath)
    // An accepted delivery credits the buyer by the amount it logs.
    ensures r.error.None? ==>
      var p := ParsePurchase(provider, payload).value;
      && AppendsOne(s, r.store, p.uid, LedgerEntry(PurchaseEntry, p.credits, PurchaseNote(p.packName), now))
      && r.store.users[p.uid] == CreditWrite(s, p, now).account
  {
    match ParsePurchase(provider, payload)
    case Failure(e) => Reply(s, Some(e))
    case Success(p) =>
      if !DocumentIdAccepted(p.uid) then Reply(s, Some(InvalidDocumentPath))
      else RunTransaction(s, Success(CreditWrite(s, p, now)))
  }
}
