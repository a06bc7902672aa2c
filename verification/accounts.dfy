/**
 * The ledger store: one account document per user and, beside it, that
 * user's append-only ledger of balance-changing entries. A transaction reads
 * the store, decides, and then either aborts or commits one account write
 * together with one ledger append.
 */
module Accounts {
  import opened Wrappers

  /** An opaque user identifier (a document key). */
  type Uid = string

  /** A point in time, in milliseconds since the epoch. */
  type Time = int

  /**
   * The `users/{uid}` document. Every field is optional, as in a schemaless
   * document: an account created by a non-premium purchase has no premium
   * fields at all, and an account written by other code may lack a balance.
   */
  datatype Account = Account(
    creditsRemaining: Option<int>,
    isPremium: Option<bool>,
    premiumExpires: Option<Time>,
    createdAt: Option<Time>)

  datatype EntryKind = DebitEntry | PurchaseEntry

  /**
   * One `users/{uid}/ledger/{id}` document: the signed change it records,
   * the context (the model name of a tool run, the pack description of a
   * purchase) and the commit time.
   */
  datatype LedgerEntry = LedgerEntry(kind: EntryKind, amount: int, note: string, ts: Time)

  /** All account documents and all ledgers, each ledger in commit order. */
  datatype Store = Store(users: map<Uid, Account>, ledgers: map<Uid, seq<LedgerEntry>>)

  const EmptyStore: Store := Store(map[], map[])

  /** The balance as the handlers read it: an absent field reads as 0. */
  function Credits(a: Account): int {
    a.creditsRemaining.GetOr(0)
  }

  /** The balance of `uid`, reading an absent account as 0, as a purchase does. */
  function BalanceOf(s: Store, uid: Uid): int {
    if uid in s.users then Credits(s.users[uid]) else 0
  }

  /** The ledger of `uid`; a user nobody has written to has an empty one. */
  function LedgerOf(s: Store, uid: Uid): seq<LedgerEntry> {
    if uid in s.ledgers then s.ledgers[uid] else []
  }

  /** The sum of the signed amounts of a ledger. */
  function Sum(entries: seq<LedgerEntry>): int {
    if |entries| == 0 then 0 else entries[0].amount + Sum(entries[1..])
  }

  /** Appending one entry adds exactly its amount to the ledger's sum. */
  lemma {:induction false} SumAppend(entries: seq<LedgerEntry>, e: LedgerEntry)
    ensures Sum(entries + [e]) == Sum(entries) + e.amount
  {
    if |entries| == 0 {
      assert entries + [e] == [e];
    } else {
      assert (entries + [e])[1..] == entries[1..] + [e];
      SumAppend(entries[1..], e);
    }
  }

  /** Neither the account nor the ledger of `uid` differs between `s` and `t`. */
  ghost predicate Untouched(s: Store, t: Store, uid: Uid) {
    && (uid in s.users <==> uid in t.users)
    && (uid in s.users ==> s.users[uid] == t.users[uid])
    && LedgerOf(t, uid) == LedgerOf(s, uid)
  }

  /**
   * `t` is `s` with one entry `e` appended to the ledger of `uid`, the
   * balance of `uid` moved by exactly `e.amount`, and every other user's
   * account and ledger left alone.
   */
  ghost predicate AppendsOne(s: Store, t: Store, uid: Uid, e: LedgerEntry) {
    && uid in t.users
    && LedgerOf(t, uid) == LedgerOf(s, uid) + [e]
    && BalanceOf(t, uid) == BalanceOf(s, uid) + e.amount
    && forall u :: u != uid ==> Untouched(s, t, u)
  }

  /** The writes of one transaction: one account document and one ledger entry. */
  datatype Write = Write(uid: Uid, account: Account, entry: LedgerEntry)

  /** Applies the writes of a transaction together. */
  function Commit(s: Store, w: Write): (t: Store)
    ensures w.uid in t.users && t.users[w.uid] == w.account
    ensures LedgerOf(t, w.uid) == LedgerOf(s, w.uid) + [w.entry]
    ensures forall u :: u != w.uid ==> Untouched(s, t, u)
  {
    Store(s.users[w.uid := w.account], s.ledgers[w.uid := LedgerOf(s, w.uid) + [w.entry]])
  }

  /** The store after a transaction, and the error it aborted with, if any. */
  datatype Reply<+E> = Reply(store: Store, error: Option<E>)

  /**
   * One atomic transaction: a body that decided to abort leaves the store as
   * it was; a body that decided to write has all its writes committed.
   */
  function RunTransaction<E>(s: Store, body: Result<Write, E>): (r: Reply<E>)
    ensures r.error.Some? <==> body.Failure?
    ensures body.Failure? ==> r.store == s && r.error == Some(body.error)
    ensures body.Success? ==> r.store == Commit(s, body.value)
  {
    match body
    case Failure(e) => Reply(s, Some(e))
    case Success(w) => Reply(Commit(s, w), None)
  }

  /** Every balance is the sum of its ledger (an absent account has balance 0). */
  ghost predicate Consistent(s: Store) {
    forall u :: BalanceOf(s, u) == Sum(LedgerOf(s, u))
  }

  /** No balance is negative. */
  ghost predicate NonNegative(s: Store) {
    forall u :: BalanceOf(s, u) >= 0
  }

  /** A step that logs exactly the change it makes keeps balances equal to ledger sums. */
  lemma AppendKeepsConsistent(s: Store, t: Store, uid: Uid, e: LedgerEntry)
    requires Consistent(s)
    requires AppendsOne(s, t, uid, e)
    ensures Consistent(t)
  {
    forall u
      ensures BalanceOf(t, u) == Sum(LedgerOf(t, u))
    {
      if u == uid {
        SumAppend(LedgerOf(s, uid), e);
      } else {
        assert Untouched(s, t, u);
      }
    }
  }
}
