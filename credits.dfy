/** The credit ledger of lib/credits.ts: a balance per user (the `credits` column of the
    user table) and an append-only log of credit transactions. The class `Ledger` is the
    stored state; `Debit` and `Credit` are the state transitions of `deductCredits` and
    `addCredits`, against which its methods are proved. */
module Credits {
  import opened Common

  type UserId = string

  /** `CREDITS_PER_UPSCALE`. */
  const CreditsPerUpscale: int := 4

  /** `hasEnoughCredits`. */
  function HasEnoughCredits(currentCredits: int): (b: bool)
    ensures b <==> currentCredits >= CreditsPerUpscale
  {
    currentCredits >= CreditsPerUpscale
  }

  lemma HasEnoughCreditsPinned()
    ensures HasEnoughCredits(10) && HasEnoughCredits(4)
    ensures !HasEnoughCredits(3) && !HasEnoughCredits(0)
  {
  }

  /** The `type` column of a credit transaction. */
  datatype TxnType = Usage | Purchase | SubscriptionRenewal | Bonus | Refund

  /** One row of the credit transaction log. */
  datatype Txn = Txn(userId: UserId, amount: int, kind: TxnType,
                     lsOrderId: Option<string>, jobId: Option<string>)

  datatype LedgerState = LedgerState(balances: map<UserId, int>, log: seq<Txn>)

  /** `deductCredits` throws "Insufficient credits"; `addCredits`'s update of a missing
      user row throws as well. */
  datatype LedgerError = InsufficientCredits | UserNotFound

  /** The sum of the amounts of `u`'s entries in `log`. */
  function SumFor(log: seq<Txn>, u: UserId): int
  {
    if log == [] then 0
    else (if log[0].userId == u then log[0].amount else 0) + SumFor(log[1..], u)
  }

  lemma {:induction false} SumForAppend(log: seq<Txn>, t: Txn, u: UserId)
    ensures SumFor(log + [t], u) == SumFor(log, u) + (if t.userId == u then t.amount else 0)
  {
    if log != [] {
      assert (log + [t])[1..] == log[1..] + [t];
      SumForAppend(log[1..], t, u);
    }
  }

  /** The ledger invariant: the users are those of the opening balances, every balance is
      its opening balance plus the sum of that user's log entries, and every entry belongs
      to a known user. */
  ghost predicate Consistent(s: LedgerState, opening: map<UserId, int>) {
    && s.balances.Keys == opening.Keys
    && (forall u :: u in s.balances ==> s.balances[u] == opening[u] + SumFor(s.log, u))
    && (forall i :: 0 <= i < |s.log| ==> s.log[i].userId in s.balances)
  }

  /** `getUserCredits` on a state: the stored balance, 0 for an unknown user. */
  function CreditsOf(s: LedgerState, u: UserId): (c: int)
    ensures u in s.balances ==> c == s.balances[u]
    ensures u !in s.balances ==> c == 0
  {
    if u in s.balances then s.balances[u] else 0
  }

  /** The transition of `deductCredits(u, amount, jobId)`. */
  function Debit(s: LedgerState, u: UserId, amount: int, jobId: string): (r: Result<LedgerState, LedgerError>)
    ensures r.Err? <==> u !in s.balances || s.balances[u] < amount
    ensures r.Err? ==> r.error == InsufficientCredits
    ensures r.Ok? ==> && r.value.balances.Keys == s.balances.Keys
                      && r.value.balances[u] == s.balances[u] - amount
                      && (forall v :: v in s.balances && v != u ==> r.value.balances[v] == s.balances[v])
    ensures r.Ok? ==> && |r.value.log| == |s.log| + 1
                      && r.value.log[..|s.log|] == s.log
                      && r.value.log[|s.log|] == Txn(u, -amount, Usage, None, Some(jobId))
    ensures r.Ok? && amount >= 0 ==> r.value.balances[u] >= 0
  {
    if u !in s.balances || s.balances[u] < amount then Err(InsufficientCredits)
    else
      var log' := s.log + [Txn(u, -amount, Usage, None, Some(jobId))];
      assert log'[..|s.log|] == s.log;
      Ok(LedgerState(s.balances[u := s.balances[u] - amount], log'))
  }

  /** The transition of `addCredits(u, amount, kind, { lsOrderId, jobId })`. */
  function Credit(s: LedgerState, u: UserId, amount: int, kind: TxnType,
                  lsOrderId: Option<string>, jobId: Option<string>): (r: Result<LedgerState, LedgerError>)
    requires kind != Usage
    ensures r.Err? <==> u !in s.balances
    ensures r.Err? ==> r.error == UserNotFound
    ensures r.Ok? ==> && r.value.balances.Keys == s.balances.Keys
                      && r.value.balances[u] == s.balances[u] + amount
                      && (forall v :: v in s.balances && v != u ==> r.value.balances[v] == s.balances[v])
    ensures r.Ok? ==> && |r.value.log| == |s.log| + 1
                      && r.value.log[..|s.log|] == s.log
                      && r.value.log[|s.log|] == Txn(u, amount, kind, lsOrderId, jobId)
  {
    if u !in s.balances then Err(UserNotFound)
    else
      var log' := s.log + [Txn(u, amount, kind, lsOrderId, jobId)];
      assert log'[..|s.log|] == s.log;
      Ok(LedgerState(s.balances[u := s.balances[u] + amount], log'))
  }

  /** Appending one entry for a known user and moving that user's balance by its amount
      keeps the ledger consistent. */
  lemma AppendPreservesConsistency(s: LedgerState, opening: map<UserId, int>, s': LedgerState, t: Txn)
    requires Consistent(s, opening)
    requires t.userId in s.balances
    requires s'.log == s.log + [t]
    requires s'.balances == s.balances[t.userId := s.balances[t.userId] + t.amount]
    ensures Consistent(s', opening)
  {
    forall v | v in s'.balances ensures s'.balances[v] == opening[v] + SumFor(s'.log, v) {
      SumForAppend(s.log, t, v);
    }
    forall i | 0 <= i < |s'.log| ensures s'.log[i].userId in s'.balances {
      if i < |s.log| { assert s'.log[i] == s.log[i]; }
    }
  }

  lemma DebitPreservesConsistency(s: LedgerState, opening: map<UserId, int>, u: UserId, amount: int, jobId: string)
    requires Consistent(s, opening)
    ensures Debit(s, u, amount, jobId).Ok? ==> Consistent(Debit(s, u, amount, jobId).value, opening)
  {
    var r := Debit(s, u, amount, jobId);
    if r.Ok? {
      var t := Txn(u, -amount, Usage, None, Some(jobId));
      assert r.value.log == s.log + [t];
      assert r.value.balances == s.balances[u := s.balances[u] + t.amount];
      AppendPreservesConsistency(s, opening, r.value, t);
    }
  }

  lemma CreditPreservesConsistency(s: LedgerState, opening: map<UserId, int>, u: UserId, amount: int,
                                   kind: TxnType, lsOrderId: Option<string>, jobId: Option<string>)
    requires kind != Usage
    requires Consistent(s, opening)
    ensures Credit(s, u, amount, kind, lsOrderId, jobId).Ok? ==>
              Consistent(Credit(s, u, amount, kind, lsOrderId, jobId).value, opening)
  {
    var r := Credit(s, u, amount, kind, lsOrderId, jobId);
    if r.Ok? {
      var t := Txn(u, amount, kind, lsOrderId, jobId);
      assert r.value.log == s.log + [t];
      assert r.value.balances == s.balances[u := s.balances[u] + t.amount];
      AppendPreservesConsistency(s, opening, r.value, t);
    }
  }

  /** A debit of the per-upscale cost followed by the refund of the same job leaves every
      balance where it was, with the two entries `-4 usage` and `+4 refund` in the log. */
  lemma DebitThenRefundNetZero(s: LedgerState, u: UserId, jobId: string)
    requires Debit(s, u, CreditsPerUpscale, jobId).Ok?
    ensures var s1 := Debit(s, u, CreditsPerUpscale, jobId).value;
            var r := Credit(s1, u, CreditsPerUpscale, Refund, None, Some(jobId));
            && r.Ok?
            && r.value.balances == s.balances
            && r.value.log == s.log + [Txn(u, -CreditsPerUpscale, Usage, None, Some(jobId)),
                                       Txn(u, CreditsPerUpscale, Refund, None, Some(jobId))]
  {
    var s1 := Debit(s, u, CreditsPerUpscale, jobId).value;
    var s2 := Credit(s1, u, CreditsPerUpscale, Refund, None, Some(jobId)).value;
    assert s1.log == s.log + [Txn(u, -CreditsPerUpscale, Usage, None, Some(jobId))];
    assert s2.log == s1.log + [Txn(u, CreditsPerUpscale, Refund, None, Some(jobId))];
  }

  class Ledger {
    var balances: map<UserId, int>
    var log: seq<Txn>
    /** The balances users had before the first logged transaction. */
    ghost const opening: map<UserId, int>

    function State(): LedgerState
      reads this
    {
      LedgerState(balances, log)
    }

    ghost predicate Valid()
      reads this
    {
      Consistent(State(), opening)
    }

    constructor (initial: map<UserId, int>)
      ensures Valid()
      ensures balances == initial && log == [] && opening == initial
    {
      balances := initial;
      log := [];
      opening := initial;
    }

    /** `getUserCredits`: the balance derived from the log, 0 for an unknown user. */
    function GetUserCredits(u: UserId): (c: int)
      reads this
      requires Valid()
      ensures c == CreditsOf(State(), u)
      ensures u in opening ==> c == opening[u] + SumFor(log, u)
      ensures u !in opening ==> c == 0
    {
      if u in balances then balances[u] else 0
    }

    /** `deductCredits`: returns the new balance, or fails with no change. */
    method DeductCredits(u: UserId, amount: int, jobId: string) returns (r: Result<int, LedgerError>)
      requires Valid()
      modifies this
      ensures Valid()
      ensures Debit(old(State()), u, amount, jobId).Ok? ==>
                State() == Debit(old(State()), u, amount, jobId).value && r == Ok(balances[u])
      ensures Debit(old(State()), u, amount, jobId).Err? ==>
                State() == old(State()) && r == Err(InsufficientCredits)
    {
      DebitPreservesConsistency(State(), opening, u, amount, jobId);
      if u !in balances || balances[u] < amount {
        return Err(InsufficientCredits);
      }
      balances := balances[u := balances[u] - amount];
      log := log + [Txn(u, -amount, Usage, None, Some(jobId))];
      r := Ok(balances[u]);
    }

    /** `addCredits`: returns the new balance; only the update of a missing user fails. */
    method AddCredits(u: UserId, amount: int, kind: TxnType, lsOrderId: Option<string>, jobId: Option<string>)
      returns (r: Result<int, LedgerError>)
      requires Valid()
      requires kind != Usage
      modifies this
      ensures Valid()
      ensures Credit(old(State()), u, amount, kind, lsOrderId, jobId).Ok? ==>
                State() == Credit(old(State()), u, amount, kind, lsOrderId, jobId).value && r == Ok(balances[u])
      ensures Credit(old(State()), u, amount, kind, lsOrderId, jobId).Err? ==>
                State() == old(State()) && r == Err(UserNotFound)
    {
      CreditPreservesConsistency(State(), opening, u, amount, kind, lsOrderId, jobId);
      if u !in balances {
        return Err(UserNotFound);
      }
      balances := balances[u := balances[u] + amount];
      log := log + [Txn(u, amount, kind, lsOrderId, jobId)];
      r := Ok(balances[u]);
    }
  }
}
