/**
 * The balance ledger: the Balance collection (server/models/Balance.ts) and
 * the service over it (server/services/BalanceService.ts).
 *
 * The collection is a map from `userId` to its record, so there is at most
 * one record per user (the unique index). `save()` is modelled with the
 * schema's validator `min: 0`: a record whose balance would drop below 0 is
 * not written and the call fails.
 */
module Balances {
  import opened Common

  datatype Balance = Balance(userId: string, balance: real, currency: string, lastUpdated: int)

  type Ledger = map<string, Balance>

  /** `new Balance({ userId })`: the schema defaults. */
  function NewBalance(userId: string, now: int): Balance
  {
    Balance(userId, 0.0, Etb, now)
  }

  /**
   * Stands for the validation error `save()` raises for a negative balance.
   * The words are not the library's exact message; the model only tells
   * this error apart from the others.
   */
  const BelowMinimum: string := "Balance validation failed: balance below minimum 0"

  /** What `save()` accepts: the `min: 0` validator on `balance`. */
  predicate Storable(b: Balance)
  {
    b.balance >= 0.0
  }

  /** Every stored record is keyed by its own `userId` and passed validation. */
  predicate LedgerValid(l: Ledger)
  {
    forall u :: u in l ==> l[u].userId == u && Storable(l[u])
  }

  /** The amount a missing record stands for (`findOne(...) || new Balance(...)`). */
  function AmountOf(l: Ledger, userId: string): real
  {
    if userId in l then l[userId].balance else 0.0
  }

  /** `getOrCreateBalance`: the store after the call, and the record returned. */
  function GetOrCreate(l: Ledger, userId: string, now: int): (r: (Ledger, Balance))
    requires LedgerValid(l)
    ensures LedgerValid(r.0)
    ensures userId in r.0 && r.1 == r.0[userId]
    ensures userId in l ==> r.0 == l
    ensures userId !in l ==> r.0 == l[userId := NewBalance(userId, now)]
  {
    if userId in l then (l, l[userId]) else
    var b := NewBalance(userId, now);
    (l[userId := b], b)
  }

  /**
   * The record method `incrementBalance` on a loaded record: adds `amount`
   * (of any sign) and saves; the save is refused when the result is negative.
   */
  function IncrementRecord(l: Ledger, userId: string, amount: real, now: int): (r: (Ledger, Result<Balance>))
    requires LedgerValid(l) && userId in l
    ensures LedgerValid(r.0)
    ensures r.1.Ok? <==> l[userId].balance + amount >= 0.0
    ensures r.1.Ok? ==> (r.0 == l[userId := l[userId].(balance := l[userId].balance + amount, lastUpdated := now)]
                         && r.1.value == r.0[userId])
    ensures r.1.Err? ==> r.0 == l
  {
    var b := l[userId].(balance := l[userId].balance + amount, lastUpdated := now);
    if Storable(b) then (l[userId := b], Ok(b)) else (l, Err(BelowMinimum))
  }

  /** `BalanceService.incrementBalance`: get-or-create, then the record increment. */
  function Increment(l: Ledger, userId: string, amount: real, now: int): (r: (Ledger, Result<Balance>))
    requires LedgerValid(l)
    ensures LedgerValid(r.0)
  {
    var (l1, _) := GetOrCreate(l, userId, now);
    var (l2, res) := IncrementRecord(l1, userId, amount, now);
    (l2, if res.Ok? then res else Err("Failed to increment balance: " + res.message))
  }

  /** `BalanceService.decrementBalance`: get-or-create, refuse when short, subtract. */
  function Decrement(l: Ledger, userId: string, amount: real, now: int): (r: (Ledger, Result<Balance>))
    requires LedgerValid(l)
    ensures LedgerValid(r.0)
  {
    var (l1, b) := GetOrCreate(l, userId, now);
    if b.balance < amount then (l1, Err("Failed to decrement balance: Insufficient balance"))
    else
      var b' := b.(balance := b.balance - amount, lastUpdated := now);
      if Storable(b') then (l1[userId := b'], Ok(b'))
      else (l1, Err("Failed to decrement balance: " + BelowMinimum))
  }

  /** A missing user gets a zero ETB record; an existing record is returned as it is. */
  lemma GetOrCreateContract(l: Ledger, userId: string, now: int)
    requires LedgerValid(l)
    ensures var (l', b) := GetOrCreate(l, userId, now);
      && l'.Keys == l.Keys + {userId}
      && (userId in l ==> b == l[userId])
      && (userId !in l ==> b.balance == 0.0 && b.currency == Etb && b.userId == userId)
  {
  }

  /** Reading a balance changes no amount: a missing record is created at zero. */
  lemma GetOrCreateKeepsAmounts(l: Ledger, userId: string, now: int)
    requires LedgerValid(l)
    ensures forall u :: AmountOf(GetOrCreate(l, userId, now).0, u) == AmountOf(l, u)
  {
  }

  /** The service increment adds exactly `amount` to the user's record and touches no other user. */
  lemma IncrementAddsAmount(l: Ledger, userId: string, amount: real, now: int)
    requires LedgerValid(l)
    ensures var (l', res) := Increment(l, userId, amount, now);
      && userId in l'
      && (res.Ok? <==> AmountOf(l, userId) + amount >= 0.0)
      && (res.Ok? ==> l'[userId].balance == AmountOf(l, userId) + amount && res.value == l'[userId])
      && (res.Err? ==> l'[userId].balance == AmountOf(l, userId))
      && (forall u :: u != userId ==> (u in l' <==> u in l) && (u in l ==> l'[u] == l[u]))
  {
  }

  /** A short balance refuses the decrement ("Insufficient balance") and keeps the amount. */
  lemma DecrementRefusesWhenShort(l: Ledger, userId: string, amount: real, now: int)
    requires LedgerValid(l)
    ensures var (l', res) := Decrement(l, userId, amount, now);
      && (res.Err? <==> AmountOf(l, userId) < amount)
      && AmountOf(l', userId) == (if res.Ok? then AmountOf(l, userId) - amount else AmountOf(l, userId))
      && (forall u :: u != userId ==> (u in l' <==> u in l) && (u in l ==> l'[u] == l[u]))
  {
  }

  /** Credit followed by debit of the same non-negative amount succeeds and restores the amount. */
  lemma IncrementThenDecrementRestores(l: Ledger, userId: string, x: real, now1: int, now2: int)
    requires LedgerValid(l) && x >= 0.0
    ensures var (l1, r1) := Increment(l, userId, x, now1);
      var (l2, r2) := Decrement(l1, userId, x, now2);
      r1.Ok? && r2.Ok? && AmountOf(l2, userId) == AmountOf(l, userId)
  {
    IncrementAddsAmount(l, userId, x, now1);
    var (l1, r1) := Increment(l, userId, x, now1);
    DecrementRefusesWhenShort(l1, userId, x, now2);
  }

  /**
   * The Balance collection together with the operations of BalanceService.
   * A failed call of a service operation raises its error; a store that
   * cannot be reached is an explicit `storeFails` input where the source
   * catches the error and answers with a default.
   */
  class BalanceStore {
    var records: Ledger

    ghost predicate Valid()
      reads this
    {
      LedgerValid(records)
    }

    constructor ()
      ensures Valid() && records == map[]
    {
      records := map[];
    }

    /** `Balance.getOrCreateBalance` and `BalanceService.getBalance`. */
    method GetBalance(userId: string, now: int) returns (b: Balance)
      requires Valid()
      modifies this
      ensures Valid()
      ensures (records, b) == GetOrCreate(old(records), userId, now)
    {
      var r := GetOrCreate(records, userId, now);
      records := r.0;
      b := r.1;
    }

    /** `BalanceService.incrementBalance`. */
    method IncrementBalance(userId: string, amount: real, now: int) returns (res: Result<Balance>)
      requires Valid()
      modifies this
      ensures Valid()
      ensures (records, res) == Increment(old(records), userId, amount, now)
    {
      var b := GetBalance(userId, now);
      var newBalance := b.balance + amount;
      var updated := b.(balance := newBalance, lastUpdated := now);
      if Storable(updated) {
        records := records[userId := updated];
        res := Ok(updated);
      } else {
        res := Err("Failed to increment balance: " + BelowMinimum);
      }
    }

    /** `BalanceService.decrementBalance`. */
    method DecrementBalance(userId: string, amount: real, now: int) returns (res: Result<Balance>)
      requires Valid()
      modifies this
      ensures Valid()
      ensures (records, res) == Decrement(old(records), userId, amount, now)
    {
      var b := GetBalance(userId, now);
      if b.balance < amount {
        return Err("Failed to decrement balance: Insufficient balance");
      }
      var updated := b.(balance := b.balance - amount, lastUpdated := now);
      if Storable(updated) {
        records := records[userId := updated];
        res := Ok(updated);
      } else {
        res := Err("Failed to decrement balance: " + BelowMinimum);
      }
    }

    /** `BalanceService.checkBalance`: `balance >= amount`, and false when the store fails. */
    method CheckBalance(userId: string, amount: real, now: int, storeFails: bool) returns (ok: bool)
      requires Valid()
      modifies this
      ensures Valid()
      ensures storeFails ==> !ok && records == old(records)
      ensures !storeFails ==> (records == GetOrCreate(old(records), userId, now).0
                               && (ok <==> AmountOf(old(records), userId) >= amount))
    {
      if storeFails {
        return false;
      }
      var b := GetBalance(userId, now);
      ok := b.balance >= amount;
    }

    /** `BalanceService.getBalanceAmount`: the numeric balance, and 0 when the store fails. */
    method GetBalanceAmount(userId: string, now: int, storeFails: bool) returns (x: real)
      requires Valid()
      modifies this
      ensures Valid()
      ensures storeFails ==> x == 0.0 && records == old(records)
      ensures !storeFails ==> (records == GetOrCreate(old(records), userId, now).0
                               && x == AmountOf(old(records), userId))
    {
      if storeFails {
        return 0.0;
      }
      var b := GetBalance(userId, now);
      x := b.balance;
    }
  }
}
