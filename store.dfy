/**
 * The account store boundary: rows keyed by user id, changed only through the
 * conditional decrement, the unconditional increment and the whole-row save
 * that the ledger issues.
 */
module AccountStore {
  import opened Wrappers

  type UserId = nat

  /**
   * One user row: the balance ("surplus_number"), the optional link to a
   * superior account, and membership of the partner group.
   */
  datatype Account = Account(id: UserId, balance: nat, superior: Option<UserId>, isPartner: bool)

  type Accounts = map<UserId, Account>

  /** Every row is stored under its own primary key. */
  ghost predicate WellFormed(accounts: Accounts) {
    forall k :: k in accounts ==> accounts[k].id == k
  }

  /** The stored balance of an id, 0 for a missing row. */
  function Balance(accounts: Accounts, id: UserId): nat {
    if id in accounts then accounts[id].balance else 0
  }

  /** What an update statement reports: rows affected and the store afterwards. */
  datatype Update = Update(rows: nat, accounts: Accounts)

  /**
   * `filter(pk=id, surplus_number__gte=amount).update(surplus_number=F - amount)`:
   * one atomic compare-and-decrement.
   */
  function DecrementIfCovered(accounts: Accounts, id: UserId, amount: nat): (u: Update)
    ensures u.rows <= 1
    ensures u.rows == 1 <==> id in accounts && accounts[id].balance >= amount
    ensures u.accounts.Keys == accounts.Keys
    ensures u.rows == 1 ==> u.accounts[id] == accounts[id].(balance := accounts[id].balance - amount)
    ensures forall k :: k in accounts && (k != id || u.rows == 0) ==> u.accounts[k] == accounts[k]
  {
    if id in accounts && accounts[id].balance >= amount then
      Update(1, accounts[id := accounts[id].(balance := accounts[id].balance - amount)])
    else
      Update(0, accounts)
  }

  /** `filter(pk=id).update(surplus_number=F + amount)`: unconditional increment. */
  function Increment(accounts: Accounts, id: UserId, amount: nat): (u: Update)
    ensures u.rows <= 1
    ensures u.rows == 1 <==> id in accounts
    ensures u.accounts.Keys == accounts.Keys
    ensures u.rows == 1 ==> u.accounts[id] == accounts[id].(balance := accounts[id].balance + amount)
    ensures forall k :: k in accounts && (k != id || u.rows == 0) ==> u.accounts[k] == accounts[k]
  {
    if id in accounts then
      Update(1, accounts[id := accounts[id].(balance := accounts[id].balance + amount)])
    else
      Update(0, accounts)
  }

  /**
   * `user.save()`: writes every column of the in-memory object back, whatever
   * the row holds now (inserting it if it is gone). Group membership is not a
   * column, so it keeps its stored value (none for a fresh row).
   */
  function Save(accounts: Accounts, snapshot: Account): (r: Accounts)
    ensures r.Keys == accounts.Keys + {snapshot.id}
    ensures r[snapshot.id].balance == snapshot.balance && r[snapshot.id].superior == snapshot.superior
    ensures r[snapshot.id].id == snapshot.id
    ensures forall k :: k in accounts && k != snapshot.id ==> r[k] == accounts[k]
  {
    var member := snapshot.id in accounts && accounts[snapshot.id].isPartner;
    accounts[snapshot.id := snapshot.(isPartner := member)]
  }

  /** The only balance mutations the store exposes to concurrent callers. */
  datatype StoreOp = Decrement(id: UserId, amount: nat) | Credit(id: UserId, amount: nat)

  function Apply(accounts: Accounts, op: StoreOp): Update {
    match op
    case Decrement(id, amount) => DecrementIfCovered(accounts, id, amount)
    case Credit(id, amount) => Increment(accounts, id, amount)
  }

  /** The store after a sequence of atomic operations, and the operations that affected a row. */
  datatype Trace = Trace(accounts: Accounts, committed: seq<StoreOp>)

  function Run(accounts: Accounts, ops: seq<StoreOp>): (t: Trace)
    decreases |ops|
  {
    if ops == [] then Trace(accounts, [])
    else
      var u := Apply(accounts, ops[0]);
      var rest := Run(u.accounts, ops[1..]);
      Trace(rest.accounts, if u.rows == 1 then [ops[0]] + rest.committed else rest.committed)
  }

  /** Total amount of committed decrements against one id. */
  function Debited(ops: seq<StoreOp>, id: UserId): nat {
    if ops == [] then 0
    else (if ops[0].Decrement? && ops[0].id == id then ops[0].amount else 0) + Debited(ops[1..], id)
  }

  /** Total amount of committed credits to one id. */
  function Credited(ops: seq<StoreOp>, id: UserId): nat {
    if ops == [] then 0
    else (if ops[0].Credit? && ops[0].id == id then ops[0].amount else 0) + Credited(ops[1..], id)
  }

  /**
   * Conservation under any interleaving of atomic store operations: no row
   * appears or disappears, and every balance ends at its start minus the
   * committed decrements plus the committed credits (balances are `nat`, so
   * none ever goes negative on the way).
   */
  lemma {:induction false} Conservation(accounts: Accounts, ops: seq<StoreOp>)
    ensures Run(accounts, ops).accounts.Keys == accounts.Keys
    ensures forall id :: id in accounts ==>
      Run(accounts, ops).accounts[id].balance + Debited(Run(accounts, ops).committed, id)
      == accounts[id].balance + Credited(Run(accounts, ops).committed, id)
    decreases |ops|
  {
    if ops != [] {
      var u := Apply(accounts, ops[0]);
      var rest := Run(u.accounts, ops[1..]);
      Conservation(u.accounts, ops[1..]);
      var t := Run(accounts, ops);
      forall id | id in accounts
        ensures t.accounts[id].balance + Debited(t.committed, id) == accounts[id].balance + Credited(t.committed, id)
      {
        if u.rows == 1 {
          assert t.committed[1..] == rest.committed;
        }
      }
    }
  }

  /** A committed decrement never takes a row below zero: it only commits when covered. */
  lemma {:induction false} CommittedDecrementsWereCovered(accounts: Accounts, ops: seq<StoreOp>, id: UserId)
    requires id in accounts
    ensures Debited(Run(accounts, ops).committed, id) <= accounts[id].balance + Credited(Run(accounts, ops).committed, id)
  {
    Conservation(accounts, ops);
  }

  /**
   * The whole-row save is not one of the conservative operations: a credit
   * that commits between reading a snapshot and saving it zeroed is wiped out.
   */
  lemma SaveAfterCreditLosesCredit(accounts: Accounts, snapshot: Account, amount: nat)
    requires snapshot.id in accounts && accounts[snapshot.id] == snapshot
    ensures var credited := Increment(accounts, snapshot.id, amount).accounts;
            Save(credited, snapshot.(balance := 0))[snapshot.id].balance == 0
            && credited[snapshot.id].balance == snapshot.balance + amount
  {
  }
}
