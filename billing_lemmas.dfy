/** What the balance ledger promises, proved about its state machine. */
module BillingLemmas {
  import opened Wrappers
  import opened AccountStore
  import opened Cost
  import opened Strategy
  import opened Billing

  /** The snapshot agrees with the stored row. */
  predicate Fresh(db: Db, user: Account) {
    user.id in db.accounts && db.accounts[user.id] == user
  }

  /** A cost of zero succeeds with nothing deducted and touches nothing. */
  lemma ZeroCostChangesNothing(
    db: Db, ents: set<Entitlement>, user: Account, tokens: int, useType: string,
    store: Option<StoreId>, m: Multiplier, now: int)
    requires tokens <= 0 || m.num == 0
    ensures DeductBalanceByTokens(db, ents, user, tokens, useType, store, m, now) == Step(db, Charged(0, user.balance))
  {
    TokenCostZeroIff(tokens, m);
  }

  /**
   * Normal mode, covered stored balance: the user's row drops by exactly the
   * cost, nothing else changes, and one record and one alert are written.
   */
  lemma NormalCommitDebitsExactlyCost(
    db: Db, ents: set<Entitlement>, user: Account, tokens: int, useType: string,
    store: Option<StoreId>, m: Multiplier, now: int)
    requires !HasPartnerSuperior(user, db.accounts)
    requires TokenCost(tokens, m) > 0
    requires user.balance >= BaseCost(tokens)
    requires user.id in db.accounts && db.accounts[user.id].balance >= TokenCost(tokens, m)
    ensures var cost := TokenCost(tokens, m);
            var left := db.accounts[user.id].balance - cost;
            DeductBalanceByTokens(db, ents, user, tokens, useType, store, m, now)
            == Step(Db(db.accounts[user.id := db.accounts[user.id].(balance := left)],
                       db.usage + [UsageRecord(user.id, user.id, cost, left, useType, tokens, StoreFor(useType, store))],
                       db.notices,
                       db.alerts + [Alert(user.id, left)]),
                    Charged(cost, left))
  {
  }

  /**
   * Normal mode, the snapshot covers the unmultiplied cost but the stored row
   * does not cover the charged cost: a concurrent conflict, nothing changes.
   */
  lemma NormalStoreShortIsConflict(
    db: Db, ents: set<Entitlement>, user: Account, tokens: int, useType: string,
    store: Option<StoreId>, m: Multiplier, now: int)
    requires !HasPartnerSuperior(user, db.accounts)
    requires TokenCost(tokens, m) > 0
    requires user.balance >= BaseCost(tokens)
    requires Balance(db.accounts, user.id) < TokenCost(tokens, m)
    ensures DeductBalanceByTokens(db, ents, user, tokens, useType, store, m, now) == Step(db, Conflict(Normal))
  {
  }

  /**
   * The pre-check uses the unmultiplied cost and the decrement the
   * multiplied one: with a fresh snapshot whose balance lies between the
   * two, the call is a conflict with no mutation and no remainder consumed.
   */
  lemma NormalMultiplierGapIsConflict(
    db: Db, ents: set<Entitlement>, user: Account, tokens: int, useType: string,
    store: Option<StoreId>, m: Multiplier, now: int)
    requires Fresh(db, user) && !HasPartnerSuperior(user, db.accounts)
    requires BaseCost(tokens) <= user.balance < TokenCost(tokens, m)
    ensures DeductBalanceByTokens(db, ents, user, tokens, useType, store, m, now) == Step(db, Conflict(Normal))
  {
    NormalStoreShortIsConflict(db, ents, user, tokens, useType, store, m, now);
  }

  /**
   * Normal mode, the snapshot does not cover the unmultiplied cost: the call
   * fails, the row is saved with balance 0, the remainder is recorded exactly
   * when there was one, and the user gets exactly one notice.
   */
  lemma NormalShortfallConsumesRemainder(
    db: Db, ents: set<Entitlement>, user: Account, tokens: int, useType: string,
    store: Option<StoreId>, m: Multiplier, now: int)
    requires !HasPartnerSuperior(user, db.accounts)
    requires TokenCost(tokens, m) > 0
    requires user.balance < BaseCost(tokens)
    ensures var r := DeductBalanceByTokens(db, ents, user, tokens, useType, store, m, now);
            && r.out == Insufficient(TokenCost(tokens, m)) && !r.out.Ok()
            && Balance(r.db.accounts, user.id) == 0
            && (forall k :: k in db.accounts && k != user.id ==> k in r.db.accounts && r.db.accounts[k] == db.accounts[k])
            && r.db.usage == db.usage + (if user.balance > 0 then
                 [UsageRecord(user.id, user.id, user.balance, 0, useType, tokens, StoreFor(useType, store))] else [])
            && r.db.notices == db.notices + [Notice(user.id, LowBalance)]
            && r.db.alerts == db.alerts
  {
  }

  /**
   * `partner_only` with enough partner balance: the partner's row drops by
   * exactly the cost, the user's row is untouched, one record is written to
   * the partner with the user as consumer, and the user is charged 0.
   */
  lemma PartnerOnlyChargesPartnerOnly(
    db: Db, ents: set<Entitlement>, user: Account, tokens: int, useType: string,
    store: Option<StoreId>, m: Multiplier, now: int)
    requires WellFormed(db.accounts)
    requires ResolveStrategy(user, db.accounts, ents, now).mode == PartnerOnly
    requires TokenCost(tokens, m) > 0
    requires db.accounts[user.superior.value].balance >= TokenCost(tokens, m)
    ensures var cost := TokenCost(tokens, m);
            var pid := user.superior.value;
            var left := db.accounts[pid].balance - cost;
            var r := DeductBalanceByTokens(db, ents, user, tokens, useType, store, m, now);
            && r.out == PartnerCharged(PartnerOnly, cost, 0, left, user.balance)
            && r.db.accounts == db.accounts[pid := db.accounts[pid].(balance := left)]
            && (pid != user.id ==> Balance(r.db.accounts, user.id) == Balance(db.accounts, user.id))
            && r.db.usage == db.usage + [UsageRecord(pid, user.id, cost, left, useType, tokens, StoreFor(useType, store))]
            && r.db.notices == db.notices
            && r.db.alerts == db.alerts + [Alert(user.id, user.balance), Alert(pid, left)]
  {
  }

  /**
   * `dual` with either snapshot short: rejected as insufficient before any
   * store mutation (the partner is never decremented, not merely restored),
   * and both sides are notified.
   */
  lemma DualShortRejectsBeforeMutation(
    db: Db, ents: set<Entitlement>, user: Account, tokens: int, useType: string,
    store: Option<StoreId>, m: Multiplier, now: int)
    requires ResolveStrategy(user, db.accounts, ents, now).mode == Dual
    requires TokenCost(tokens, m) > 0
    requires db.accounts[user.superior.value].balance < TokenCost(tokens, m) || user.balance < TokenCost(tokens, m)
    ensures var partner := db.accounts[user.superior.value];
            && ExecutePartnerBilling(db, user, partner, TokenCost(tokens, m), Dual, useType, tokens, store)
               == Step(db, Insufficient(TokenCost(tokens, m)))
            && DeductBalanceByTokens(db, ents, user, tokens, useType, store, m, now)
               == Step(db.(notices := db.notices + PartnerShortNotices(user.id, partner.id)),
                       Insufficient(TokenCost(tokens, m)))
  {
  }

  /**
   * `dual` rollback: when the partner decrement commits and the user's
   * conditional decrement then fails, the credit-back restores the store
   * exactly (the partner's balance is its value before the call) and no
   * usage record is written.
   */
  lemma DualRollbackRestoresStore(
    db: Db, user: Account, partner: Account, cost: nat, useType: string, tokens: int, store: Option<StoreId>)
    requires !PartnerPreCheckFails(user, partner, cost, Dual)
    requires partner.id in db.accounts && db.accounts[partner.id].balance >= cost
    requires DecrementIfCovered(DecrementIfCovered(db.accounts, partner.id, cost).accounts, user.id, cost).rows == 0
    ensures ExecutePartnerBilling(db, user, partner, cost, Dual, useType, tokens, store) == Step(db, Conflict(Dual))
  {
    var p := DecrementIfCovered(db.accounts, partner.id, cost);
    var q := DecrementIfCovered(p.accounts, user.id, cost);
    var back := Increment(q.accounts, partner.id, cost);
    assert back.accounts == db.accounts;
  }

  /**
   * The partner-side race: the partner snapshot passes the pre-check, but by
   * the time of the conditional decrement the stored partner row no longer
   * covers the cost. The call is a concurrent conflict and changes nothing.
   */
  lemma PartnerStoreShortIsConflict(
    db: Db, user: Account, partner: Account, cost: nat, mode: Mode, useType: string,
    tokens: int, store: Option<StoreId>)
    requires !PartnerPreCheckFails(user, partner, cost, mode)
    requires Balance(db.accounts, partner.id) < cost
    ensures ExecutePartnerBilling(db, user, partner, cost, mode, useType, tokens, store) == Step(db, Conflict(mode))
  {
  }

  /**
   * `dual` with both snapshots and both stored rows covering the cost and
   * distinct accounts: both stored rows drop by exactly the cost, and two
   * records carry the refreshed balances, the partner's first. A stale user
   * snapshot is allowed: the user's record holds the stored balance after the
   * decrement, not the snapshot minus the cost.
   */
  lemma DualChargesBoth(
    db: Db, ents: set<Entitlement>, user: Account, tokens: int, useType: string,
    store: Option<StoreId>, m: Multiplier, now: int)
    requires WellFormed(db.accounts)
    requires ResolveStrategy(user, db.accounts, ents, now).mode == Dual
    requires user.superior.value != user.id
    requires TokenCost(tokens, m) > 0
    requires db.accounts[user.superior.value].balance >= TokenCost(tokens, m) && user.balance >= TokenCost(tokens, m)
    requires user.id in db.accounts && db.accounts[user.id].balance >= TokenCost(tokens, m)
    ensures var cost := TokenCost(tokens, m);
            var pid := user.superior.value;
            var pLeft := db.accounts[pid].balance - cost;
            var uLeft := db.accounts[user.id].balance - cost;
            var r := DeductBalanceByTokens(db, ents, user, tokens, useType, store, m, now);
            && r.out == PartnerCharged(Dual, cost, cost, pLeft, uLeft)
            && r.db.accounts == db.accounts[pid := db.accounts[pid].(balance := pLeft)][user.id := db.accounts[user.id].(balance := uLeft)]
            && r.db.usage == db.usage + [UsageRecord(pid, user.id, cost, pLeft, useType, tokens, StoreFor(useType, store)),
                                         UsageRecord(user.id, user.id, cost, uLeft, useType, tokens, StoreFor(useType, store))]
            && r.db.alerts == db.alerts + [Alert(user.id, uLeft), Alert(pid, pLeft)]
  {
  }

  /**
   * Partner billing is all-or-nothing: a failed partner-side call leaves
   * every balance and the usage trail as they were, and notifies both sides.
   */
  lemma PartnerFailureIsAllOrNothing(
    db: Db, ents: set<Entitlement>, user: Account, tokens: int, useType: string,
    store: Option<StoreId>, m: Multiplier, now: int)
    requires WellFormed(db.accounts)
    requires ResolveStrategy(user, db.accounts, ents, now).mode != Normal
    requires TokenCost(tokens, m) > 0
    ensures var r := DeductBalanceByTokens(db, ents, user, tokens, useType, store, m, now);
            !r.out.Ok() ==>
              && r.db.accounts == db.accounts
              && r.db.usage == db.usage
              && r.db.alerts == db.alerts
              && r.db.notices == db.notices + PartnerShortNotices(user.id, user.superior.value)
  {
    var s := ResolveStrategy(user, db.accounts, ents, now);
    var cost := TokenCost(tokens, m);
    var partner := s.partner.value;
    if !PartnerPreCheckFails(user, partner, cost, s.mode) {
      var p := DecrementIfCovered(db.accounts, partner.id, cost);
      if p.rows == 1 && s.mode == Dual {
        var q := DecrementIfCovered(p.accounts, user.id, cost);
        if q.rows == 0 {
          DualRollbackRestoresStore(db, user, partner, cost, useType, tokens, store);
        }
      }
    }
  }

  /**
   * Every deduction only appends to the usage trail, the notices and the
   * alerts, and keeps every row stored under its own key.
   */
  lemma DeductionIsAppendOnly(
    db: Db, ents: set<Entitlement>, user: Account, tokens: int, useType: string,
    store: Option<StoreId>, m: Multiplier, now: int)
    requires WellFormed(db.accounts)
    ensures var r := DeductBalanceByTokens(db, ents, user, tokens, useType, store, m, now);
            && db.usage <= r.db.usage && db.notices <= r.db.notices && db.alerts <= r.db.alerts
            && WellFormed(r.db.accounts)
  {
    var cost := TokenCost(tokens, m);
    var s := ResolveStrategy(user, db.accounts, ents, now);
    if cost > 0 {
      if s.isPartnerSubordinate {
        PartnerBillingIsAppendOnly(db, user, s.partner.value, cost, s.mode, useType, tokens, store);
      } else {
        var check := CheckAndHandleInsufficientBalance(db, ents, user, tokens, useType, store, now);
        assert db.usage <= check.db.usage && db.notices <= check.db.notices && db.alerts <= check.db.alerts;
        assert WellFormed(check.db.accounts);
      }
    }
  }

  lemma PartnerBillingIsAppendOnly(
    db: Db, user: Account, partner: Account, cost: nat, mode: Mode, useType: string,
    tokens: int, store: Option<StoreId>)
    requires WellFormed(db.accounts)
    ensures var r := ExecutePartnerBilling(db, user, partner, cost, mode, useType, tokens, store);
            && db.usage <= r.db.usage && db.notices == r.db.notices && db.alerts == r.db.alerts
            && WellFormed(r.db.accounts)
  {
  }

  /**
   * The usage trail agrees with the store: whatever the held snapshot, and
   * with no self-referencing superior link, every record a successful deduction
   * appends names a row whose balance fell by exactly the record's amount
   * and now equals the record's surplus.
   */
  lemma CommittedRecordsMatchStore(
    db: Db, ents: set<Entitlement>, user: Account, tokens: int, useType: string,
    store: Option<StoreId>, m: Multiplier, now: int)
    requires WellFormed(db.accounts)
    requires !(HasSuperiorLink(user) && user.superior.value == user.id)
    ensures var r := DeductBalanceByTokens(db, ents, user, tokens, useType, store, m, now);
            r.out.Ok() ==>
              forall i :: |db.usage| <= i < |r.db.usage| ==>
                var rec := r.db.usage[i];
                && rec.account in r.db.accounts && rec.account in db.accounts
                && r.db.accounts[rec.account].balance == rec.surplus
                && db.accounts[rec.account].balance == rec.surplus + rec.useNumber
  {
    var r := DeductBalanceByTokens(db, ents, user, tokens, useType, store, m, now);
    var cost := TokenCost(tokens, m);
    var s := ResolveStrategy(user, db.accounts, ents, now);
    if r.out.Ok() && cost > 0 {
      if s.mode == Normal {
        if user.balance >= BaseCost(tokens) && user.id in db.accounts && db.accounts[user.id].balance >= cost {
          NormalCommitDebitsExactlyCost(db, ents, user, tokens, useType, store, m, now);
        }
      } else if s.mode == PartnerOnly {
        PartnerOnlyChargesPartnerOnly(db, ents, user, tokens, useType, store, m, now);
      } else if user.balance >= cost && user.id in db.accounts && db.accounts[user.id].balance >= cost {
        DualChargesBoth(db, ents, user, tokens, useType, store, m, now);
      }
    }
  }

  /** The account that pays on the partner's side, or the user when there is none. */
  function PartnerId(user: Account): UserId {
    if HasSuperiorLink(user) then user.superior.value else user.id
  }

  /** What a deduction result reports as taken from one account. */
  function ReportedDebit(out: BillingResult, user: UserId, partner: UserId, id: UserId): nat {
    match out
    case Charged(deducted, _) => if id == user then deducted else 0
    case PartnerCharged(_, partnerDeducted, userDeducted, _, _) =>
      (if id == partner then partnerDeducted else 0) + (if id == user then userDeducted else 0)
    case _ => 0
  }

  /**
   * The atomic store statements a deduction issues, in order, outside the
   * remainder path: the user's conditional decrement in normal mode; the
   * partner's in `partner_only`; in `dual` the partner's, then the user's,
   * then the credit-back when the user's did not commit.
   */
  function DeductionOps(
    db: Db, ents: set<Entitlement>, user: Account, tokens: int, m: Multiplier, now: int): seq<StoreOp>
  {
    var cost := TokenCost(tokens, m);
    var s := ResolveStrategy(user, db.accounts, ents, now);
    if cost == 0 then []
    else if !s.isPartnerSubordinate then [Decrement(user.id, cost)]
    else
      var partner := s.partner.value;
      if PartnerPreCheckFails(user, partner, cost, s.mode) then []
      else if s.mode == PartnerOnly then [Decrement(partner.id, cost)]
      else
        var p := DecrementIfCovered(db.accounts, partner.id, cost);
        if p.rows == 0 then [Decrement(partner.id, cost)]
        else if DecrementIfCovered(p.accounts, user.id, cost).rows == 0 then
          [Decrement(partner.id, cost), Decrement(user.id, cost), Credit(partner.id, cost)]
        else [Decrement(partner.id, cost), Decrement(user.id, cost)]
  }

  /**
   * Outside the remainder path (which saves a whole row), a deduction
   * changes the store exactly as running its atomic statements does, and the
   * statements that commit take from each account exactly what the result
   * reports as deducted from it, net of any credit-back.
   */
  lemma DeductionStoreEffectIsRun(
    db: Db, ents: set<Entitlement>, user: Account, tokens: int, useType: string,
    store: Option<StoreId>, m: Multiplier, now: int)
    requires WellFormed(db.accounts)
    requires !(ResolveStrategy(user, db.accounts, ents, now).mode == Normal
               && TokenCost(tokens, m) > 0 && user.balance < BaseCost(tokens))
    ensures var r := DeductBalanceByTokens(db, ents, user, tokens, useType, store, m, now);
            var t := Run(db.accounts, DeductionOps(db, ents, user, tokens, m, now));
            && t.accounts == r.db.accounts
            && forall id :: Debited(t.committed, id)
                            == ReportedDebit(r.out, user.id, PartnerId(user), id) + AccountStore.Credited(t.committed, id)
  {
    var r := DeductBalanceByTokens(db, ents, user, tokens, useType, store, m, now);
    var ops := DeductionOps(db, ents, user, tokens, m, now);
    var t := Run(db.accounts, ops);
    var cost := TokenCost(tokens, m);
    var s := ResolveStrategy(user, db.accounts, ents, now);
    if cost == 0 {
      assert t.committed == [];
    } else if s.mode == Normal {
      var u := DecrementIfCovered(db.accounts, user.id, cost);
      assert ops == [Decrement(user.id, cost)];
      assert Run(u.accounts, ops[1..]) == Trace(u.accounts, []);
      assert t.accounts == u.accounts;
      assert t.committed == if u.rows == 1 then ops else [];
    } else {
      var partner := s.partner.value;
      assert partner.id == PartnerId(user);
      if PartnerPreCheckFails(user, partner, cost, s.mode) {
        assert t.committed == [];
      } else if s.mode == PartnerOnly {
        var p := DecrementIfCovered(db.accounts, partner.id, cost);
        assert ops == [Decrement(partner.id, cost)];
        assert Run(p.accounts, ops[1..]) == Trace(p.accounts, []);
        assert t.accounts == p.accounts;
        assert t.committed == if p.rows == 1 then ops else [];
      } else {
        var p := DecrementIfCovered(db.accounts, partner.id, cost);
        var q := DecrementIfCovered(p.accounts, user.id, cost);
        if p.rows == 0 {
          // the partner snapshot is the stored row, which the pre-check found covering
          assert false;
        } else if q.rows == 0 {
          var back := Increment(q.accounts, partner.id, cost);
          assert Run(q.accounts, ops[2..]) == Trace(back.accounts, [ops[2]]);
          assert Run(p.accounts, ops[1..]) == Trace(back.accounts, [ops[2]]);
          assert t == Trace(back.accounts, [ops[0], ops[2]]);
          assert r.db.accounts == back.accounts;
          assert t.committed == [Decrement(partner.id, cost), Credit(partner.id, cost)];
          CreditBackNetsZero(partner.id, cost);
        } else {
          assert Run(p.accounts, ops[1..]) == Trace(q.accounts, [ops[1]]);
          assert t == Trace(q.accounts, ops);
          assert r.db.accounts == q.accounts;
          TwoDecrementsDebit(partner.id, user.id, cost);
        }
      }
    }
  }

  /** A decrement followed by the credit-back of the same amount nets to zero on every account. */
  lemma CreditBackNetsZero(id: UserId, amount: nat)
    ensures var c := [Decrement(id, amount), Credit(id, amount)];
            forall k :: Debited(c, k) == AccountStore.Credited(c, k)
  {
    var c := [Decrement(id, amount), Credit(id, amount)];
    forall k ensures Debited(c, k) == AccountStore.Credited(c, k) {
      assert c[1..] == [Credit(id, amount)] && c[1..][1..] == [];
      assert Debited(c[1..], k) == 0;
      assert AccountStore.Credited(c[1..], k) == if k == id then amount else 0;
    }
  }

  /** Two committed decrements of the same amount debit each of their accounts by it, and credit nothing. */
  lemma TwoDecrementsDebit(first: UserId, second: UserId, amount: nat)
    ensures var c := [Decrement(first, amount), Decrement(second, amount)];
            forall k :: && Debited(c, k) == (if k == first then amount else 0) + (if k == second then amount else 0)
                        && AccountStore.Credited(c, k) == 0
  {
    var c := [Decrement(first, amount), Decrement(second, amount)];
    forall k ensures && Debited(c, k) == (if k == first then amount else 0) + (if k == second then amount else 0)
                     && AccountStore.Credited(c, k) == 0
    {
      assert c[1..] == [Decrement(second, amount)] && c[1..][1..] == [];
      assert Debited(c[1..], k) == if k == second then amount else 0;
      assert AccountStore.Credited(c[1..], k) == 0;
    }
  }

  /**
   * Conservation of a deduction: no row appears or disappears, and every
   * balance ends at its start minus what the result reports as deducted from
   * that account (nothing for a refusal or a conflict, rollback included).
   */
  lemma DeductionConservesReported(
    db: Db, ents: set<Entitlement>, user: Account, tokens: int, useType: string,
    store: Option<StoreId>, m: Multiplier, now: int)
    requires WellFormed(db.accounts)
    requires !(ResolveStrategy(user, db.accounts, ents, now).mode == Normal
               && TokenCost(tokens, m) > 0 && user.balance < BaseCost(tokens))
    ensures var r := DeductBalanceByTokens(db, ents, user, tokens, useType, store, m, now);
            && r.db.accounts.Keys == db.accounts.Keys
            && forall id :: id in db.accounts ==>
                 r.db.accounts[id].balance + ReportedDebit(r.out, user.id, PartnerId(user), id)
                 == db.accounts[id].balance
  {
    DeductionStoreEffectIsRun(db, ents, user, tokens, useType, store, m, now);
    Conservation(db.accounts, DeductionOps(db, ents, user, tokens, m, now));
  }

  /**
   * Every record a deduction appends, on any path, carries the request's
   * usage type and token count, and no shop exactly for the recharge and
   * package usage types (the given shop otherwise).
   */
  lemma AppendedRecordsCarryRequest(
    db: Db, ents: set<Entitlement>, user: Account, tokens: int, useType: string,
    store: Option<StoreId>, m: Multiplier, now: int)
    ensures var r := DeductBalanceByTokens(db, ents, user, tokens, useType, store, m, now);
            && db.usage <= r.db.usage
            && forall i :: |db.usage| <= i < |r.db.usage| ==>
                 && r.db.usage[i].useType == useType && r.db.usage[i].tokens == tokens
                 && (useType in ShoplessTypes ==> r.db.usage[i].store.None?)
                 && (useType !in ShoplessTypes ==> r.db.usage[i].store == store)
  {
  }

  /**
   * With fresh snapshots, the default multiplier and no self-referencing
   * superior link, `check_balance_sufficient` predicts exactly whether
   * `deduct_balance_by_tokens` succeeds.
   */
  lemma CheckPredictsDeduction(
    db: Db, ents: set<Entitlement>, user: Account, tokens: int, useType: string,
    store: Option<StoreId>, now: int)
    requires WellFormed(db.accounts) && Fresh(db, user)
    requires !(HasSuperiorLink(user) && user.superior.value == user.id)
    ensures CheckBalanceSufficient(user, tokens, db.accounts, ents, now).0
            <==> DeductBalanceByTokens(db, ents, user, tokens, useType, store, Unit, now).out.Ok()
  {
    UnitCostIsBaseCost(tokens);
    var s := ResolveStrategy(user, db.accounts, ents, now);
    var cost := BaseCost(tokens);
    if cost > 0 {
      if s.mode == PartnerOnly {
        assert RequiredPayers(s, user) == [db.accounts[user.superior.value]];
      } else if s.mode == Dual {
        assert RequiredPayers(s, user) == [db.accounts[user.superior.value], user];
      } else {
        assert RequiredPayers(s, user) == [user];
      }
    }
  }

  /** `deduct_single_balance` charges exactly one unit from whoever pays. */
  lemma SingleDeductionChargesOneUnit(
    db: Db, ents: set<Entitlement>, user: Account, useType: string, store: Option<StoreId>, now: int)
    ensures var r := DeductBalanceByTokens(db, ents, user, TokensPerUnit, useType, store, Unit, now);
            match r.out
            case Charged(deducted, _) => deducted == 1
            case PartnerCharged(mode, partnerDeducted, userDeducted, _, _) =>
              partnerDeducted == 1 && userDeducted == (if mode == Dual then 1 else 0)
            case Insufficient(required) => required == 1
            case Conflict(_) => true
  {
    SingleChargeIsOneUnit();
  }

  /**
   * `increase_balance`: a non-positive amount or an unknown user is an error
   * that changes nothing; otherwise the balance rises by exactly the amount
   * and one record with that amount, the new balance and no tokens is written.
   */
  lemma IncreaseBalanceCredits(db: Db, user: Account, amount: int, useType: string)
    ensures var r := IncreaseBalance(db, user, amount, useType);
            && (amount <= 0 ==> r == Step(db, CreditRejected(NonPositiveAmount)))
            && (amount > 0 && user.id !in db.accounts ==> r == Step(db, CreditRejected(UserNotFound)))
            && (amount > 0 && user.id in db.accounts ==>
                  var left := db.accounts[user.id].balance + amount;
                  && r.out == Credited(amount, left)
                  && r.db.accounts == db.accounts[user.id := db.accounts[user.id].(balance := left)]
                  && r.db.usage == db.usage + [UsageRecord(user.id, user.id, amount, left, useType, 0, None)]
                  && r.db.notices == db.notices && r.db.alerts == db.alerts)
            && (r.out.Status() == Success <==> amount > 0 && user.id in db.accounts)
  {
  }

  /**
   * As written, the normal path's refusal spreads the remainder handler's
   * report into its own dict, so the status it reports is that report's
   * "success" even though nothing was charged; the modelled result reports
   * the refusal.
   */
  lemma AsWrittenRejectionReportsSuccess(
    db: Db, ents: set<Entitlement>, user: Account, tokens: int, useType: string,
    store: Option<StoreId>, m: Multiplier, now: int)
    requires !HasPartnerSuperior(user, db.accounts)
    requires TokenCost(tokens, m) > 0
    requires user.balance < BaseCost(tokens)
    ensures var r := DeductBalanceByTokens(db, ents, user, tokens, useType, store, m, now);
            var info := HandleInsufficientInternal(db, user, BaseCost(tokens), tokens, useType, store).out;
            && !r.out.Ok()
            && SpreadStatus(InsufficientBalance, info) == Success
            && r.out.Status() == InsufficientBalance
  {
    NormalShortfallConsumesRemainder(db, ents, user, tokens, useType, store, m, now);
  }
}
