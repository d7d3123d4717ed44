/**
 * The ledger as the source runs it: account rows, the usage trail, the
 * notifications and the alert calls are fields that each operation updates
 * step by step, one store statement at a time. Every operation is proved to
 * leave exactly the state (and return exactly the result) that module Billing
 * defines, so the lemmas of BillingLemmas hold of it.
 */
module LedgerState {
  import opened Wrappers
  import opened AccountStore
  import opened Cost
  import opened Strategy
  import opened Billing

  class Ledger {
    var accounts: Accounts
    var usage: seq<UsageRecord>
    var notices: seq<Notice>
    var alerts: seq<Alert>
    const entitlements: set<Entitlement>

    ghost predicate Valid()
      reads this
    {
      WellFormed(accounts)
    }

    function State(): Db
      reads this
    {
      Db(accounts, usage, notices, alerts)
    }

    constructor (rows: Accounts, grants: set<Entitlement>)
      requires WellFormed(rows)
      ensures Valid()
      ensures State() == Db(rows, [], [], []) && entitlements == grants
    {
      accounts := rows;
      usage := [];
      notices := [];
      alerts := [];
      entitlements := grants;
    }

    // ---- the store boundary: one statement each ----

    /** The atomic compare-and-decrement; returns the rows affected. */
    method ConditionalDecrement(id: UserId, amount: nat) returns (updated: nat)
      requires Valid()
      modifies this
      ensures Valid()
      ensures updated <= 1 && (updated == 1 <==> id in old(accounts) && old(accounts)[id].balance >= amount)
      ensures accounts == DecrementIfCovered(old(accounts), id, amount).accounts
      ensures usage == old(usage) && notices == old(notices) && alerts == old(alerts)
    {
      var u := DecrementIfCovered(accounts, id, amount);
      accounts := u.accounts;
      updated := u.rows;
    }

    /** The unconditional increment; returns the rows affected. */
    method UnconditionalIncrement(id: UserId, amount: nat) returns (updated: nat)
      requires Valid()
      modifies this
      ensures Valid()
      ensures updated <= 1 && (updated == 1 <==> id in old(accounts))
      ensures accounts == Increment(old(accounts), id, amount).accounts
      ensures usage == old(usage) && notices == old(notices) && alerts == old(alerts)
    {
      var u := Increment(accounts, id, amount);
      accounts := u.accounts;
      updated := u.rows;
    }

    /** Writes the in-memory object over its row. */
    method SaveUser(snapshot: Account)
      requires Valid()
      modifies this
      ensures Valid()
      ensures accounts == Save(old(accounts), snapshot)
      ensures usage == old(usage) && notices == old(notices) && alerts == old(alerts)
    {
      accounts := Save(accounts, snapshot);
    }

    /** `refresh_from_db(fields=['surplus_number'])`. */
    method Refresh(snapshot: Account) returns (refreshed: Account)
      requires snapshot.id in accounts
      ensures refreshed == snapshot.(balance := accounts[snapshot.id].balance)
    {
      refreshed := snapshot.(balance := accounts[snapshot.id].balance);
    }

    method AppendUsage(rec: UsageRecord)
      modifies this
      ensures usage == old(usage) + [rec]
      ensures accounts == old(accounts) && notices == old(notices) && alerts == old(alerts)
    {
      usage := usage + [rec];
    }

    method Notify(user: UserId, kind: NoticeKind)
      modifies this
      ensures notices == old(notices) + [Notice(user, kind)]
      ensures accounts == old(accounts) && usage == old(usage) && alerts == old(alerts)
    {
      notices := notices + [Notice(user, kind)];
    }

    method CheckAndTriggerAlert(user: UserId, value: nat)
      modifies this
      ensures alerts == old(alerts) + [Alert(user, value)]
      ensures accounts == old(accounts) && usage == old(usage) && notices == old(notices)
    {
      alerts := alerts + [Alert(user, value)];
    }

    // ---- the ledger operations ----

    method HandleInsufficientInternal(
      user: Account, cost: nat, tokens: int, useType: string, store: Option<StoreId>)
      returns (info: RemainderInfo)
      requires Valid()
      modifies this
      ensures Valid()
      ensures Step(State(), info) == Billing.HandleInsufficientInternal(old(State()), user, cost, tokens, useType, store)
    {
      info := RemainderInfo(user.balance, cost, Success);
      if user.balance > 0 {
        AppendUsage(DebitRecord(user.id, user.id, user.balance, 0, useType, tokens, store));
      }
      var zeroed := user.(balance := 0);
      SaveUser(zeroed);
      Notify(user.id, LowBalance);
    }

    method HandlePartnerInsufficient(user: Account, partner: Account)
      requires Valid()
      modifies this
      ensures Valid()
      ensures State() == Billing.HandlePartnerInsufficient(old(State()), user, partner)
    {
      Notify(user.id, PartnerShortToUser);
      Notify(partner.id, PartnerShortToPartner);
    }

    method CheckAndHandleInsufficientBalance(
      user: Account, tokens: int, useType: string, store: Option<StoreId>, now: int)
      returns (sufficient: bool)
      requires Valid()
      modifies this
      ensures Valid()
      ensures Step(State(), sufficient)
              == Billing.CheckAndHandleInsufficientBalance(old(State()), entitlements, user, tokens, useType, store, now)
    {
      var base := BaseCost(tokens);
      var s := ResolveStrategy(user, accounts, entitlements, now);
      if s.isPartnerSubordinate && s.mode == PartnerOnly && s.partner.Some? {
        var partner := s.partner.value;
        if partner.balance >= base {
          return true;
        }
        HandlePartnerInsufficient(user, partner);
        return false;
      }
      if user.balance >= base {
        return true;
      }
      var _ := HandleInsufficientInternal(user, base, tokens, useType, store);
      return false;
    }

    method ExecuteNormalBilling(
      user: Account, tokens: int, cost: nat, useType: string, store: Option<StoreId>, now: int)
      returns (result: BillingResult)
      requires Valid()
      modifies this
      ensures Valid()
      ensures Step(State(), result)
              == Billing.ExecuteNormalBilling(old(State()), entitlements, user, tokens, cost, useType, store, now)
    {
      var sufficient := CheckAndHandleInsufficientBalance(user, tokens, useType, store, now);
      if !sufficient {
        return Insufficient(cost);
      }
      var updated := ConditionalDecrement(user.id, cost);
      if updated == 0 {
        return Conflict(Normal);
      }
      var current := Refresh(user);
      AppendUsage(DebitRecord(user.id, user.id, cost, current.balance, useType, tokens, store));
      CheckAndTriggerAlert(user.id, current.balance);
      result := Charged(cost, current.balance);
    }

    method ExecutePartnerBilling(
      user: Account, partner: Account, cost: nat, mode: Mode, useType: string, tokens: int, store: Option<StoreId>)
      returns (result: BillingResult)
      requires Valid()
      modifies this
      ensures Valid()
      ensures Step(State(), result)
              == Billing.ExecutePartnerBilling(old(State()), user, partner, cost, mode, useType, tokens, store)
    {
      if mode == PartnerOnly {
        if partner.balance < cost {
          return Insufficient(cost);
        }
      } else if partner.balance < cost || user.balance < cost {
        return Insufficient(cost);
      }
      var partnerUpdated := ConditionalDecrement(partner.id, cost);
      if partnerUpdated == 0 {
        return Conflict(mode);
      }
      var partnerNow := Refresh(partner);
      var userNow := user;
      if mode == Dual {
        var userUpdated := ConditionalDecrement(user.id, cost);
        if userUpdated == 0 {
          var _ := UnconditionalIncrement(partner.id, cost);
          return Conflict(mode);
        }
        userNow := Refresh(user);
      }
      AppendUsage(DebitRecord(partner.id, user.id, cost, partnerNow.balance, useType, tokens, store));
      if mode == Dual {
        AppendUsage(DebitRecord(user.id, user.id, cost, userNow.balance, useType, tokens, store));
      }
      result := PartnerCharged(mode, cost, if mode == Dual then cost else 0, partnerNow.balance, userNow.balance);
    }

    method DeductBalanceByTokens(
      user: Account, tokens: int, useType: string, store: Option<StoreId>, m: Multiplier, now: int)
      returns (ok: bool, result: BillingResult)
      requires Valid()
      modifies this
      ensures Valid()
      ensures Step(State(), result)
              == Billing.DeductBalanceByTokens(old(State()), entitlements, user, tokens, useType, store, m, now)
      ensures ok == result.Ok()
    {
      var cost := TokenCost(tokens, m);
      if cost == 0 {
        return true, Charged(0, user.balance);
      }
      var s := ResolveStrategy(user, accounts, entitlements, now);
      if s.isPartnerSubordinate {
        var partner := s.partner.value;
        result := ExecutePartnerBilling(user, partner, cost, s.mode, useType, tokens, store);
        if !result.Ok() {
          HandlePartnerInsufficient(user, partner);
          return false, result;
        }
        CheckAndTriggerAlert(user.id, result.userRemaining);
        CheckAndTriggerAlert(partner.id, result.partnerRemaining);
        return true, result;
      }
      result := ExecuteNormalBilling(user, tokens, cost, useType, store, now);
      ok := result.Ok();
    }

    method DeductSingleBalance(user: Account, useType: string, store: Option<StoreId>, now: int)
      returns (ok: bool)
      requires Valid()
      modifies this
      ensures Valid()
      ensures Step(State(), ok) == Billing.DeductSingleBalance(old(State()), entitlements, user, useType, store, now)
    {
      var result;
      ok, result := DeductBalanceByTokens(user, TokensPerUnit, useType, store, Unit, now);
    }

    method IncreaseBalance(user: Account, amount: int, useType: string)
      returns (ok: bool, result: CreditResult)
      requires Valid()
      modifies this
      ensures Valid()
      ensures Step(State(), result) == Billing.IncreaseBalance(old(State()), user, amount, useType)
      ensures ok <==> result.Credited?
    {
      if amount <= 0 {
        return false, CreditRejected(NonPositiveAmount);
      }
      var updated := UnconditionalIncrement(user.id, amount);
      if updated == 0 {
        return false, CreditRejected(UserNotFound);
      }
      var current := Refresh(user);
      AppendUsage(UsageRecord(user.id, user.id, amount, current.balance, useType, 0, None));
      return true, Credited(amount, current.balance);
    }
  }
}
