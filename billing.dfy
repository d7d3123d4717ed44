/**
 * The balance ledger as a state machine over the database state: the
 * account rows, the append-only usage trail (`AIUsageDetails`), the
 * notifications (`SystemNotify`) and the balance-alert calls. Each operation
 * of the ledger is a function from the state before to the state after and
 * its result; module LedgerState performs the same steps in place.
 */
module Billing {
  import opened Wrappers
  import opened AccountStore
  import opened Cost
  import opened Strategy

  type StoreId = nat

  /**
   * One usage record: the account whose balance changed, the account that
   * consumed the service, the amount, the balance left, the usage type, the
   * raw token count and the originating shop.
   */
  datatype UsageRecord = UsageRecord(
    account: UserId, consumer: UserId, useNumber: nat, surplus: nat,
    useType: string, tokens: int, store: Option<StoreId>)

  datatype NoticeKind = LowBalance | PartnerShortToUser | PartnerShortToPartner

  datatype Notice = Notice(user: UserId, kind: NoticeKind)

  /** One `alert_engine.check_and_trigger('balance', ...)` call. */
  datatype Alert = Alert(user: UserId, value: nat)

  datatype Db = Db(accounts: Accounts, usage: seq<UsageRecord>, notices: seq<Notice>, alerts: seq<Alert>)

  /** The state after an operation and what the operation returned. */
  datatype Step<R> = Step(db: Db, out: R)

  datatype Status = Success | InsufficientBalance | ConcurrentConflict | Error

  /** The outcome of a deduction (the source's `(bool, dict)` pair). */
  datatype BillingResult =
    | Charged(deducted: nat, remaining: nat)
    | PartnerCharged(mode: Mode, partnerDeducted: nat, userDeducted: nat, partnerRemaining: nat, userRemaining: nat)
    | Insufficient(required: nat)
    | Conflict(mode: Mode)
  {
    /** The boolean half of the source's result. */
    predicate Ok() {
      Charged? || PartnerCharged?
    }

    /** The "status" key of the result. */
    function Status(): (s: Status)
      ensures s == Success <==> Ok()
      ensures s == InsufficientBalance <==> Insufficient?
    {
      match this
      case Charged(_, _) => Success
      case PartnerCharged(_, _, _, _, _) => Success
      case Insufficient(_) => InsufficientBalance
      case Conflict(_) => ConcurrentConflict
    }
  }

  /** What the remainder path reports (`result_info`). */
  datatype RemainderInfo = RemainderInfo(originalBalance: nat, requiredCost: nat, status: Status)

  /**
   * The status key of a dict literal `{"status": literal, ..., **spread}`
   * whose spread dict carries its own "status": the later key wins.
   */
  function SpreadStatus(literal: Status, spread: RemainderInfo): Status {
    spread.status
  }

  /** Usage types that never carry a shop reference. */
  const ShoplessTypes: seq<string> := ["充值", "购买合作商套餐", "套餐赠送"]

  /** The shop a record carries: none for the shopless usage types. */
  function StoreFor(useType: string, store: Option<StoreId>): Option<StoreId> {
    if useType in ShoplessTypes then None else store
  }

  /** The record of a committed debit of `amount` from `payer` on behalf of `consumer`. */
  function DebitRecord(
    payer: UserId, consumer: UserId, amount: nat, remaining: nat,
    useType: string, tokens: int, store: Option<StoreId>): UsageRecord
  {
    UsageRecord(payer, consumer, amount, remaining, useType, tokens, StoreFor(useType, store))
  }

  /** The record that uses up what is left: only written when something is left. */
  function RemainderRecords(user: Account, tokens: int, useType: string, store: Option<StoreId>): seq<UsageRecord> {
    if user.balance > 0 then [DebitRecord(user.id, user.id, user.balance, 0, useType, tokens, store)] else []
  }

  /**
   * `_handle_insufficient_balance_internal`: record the remainder (if any),
   * zero the snapshot and save it over the row, notify the user.
   */
  function HandleInsufficientInternal(
    db: Db, user: Account, cost: nat, tokens: int, useType: string, store: Option<StoreId>): Step<RemainderInfo>
  {
    Step(Db(Save(db.accounts, user.(balance := 0)),
            db.usage + RemainderRecords(user, tokens, useType, store),
            db.notices + [Notice(user.id, LowBalance)],
            db.alerts),
         RemainderInfo(user.balance, cost, Success))
  }

  function PartnerShortNotices(user: UserId, partner: UserId): seq<Notice> {
    [Notice(user, PartnerShortToUser), Notice(partner, PartnerShortToPartner)]
  }

  /** `_handle_partner_insufficient_balance`: one notice to the user, one to the partner. */
  function HandlePartnerInsufficient(db: Db, user: Account, partner: Account): Db {
    db.(notices := db.notices + PartnerShortNotices(user.id, partner.id))
  }

  /**
   * `check_and_handle_insufficient_balance`: compares the snapshot balance of
   * the paying side with the unmultiplied cost and runs the shortfall
   * handling when it is not covered.
   */
  function CheckAndHandleInsufficientBalance(
    db: Db, ents: set<Entitlement>, user: Account, tokens: int, useType: string,
    store: Option<StoreId>, now: int): Step<bool>
  {
    var base := BaseCost(tokens);
    var s := ResolveStrategy(user, db.accounts, ents, now);
    if s.isPartnerSubordinate && s.mode == PartnerOnly && s.partner.Some? then
      if s.partner.value.balance >= base then Step(db, true)
      else Step(HandlePartnerInsufficient(db, user, s.partner.value), false)
    else if user.balance >= base then Step(db, true)
    else Step(HandleInsufficientInternal(db, user, base, tokens, useType, store).db, false)
  }

  /** `_execute_normal_billing`: pre-check and shortfall handling, then the conditional decrement. */
  function ExecuteNormalBilling(
    db: Db, ents: set<Entitlement>, user: Account, tokens: int, cost: nat, useType: string,
    store: Option<StoreId>, now: int): Step<BillingResult>
  {
    var check := CheckAndHandleInsufficientBalance(db, ents, user, tokens, useType, store, now);
    if !check.out then Step(check.db, Insufficient(cost))
    else
      var u := DecrementIfCovered(check.db.accounts, user.id, cost);
      if u.rows == 0 then Step(check.db, Conflict(Normal))
      else
        var remaining := u.accounts[user.id].balance;
        Step(Db(u.accounts,
                check.db.usage + [DebitRecord(user.id, user.id, cost, remaining, useType, tokens, store)],
                check.db.notices,
                check.db.alerts + [Alert(user.id, remaining)]),
             Charged(cost, remaining))
  }

  /** The pre-check of `_execute_partner_billing`, on the two snapshots. */
  predicate PartnerPreCheckFails(user: Account, partner: Account, cost: nat, mode: Mode) {
    if mode == PartnerOnly then partner.balance < cost
    else partner.balance < cost || user.balance < cost
  }

  /**
   * `_execute_partner_billing`: decrement the partner; in `dual` mode then
   * decrement the user, crediting the partner back when that fails.
   */
  function ExecutePartnerBilling(
    db: Db, user: Account, partner: Account, cost: nat, mode: Mode, useType: string,
    tokens: int, store: Option<StoreId>): Step<BillingResult>
  {
    if PartnerPreCheckFails(user, partner, cost, mode) then Step(db, Insufficient(cost))
    else
      var p := DecrementIfCovered(db.accounts, partner.id, cost);
      if p.rows == 0 then Step(db, Conflict(mode))
      else
        var partnerRemaining := p.accounts[partner.id].balance;
        var partnerRecord := DebitRecord(partner.id, user.id, cost, partnerRemaining, useType, tokens, store);
        if mode == Dual then
          var q := DecrementIfCovered(p.accounts, user.id, cost);
          if q.rows == 0 then
            var back := Increment(q.accounts, partner.id, cost);
            Step(db.(accounts := back.accounts), Conflict(mode))
          else
            var userRemaining := q.accounts[user.id].balance;
            Step(db.(accounts := q.accounts,
                     usage := db.usage + [partnerRecord,
                                          DebitRecord(user.id, user.id, cost, userRemaining, useType, tokens, store)]),
                 PartnerCharged(mode, cost, cost, partnerRemaining, userRemaining))
        else
          Step(db.(accounts := p.accounts, usage := db.usage + [partnerRecord]),
               PartnerCharged(mode, cost, 0, partnerRemaining, user.balance))
  }

  /** `_trigger_balance_alerts`: one alert for the user, one for the partner. */
  function TriggerBalanceAlerts(db: Db, user: UserId, userValue: nat, partner: UserId, partnerValue: nat): Db {
    db.(alerts := db.alerts + [Alert(user, userValue), Alert(partner, partnerValue)])
  }

  /** `deduct_balance_by_tokens`: the entry point of every token-metered charge. */
  function DeductBalanceByTokens(
    db: Db, ents: set<Entitlement>, user: Account, tokens: int, useType: string,
    store: Option<StoreId>, m: Multiplier, now: int): Step<BillingResult>
  {
    var cost := TokenCost(tokens, m);
    if cost == 0 then Step(db, Charged(0, user.balance))
    else
      var s := ResolveStrategy(user, db.accounts, ents, now);
      if s.isPartnerSubordinate then
        var partner := s.partner.value;
        var r := ExecutePartnerBilling(db, user, partner, cost, s.mode, useType, tokens, store);
        match r.out
        case PartnerCharged(_, _, _, partnerRemaining, userRemaining) =>
          Step(TriggerBalanceAlerts(r.db, user.id, userRemaining, partner.id, partnerRemaining), r.out)
        case _ =>
          Step(HandlePartnerInsufficient(r.db, user, partner), r.out)
      else
        ExecuteNormalBilling(db, ents, user, tokens, cost, useType, store, now)
  }

  /** `deduct_single_balance`: a fixed charge of 1000 tokens at multiplier 1.0. */
  function DeductSingleBalance(
    db: Db, ents: set<Entitlement>, user: Account, useType: string, store: Option<StoreId>, now: int): Step<bool>
  {
    var r := DeductBalanceByTokens(db, ents, user, TokensPerUnit, useType, store, Unit, now);
    Step(r.db, r.out.Ok())
  }

  datatype CreditError = NonPositiveAmount | UserNotFound

  datatype CreditResult = Credited(added: nat, remaining: nat) | CreditRejected(reason: CreditError) {
    function Status(): Status {
      if Credited? then Success else Error
    }
  }

  /** `increase_balance`: an unconditional increment and its usage record. */
  function IncreaseBalance(db: Db, user: Account, amount: int, useType: string): Step<CreditResult> {
    if amount <= 0 then Step(db, CreditRejected(NonPositiveAmount))
    else
      var u := Increment(db.accounts, user.id, amount);
      if u.rows == 0 then Step(db, CreditRejected(UserNotFound))
      else
        var remaining := u.accounts[user.id].balance;
        Step(db.(accounts := u.accounts,
                 usage := db.usage + [UsageRecord(user.id, user.id, amount, remaining, useType, 0, None)]),
             Credited(amount, remaining))
  }
}
