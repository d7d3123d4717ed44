/**
 * Who pays for a metered request: the billing-strategy resolver and the
 * read-only decisions built on it (the balance owner and the sufficiency check).
 */
module Strategy {
  import opened Wrappers
  import opened AccountStore
  import opened Cost

  /** A time-windowed grant letting `partner` cover the usage of `user`. */
  datatype Entitlement = Entitlement(user: UserId, partner: UserId, isActive: bool, start: int, end: int)

  datatype Mode = Normal | PartnerOnly | Dual

  /**
   * The resolved strategy. `partner` is the superior's row as read during
   * resolution (the partner snapshot the deduction later works from).
   */
  datatype BillingStrategy = BillingStrategy(
    isPartnerSubordinate: bool, partner: Option<Account>, hasEntitlement: bool, mode: Mode)

  /** The grant is active and its half-open window [start, end) contains now. */
  predicate Covers(e: Entitlement, user: UserId, partner: UserId, now: int) {
    e.user == user && e.partner == partner && e.isActive && e.start <= now < e.end
  }

  predicate HasActiveEntitlement(ents: set<Entitlement>, user: UserId, partner: UserId, now: int) {
    exists e :: e in ents && Covers(e, user, partner, now)
  }

  /** `if user.superior_id:` (an id of 0 is falsy and reads as no link). */
  predicate HasSuperiorLink(user: Account) {
    user.superior.Some? && user.superior.value != 0
  }

  /** The link points at a stored account that is in the partner group. */
  predicate HasPartnerSuperior(user: Account, accounts: Accounts) {
    HasSuperiorLink(user) && user.superior.value in accounts && accounts[user.superior.value].isPartner
  }

  function ResolveStrategy(user: Account, accounts: Accounts, ents: set<Entitlement>, now: int): (s: BillingStrategy)
    ensures s.mode == Normal <==> !HasPartnerSuperior(user, accounts)
    ensures s.mode == PartnerOnly <==>
      HasPartnerSuperior(user, accounts) && HasActiveEntitlement(ents, user.id, user.superior.value, now)
    ensures s.isPartnerSubordinate <==> s.mode != Normal
    ensures s.partner.Some? <==> s.mode != Normal
    ensures s.mode != Normal ==> s.partner.value == accounts[user.superior.value]
    ensures s.hasEntitlement <==> s.mode == PartnerOnly
  {
    if HasSuperiorLink(user) && user.superior.value in accounts then
      var superior := accounts[user.superior.value];
      if superior.isPartner then
        var has := HasActiveEntitlement(ents, user.id, user.superior.value, now);
        BillingStrategy(true, Some(superior), has, if has then PartnerOnly else Dual)
      else
        BillingStrategy(false, None, false, Normal)
    else
      BillingStrategy(false, None, false, Normal)
  }

  /**
   * Entitlement windows expire on their own: the same stores give
   * `partner_only` while a grant covers now and `dual` once every matching
   * grant has ended, which is why the strategy is resolved on every call.
   */
  lemma ExpiredEntitlementFallsBackToDual(
    user: Account, accounts: Accounts, ents: set<Entitlement>, now: int, later: int)
    requires ResolveStrategy(user, accounts, ents, now).mode == PartnerOnly
    requires forall e :: e in ents && e.user == user.id && e.partner == user.superior.value ==> e.end <= later
    ensures ResolveStrategy(user, accounts, ents, later).mode == Dual
  {
  }

  /** `get_balance_owner`: the partner under `partner_only`, the user otherwise. */
  function GetBalanceOwner(user: Account, accounts: Accounts, ents: set<Entitlement>, now: int): (owner: Account)
    ensures owner == user || (HasPartnerSuperior(user, accounts) && owner == accounts[user.superior.value])
    ensures owner != user ==> ResolveStrategy(user, accounts, ents, now).mode == PartnerOnly
    ensures ResolveStrategy(user, accounts, ents, now).mode == PartnerOnly ==>
      owner == accounts[user.superior.value]
  {
    var s := ResolveStrategy(user, accounts, ents, now);
    if s.isPartnerSubordinate && s.mode == PartnerOnly && s.partner.Some? then s.partner.value else user
  }

  /** Which side is short, selecting the failure message of the check. */
  datatype Shortfall = NoShortfall | UserShort | PartnerShort | BothShort

  /**
   * The accounts whose balances the resolved mode requires: the user for
   * `normal`, the partner for `partner_only`, both for `dual`.
   */
  function RequiredPayers(s: BillingStrategy, user: Account): (payers: seq<Account>)
    ensures |payers| >= 1
  {
    match s.mode
    case Normal => [user]
    case PartnerOnly => if s.partner.Some? then [s.partner.value] else [user]
    case Dual => if s.partner.Some? then [s.partner.value, user] else [user]
  }

  /**
   * `check_balance_sufficient`: a read-only check of every required balance
   * against the unmultiplied cost, with the failure message chosen by which
   * side is short.
   */
  function CheckBalanceSufficient(
    user: Account, tokens: int, accounts: Accounts, ents: set<Entitlement>, now: int): (r: (bool, Shortfall))
    ensures r.0 <==> r.1 == NoShortfall
    ensures var s := ResolveStrategy(user, accounts, ents, now);
      r.0 <==> BaseCost(tokens) == 0
               || forall a | a in RequiredPayers(s, user) :: a.balance >= BaseCost(tokens)
    ensures var s := ResolveStrategy(user, accounts, ents, now);
      && (r.1 == BothShort ==> s.mode == Dual && user.balance < BaseCost(tokens)
                               && s.partner.value.balance < BaseCost(tokens))
      && (r.1 == PartnerShort ==> s.mode != Normal && s.partner.value.balance < BaseCost(tokens)
                                  && (s.mode == Dual ==> user.balance >= BaseCost(tokens)))
      && (r.1 == UserShort ==> s.mode != PartnerOnly && user.balance < BaseCost(tokens)
                               && (s.mode == Dual ==> s.partner.value.balance >= BaseCost(tokens)))
  {
    var cost := BaseCost(tokens);
    if cost == 0 then (true, NoShortfall)
    else
      var s := ResolveStrategy(user, accounts, ents, now);
      if s.isPartnerSubordinate then
        match s.partner
        case None =>
          if user.balance >= cost then (true, NoShortfall) else (false, UserShort)
        case Some(partner) =>
          if s.mode == PartnerOnly then
            if partner.balance >= cost then (true, NoShortfall) else (false, PartnerShort)
          else
            var partnerSufficient := partner.balance >= cost;
            var userSufficient := user.balance >= cost;
            if partnerSufficient && userSufficient then (true, NoShortfall)
            else if !partnerSufficient && !userSufficient then (false, BothShort)
            else if !partnerSufficient then (false, PartnerShort)
            else (false, UserShort)
      else if user.balance >= cost then (true, NoShortfall)
      else (false, UserShort)
  }

  /**
   * Outside `dual` mode the check tests exactly the balance of the account
   * `get_balance_owner` names.
   */
  lemma CheckTestsOwnerBalance(user: Account, tokens: int, accounts: Accounts, ents: set<Entitlement>, now: int)
    requires ResolveStrategy(user, accounts, ents, now).mode != Dual
    ensures CheckBalanceSufficient(user, tokens, accounts, ents, now).0
            <==> GetBalanceOwner(user, accounts, ents, now).balance >= BaseCost(tokens)
  {
  }
}
