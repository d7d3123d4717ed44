/**
 * Three end-to-end runs of the token deduction on a concrete ledger: the
 * normal shortfall that consumes the remainder, a covered partner-only charge
 * and a dual-mode rejection that leaves the partner untouched.
 */
module LedgerScenarios {
  import opened Wrappers
  import opened AccountStore
  import opened Cost
  import opened Strategy
  import opened Billing
  import opened BillingLemmas
  import opened LedgerState

  const Chat: string := "chat"

  lemma MillionTokensCostAThousand()
    ensures BaseCost(1000000) == 1000 && TokenCost(1000000, Unit) == 1000
  {
    UnitCostIsBaseCost(1000000);
  }

  lemma TenThousandTokensCostTen()
    ensures BaseCost(10000) == 10 && TokenCost(10000, Unit) == 10
  {
    UnitCostIsBaseCost(10000);
  }

  /**
   * Balance 500, a million tokens at the unit multiplier (cost 1000): the
   * deduction is refused, the balance drops to 0, one record of the 500 that
   * was left is written and one low-balance notice goes out.
   */
  method ShortfallConsumesRemainder()
    returns (ok: bool, balance: nat, usage: seq<UsageRecord>, notices: seq<Notice>)
    ensures !ok && balance == 0
    ensures usage == [UsageRecord(1, 1, 500, 0, Chat, 1000000, None)]
    ensures notices == [Notice(1, LowBalance)]
  {
    var user := Account(1, 500, None, false);
    var ledger := new Ledger(map[1 := user], {});
    MillionTokensCostAThousand();
    NormalShortfallConsumesRemainder(ledger.State(), {}, user, 1000000, Chat, None, Unit, 0);
    var result;
    ok, result := ledger.DeductBalanceByTokens(user, 1000000, Chat, None, Unit, 0);
    balance := Balance(ledger.accounts, 1);
    usage := ledger.usage;
    notices := ledger.notices;
  }

  /**
   * A subordinate whose partner holds an entitlement covering now, partner
   * balance 50, cost 10: the partner alone pays and is left with 40, the
   * subordinate's row is untouched and the one record is the partner's.
   */
  method EntitledPartnerPays()
    returns (ok: bool, partnerBalance: nat, userBalance: nat, usage: seq<UsageRecord>)
    ensures ok && partnerBalance == 40 && userBalance == 7
    ensures usage == [UsageRecord(2, 1, 10, 40, Chat, 10000, None)]
  {
    var partner := Account(2, 50, None, true);
    var user := Account(1, 7, Some(2), false);
    var grant := Entitlement(1, 2, true, 0, 100);
    var ledger := new Ledger(map[1 := user, 2 := partner], {grant});
    TenThousandTokensCostTen();
    assert Covers(grant, 1, 2, 50);
    PartnerOnlyChargesPartnerOnly(ledger.State(), {grant}, user, 10000, Chat, None, Unit, 50);
    var result;
    ok, result := ledger.DeductBalanceByTokens(user, 10000, Chat, None, Unit, 50);
    partnerBalance := Balance(ledger.accounts, 2);
    userBalance := Balance(ledger.accounts, 1);
    usage := ledger.usage;
  }

  /**
   * The entitlement has expired, partner balance 100, subordinate balance 5,
   * cost 10: dual mode refuses the charge before any decrement, so no row
   * changes and no record is written; both parties are notified.
   */
  method ExpiredEntitlementRejectsDual()
    returns (ok: bool, partnerBalance: nat, userBalance: nat, usage: seq<UsageRecord>, notices: seq<Notice>)
    ensures !ok && partnerBalance == 100 && userBalance == 5 && usage == []
    ensures notices == [Notice(1, PartnerShortToUser), Notice(2, PartnerShortToPartner)]
  {
    var partner := Account(2, 100, None, true);
    var user := Account(1, 5, Some(2), false);
    var grant := Entitlement(1, 2, true, 0, 100);
    var ledger := new Ledger(map[1 := user, 2 := partner], {grant});
    TenThousandTokensCostTen();
    assert !Covers(grant, 1, 2, 200);
    DualShortRejectsBeforeMutation(ledger.State(), {grant}, user, 10000, Chat, None, Unit, 200);
    var result;
    ok, result := ledger.DeductBalanceByTokens(user, 10000, Chat, None, Unit, 200);
    partnerBalance := Balance(ledger.accounts, 2);
    userBalance := Balance(ledger.accounts, 1);
    usage := ledger.usage;
    notices := ledger.notices;
  }
}
