# Token ledger and KS3 request signing, modelled in Dafny

This project models two parts of a chat-commerce back end.

**The token ledger (`balance_utils.py`).** Every metered AI call is charged in
*units*: `ceil(tokens / 1000)`, times a per-call multiplier, rounded up. The
payer depends on the caller's *billing strategy*:

- `normal`: the user pays.
- `partner_only`: the user's superior is in the partner group and holds an
  entitlement window covering "now", so the partner alone pays.
- `dual`: the superior is a partner but no entitlement covers now, so partner
  and user both pay the full cost. If the user's decrement fails, the partner's
  decrement is credited back.

Each charge is an atomic conditional decrement on the account row. A committed
charge appends a usage record and fires a balance alert. In normal mode, a user
whose held balance cannot cover the unmultiplied cost has the remainder
consumed:

- a record of what was left is written;
- the row is saved with balance 0;
- a notice is sent.

A partner-side failure notifies both the user and the partner. Credits are
unconditional increments.

**KS3 signing (`async_ks3_client.py`).** The canonical `x-kss-` header block,
the canonical resource with its sub-resource query parameters, the
string-to-sign, the `KSS access:signature` header value, and the header
assembly of a signed request.

## Layout

- `cost.dfy` (`Cost`): the unit cost. The float multiplier becomes a rational
  `num/den`.
- `store.dfy` (`AccountStore`): account rows as a map. It has the three store
  statements: conditional decrement, increment, and whole-row save. It also
  proves conservation under any interleaving of the atomic operations.
- `strategy.dfy` (`Strategy`): strategy resolution, the balance owner and the
  read-only sufficiency check.
- `billing.dfy` (`Billing`): the ledger operations as functions from a
  database value to a new database value and a result. They specify the class
  in `ledger.dfy`.
- `billing_lemmas.dfy` (`BillingLemmas`): what those operations guarantee.
- `ledger.dfy` (`LedgerState`): class `Ledger`, with rows, usage trail,
  notices and alerts as fields. Its methods perform the source's steps one
  store statement at a time. Each is proved to reach exactly the state and
  result the `Billing` function defines.
- `scenarios.dfy` (`LedgerScenarios`): three concrete runs on a `Ledger`.
- `ks3_text.dfy` (`Ks3Text`): the Python building blocks the signer relies
  on:
  - insertion-ordered dict with distinct keys;
  - `lower()`;
  - `strip()`;
  - code-point string order;
  - `sorted(d.items())`.
- `ks3_signature.dfy` (`Ks3Signature`) and `ks3_client.dfy` (`Ks3Client`):
  canonicalisation, signing and `_build_headers`.

**Snapshots and the store.** The source works on in-memory user objects read
earlier, and on rows in the database. The model keeps both:

- the `user` argument is the snapshot;
- `Db.accounts` is the store.

All pre-checks read the snapshot, as the source does; the decrements act on the
store. The partner snapshot is the row read while the strategy is resolved.

A concurrent conflict happens when the stored row cannot cover the multiplied
cost. That can be because the snapshot is stale, or because of the gap between
the unmultiplied pre-check and the multiplied charge. The dual rollback happens
when the user's stored row cannot cover the cost after the partner's decrement.
That can be because the user snapshot is stale, or because the user is their
own superior, so both decrements hit one row. `Fresh(db, user)` states that the
user snapshot agrees with the store.

A Python falsy `superior_id` (0) means "no superior", as in
`if user.superior_id:`.

## Model

| member | source | states |
|---|---|---|
| Cost.CeilDiv | balance_utils.py:293 | `math.ceil(n / d)` is the least q with q·d ≥ n |
| Cost.BaseCost | balance_utils.py:38 | ceil(tokens/1000) for positive tokens (so at least 1), 0 otherwise |
| Cost.TokenCost | balance_utils.py:292-293 | the multiplied cost is the ceiling of base × multiplier |
| Cost.TokenCostZeroIff | balance_utils.py:292-305 | the charge is zero, so the call is skipped, exactly when tokens ≤ 0 or the multiplier is 0 |
| Cost.UnitCostIsBaseCost | balance_utils.py:292-293 | at multiplier 1.0 the charge is the base cost |
| Cost.SingleChargeIsOneUnit | balance_utils.py:386-393 | 1000 tokens at multiplier 1.0 cost exactly one unit |
| Cost.IntegerMultiplierScales | balance_utils.py:293 | an integer multiplier k charges exactly k × base |
| Cost.MultiplierAtLeastOneCoversBase | balance_utils.py:293 | a multiplier ≥ 1 never charges less than the base cost |
| Cost.TokenCostMonotoneInTokens | balance_utils.py:292-293 | more tokens never cost less |
| Cost.TokenCostMonotoneInMultiplier | balance_utils.py:292-293 | a larger multiplier never costs less |
| AccountStore.DecrementIfCovered | balance_utils.py:787-790 | the filtered update affects one row exactly when the row exists and covers the amount; that row drops by the amount, no other row changes |
| AccountStore.Increment | balance_utils.py:454-456 | the unfiltered update affects one row exactly when the row exists; it rises by the amount, nothing else changes |
| AccountStore.Save | balance_utils.py:117-118 | `asave` writes the snapshot's balance and superior over the whole row and leaves other rows alone |
| AccountStore.Conservation | balance_utils.py:601-627 | under any sequence of conditional decrements and increments, no row appears or disappears, and final + committed debits = initial + committed credits |
| AccountStore.CommittedDecrementsWereCovered | balance_utils.py:601-604 | committed debits never exceed the starting balance plus committed credits |
| AccountStore.SaveAfterCreditLosesCredit | balance_utils.py:116-118 | a credit committed between reading the snapshot and saving it zeroed is lost |
| Strategy.ResolveStrategy | balance_utils.py:508-556 | normal iff the superior link is missing, 0, unknown or not a partner; partner_only iff a partner superior has an active window start ≤ now < end; dual otherwise; the partner is the superior's row |
| Strategy.ExpiredEntitlementFallsBackToDual | balance_utils.py:538-547 | once every matching window has ended, the same stores resolve to dual |
| Strategy.GetBalanceOwner | balance_utils.py:231-246 | the owner is the partner exactly under partner_only, and the user otherwise |
| Strategy.CheckBalanceSufficient | balance_utils.py:176-228 | sufficient iff the base cost is 0 or every balance the mode requires covers it (user; partner; both); the shortfall names which side is short |
| Strategy.CheckTestsOwnerBalance | balance_utils.py:176-246 | outside dual mode, the check compares exactly the balance owner's balance |
| Billing.BillingResult.Status | balance_utils.py:777-784 | a result reports success exactly when the deduction succeeded, and insufficient_balance exactly for a refusal |
| BillingLemmas.ZeroCostChangesNothing | balance_utils.py:292-305 | a zero charge succeeds with 0 deducted and touches nothing |
| BillingLemmas.NormalCommitDebitsExactlyCost | balance_utils.py:786-850 | normal mode, covered: the row drops by exactly the cost; one record (cost, new balance) and one alert are written |
| BillingLemmas.NormalStoreShortIsConflict | balance_utils.py:786-803 | snapshot covers the base cost but the stored row does not cover the charge: concurrent conflict, nothing changes |
| BillingLemmas.NormalMultiplierGapIsConflict | balance_utils.py:767-803 | with a fresh snapshot whose balance lies between the base and the multiplied cost, the call is a conflict with no mutation |
| BillingLemmas.NormalShortfallConsumesRemainder | balance_utils.py:767-784 | the snapshot does not cover the base cost: refused, the row is 0, other rows unchanged, a remainder record only if something was left, one notice |
| BillingLemmas.PartnerOnlyChargesPartnerOnly | balance_utils.py:559-662 | partner_only, partner covered: only the partner's row drops by the cost; one record billed to the partner with the user as consumer |
| BillingLemmas.DualShortRejectsBeforeMutation | balance_utils.py:588-596 | dual with either snapshot short: refused with the store untouched (no decrement at all), both sides notified |
| BillingLemmas.DualRollbackRestoresStore | balance_utils.py:614-627 | when the user's decrement fails after the partner's committed, the credit-back restores the store exactly and no record is written |
| BillingLemmas.DualChargesBoth | balance_utils.py:559-662 | dual, distinct accounts, both snapshots and both stored rows covering the cost (stale snapshots allowed): both stored rows drop by the cost; two records (partner first) and two alerts carry the refreshed stored balances |
| BillingLemmas.PartnerStoreShortIsConflict | balance_utils.py:601-611 | the partner snapshot passes the pre-check but the stored partner row does not cover the cost: concurrent conflict, nothing changes |
| BillingLemmas.PartnerFailureIsAllOrNothing | balance_utils.py:311-331 | a failed partner-side deduction leaves balances, usage and alerts unchanged and adds the two partner notices |
| BillingLemmas.DeductionIsAppendOnly | balance_utils.py:256-354 | usage, notices and alerts only grow, and rows stay keyed by their own id |
| BillingLemmas.PartnerBillingIsAppendOnly | balance_utils.py:559-676 | partner billing only appends records, and keeps rows keyed by id |
| BillingLemmas.CommittedRecordsMatchStore | balance_utils.py:636-662 | for any snapshot, provided the user is not their own superior: every record a successful deduction appends names a row that fell by exactly its amount and now holds its surplus |
| BillingLemmas.DeductionStoreEffectIsRun | balance_utils.py:601-627 | outside the remainder path, the store after a deduction is the store after running its own atomic statements (decrements, then the credit-back), and the committed statements debit each account by exactly what the result reports as deducted from it, net of credits |
| BillingLemmas.DeductionConservesReported | balance_utils.py:601-627 | outside the remainder path, no row appears or disappears and every balance ends at its start minus what the result reports as deducted from that account (0 for a refusal, a conflict or a rolled-back dual charge) |
| BillingLemmas.AppendedRecordsCarryRequest | balance_utils.py:809-816 | every record a deduction appends carries the request's usage type and token count, and no shop exactly for the recharge/package usage types |
| BillingLemmas.CheckPredictsDeduction | balance_utils.py:176-228 | with a fresh snapshot, multiplier 1.0 and no user who is their own superior, the read-only check succeeds iff the deduction succeeds |
| BillingLemmas.SingleDeductionChargesOneUnit | balance_utils.py:358-407 | the single deduction requests or charges exactly one unit from each payer |
| BillingLemmas.IncreaseBalanceCredits | balance_utils.py:444-490 | a non-positive amount or an unknown user is an error with no change; otherwise the balance rises by the amount and one record (amount, new balance, 0 tokens, no shop) is written |
| BillingLemmas.AsWrittenRejectionReportsSuccess | balance_utils.py:777-784 | as written, the normal refusal's dict reports status "success" (spread from the remainder report) though nothing was charged |
| LedgerState.Ledger.ConditionalDecrement | balance_utils.py:787-790 | one atomic statement: rows affected, and the store after it |
| LedgerState.Ledger.UnconditionalIncrement | balance_utils.py:625-627 | one atomic statement: rows affected, and the store after it |
| LedgerState.Ledger.SaveUser | balance_utils.py:117-118 | `asave` of the snapshot |
| LedgerState.Ledger.CheckAndTriggerAlert | balance_utils.py:711-727 | records that an alert check ran for the account and value |
| LedgerState.Ledger.HandleInsufficientInternal | balance_utils.py:83-142 | the in-place remainder path reaches the state and report of `Billing.HandleInsufficientInternal` |
| LedgerState.Ledger.HandlePartnerInsufficient | balance_utils.py:679-708 | two notices, user then partner |
| LedgerState.Ledger.CheckAndHandleInsufficientBalance | balance_utils.py:15-80 | the in-place check reaches the state and verdict of `Billing.CheckAndHandleInsufficientBalance` |
| LedgerState.Ledger.ExecuteNormalBilling | balance_utils.py:754-850 | the in-place normal path reaches the state and result of `Billing.ExecuteNormalBilling` |
| LedgerState.Ledger.ExecutePartnerBilling | balance_utils.py:559-676 | the in-place partner path, rollback included, reaches the state and result of `Billing.ExecutePartnerBilling` |
| LedgerState.Ledger.DeductBalanceByTokens | balance_utils.py:256-354 | the in-place deduction reaches the state and result of `Billing.DeductBalanceByTokens`, and its boolean is the result's success |
| LedgerState.Ledger.DeductSingleBalance | balance_utils.py:358-407 | the deduction of 1000 tokens at multiplier 1.0 |
| LedgerState.Ledger.IncreaseBalance | balance_utils.py:410-503 | the in-place credit reaches the state and result of `Billing.IncreaseBalance` |
| LedgerScenarios.ShortfallConsumesRemainder | balance_utils.py:767-784 | balance 500, 1,000,000 tokens: refused, balance 0, one record of 500, one notice |
| LedgerScenarios.EntitledPartnerPays | balance_utils.py:559-662 | partner 50 with a covering entitlement, cost 10: partner left with 40, user untouched, one record billed to the partner |
| LedgerScenarios.ExpiredEntitlementRejectsDual | balance_utils.py:588-596 | expired entitlement, partner 100, user 5, cost 10: refused, partner still 100 and never decremented, no record, both notified |
| Ks3Text.Put | async_ks3_client.py:74 | dict assignment: the key reads the new value, every other key reads as before, keys stay distinct; existing keys keep their places, and a new key goes last |
| Ks3Text.Strip | async_ks3_client.py:74 | `strip()` keeps the infix with no whitespace at either end, and cuts only whitespace |
| Ks3Text.SortByKey | async_ks3_client.py:80 | sorting keeps exactly the same items |
| Ks3Text.SortByKeySorts | async_ks3_client.py:80 | for distinct keys, the sorted items are in strictly ascending code-point order and are exactly the dict's items |
| Ks3Text.LexLessTotal | async_ks3_client.py:80 | string order is total on distinct strings |
| Ks3Text.LexLessTransitive | async_ks3_client.py:80 | string order is transitive |
| Ks3Signature.CollectKss | async_ks3_client.py:70-77 | the collected dict has distinct, lowercased `x-kss-` keys |
| Ks3Signature.CollectKssLastWins | async_ks3_client.py:70-77 | a key reads the stripped value of the last header that lowers to it, and only `x-kss-` keys are present |
| Ks3Signature.CollectKssEmptyIff | async_ks3_client.py:70-79 | nothing is collected exactly when no key lowers to an `x-kss-` key |
| Ks3Signature.CanonicalHeadersEmptyIff | async_ks3_client.py:68-81 | the canonical block is "" exactly when no key lowers to an `x-kss-` key |
| Ks3Signature.CanonicalHeadersEntries | async_ks3_client.py:68-81 | the block renders `key:value\n` lines in strictly ascending key order: exactly the lowered `x-kss-` keys, each with its last value, stripped |
| Ks3Signature.CanonicalizeKs3Headers | async_ks3_client.py:68-81 | the collecting loop, sort and join produce the canonical block; "" exactly when no key qualifies |
| Ks3Signature.IncludedParams | async_ks3_client.py:93 | keeps exactly the query items whose key is a special sub-resource parameter |
| Ks3Signature.CanonicalResourcePath | async_ks3_client.py:85-88 | the resource starts with "/"+bucket, followed by "/"+object_key only when the key is non-empty |
| Ks3Signature.CanonicalResourceQuery | async_ks3_client.py:90-97 | "?" is appended exactly when a special parameter is present; it joins exactly those, sorted by key, with `&` |
| Ks3Signature.StringToSignRoundTrip | async_ks3_client.py:54 | with newline-free fields, parsing the string-to-sign gives back method, MD5, type, date, and headers + resource, in that order |
| Ks3Signature.AuthorizationRoundTrip | async_ks3_client.py:65 | with a ':'-free access key, parsing `KSS ak:sig` gives back the key and the signature |
| Ks3Client.PutAllLookup | async_ks3_client.py:166-167 | after `update`, a key reads the extra header's value when there is one, and the earlier value otherwise |
| Ks3Client.PutOtherKeepsCanonical | async_ks3_client.py:187 | setting a non-`x-kss-` header leaves the canonical block unchanged |
| Ks3Client.BaseHeaders | async_ks3_client.py:157-165 | Date and Host always; Content-Type and Content-MD5 exactly when non-empty; no other key |
| Ks3Client.Update | async_ks3_client.py:166-167 | the loop of assignments is `d.update(e)` |
| Ks3Client.BuildHeaders | async_ks3_client.py:142-188 | Date, Host and Authorization always present; content headers only when non-empty; extra headers override; nothing else is added; Authorization signs the canonical headers of the headers actually returned |

## Left out

- The ORM and async I/O (`aupdate`, `acreate`, `asave`, `arefresh_from_db`, the partner-group lookup) are map updates and sequence appends. Concurrent interleavings inside one operation are not modelled. The snapshot/store split and `AccountStore.Run` stand in for them.
- The partner-side concurrent conflict (balance_utils.py:606-611) cannot be reached through `DeductBalanceByTokens`. The partner snapshot there is the row that strategy resolution reads from the same store the decrement then acts on, and nothing runs in between. `PartnerStoreShortIsConflict` states this branch's outcome for `ExecutePartnerBilling` given any partner snapshot.
- `refresh_from_db` and the in-place update of the caller's user object are modelled as new values. The caller does not see the refreshed balance.
- Cost.TokenCost: the float `cost_multiplier` is a rational `num/den`, and the IEEE rounding of the product `base_cost * cost_multiplier` is not modelled. The model agrees exactly with the float result at realistic token counts when the multiplier is a binary fraction, which includes the documented 1.0 and 2.0 (balance_utils.py:281). For other multipliers it can charge one unit less than the source: at 1.1, a base cost of 50 gives the double 55.00000000000001, which the source rounds up to 56, while the model charges 55. Cost.BaseCost likewise takes the exact ceiling of tokens/1000, not `math.ceil` of the float quotient `tokens / 1000`; the two differ only from about 1.76e16 tokens upward (17,592,186,044,416,001 tokens: the float quotient rounds down to 17,592,186,044,416.0 and the source charges one unit less).
- Logging, the notice and message texts and the customer message lookup (balance_utils.py:145-172, 730-751) are left out. A notice records only its recipient and kind.
- Strategy.CheckBalanceSufficient: the failure message is the shortfall kind (user, partner or both), not its text.
- The alert engine's own logic and its swallowed failures are not modelled. `Alert` records that an alert check ran, with its account and value.
- The generic `except Exception` branches are left out, and so is the "error" status of the remainder report. No operation raises in the model, so `Status.Error` appears only for credit rejections.
- The fields of the result dicts not named in `BillingResult` (user name, token count, multiplier, available balances) are left out.
- The entitlement store is a set of values, and "now" is a parameter (`timezone.now()` is a clock). A failed superior lookup (`DoesNotExist`) is an id missing from the map.
- Ks3Text.Lower: lowers ASCII only. Python's full Unicode `lower()` (for example the Kelvin sign becoming `k`) is not modelled.
- HMAC-SHA1 and base64 are the function parameter `mac`, and MD5 is an input string.
- The request date is a parameter (`datetime.utcnow` is a clock).
- The string-to-sign uses the `content_type` and `content_md5` arguments and the `date` argument. It does not use the header values after extra headers override them, as in the source.
- The aiohttp session and pool, the multipart upload HTTP calls, XML building and parsing, and the global singleton client (async_ks3_client.py:113-140, 190-400) are left out.

## Findings

| source | as written | input that shows it | evidently intended | confidence | as-written member | corrected member |
|---|---|---|---|---|---|---|
| balance_utils.py:777-784 | the refusal dict `{"status": "insufficient_balance", ..., **detail_info}` spreads the remainder report last, and that report's own `"status"` is `"success"` (balance_utils.py:134), so the refusal reports success | a normal user with balance 500 and 1,000,000 tokens: `(False, {"status": "success", ...})` | the refusal reports `"insufficient_balance"` | not executed | BillingLemmas.AsWrittenRejectionReportsSuccess | Billing.BillingResult.Status |
