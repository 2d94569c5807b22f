# Savia crowdfunding contract: a Dafny model

This project models the Savia crowdfunding contract (`SaviaContract`, a
Soroban smart contract written in Rust) and proves properties of it. The
contract keeps campaigns, donations, trust scores, NFT reward badges and
disbursement requests in storage. Every public entry point validates its
inputs in a fixed order before writing anything.

The model is functional. `Model.State` stands for the contract's storage:
- the admin and the platform fee;
- the four id counters;
- the `PlatformStats` record;
- one map per persistent key family.

Each entry point is a pure function from the state before the call to an
`Outcome`. The outcome is one of:
- `Done(state, value)`: the call succeeded, with the new storage and the return value;
- `Failed(error)`: the contract returned a `SaviaError`;
- `Aborted(reason)`: the host aborted the call, either for a missing signature or for an arithmetic overflow.

A failed or aborted invocation commits nothing, so the caller keeps the old
state. `update_stats` is modelled as the field updates it applies to the
statistics record.

Files:
- `base.dfy`: `Option`, the integer widths, big-endian encoding and concatenation.
- `model.dfy`: the records, the errors, `State`, `Env` and `Outcome`.
- `ids.dfy`: `generate_id`, the input lists of the four id kinds, and id freshness.
- `trust.dfy`: the trust-score engine.
- `badges.dfy`: badge tiers and `mint_donation_nft`.
- `contract.dfy`: the public entry points.
- `sums.dfy`: sums over a map, used as the reference definition of the aggregates.
- `invariants.dfy`: the storage invariant and its preservation by every call.
- `lifecycle.dfy`: fresh ids, and how records evolve over a run of calls.
- `scenarios.dfy`: concrete runs, including the contract's own donation test.

## Model

| member | source | states |
|---|---|---|
| Base.U64BeRoundTrip | contracts/hello-world/src/lib.rs:220-226 | The eight bytes of `to_be_bytes` decode back to the number, so the numeric id inputs are injective. |
| Ids.GenerateId | contracts/hello-world/src/lib.rs:678-684 | With the five inputs every call site passes, the id is the hash of their plain concatenation, with no separator or length prefix between them. |
| Ids.SomeHashSeparatesCounters | contracts/hello-world/src/lib.rs:678-684 | The hash assumption of the model can be met: a hash that writes the input's counter into the 32 id bytes never maps inputs with different counters to the same id. |
| Ids.CounterIsLast | contracts/hello-world/src/lib.rs:218-227 | Every id input list ends with the new counter's eight bytes, and the counter can be read back from the concatenated hash input. |
| Ids.FreshId | contracts/hello-world/src/lib.rs:212-227 | An id derived from the next counter value is not among the ids issued from earlier counter values. |
| Ids.IssueNext | contracts/hello-world/src/lib.rs:212-227 | With a hash that never maps inputs with different counters to the same id, issuing the next id keeps every later counter value's id unused. |
| Ids.Issue | contracts/hello-world/src/lib.rs:335-350 | Issuing an id from an incremented counter gives a new id and advances the record of issued ids by one. |
| Ids.DonationInputsInjective | contracts/hello-world/src/lib.rs:341-350 | Equal donation hash inputs imply equal campaign id, donor, amount, time and counter: the fixed-width fields delimit the donor's bytes. |
| Ids.CampaignInputsAmbiguous | contracts/hello-world/src/lib.rs:218-227 | When address strings may differ in length, two different (beneficiary, title) pairs give the same campaign hash input. |
| Ids.CampaignInputsInjectiveForEqualKeyLengths | contracts/hello-world/src/lib.rs:218-227 | When the address strings have the same length, as Stellar strkeys do, equal campaign hash inputs imply equal beneficiary, title, goal, time and counter. |
| Trust.CreateTrustScore | contracts/hello-world/src/lib.rs:398-415 | Fails `ScoreExists` exactly when a record exists. Otherwise it adds one record for the entity with score 50 and zero counters, and keeps every other record. |
| Trust.DonorScore | contracts/hello-world/src/lib.rs:433-440 | The donor formula always gives a score between 50 and 100. |
| Trust.UpdateDonorTrustScore | contracts/hello-world/src/lib.rs:418-444 | Counts the donation (count +1, total + amount), keeps every other address's record, and sets the score to the donor formula of the new counters. |
| Trust.UpdateBeneficiaryTrustScore | contracts/hello-world/src/lib.rs:447-468 | Counts the campaign and sets the score to `min(100, score + min(campaigns_created, 20))` of the new count; the score stays in 0..100, an in-range score never drops, and below 100 it strictly rises. Other records are unchanged. |
| Trust.BeneficiaryScore | contracts/hello-world/src/lib.rs:462-464 | The beneficiary formula never exceeds 100, never lowers an in-range score, and strictly raises a score below 100. |
| Trust.CampaignsByScore | contracts/hello-world/src/lib.rs:447-468 | A beneficiary without a record who creates n campaigns ends at `min(100, 50 + 1 + 2 + ... + n)`. |
| Trust.TenthCampaignReachesMax | contracts/hello-world/src/lib.rs:459-464 | A new beneficiary is at 95 after nine campaigns and reaches 100 with the tenth. |
| Trust.DonorScoreUnclamped | contracts/hello-world/src/lib.rs:435-440 | The `min(100)` clamp of the donor formula never binds: the four terms sum to at most 100. |
| Trust.DonorScoreMonotone | contracts/hello-world/src/lib.rs:433-440 | More donations or a larger total never lower the donor score. |
| Trust.DonorUpdateForgetsScore | contracts/hello-world/src/lib.rs:430-440 | A donor update ignores the previous score: two records with the same counters get the same new score, so a campaign-creation boost is discarded. |
| Trust.FirstAndSecondDonation | contracts/hello-world/src/lib.rs:418-444 | A new donor's first donation below 1000 leaves the score at 50. A second one earns the 5-point consistency bonus. |
| Badges.GetBadgeType | contracts/hello-world/src/lib.rs:704-716 | The tier's threshold is reached by the amount and the next tier's threshold is not. |
| Badges.BadgeTypeIsHighestReached | contracts/hello-world/src/lib.rs:704-716 | The tier of an amount is the tier whose threshold it reaches while reaching no higher tier's (both directions). |
| Badges.BadgeTypeMonotone | contracts/hello-world/src/lib.rs:704-716 | A larger amount never earns a lower tier. |
| Badges.BadgeNamesDistinct | contracts/hello-world/src/lib.rs:704-716 | The five tier names are pairwise different, so the stored string identifies the tier. |
| Badges.MintDonationNft | contracts/hello-world/src/lib.rs:476-524 | Increments the NFT counter, derives the badge id from the new value, and stores the whole badge record: that id, the owner, the tier that follows the amount, the campaign, the mint time and the metadata URI. Counts it in `total_nfts` and changes nothing else. |
| Contract.Initialize | contracts/hello-world/src/lib.rs:154-183 | `AlreadyInitialized` is checked before `InvalidFee` (fee > 1000), which comes before the auth check. Success happens exactly when none applies, and then records admin and fee, zeroes the four counters and the stats, and keeps every record. |
| Contract.CreateCampaign | contracts/hello-world/src/lib.rs:186-269 | Errors in source order (auth, `InvalidGoal`, `InvalidDuration`, `InvalidInput`), with success iff the inputs are valid and nothing overflows; valid signed inputs that do not succeed abort with `Overflow`. A new campaign has balance 0, is active, unverified, has score 0 and ends at `now + days*86400`. Total and active counts rise by 1, and the beneficiary's trust score is updated. |
| Contract.VerifyCampaign | contracts/hello-world/src/lib.rs:277-300 | `Unauthorized` without an admin, then the admin's auth, then `CampaignNotFound`. On success only that campaign changes: verified, with score `min(score, 100)`. |
| Contract.CloseCampaign | contracts/hello-world/src/lib.rs:649-673 | `CampaignNotFound`, then the beneficiary's auth, then `CampaignInactive`. On success only `active` becomes false, and the active count is decremented, saturating at 0. |
| Contract.FeeRate | contracts/hello-world/src/lib.rs:331 | The rate in force is the stored fee when there is one (otherwise the default of 200), and it is an accepted rate (at most 1000) whenever the stored one is. |
| Contract.PlatformFee | contracts/hello-world/src/lib.rs:332 | The fee is the gross amount times the rate divided by 10000, rounded down: `fee * 10000 <= amount * rate < (fee + 1) * 10000`. |
| Contract.FeeAtMostTenth | contracts/hello-world/src/lib.rs:160-162 | With an accepted rate (at most 1000 basis points) the fee is at most a tenth of the gross amount, so the net amount is well defined. |
| Contract.RecordDonation | contracts/hello-world/src/lib.rs:331-377 | Stores the donation at the net amount under the id of the next counter value. Credits the campaign and `total_raised` with exactly the net amount, counts the donation, and updates the donor's trust score; nothing else changes. |
| Contract.Donate | contracts/hello-world/src/lib.rs:303-390 | Errors in source order (auth, `CampaignNotFound`, `CampaignInactive`, `CampaignEnded`, `InvalidAmount`), with success iff none applies and nothing overflows; otherwise an overflow aborts the call. Net + fee = gross. Balance and `total_raised` rise by the net amount, `total_donations` by 1, and `total_nfts` by 1 iff a badge is asked for. |
| Contract.CreateDisbursement | contracts/hello-world/src/lib.rs:532-585 | `CampaignNotFound`, then the beneficiary's auth, then `InsufficientFunds` when the amount exceeds the balance; any other failure is an `Overflow` abort of the counter. On success a `Pending` request with no execution time is stored under the id derived from the incremented counter, and the balance is not touched. |
| Contract.ApproveDisbursement | contracts/hello-world/src/lib.rs:588-605 | `Unauthorized` without an admin, then the admin's auth, then `DisbursementNotFound`. On success the status becomes `Approved`, whatever it was. |
| Contract.ExecuteDisbursement | contracts/hello-world/src/lib.rs:608-630 | `DisbursementNotFound`, then the recipient's auth, then `NotApproved`. Success happens iff the status is `Approved`, and sets `Executed` with `executed_at = now`. |
| Invariants.InitializeEstablishesInv | contracts/hello-world/src/lib.rs:154-183 | A first `initialize` on empty storage succeeds and establishes the invariant. |
| Invariants.BeneficiaryUpdateBounded | contracts/hello-world/src/lib.rs:459-464 | A beneficiary update keeps every stored trust score in 0..100. |
| Invariants.DonorUpdateBounded | contracts/hello-world/src/lib.rs:433-440 | A donor update keeps every stored trust score in 0..100. |
| Invariants.CreateCampaignPreservesInv | contracts/hello-world/src/lib.rs:186-269 | `create_campaign` preserves the invariant. |
| Invariants.VerifyCampaignPreservesInv | contracts/hello-world/src/lib.rs:277-300 | `verify_campaign` preserves the invariant. |
| Invariants.CloseCampaignPreservesInv | contracts/hello-world/src/lib.rs:649-673 | `close_campaign` preserves the invariant, and the active count is positive whenever a close succeeds, so its saturating decrement never saturates. |
| Invariants.RecordDonationKeepsInv | contracts/hello-world/src/lib.rs:331-377 | The donation writes keep every balance equal to the sum of its donations and keep the stats equal to the records. |
| Invariants.MintKeepsInv | contracts/hello-world/src/lib.rs:476-524 | Minting a badge for an existing campaign keeps the invariant. |
| Invariants.DonatePreservesInv | contracts/hello-world/src/lib.rs:303-390 | `donate` preserves the invariant. |
| Invariants.CreateDisbursementPreservesInv | contracts/hello-world/src/lib.rs:532-585 | `create_disbursement` preserves the invariant. |
| Invariants.ApproveDisbursementPreservesInv | contracts/hello-world/src/lib.rs:588-605 | `approve_disbursement` preserves the invariant, and no status becomes `Rejected`. |
| Invariants.ExecuteDisbursementPreservesInv | contracts/hello-world/src/lib.rs:608-630 | `execute_disbursement` preserves the invariant; an executed request always has an execution time. |
| Invariants.InitializeAgainFails | contracts/hello-world/src/lib.rs:154-158 | Once initialised, every further `initialize` fails `AlreadyInitialized`. |
| Invariants.ApplyPreservesInv | contracts/hello-world/src/lib.rs:150-673 | Every call, successful or not, preserves the invariant. |
| Invariants.RunPreservesInv | contracts/hello-world/src/lib.rs:150-673 | Every sequence of calls preserves the invariant. |
| Invariants.ReachableIsConsistent | contracts/hello-world/src/lib.rs:363-374 | After a first `initialize` and any calls: every balance equals the sum of its donations' net amounts, and the stats equal the record counts, the active-campaign count and the total of net amounts. Scores lie in 0..100, and no disbursement is `Rejected`. |
| Lifecycle.CreateCampaignIdFresh | contracts/hello-world/src/lib.rs:212-227 | A created campaign's id is not already a stored campaign's id. |
| Lifecycle.DonateIdsFresh | contracts/hello-world/src/lib.rs:335-350 | A donation's id is new, and the minted badge adds exactly one new badge id. |
| Lifecycle.CreateDisbursementIdFresh | contracts/hello-world/src/lib.rs:549-564 | A disbursement's id is new. |
| Lifecycle.CreateCampaignGrows | contracts/hello-world/src/lib.rs:186-269 | `create_campaign` removes and rewrites no campaign (given a fresh id), and no trust counter goes down. |
| Lifecycle.VerifyCampaignGrows | contracts/hello-world/src/lib.rs:277-300 | `verify_campaign` removes nothing, lowers no balance, reopens nothing and unverifies nothing. |
| Lifecycle.CloseCampaignGrows | contracts/hello-world/src/lib.rs:649-673 | `close_campaign` removes nothing, keeps every balance and never reactivates. |
| Lifecycle.DonateGrows | contracts/hello-world/src/lib.rs:303-390 | Given fresh ids, `donate` rewrites no stored donation or badge, lowers no balance, and lowers no trust counter. |
| Lifecycle.CreateDisbursementGrows | contracts/hello-world/src/lib.rs:532-585 | Given a fresh id, `create_disbursement` keeps every existing request and record. |
| Lifecycle.ApproveDisbursementGrows | contracts/hello-world/src/lib.rs:588-605 | `approve_disbursement` keeps every request's campaign, recipient and amount. |
| Lifecycle.ExecuteDisbursementGrows | contracts/hello-world/src/lib.rs:608-630 | `execute_disbursement` keeps every request's campaign, recipient and amount. |
| Lifecycle.ApplyGrows | contracts/hello-world/src/lib.rs:150-673 | With an admin stored and ids derived from unused counters, every call only grows the records. |
| Lifecycle.RunGrows | contracts/hello-world/src/lib.rs:150-673 | Along any run from a consistent state, no record disappears, balances never go down, a closed campaign is never reopened, and stored donations and badges never change. |
| Scenarios.DonationFlow | contracts/hello-world/src/lib.rs:765-808 | Fee 200 with a 1000 donation and a badge request: the donation, the balance and `total_raised` are 980, one donation and one Bronze badge are counted, and the donor stays at 50. |
| Scenarios.ExecutedCanBeExecutedAgain | contracts/hello-world/src/lib.rs:593-620 | An executed disbursement can be re-approved and executed a second time. |
| Scenarios.DisbursementsReserveNothing | contracts/hello-world/src/lib.rs:545-547 | Two requests for the full balance both succeed and the balance is unchanged: requests can total twice the funds. |
| Scenarios.CampaignBeforeInitialize | contracts/hello-world/src/lib.rs:154-183 | A campaign created before `initialize` survives it while `total_campaigns` is reset to 0, breaking the stats. Re-creating it with the same inputs reuses its id. |

## Left out

- SHA-256 is an uninterpreted function `Env.sha256`. The invariant and the freshness results assume only that two hash inputs ending in different counter values never give the same id (`Ids.SeparatesCounters`), an idealisation of the hash that `Ids.SomeHashSeparatesCounters` shows can be met. It is not computational collision resistance: it excludes every collision between inputs with different counters, and real SHA-256, which maps infinitely many inputs of each counter value onto 32 bytes, almost surely has such collisions. The freshness and invariant results therefore carry over to the deployed contract only as long as no cross-counter collision occurs among the ids it actually derives.
- `require_auth` is modelled as membership of the principal in `Env.signers`. A missing signature aborts the call (`Aborted(AuthMissing(p))`) rather than returning a contract error.
- Arithmetic overflow of `u64`/`u32` sums and products aborts the call (`Aborted(Overflow)`). This assumes the contract is built with overflow checks; the Cargo profile is not part of this model. No wrap-around is modelled.
- A call that returns an error commits nothing: the host rolls back the invocation's writes, so every `Failed`/`Aborted` outcome leaves the state unchanged.
- Event publication (`env.events().publish`) has no effect on storage and is not modelled.
- The getters (`get_campaign`, `get_donation`, `get_trust_score`, `get_nft`, `get_disbursement`, `get_stats`) are plain reads of the state fields and are not modelled separately.
- The storage keys `CampaignsByBeneficiary` and `DonationsByCampaign` are never written and have no counterpart.
- The ledger clock is the parameter `Env.now`.
- Strings are byte sequences. Only emptiness is checked, and `Address::to_string` is taken as the address's stored bytes.
- The badge stores its tier (`BadgeTier`) rather than the name string; `Badges.BadgeName` gives the string, and distinct tiers have distinct names.
- The invariant covers storage reached from a successful first `initialize`. Calls made before `initialize` are accepted by the contract, and `Scenarios.CampaignBeforeInitialize` shows what they lead to.
- `DisbursementStatus::Rejected` is declared but never assigned; the invariant records that no disbursement is ever `Rejected`.
- The `#[cfg(test)]` module is used only as a source of scenarios (`Scenarios.DonationFlow`).
