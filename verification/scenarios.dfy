/** Concrete runs of the contract: the donation flow of the contract's own
    tests, and the behaviours its disbursement workflow and its missing
    initialisation guard allow. */
module Scenarios {
  import opened Base
  import opened Model
  import opened Ids
  import Trust
  import C = Contract
  import opened Invariants

  /** Initialise with a 2% fee, create a 10000-unit campaign for 30 days,
      donate 1000 and ask for a badge: the platform keeps 20, the donation,
      the campaign balance and the total raised all record 980, one
      donation and one badge are counted, the badge is Bronze, and the
      donor's first donation leaves them at the neutral score. */
  lemma DonationFlow(h: Hash, now: u64, admin: Address, beneficiary: Address, donor: Address,
                     title: Text, description: Text, category: Text, location: Text)
    requires |title| > 0 && |description| > 0
    requires now + 30 * C.SECONDS_PER_DAY < U64_LIMIT
    ensures var s1 := C.Initialize(EmptyState, Env(now, {admin}, h), admin, 200);
      && s1.Done?
      && var r2 := C.CreateCampaign(s1.state, Env(now, {beneficiary}, h), beneficiary, title, description,
                                    10000, 30, category, location);
      && r2.Done?
      && r2.state.trustScores[beneficiary].campaignsCreated == 1
      && var r3 := C.Donate(r2.state, Env(now, {donor}, h), r2.value, donor, 1000, false, true);
      && r3.Done?
      && r3.state.donations[r3.value].amount == 980
      && r3.state.campaigns[r2.value].currentAmount == 980
      && r3.state.stats.totalDonations == 1
      && r3.state.stats.totalRaised == 980
      && r3.state.stats.totalNfts == 1
      && |r3.state.badges| == 1
      && (forall k :: k in r3.state.badges ==>
            r3.state.badges[k].badgeType == Bronze && r3.state.badges[k].owner == donor)
      && r3.state.trustScores[donor].donationCount == 1
      && r3.state.trustScores[donor].score == Trust.NEUTRAL_SCORE
  {
    var s1 := C.Initialize(EmptyState, Env(now, {admin}, h), admin, 200);
    var r2 := C.CreateCampaign(s1.state, Env(now, {beneficiary}, h), beneficiary, title, description,
                               10000, 30, category, location);
    assert r2.Done?;
    assert r2.state.badges == map[];
    FirstDonationOfThousand(r2.state, Env(now, {donor}, h), r2.value, donor);
  }

  /** The donation step of `DonationFlow`, on any state with the 2% fee, an
      open campaign holding nothing yet, and no earlier donation or badge. */
  lemma FirstDonationOfThousand(s: State, env: Env, campaignId: Id, donor: Address)
    requires donor in env.signers && campaignId in s.campaigns
    requires s.campaigns[campaignId].active && env.now <= s.campaigns[campaignId].endTime
    requires s.campaigns[campaignId].currentAmount == 0
    requires s.platformFee == Some(200) && s.donationCounter == 0 && s.nftCounter == 0
    requires s.stats.totalDonations == 0 && s.stats.totalRaised == 0 && s.stats.totalNfts == 0
    requires s.badges == map[]
    requires Trust.ScoreOrDefault(s.trustScores, donor, env.now).donationCount == 0
    requires Trust.ScoreOrDefault(s.trustScores, donor, env.now).totalDonated == 0
    ensures var r := C.Donate(s, env, campaignId, donor, 1000, false, true);
      && r.Done?
      && r.state.donations[r.value].amount == 980
      && r.state.campaigns[campaignId].currentAmount == 980
      && r.state.stats.totalDonations == 1
      && r.state.stats.totalRaised == 980
      && r.state.stats.totalNfts == 1
      && |r.state.badges| == 1
      && (forall k :: k in r.state.badges ==> r.state.badges[k].badgeType == Bronze && r.state.badges[k].owner == donor)
      && r.state.trustScores[donor].donationCount == 1
      && r.state.trustScores[donor].score == Trust.NEUTRAL_SCORE
  {
    assert C.PlatformFee(1000, 200) == 20;
    assert Trust.DonorUpdateFits(s.trustScores, donor, 980, env.now);
    var r := C.Donate(s, env, campaignId, donor, 1000, false, true);
    assert r.Done?;
    Trust.DonorScoreUnclamped(1, 980);
    var b := GenerateId(env.sha256, NftIdInputs(donor, campaignId, r.value, 980, r.state.nftCounter));
    assert r.state.badges.Keys == {b};
  }

  /** `approve_disbursement` does not look at the current status, so an
      executed disbursement can be approved again and executed a second
      time; nothing in the campaign records the earlier payment. */
  lemma ExecutedCanBeExecutedAgain(s: State, adminEnv: Env, recipientEnv: Env, id: Id)
    requires s.admin.Some? && s.admin.value in adminEnv.signers
    requires id in s.disbursements && s.disbursements[id].status == Executed
    requires s.disbursements[id].recipient in recipientEnv.signers
    ensures var a := C.ApproveDisbursement(s, adminEnv, id);
      && a.Done?
      && var e := C.ExecuteDisbursement(a.state, recipientEnv, id);
      && e.Done?
      && e.state.disbursements[id].status == Executed
      && e.state.disbursements[id].executedAt == Some(recipientEnv.now)
      && e.state.campaigns == s.campaigns
  {
  }

  /** `create_disbursement` compares the amount with the balance only and
      reserves nothing: two requests for the whole balance both succeed and
      leave the balance as it was. */
  lemma DisbursementsReserveNothing(s: State, env: Env, campaignId: Id, r1: Address, r2: Address,
                                    m1: Text, m2: Text)
    requires campaignId in s.campaigns && s.campaigns[campaignId].beneficiary in env.signers
    requires s.disbursementCounter + 2 < U64_LIMIT
    ensures var amount := s.campaigns[campaignId].currentAmount;
      var first := C.CreateDisbursement(s, env, campaignId, r1, amount, m1);
      && first.Done?
      && first.state.campaigns == s.campaigns
      && var second := C.CreateDisbursement(first.state, env, campaignId, r2, amount, m2);
      && second.Done?
      && second.state.campaigns == s.campaigns
      && second.state.disbursements[first.value].amount + second.state.disbursements[second.value].amount
         == 2 * s.campaigns[campaignId].currentAmount
  {
    var amount := s.campaigns[campaignId].currentAmount;
    var first := C.CreateDisbursement(s, env, campaignId, r1, amount, m1);
    var second := C.CreateDisbursement(first.state, env, campaignId, r2, amount, m2);
    assert second.Done?;
    assert second.state.disbursements[second.value].amount == amount;
    if first.value != second.value {
      assert second.state.disbursements[first.value] == first.state.disbursements[first.value];
    }
  }

  /** Nothing stops `create_campaign` before `initialize`, and
      `initialize` then zeroes the counters and the statistics without
      looking at the stored records: the campaign survives while the
      statistics count none, and creating the same campaign again at the
      same time derives the same identifier and replaces it. */
  lemma CampaignBeforeInitialize(h: Hash, now: u64, b: Address, admin: Address, fee: u64,
                                 title: Text, desc: Text, goal: u64, days: u64, cat: Text, loc: Text)
    requires fee <= C.MAX_FEE_BPS
    requires C.ValidCampaignInputs(title, desc, goal, days)
    requires now + days * C.SECONDS_PER_DAY < U64_LIMIT
    ensures var env := Env(now, {b, admin}, h);
      var r1 := C.CreateCampaign(EmptyState, env, b, title, desc, goal, days, cat, loc);
      && r1.Done?
      && var r2 := C.Initialize(r1.state, env, admin, fee);
      && r2.Done?
      && r1.value in r2.state.campaigns
      && r2.state.stats.totalCampaigns == 0
      && !StatsMatch(r2.state.stats, r2.state.campaigns, r2.state.donations, r2.state.badges)
      && var r3 := C.CreateCampaign(r2.state, env, b, title, desc, goal, days, cat, loc);
      && r3.Done?
      && r3.value == r1.value
      && |r3.state.campaigns| == 1
  {
    var env := Env(now, {b, admin}, h);
    var r1 := C.CreateCampaign(EmptyState, env, b, title, desc, goal, days, cat, loc);
    assert r1.Done?;
    var r2 := C.Initialize(r1.state, env, admin, fee);
    assert r2.state.campaigns.Keys == {r1.value};
    assert |r2.state.campaigns| == 1;
    var r3 := C.CreateCampaign(r2.state, env, b, title, desc, goal, days, cat, loc);
    assert r3.Done?;
    assert r3.state.campaigns.Keys == {r1.value};
  }
}
