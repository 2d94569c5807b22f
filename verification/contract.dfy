/** The entry points of `SaviaContract`, each a pure function from the
    storage before the call to an `Outcome`: the storage after the call and
    the returned value, a contract error, or a host abort. Every check runs
    before anything is written, so an error or an abort leaves the storage
    exactly as it was (the caller keeps the old `State`). */
module Contract {
  import opened Base
  import opened Model
  import opened Ids
  import Trust
  import Badges

  const MAX_FEE_BPS: nat := 1000
  const DEFAULT_FEE_BPS: u64 := 200
  const BPS_DENOMINATOR: nat := 10000
  const SECONDS_PER_DAY: nat := 86400
  const MAX_DURATION_DAYS: nat := 365
  const MAX_CAMPAIGN_SCORE: nat := 100

  // ---------------------------------------------------------------------
  // Initialisation
  // ---------------------------------------------------------------------

  /** `initialize`: one-shot; records the admin and the fee rate and
      (re)sets the four counters and the statistics to zero. */
  function Initialize(s: State, env: Env, admin: Address, platformFee: u64): (r: Outcome<()>)
    ensures s.admin.Some? ==> r == Failed(AlreadyInitialized)
    ensures s.admin.None? && platformFee > MAX_FEE_BPS ==> r == Failed(InvalidFee)
    ensures s.admin.None? && platformFee <= MAX_FEE_BPS && admin !in env.signers
            ==> r == Aborted(AuthMissing(admin))
    ensures r.Done? <==> s.admin.None? && platformFee <= MAX_FEE_BPS && admin in env.signers
    ensures r.Done? ==>
      && r.state.admin == Some(admin)
      && r.state.platformFee == Some(platformFee)
      && r.state.campaignCounter == 0 && r.state.donationCounter == 0
      && r.state.nftCounter == 0 && r.state.disbursementCounter == 0
      && r.state.stats == PlatformStats(0, 0, 0, 0, 0)
      && r.state.campaigns == s.campaigns && r.state.donations == s.donations
      && r.state.trustScores == s.trustScores && r.state.badges == s.badges
      && r.state.disbursements == s.disbursements
  {
    if s.admin.Some? then Failed(AlreadyInitialized)
    else if platformFee > MAX_FEE_BPS then Failed(InvalidFee)
    else if admin !in env.signers then Aborted(AuthMissing(admin))
    else
      Done(s.(admin := Some(admin), platformFee := Some(platformFee),
              campaignCounter := 0, donationCounter := 0, nftCounter := 0, disbursementCounter := 0,
              stats := ZeroStats),
           ())
  }

  // ---------------------------------------------------------------------
  // Campaign lifecycle
  // ---------------------------------------------------------------------

  /** Every counter and total `create_campaign` increments stays in range. */
  predicate CampaignFits(s: State, env: Env, beneficiary: Address, durationDays: u64)
  {
    && s.campaignCounter + 1 < U64_LIMIT
    && env.now + durationDays * SECONDS_PER_DAY < U64_LIMIT
    && s.stats.totalCampaigns + 1 < U64_LIMIT
    && s.stats.activeCampaigns + 1 < U64_LIMIT
    && Trust.BeneficiaryUpdateFits(s.trustScores, beneficiary, env.now)
  }

  /** The campaign inputs `create_campaign` accepts. */
  predicate ValidCampaignInputs(title: Text, description: Text, goal: u64, durationDays: u64)
  {
    goal > 0 && 1 <= durationDays <= MAX_DURATION_DAYS && |title| > 0 && |description| > 0
  }

  /** `create_campaign`. */
  function CreateCampaign(s: State, env: Env, beneficiary: Address, title: Text, description: Text,
                          goal: u64, durationDays: u64, category: Text, location: Text): (r: Outcome<Id>)
    ensures beneficiary !in env.signers ==> r == Aborted(AuthMissing(beneficiary))
    ensures beneficiary in env.signers && goal == 0 ==> r == Failed(InvalidGoal)
    ensures beneficiary in env.signers && goal > 0 && (durationDays == 0 || durationDays > MAX_DURATION_DAYS)
            ==> r == Failed(InvalidDuration)
    ensures beneficiary in env.signers && goal > 0 && 1 <= durationDays <= MAX_DURATION_DAYS
            && (|title| == 0 || |description| == 0)
            ==> r == Failed(InvalidInput)
    ensures r.Failed? ==> r.error in {InvalidGoal, InvalidDuration, InvalidInput}
    ensures beneficiary in env.signers && ValidCampaignInputs(title, description, goal, durationDays) && !r.Done?
            ==> r == Aborted(Overflow)
    ensures r.Done? <==> beneficiary in env.signers && ValidCampaignInputs(title, description, goal, durationDays)
                         && CampaignFits(s, env, beneficiary, durationDays)
    ensures r.Done? ==>
      var id := r.value;
      && r.state.campaignCounter == s.campaignCounter + 1
      && id == GenerateId(env.sha256, CampaignIdInputs(beneficiary, title, goal, env.now, r.state.campaignCounter))
      && id in r.state.campaigns
      && r.state.campaigns == s.campaigns[id := r.state.campaigns[id]]
      && r.state.campaigns[id] == Campaign(id, title, description, beneficiary, goal, 0, env.now,
                                           env.now + durationDays * SECONDS_PER_DAY,
                                           false, 0, category, location, true)
      && r.state.stats == s.stats.(totalCampaigns := s.stats.totalCampaigns + 1,
                                   activeCampaigns := s.stats.activeCampaigns + 1)
      && Trust.BeneficiaryUpdateFits(s.trustScores, beneficiary, env.now)
      && r.state.trustScores == Trust.UpdateBeneficiaryTrustScore(s.trustScores, beneficiary, env.now)
      && r.state == s.(campaignCounter := r.state.campaignCounter, campaigns := r.state.campaigns,
                       stats := r.state.stats, trustScores := r.state.trustScores)
  {
    if beneficiary !in env.signers then Aborted(AuthMissing(beneficiary))
    else if goal == 0 then Failed(InvalidGoal)
    else if durationDays == 0 || durationDays > MAX_DURATION_DAYS then Failed(InvalidDuration)
    else if |title| == 0 || |description| == 0 then Failed(InvalidInput)
    else if !CampaignFits(s, env, beneficiary, durationDays) then Aborted(Overflow)
    else
      var counter := s.campaignCounter + 1;
      var id := GenerateId(env.sha256, CampaignIdInputs(beneficiary, title, goal, env.now, counter));
      var campaign := Campaign(id, title, description, beneficiary, goal, 0, env.now,
                               env.now + durationDays * SECONDS_PER_DAY,
                               false, 0, category, location, true);
      var created :=
        if beneficiary in s.trustScores then Ok(s.trustScores)
        else Trust.CreateTrustScore(s.trustScores, beneficiary, env.now);
      match created
      case Err(e) => Failed(e)
      case Ok(scores) =>
        Done(s.(campaignCounter := counter,
                campaigns := s.campaigns[id := campaign],
                stats := s.stats.(totalCampaigns := s.stats.totalCampaigns + 1,
                                  activeCampaigns := s.stats.activeCampaigns + 1),
                trustScores := Trust.UpdateBeneficiaryTrustScore(scores, beneficiary, env.now)),
             id)
  }

  /** `verify_campaign`: admin only; marks the campaign verified and stores
      the given score clamped to 100. */
  function VerifyCampaign(s: State, env: Env, campaignId: Id, trustScore: u32): (r: Outcome<()>)
    ensures s.admin.None? ==> r == Failed(Unauthorized)
    ensures s.admin.Some? && s.admin.value !in env.signers ==> r == Aborted(AuthMissing(s.admin.value))
    ensures s.admin.Some? && s.admin.value in env.signers && campaignId !in s.campaigns
            ==> r == Failed(CampaignNotFound)
    ensures r.Done? <==> s.admin.Some? && s.admin.value in env.signers && campaignId in s.campaigns
    ensures r.Done? ==>
      && campaignId in r.state.campaigns
      && r.state.campaigns[campaignId].verified
      && r.state.campaigns[campaignId].trustScore <= MAX_CAMPAIGN_SCORE
      && (trustScore <= MAX_CAMPAIGN_SCORE ==> r.state.campaigns[campaignId].trustScore == trustScore)
      && (trustScore > MAX_CAMPAIGN_SCORE ==> r.state.campaigns[campaignId].trustScore == MAX_CAMPAIGN_SCORE)
      && r.state.campaigns == s.campaigns[campaignId := s.campaigns[campaignId].(
           verified := true, trustScore := r.state.campaigns[campaignId].trustScore)]
      && r.state == s.(campaigns := r.state.campaigns)
  {
    if s.admin.None? then Failed(Unauthorized)
    else if s.admin.value !in env.signers then Aborted(AuthMissing(s.admin.value))
    else if campaignId !in s.campaigns then Failed(CampaignNotFound)
    else
      var c := s.campaigns[campaignId];
      Done(s.(campaigns := s.campaigns[campaignId := c.(verified := true,
                                                        trustScore := Min(trustScore, MAX_CAMPAIGN_SCORE))]),
           ())
  }

  /** `close_campaign`: the beneficiary deactivates an active campaign; the
      active-campaign count is decremented, saturating at zero. */
  function CloseCampaign(s: State, env: Env, campaignId: Id): (r: Outcome<()>)
    ensures campaignId !in s.campaigns ==> r == Failed(CampaignNotFound)
    ensures campaignId in s.campaigns && s.campaigns[campaignId].beneficiary !in env.signers
            ==> r == Aborted(AuthMissing(s.campaigns[campaignId].beneficiary))
    ensures campaignId in s.campaigns && s.campaigns[campaignId].beneficiary in env.signers
            && !s.campaigns[campaignId].active
            ==> r == Failed(CampaignInactive)
    ensures r.Done? <==> campaignId in s.campaigns && s.campaigns[campaignId].beneficiary in env.signers
                         && s.campaigns[campaignId].active
    ensures r.Done? ==>
      && r.state.campaigns == s.campaigns[campaignId := s.campaigns[campaignId].(active := false)]
      && r.state.stats.activeCampaigns == (if s.stats.activeCampaigns == 0 then 0 else s.stats.activeCampaigns - 1)
      && r.state.stats == s.stats.(activeCampaigns := r.state.stats.activeCampaigns)
      && r.state == s.(campaigns := r.state.campaigns, stats := r.state.stats)
  {
    if campaignId !in s.campaigns then Failed(CampaignNotFound)
    else
      var c := s.campaigns[campaignId];
      if c.beneficiary !in env.signers then Aborted(AuthMissing(c.beneficiary))
      else if !c.active then Failed(CampaignInactive)
      else
        var active := if s.stats.activeCampaigns > 0 then s.stats.activeCampaigns - 1 else 0;
        Done(s.(campaigns := s.campaigns[campaignId := c.(active := false)],
                stats := s.stats.(activeCampaigns := active)),
             ())
  }

  // ---------------------------------------------------------------------
  // Donations
  // ---------------------------------------------------------------------

  /** The fee rate in basis points: the stored one, or 200 when
      `initialize` has not run. */
  function FeeRate(s: State): (r: u64)
    ensures s.platformFee.Some? ==> r == s.platformFee.value
    ensures s.platformFee.None? ==> r == DEFAULT_FEE_BPS
    ensures (s.platformFee.None? || s.platformFee.value <= MAX_FEE_BPS) ==> r <= MAX_FEE_BPS
  {
    s.platformFee.GetOr(DEFAULT_FEE_BPS)
  }

  /** The platform's cut of a gross amount, rounded down. */
  function PlatformFee(amount: nat, rate: nat): (r: nat)
    ensures r * BPS_DENOMINATOR <= amount * rate < (r + 1) * BPS_DENOMINATOR
  {
    amount * rate / BPS_DENOMINATOR
  }

  /** With a rate the initialisation accepts, the platform keeps at most a
      tenth of the gross amount, so the net amount is well defined and at
      least nine tenths of it. */
  lemma FeeAtMostTenth(amount: nat, rate: nat)
    requires rate <= MAX_FEE_BPS
    ensures PlatformFee(amount, rate) <= amount / 10
    ensures amount - PlatformFee(amount, rate) >= amount - amount / 10
  {
    assert amount * rate <= amount * 1000 by {
      assert amount * (1000 - rate) >= 0;
    }
    assert amount * 1000 / 10000 == amount / 10;
  }

  /** Every counter and total `donate` increments, and the fee subtraction,
      stays in range. */
  predicate DonationFits(s: State, env: Env, c: Campaign, donor: Address, amount: u64, mintNft: bool)
  {
    var fee := PlatformFee(amount, FeeRate(s));
    && amount * FeeRate(s) < U64_LIMIT
    && fee <= amount
    && var net: u64 := amount - fee;
    && s.donationCounter + 1 < U64_LIMIT
    && c.currentAmount + net < U64_LIMIT
    && s.stats.totalDonations + 1 < U64_LIMIT
    && s.stats.totalRaised + net < U64_LIMIT
    && Trust.DonorUpdateFits(s.trustScores, donor, net, env.now)
    && (mintNft ==> Badges.MintFits(s))
  }

  /** The writes `donate` makes before it mints: the next donation counter
      value, the donation record under the id derived from it, the
      campaign's balance, the statistics and the donor's trust score. The
      stored amount is the net one, and the platform's fee is neither
      stored nor credited anywhere. */
  function RecordDonation(s: State, env: Env, campaignId: Id, donor: Address, amount: u64,
                          anonymous: bool, mintNft: bool): (r: (State, Id))
    requires campaignId in s.campaigns
    requires DonationFits(s, env, s.campaigns[campaignId], donor, amount, mintNft)
    ensures var (s', id) := r;
      var net := amount - PlatformFee(amount, FeeRate(s));
      var c := s.campaigns[campaignId];
      && s'.donationCounter == s.donationCounter + 1
      && id == GenerateId(env.sha256, DonationIdInputs(campaignId, donor, amount, env.now, s'.donationCounter))
      && s'.donations == s.donations[id := Donation(id, campaignId, donor, net, env.now, mintNft, anonymous)]
      && campaignId in s'.campaigns
      && s'.campaigns == s.campaigns[campaignId := s'.campaigns[campaignId]]
      && s'.campaigns[campaignId] == c.(currentAmount := s'.campaigns[campaignId].currentAmount)
      && s'.campaigns[campaignId].currentAmount == c.currentAmount + net
      && s'.stats == s.stats.(totalDonations := s'.stats.totalDonations, totalRaised := s'.stats.totalRaised)
      && s'.stats.totalDonations == s.stats.totalDonations + 1
      && s'.stats.totalRaised == s.stats.totalRaised + net
      && s'.trustScores == Trust.UpdateDonorTrustScore(s.trustScores, donor, net, env.now)
      && s' == s.(donationCounter := s'.donationCounter, campaigns := s'.campaigns,
                  donations := s'.donations, stats := s'.stats, trustScores := s'.trustScores)
  {
    var c := s.campaigns[campaignId];
    var net := amount - PlatformFee(amount, FeeRate(s));
    var counter := s.donationCounter + 1;
    var id := GenerateId(env.sha256, DonationIdInputs(campaignId, donor, amount, env.now, counter));
    var donation := Donation(id, campaignId, donor, net, env.now, mintNft, anonymous);
    (s.(donationCounter := counter,
        campaigns := s.campaigns[campaignId := c.(currentAmount := c.currentAmount + net)],
        donations := s.donations[id := donation],
        stats := s.stats.(totalDonations := s.stats.totalDonations + 1,
                          totalRaised := s.stats.totalRaised + net),
        trustScores := Trust.UpdateDonorTrustScore(s.trustScores, donor, net, env.now)),
     id)
  }

  /** `donate`. */
  function Donate(s: State, env: Env, campaignId: Id, donor: Address, amount: u64,
                  anonymous: bool, mintNft: bool): (r: Outcome<Id>)
    ensures donor !in env.signers ==> r == Aborted(AuthMissing(donor))
    ensures donor in env.signers && campaignId !in s.campaigns ==> r == Failed(CampaignNotFound)
    ensures donor in env.signers && campaignId in s.campaigns && !s.campaigns[campaignId].active
            ==> r == Failed(CampaignInactive)
    ensures donor in env.signers && campaignId in s.campaigns && s.campaigns[campaignId].active
            && env.now > s.campaigns[campaignId].endTime
            ==> r == Failed(CampaignEnded)
    ensures donor in env.signers && campaignId in s.campaigns && s.campaigns[campaignId].active
            && env.now <= s.campaigns[campaignId].endTime && amount == 0
            ==> r == Failed(InvalidAmount)
    ensures donor in env.signers && campaignId in s.campaigns && s.campaigns[campaignId].active
            && env.now <= s.campaigns[campaignId].endTime && amount > 0 && !r.Done?
            ==> r == Aborted(Overflow)
    ensures r.Done? <==> && donor in env.signers && campaignId in s.campaigns
                         && s.campaigns[campaignId].active && env.now <= s.campaigns[campaignId].endTime
                         && amount > 0
                         && DonationFits(s, env, s.campaigns[campaignId], donor, amount, mintNft)
    ensures r.Done? ==>
      var id := r.value;
      var fee := PlatformFee(amount, FeeRate(s));
      var c := s.campaigns[campaignId];
      && fee <= amount
      && r.state.donationCounter == s.donationCounter + 1
      && id == GenerateId(env.sha256, DonationIdInputs(campaignId, donor, amount, env.now, r.state.donationCounter))
      && id in r.state.donations
      && r.state.donations == s.donations[id := r.state.donations[id]]
      && r.state.donations[id] == Donation(id, campaignId, donor, amount - fee, env.now, mintNft, anonymous)
      && r.state.donations[id].amount + fee == amount
      && r.state.campaigns == s.campaigns[campaignId := c.(currentAmount := c.currentAmount + (amount - fee))]
      && r.state.stats.totalDonations == s.stats.totalDonations + 1
      && r.state.stats.totalRaised == s.stats.totalRaised + (amount - fee)
      && r.state.stats.totalNfts == s.stats.totalNfts + (if mintNft then 1 else 0)
      && r.state.stats.totalCampaigns == s.stats.totalCampaigns
      && r.state.stats.activeCampaigns == s.stats.activeCampaigns
      && r.state.trustScores == Trust.UpdateDonorTrustScore(s.trustScores, donor, amount - fee, env.now)
      && r.state.nftCounter == s.nftCounter + (if mintNft then 1 else 0)
      && (!mintNft ==> r.state.badges == s.badges)
      && (mintNft ==>
            var b := GenerateId(env.sha256, NftIdInputs(donor, campaignId, id, amount - fee, r.state.nftCounter));
            && b in r.state.badges
            && r.state.badges == s.badges[b := r.state.badges[b]]
            && r.state.badges[b] == NFTBadge(b, donor, Badges.GetBadgeType(amount - fee), Some(campaignId),
                                             env.now, Badges.METADATA_URI))
      && r.state == s.(donationCounter := r.state.donationCounter, nftCounter := r.state.nftCounter,
                       stats := r.state.stats, campaigns := r.state.campaigns,
                       donations := r.state.donations, trustScores := r.state.trustScores,
                       badges := r.state.badges)
  {
    if donor !in env.signers then Aborted(AuthMissing(donor))
    else if campaignId !in s.campaigns then Failed(CampaignNotFound)
    else
      var c := s.campaigns[campaignId];
      if !c.active then Failed(CampaignInactive)
      else if env.now > c.endTime then Failed(CampaignEnded)
      else if amount == 0 then Failed(InvalidAmount)
      else if !DonationFits(s, env, c, donor, amount, mintNft) then Aborted(Overflow)
      else
        var (credited, id) := RecordDonation(s, env, campaignId, donor, amount, anonymous, mintNft);
        if mintNft then
          var net := credited.donations[id].amount;
          Done(Badges.MintDonationNft(credited, env, donor, campaignId, id, net).0, id)
        else Done(credited, id)
  }

  // ---------------------------------------------------------------------
  // Disbursements
  // ---------------------------------------------------------------------

  /** `create_disbursement`: the beneficiary asks for at most the campaign's
      current balance; the request starts `Pending`. Nothing is reserved:
      the balance is neither decremented nor checked against earlier
      requests. */
  function CreateDisbursement(s: State, env: Env, campaignId: Id, recipient: Address,
                              amount: u64, milestone: Text): (r: Outcome<Id>)
    ensures campaignId !in s.campaigns ==> r == Failed(CampaignNotFound)
    ensures campaignId in s.campaigns && s.campaigns[campaignId].beneficiary !in env.signers
            ==> r == Aborted(AuthMissing(s.campaigns[campaignId].beneficiary))
    ensures campaignId in s.campaigns && s.campaigns[campaignId].beneficiary in env.signers
            && amount > s.campaigns[campaignId].currentAmount
            ==> r == Failed(InsufficientFunds)
    ensures campaignId in s.campaigns && s.campaigns[campaignId].beneficiary in env.signers
            && amount <= s.campaigns[campaignId].currentAmount && !r.Done?
            ==> r == Aborted(Overflow)
    ensures r.Done? <==> && campaignId in s.campaigns && s.campaigns[campaignId].beneficiary in env.signers
                         && amount <= s.campaigns[campaignId].currentAmount
                         && s.disbursementCounter + 1 < U64_LIMIT
    ensures r.Done? ==>
      var id := r.value;
      && r.state.disbursementCounter == s.disbursementCounter + 1
      && id == GenerateId(env.sha256, DisbursementIdInputs(campaignId, recipient, amount, milestone,
                                                           r.state.disbursementCounter))
      && id in r.state.disbursements
      && r.state.disbursements == s.disbursements[id := r.state.disbursements[id]]
      && r.state.disbursements[id] == Disbursement(id, campaignId, recipient, amount, milestone,
                                                   Pending, env.now, None)
      && r.state == s.(disbursementCounter := r.state.disbursementCounter,
                       disbursements := r.state.disbursements)
  {
    if campaignId !in s.campaigns then Failed(CampaignNotFound)
    else
      var c := s.campaigns[campaignId];
      if c.beneficiary !in env.signers then Aborted(AuthMissing(c.beneficiary))
      else if amount > c.currentAmount then Failed(InsufficientFunds)
      else if s.disbursementCounter + 1 >= U64_LIMIT then Aborted(Overflow)
      else
        var counter := s.disbursementCounter + 1;
        var id := GenerateId(env.sha256, DisbursementIdInputs(campaignId, recipient, amount, milestone, counter));
        var d := Disbursement(id, campaignId, recipient, amount, milestone, Pending, env.now, None);
        Done(s.(disbursementCounter := counter, disbursements := s.disbursements[id := d]), id)
  }

  /** `approve_disbursement`: admin only; sets `Approved` whatever the
      current status is. */
  function ApproveDisbursement(s: State, env: Env, disbursementId: Id): (r: Outcome<()>)
    ensures s.admin.None? ==> r == Failed(Unauthorized)
    ensures s.admin.Some? && s.admin.value !in env.signers ==> r == Aborted(AuthMissing(s.admin.value))
    ensures s.admin.Some? && s.admin.value in env.signers && disbursementId !in s.disbursements
            ==> r == Failed(DisbursementNotFound)
    ensures r.Done? <==> s.admin.Some? && s.admin.value in env.signers && disbursementId in s.disbursements
    ensures r.Done? ==>
      && r.state.disbursements
         == s.disbursements[disbursementId := s.disbursements[disbursementId].(status := Approved)]
      && r.state == s.(disbursements := r.state.disbursements)
  {
    if s.admin.None? then Failed(Unauthorized)
    else if s.admin.value !in env.signers then Aborted(AuthMissing(s.admin.value))
    else if disbursementId !in s.disbursements then Failed(DisbursementNotFound)
    else
      var d := s.disbursements[disbursementId];
      Done(s.(disbursements := s.disbursements[disbursementId := d.(status := Approved)]), ())
  }

  /** `execute_disbursement`: the recipient executes an `Approved`
      disbursement, which records the execution time. */
  function ExecuteDisbursement(s: State, env: Env, disbursementId: Id): (r: Outcome<()>)
    ensures disbursementId !in s.disbursements ==> r == Failed(DisbursementNotFound)
    ensures disbursementId in s.disbursements && s.disbursements[disbursementId].recipient !in env.signers
            ==> r == Aborted(AuthMissing(s.disbursements[disbursementId].recipient))
    ensures disbursementId in s.disbursements && s.disbursements[disbursementId].recipient in env.signers
            && s.disbursements[disbursementId].status != Approved
            ==> r == Failed(NotApproved)
    ensures r.Done? <==> && disbursementId in s.disbursements
                         && s.disbursements[disbursementId].recipient in env.signers
                         && s.disbursements[disbursementId].status == Approved
    ensures r.Done? ==>
      && r.state.disbursements
         == s.disbursements[disbursementId := s.disbursements[disbursementId].(
              status := Executed, executedAt := Some(env.now))]
      && r.state == s.(disbursements := r.state.disbursements)
  {
    if disbursementId !in s.disbursements then Failed(DisbursementNotFound)
    else
      var d := s.disbursements[disbursementId];
      if d.recipient !in env.signers then Aborted(AuthMissing(d.recipient))
      else if d.status != Approved then Failed(NotApproved)
      else
        Done(s.(disbursements := s.disbursements[disbursementId := d.(status := Executed,
                                                                      executedAt := Some(env.now))]),
             ())
  }
}
