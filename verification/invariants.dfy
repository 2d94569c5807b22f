/** The consistency the contract keeps between its records and its
    aggregates, and the proof that every entry point preserves it once the
    contract has been initialised.

    The invariant holds for any storage reached by a successful
    `initialize` on the empty storage followed by any sequence of calls,
    provided the hash separates counters (`Ids.SeparatesCounters`, the
    idealisation of SHA-256 used throughout: inputs ending in different
    counter values give different identifiers). */
module Invariants {
  import opened Base
  import opened Model
  import opened Ids
  import opened Sums
  import Trust
  import Badges
  import C = Contract

  // ---------------------------------------------------------------------
  // Reference sums
  // ---------------------------------------------------------------------

  function ActiveWeight(c: Campaign): nat
  {
    if c.active then 1 else 0
  }

  function AmountWeight(d: Donation): nat
  {
    d.amount
  }

  /** Weighs a donation by its amount when it is for `campaignId`. */
  function RaisedWeight(campaignId: Id): Donation -> nat
  {
    (d: Donation) => if d.campaignId == campaignId then d.amount else 0
  }

  /** Number of active campaigns. */
  ghost function ActiveCount(campaigns: map<Id, Campaign>): nat
  {
    SumOver(campaigns, ActiveWeight)
  }

  /** Sum of the stored (net) amounts of all donations. */
  ghost function TotalRaised(donations: map<Id, Donation>): nat
  {
    SumOver(donations, AmountWeight)
  }

  /** Sum of the stored (net) amounts of the donations to one campaign. */
  ghost function Raised(donations: map<Id, Donation>, campaignId: Id): nat
  {
    SumOver(donations, RaisedWeight(campaignId))
  }

  // ---------------------------------------------------------------------
  // The invariant
  // ---------------------------------------------------------------------

  /** Campaigns: the counter equals their number, every id was derived
      from a counter value already used, each is stored under its own id,
      and verification scores lie in 0..100. */
  ghost predicate CampaignsConsistent(h: Hash, counter: nat, campaigns: map<Id, Campaign>)
  {
    && counter == |campaigns|
    && IssuedUpTo(h, campaigns.Keys, counter)
    && (forall k :: k in campaigns ==> campaigns[k].id == k && campaigns[k].trustScore <= C.MAX_CAMPAIGN_SCORE)
  }

  /** Donations: counted, derived from used counter values, stored under
      their own ids, and each for an existing campaign. */
  ghost predicate DonationsConsistent(h: Hash, counter: nat, donations: map<Id, Donation>, campaignIds: set<Id>)
  {
    && counter == |donations|
    && IssuedUpTo(h, donations.Keys, counter)
    && (forall k :: k in donations ==> donations[k].id == k && donations[k].campaignId in campaignIds)
  }

  /** Badges: counted, derived from used counter values, stored under
      their own ids, and each for an existing campaign. */
  ghost predicate BadgesConsistent(h: Hash, counter: nat, badges: map<Id, NFTBadge>, campaignIds: set<Id>)
  {
    && counter == |badges|
    && IssuedUpTo(h, badges.Keys, counter)
    && (forall k :: k in badges ==>
          badges[k].id == k && badges[k].campaignId.Some? && badges[k].campaignId.value in campaignIds)
  }

  /** A disbursement is never `Rejected`; a `Pending` one has no execution
      time and an `Executed` one has. */
  predicate StatusWellFormed(d: Disbursement)
  {
    && d.status != Rejected
    && (d.status == Pending ==> d.executedAt.None?)
    && (d.status == Executed ==> d.executedAt.Some?)
  }

  /** Disbursements: counted, derived from used counter values, stored
      under their own ids, for existing campaigns, and well formed. */
  ghost predicate DisbursementsConsistent(h: Hash, counter: nat, disbursements: map<Id, Disbursement>,
                                          campaignIds: set<Id>)
  {
    && counter == |disbursements|
    && IssuedUpTo(h, disbursements.Keys, counter)
    && (forall k :: k in disbursements ==>
          && disbursements[k].id == k && disbursements[k].campaignId in campaignIds
          && StatusWellFormed(disbursements[k]))
  }

  /** The platform statistics agree with the records. */
  ghost predicate StatsMatch(stats: PlatformStats, campaigns: map<Id, Campaign>,
                             donations: map<Id, Donation>, badges: map<Id, NFTBadge>)
  {
    && stats.totalCampaigns == |campaigns|
    && stats.activeCampaigns == ActiveCount(campaigns)
    && stats.totalDonations == |donations|
    && stats.totalRaised == TotalRaised(donations)
    && stats.totalNfts == |badges|
  }

  /** Every campaign's balance is the sum of its donations' net amounts. */
  ghost predicate Funded(campaigns: map<Id, Campaign>, donations: map<Id, Donation>)
  {
    forall c :: c in campaigns ==> campaigns[c].currentAmount == Raised(donations, c)
  }

  /** Trust scores lie in 0..100 and a record belongs to its key. */
  ghost predicate ScoresBounded(scores: map<Address, TrustScore>)
  {
    forall a :: a in scores ==> scores[a].score <= Trust.MAX_SCORE && scores[a].entity == a
  }

  ghost predicate Inv(h: Hash, s: State)
  {
    && s.admin.Some?
    && s.platformFee.Some? && s.platformFee.value <= C.MAX_FEE_BPS
    && CampaignsConsistent(h, s.campaignCounter, s.campaigns)
    && DonationsConsistent(h, s.donationCounter, s.donations, s.campaigns.Keys)
    && BadgesConsistent(h, s.nftCounter, s.badges, s.campaigns.Keys)
    && DisbursementsConsistent(h, s.disbursementCounter, s.disbursements, s.campaigns.Keys)
    && StatsMatch(s.stats, s.campaigns, s.donations, s.badges)
    && Funded(s.campaigns, s.donations)
    && ScoresBounded(s.trustScores)
  }

  // ---------------------------------------------------------------------
  // Calls and traces
  // ---------------------------------------------------------------------

  /** One invocation of a public entry point, with its arguments. */
  datatype Call =
    | Initialize(admin: Address, platformFee: u64)
    | CreateCampaign(beneficiary: Address, title: Text, description: Text, goal: u64,
                     durationDays: u64, category: Text, location: Text)
    | VerifyCampaign(campaignId: Id, trustScore: u32)
    | Donate(campaignId: Id, donor: Address, amount: u64, anonymous: bool, mintNft: bool)
    | CloseCampaign(campaignId: Id)
    | CreateDisbursement(campaignId: Id, recipient: Address, amount: u64, milestone: Text)
    | ApproveDisbursement(disbursementId: Id)
    | ExecuteDisbursement(disbursementId: Id)

  /** A transaction: a call together with its ledger time and signers. */
  datatype Tx = Tx(now: u64, signers: set<Address>, call: Call)

  /** The storage after an outcome: the new one on success, the old one on
      an error or an abort. */
  function Commit<T>(s: State, r: Outcome<T>): State
  {
    if r.Done? then r.state else s
  }

  /** The outcome of a call, with the value it returns dropped. */
  function Apply(h: Hash, s: State, tx: Tx): State
  {
    var env := Env(tx.now, tx.signers, h);
    match tx.call
    case Initialize(a, f) => Commit(s, C.Initialize(s, env, a, f))
    case CreateCampaign(b, t, d, g, n, cat, loc) => Commit(s, C.CreateCampaign(s, env, b, t, d, g, n, cat, loc))
    case VerifyCampaign(c, score) => Commit(s, C.VerifyCampaign(s, env, c, score))
    case Donate(c, donor, amount, anon, mint) => Commit(s, C.Donate(s, env, c, donor, amount, anon, mint))
    case CloseCampaign(c) => Commit(s, C.CloseCampaign(s, env, c))
    case CreateDisbursement(c, to, amount, m) => Commit(s, C.CreateDisbursement(s, env, c, to, amount, m))
    case ApproveDisbursement(d) => Commit(s, C.ApproveDisbursement(s, env, d))
    case ExecuteDisbursement(d) => Commit(s, C.ExecuteDisbursement(s, env, d))
  }

  function Run(h: Hash, s: State, txs: seq<Tx>): State
    decreases |txs|
  {
    if txs == [] then s else Run(h, Apply(h, s, txs[0]), txs[1..])
  }

  // ---------------------------------------------------------------------
  // Establishing the invariant
  // ---------------------------------------------------------------------

  /** A successful first `initialize` establishes the invariant. */
  lemma InitializeEstablishesInv(h: Hash, now: u64, admin: Address, fee: u64)
    requires fee <= C.MAX_FEE_BPS
    ensures C.Initialize(EmptyState, Env(now, {admin}, h), admin, fee).Done?
    ensures Inv(h, C.Initialize(EmptyState, Env(now, {admin}, h), admin, fee).state)
  {
    var s := C.Initialize(EmptyState, Env(now, {admin}, h), admin, fee).state;
    assert s.campaigns == map[] && s.donations == map[];
    assert ActiveCount(s.campaigns) == 0;
    assert TotalRaised(s.donations) == 0;
  }

  // ---------------------------------------------------------------------
  // Preservation, one entry point at a time
  // ---------------------------------------------------------------------

  // One component at a time. Each lemma takes the component before and
  // after the change and assumes only what the change needs.

  lemma CampaignsInsert(h: Hash, n: nat, m: map<Id, Campaign>, n': nat, m': map<Id, Campaign>, c: Campaign)
    requires CampaignsConsistent(h, n, m)
    requires c.id !in m && IssuedUpTo(h, m.Keys + {c.id}, n + 1) && c.trustScore <= C.MAX_CAMPAIGN_SCORE
    requires n' == n + 1 && m' == m[c.id := c]
    ensures CampaignsConsistent(h, n', m')
    ensures m.Keys <= m'.Keys
  {
    assert m'.Keys == m.Keys + {c.id};
  }

  lemma CampaignsReplace(h: Hash, n: nat, m: map<Id, Campaign>, m': map<Id, Campaign>, c: Campaign)
    requires CampaignsConsistent(h, n, m) && c.id in m && c.trustScore <= C.MAX_CAMPAIGN_SCORE
    requires m' == m[c.id := c]
    ensures CampaignsConsistent(h, n, m')
    ensures m'.Keys == m.Keys
  {
    assert m'.Keys == m.Keys;
  }

  lemma DonationsInsert(h: Hash, n: nat, m: map<Id, Donation>, n': nat, m': map<Id, Donation>,
                        ids: set<Id>, d: Donation)
    requires DonationsConsistent(h, n, m, ids)
    requires d.id !in m && IssuedUpTo(h, m.Keys + {d.id}, n + 1) && d.campaignId in ids
    requires n' == n + 1 && m' == m[d.id := d]
    ensures DonationsConsistent(h, n', m', ids)
  {
    assert m'.Keys == m.Keys + {d.id};
  }

  lemma DonationsWiden(h: Hash, n: nat, m: map<Id, Donation>, ids: set<Id>, ids': set<Id>)
    requires DonationsConsistent(h, n, m, ids) && ids <= ids'
    ensures DonationsConsistent(h, n, m, ids')
  {
  }

  lemma BadgesInsert(h: Hash, n: nat, m: map<Id, NFTBadge>, n': nat, m': map<Id, NFTBadge>,
                     ids: set<Id>, b: NFTBadge)
    requires BadgesConsistent(h, n, m, ids)
    requires b.id !in m && IssuedUpTo(h, m.Keys + {b.id}, n + 1)
    requires b.campaignId.Some? && b.campaignId.value in ids
    requires n' == n + 1 && m' == m[b.id := b]
    ensures BadgesConsistent(h, n', m', ids)
  {
    assert m'.Keys == m.Keys + {b.id};
  }

  lemma BadgesWiden(h: Hash, n: nat, m: map<Id, NFTBadge>, ids: set<Id>, ids': set<Id>)
    requires BadgesConsistent(h, n, m, ids) && ids <= ids'
    ensures BadgesConsistent(h, n, m, ids')
  {
  }

  lemma DisbursementsInsert(h: Hash, n: nat, m: map<Id, Disbursement>, n': nat, m': map<Id, Disbursement>,
                            ids: set<Id>, d: Disbursement)
    requires DisbursementsConsistent(h, n, m, ids)
    requires d.id !in m && IssuedUpTo(h, m.Keys + {d.id}, n + 1)
    requires d.campaignId in ids && StatusWellFormed(d)
    requires n' == n + 1 && m' == m[d.id := d]
    ensures DisbursementsConsistent(h, n', m', ids)
  {
    assert m'.Keys == m.Keys + {d.id};
  }

  lemma DisbursementsReplace(h: Hash, n: nat, m: map<Id, Disbursement>, m': map<Id, Disbursement>,
                             ids: set<Id>, d: Disbursement)
    requires DisbursementsConsistent(h, n, m, ids) && d.id in m
    requires d.campaignId == m[d.id].campaignId && StatusWellFormed(d)
    requires m' == m[d.id := d]
    ensures DisbursementsConsistent(h, n, m', ids)
  {
    assert m'.Keys == m.Keys;
  }

  lemma DisbursementsWiden(h: Hash, n: nat, m: map<Id, Disbursement>, ids: set<Id>, ids': set<Id>)
    requires DisbursementsConsistent(h, n, m, ids) && ids <= ids'
    ensures DisbursementsConsistent(h, n, m, ids')
  {
  }

  /** A new active campaign adds one to both campaign counts. */
  lemma StatsNewCampaign(stats: PlatformStats, campaigns: map<Id, Campaign>, donations: map<Id, Donation>,
                         badges: map<Id, NFTBadge>, stats': PlatformStats, campaigns': map<Id, Campaign>,
                         c: Campaign)
    requires StatsMatch(stats, campaigns, donations, badges)
    requires c.id !in campaigns && c.active && campaigns' == campaigns[c.id := c]
    requires stats' == stats.(totalCampaigns := stats'.totalCampaigns, activeCampaigns := stats'.activeCampaigns)
    requires stats'.totalCampaigns == stats.totalCampaigns + 1
    requires stats'.activeCampaigns == stats.activeCampaigns + 1
    ensures StatsMatch(stats', campaigns', donations, badges)
  {
    SumOverInsert(campaigns, c.id, c, ActiveWeight);
  }

  /** Replacing a campaign by one with the same activity changes no count. */
  lemma StatsReplaceCampaign(stats: PlatformStats, campaigns: map<Id, Campaign>, donations: map<Id, Donation>,
                             badges: map<Id, NFTBadge>, campaigns': map<Id, Campaign>, c: Campaign)
    requires StatsMatch(stats, campaigns, donations, badges)
    requires c.id in campaigns && c.active == campaigns[c.id].active && campaigns' == campaigns[c.id := c]
    ensures StatsMatch(stats, campaigns', donations, badges)
  {
    assert campaigns'.Keys == campaigns.Keys;
    SumOverUpdate(campaigns, c.id, c, ActiveWeight);
  }

  /** Deactivating an active campaign removes one from the active count,
      which is therefore positive. */
  lemma StatsDeactivate(stats: PlatformStats, campaigns: map<Id, Campaign>, donations: map<Id, Donation>,
                        badges: map<Id, NFTBadge>, stats': PlatformStats, campaigns': map<Id, Campaign>, id: Id)
    requires StatsMatch(stats, campaigns, donations, badges)
    requires id in campaigns && campaigns[id].active
    requires campaigns' == campaigns[id := campaigns[id].(active := false)]
    requires stats' == stats.(activeCampaigns := stats'.activeCampaigns)
    requires stats'.activeCampaigns == (if stats.activeCampaigns == 0 then 0 else stats.activeCampaigns - 1)
    ensures stats.activeCampaigns > 0
    ensures StatsMatch(stats', campaigns', donations, badges)
  {
    assert campaigns'.Keys == campaigns.Keys;
    SumOverUpdate(campaigns, id, campaigns'[id], ActiveWeight);
    SumOverRemove(campaigns, id, ActiveWeight);
  }

  /** A new donation, credited to its campaign, adds one to the donation
      count and its amount to the total raised. */
  lemma StatsCredit(stats: PlatformStats, campaigns: map<Id, Campaign>, donations: map<Id, Donation>,
                    badges: map<Id, NFTBadge>, stats': PlatformStats, campaigns': map<Id, Campaign>,
                    donations': map<Id, Donation>, c: Campaign, d: Donation)
    requires StatsMatch(stats, campaigns, donations, badges)
    requires d.id !in donations && donations' == donations[d.id := d]
    requires c.id in campaigns && c.active == campaigns[c.id].active && campaigns' == campaigns[c.id := c]
    requires stats' == stats.(totalDonations := stats'.totalDonations, totalRaised := stats'.totalRaised)
    requires stats'.totalDonations == stats.totalDonations + 1
    requires stats'.totalRaised == stats.totalRaised + d.amount
    ensures StatsMatch(stats', campaigns', donations', badges)
  {
    assert campaigns'.Keys == campaigns.Keys;
    SumOverInsert(donations, d.id, d, AmountWeight);
    SumOverUpdate(campaigns, c.id, c, ActiveWeight);
  }

  /** A new badge adds one to the NFT count. */
  lemma StatsNewBadge(stats: PlatformStats, campaigns: map<Id, Campaign>, donations: map<Id, Donation>,
                      badges: map<Id, NFTBadge>, stats': PlatformStats, badges': map<Id, NFTBadge>, b: NFTBadge)
    requires StatsMatch(stats, campaigns, donations, badges)
    requires b.id !in badges && badges' == badges[b.id := b]
    requires stats' == stats.(totalNfts := stats'.totalNfts) && stats'.totalNfts == stats.totalNfts + 1
    ensures StatsMatch(stats', campaigns, donations, badges')
  {
    assert badges'.Keys == badges.Keys + {b.id};
  }

  /** A new campaign with a zero balance, which no donation names yet. */
  lemma FundedNewCampaign(campaigns: map<Id, Campaign>, donations: map<Id, Donation>,
                          campaigns': map<Id, Campaign>, c: Campaign)
    requires Funded(campaigns, donations) && c.currentAmount == 0 && c.id !in campaigns
    requires forall k :: k in donations ==> donations[k].campaignId in campaigns
    requires campaigns' == campaigns[c.id := c]
    ensures Funded(campaigns', donations)
  {
    SumOverZero(donations, RaisedWeight(c.id));
  }

  /** A campaign replaced by one with the same balance. */
  lemma FundedReplace(campaigns: map<Id, Campaign>, donations: map<Id, Donation>,
                      campaigns': map<Id, Campaign>, c: Campaign)
    requires Funded(campaigns, donations) && c.id in campaigns
    requires c.currentAmount == campaigns[c.id].currentAmount && campaigns' == campaigns[c.id := c]
    ensures Funded(campaigns', donations)
  {
  }

  /** A new donation credited to its campaign. */
  lemma FundedCredit(campaigns: map<Id, Campaign>, donations: map<Id, Donation>,
                     campaigns': map<Id, Campaign>, donations': map<Id, Donation>, c: Campaign, d: Donation)
    requires Funded(campaigns, donations) && d.id !in donations && donations' == donations[d.id := d]
    requires c.id == d.campaignId && c.id in campaigns
    requires c.currentAmount == campaigns[c.id].currentAmount + d.amount && campaigns' == campaigns[c.id := c]
    ensures Funded(campaigns', donations')
  {
    forall k | k in campaigns'
      ensures campaigns'[k].currentAmount == Raised(donations', k)
    {
      SumOverInsert(donations, d.id, d, RaisedWeight(k));
    }
  }

  /** A beneficiary update keeps every trust score in 0..100. */
  lemma BeneficiaryUpdateBounded(scores: map<Address, TrustScore>, b: Address, now: u64)
    requires ScoresBounded(scores)
    requires Trust.BeneficiaryUpdateFits(scores, b, now)
    ensures ScoresBounded(Trust.UpdateBeneficiaryTrustScore(scores, b, now))
  {
  }

  /** A donor update keeps every trust score in 0..100. */
  lemma DonorUpdateBounded(scores: map<Address, TrustScore>, donor: Address, amount: u64, now: u64)
    requires ScoresBounded(scores)
    requires Trust.DonorUpdateFits(scores, donor, amount, now)
    ensures ScoresBounded(Trust.UpdateDonorTrustScore(scores, donor, amount, now))
  {
  }

  // Each storage change an entry point makes, on the whole state.

  /** Storing a new campaign under a fresh id, counting it as created and
      active, and installing a bounded trust-score map. */
  lemma AddCampaignKeepsInv(h: Hash, s: State, s': State, c: Campaign)
    requires Inv(h, s)
    requires c.id !in s.campaigns && IssuedUpTo(h, s.campaigns.Keys + {c.id}, s.campaignCounter + 1)
    requires c.currentAmount == 0 && c.active && c.trustScore == 0
    requires s' == s.(campaignCounter := s'.campaignCounter, campaigns := s'.campaigns,
                      stats := s'.stats, trustScores := s'.trustScores)
    requires s'.campaignCounter == s.campaignCounter + 1 && s'.campaigns == s.campaigns[c.id := c]
    requires s'.stats == s.stats.(totalCampaigns := s'.stats.totalCampaigns, activeCampaigns := s'.stats.activeCampaigns)
    requires s'.stats.totalCampaigns == s.stats.totalCampaigns + 1
    requires s'.stats.activeCampaigns == s.stats.activeCampaigns + 1
    requires ScoresBounded(s'.trustScores)
    ensures Inv(h, s')
  {
    CampaignsInsert(h, s.campaignCounter, s.campaigns, s'.campaignCounter, s'.campaigns, c);
    DonationsWiden(h, s.donationCounter, s.donations, s.campaigns.Keys, s'.campaigns.Keys);
    BadgesWiden(h, s.nftCounter, s.badges, s.campaigns.Keys, s'.campaigns.Keys);
    DisbursementsWiden(h, s.disbursementCounter, s.disbursements, s.campaigns.Keys, s'.campaigns.Keys);
    StatsNewCampaign(s.stats, s.campaigns, s.donations, s.badges, s'.stats, s'.campaigns, c);
    FundedNewCampaign(s.campaigns, s.donations, s'.campaigns, c);
  }

  /** Replacing a campaign by one with the same id, balance and activity
      and a score in range. */
  lemma ReplaceCampaignKeepsInv(h: Hash, s: State, s': State, c: Campaign)
    requires Inv(h, s) && c.id in s.campaigns
    requires c.currentAmount == s.campaigns[c.id].currentAmount && c.active == s.campaigns[c.id].active
    requires c.trustScore <= C.MAX_CAMPAIGN_SCORE
    requires s' == s.(campaigns := s.campaigns[c.id := c])
    ensures Inv(h, s')
  {
    CampaignsReplace(h, s.campaignCounter, s.campaigns, s'.campaigns, c);
    StatsReplaceCampaign(s.stats, s.campaigns, s.donations, s.badges, s'.campaigns, c);
    FundedReplace(s.campaigns, s.donations, s'.campaigns, c);
  }

  /** Deactivating an active campaign and decrementing the active count. */
  lemma DeactivateCampaignKeepsInv(h: Hash, s: State, s': State, id: Id)
    requires Inv(h, s) && id in s.campaigns && s.campaigns[id].active
    requires s' == s.(campaigns := s.campaigns[id := s.campaigns[id].(active := false)], stats := s'.stats)
    requires s'.stats == s.stats.(activeCampaigns := s'.stats.activeCampaigns)
    requires s'.stats.activeCampaigns == (if s.stats.activeCampaigns == 0 then 0 else s.stats.activeCampaigns - 1)
    ensures s.stats.activeCampaigns > 0
    ensures Inv(h, s')
  {
    var c := s.campaigns[id].(active := false);
    CampaignsReplace(h, s.campaignCounter, s.campaigns, s'.campaigns, c);
    StatsDeactivate(s.stats, s.campaigns, s.donations, s.badges, s'.stats, s'.campaigns, id);
    FundedReplace(s.campaigns, s.donations, s'.campaigns, c);
  }

  /** Storing a new donation for an existing campaign under a fresh id,
      crediting the campaign, adding the donation to the totals, and
      installing a bounded trust-score map. */
  lemma AddDonationKeepsInv(h: Hash, s: State, s': State, c: Campaign, d: Donation)
    requires Inv(h, s)
    requires d.id !in s.donations && IssuedUpTo(h, s.donations.Keys + {d.id}, s.donationCounter + 1)
    requires d.campaignId in s.campaigns && c == s.campaigns[d.campaignId].(currentAmount := c.currentAmount)
    requires c.currentAmount == s.campaigns[d.campaignId].currentAmount + d.amount
    requires s' == s.(donationCounter := s'.donationCounter, campaigns := s'.campaigns,
                      donations := s'.donations, stats := s'.stats, trustScores := s'.trustScores)
    requires s'.donationCounter == s.donationCounter + 1
    requires s'.campaigns == s.campaigns[d.campaignId := c]
    requires s'.donations == s.donations[d.id := d]
    requires s'.stats == s.stats.(totalDonations := s'.stats.totalDonations, totalRaised := s'.stats.totalRaised)
    requires s'.stats.totalDonations == s.stats.totalDonations + 1
    requires s'.stats.totalRaised == s.stats.totalRaised + d.amount
    requires ScoresBounded(s'.trustScores)
    ensures Inv(h, s')
  {
    assert c.id == d.campaignId;
    CampaignsReplace(h, s.campaignCounter, s.campaigns, s'.campaigns, c);
    DonationsInsert(h, s.donationCounter, s.donations, s'.donationCounter, s'.donations, s.campaigns.Keys, d);
    StatsCredit(s.stats, s.campaigns, s.donations, s.badges, s'.stats, s'.campaigns, s'.donations, c, d);
    FundedCredit(s.campaigns, s.donations, s'.campaigns, s'.donations, c, d);
  }

  /** Storing a badge for an existing campaign under a fresh id, and
      counting it. */
  lemma AddBadgeKeepsInv(h: Hash, s: State, s': State, b: NFTBadge)
    requires Inv(h, s)
    requires b.id !in s.badges && IssuedUpTo(h, s.badges.Keys + {b.id}, s.nftCounter + 1)
    requires b.campaignId.Some? && b.campaignId.value in s.campaigns
    requires s' == s.(nftCounter := s'.nftCounter, badges := s'.badges, stats := s'.stats)
    requires s'.nftCounter == s.nftCounter + 1 && s'.badges == s.badges[b.id := b]
    requires s'.stats == s.stats.(totalNfts := s'.stats.totalNfts)
    requires s'.stats.totalNfts == s.stats.totalNfts + 1
    ensures Inv(h, s')
  {
    BadgesInsert(h, s.nftCounter, s.badges, s'.nftCounter, s'.badges, s.campaigns.Keys, b);
    StatsNewBadge(s.stats, s.campaigns, s.donations, s.badges, s'.stats, s'.badges, b);
  }

  /** Storing a well-formed disbursement for an existing campaign under a
      fresh id. */
  lemma AddDisbursementKeepsInv(h: Hash, s: State, s': State, d: Disbursement)
    requires Inv(h, s)
    requires d.id !in s.disbursements && IssuedUpTo(h, s.disbursements.Keys + {d.id}, s.disbursementCounter + 1)
    requires d.campaignId in s.campaigns && StatusWellFormed(d)
    requires s' == s.(disbursementCounter := s'.disbursementCounter, disbursements := s'.disbursements)
    requires s'.disbursementCounter == s.disbursementCounter + 1 && s'.disbursements == s.disbursements[d.id := d]
    ensures Inv(h, s')
  {
    DisbursementsInsert(h, s.disbursementCounter, s.disbursements, s'.disbursementCounter, s'.disbursements,
                        s.campaigns.Keys, d);
  }

  /** Replacing a disbursement by a well-formed one with the same id and
      campaign. */
  lemma ReplaceDisbursementKeepsInv(h: Hash, s: State, s': State, d: Disbursement)
    requires Inv(h, s) && d.id in s.disbursements
    requires d.campaignId == s.disbursements[d.id].campaignId && StatusWellFormed(d)
    requires s' == s.(disbursements := s.disbursements[d.id := d])
    ensures Inv(h, s')
  {
    DisbursementsReplace(h, s.disbursementCounter, s.disbursements, s'.disbursements, s.campaigns.Keys, d);
  }

  // Each entry point, as a combination of the changes above.

  lemma CreateCampaignPreservesInv(h: Hash, s: State, env: Env, b: Address, title: Text, desc: Text,
                                   goal: u64, days: u64, cat: Text, loc: Text)
    requires SeparatesCounters(h) && env.sha256 == h && Inv(h, s)
    ensures Inv(h, Commit(s, C.CreateCampaign(s, env, b, title, desc, goal, days, cat, loc)))
  {
    var r := C.CreateCampaign(s, env, b, title, desc, goal, days, cat, loc);
    if r.Done? {
      var c := r.state.campaigns[r.value];
      var input := Flatten(CampaignIdInputs(b, title, goal, env.now, r.state.campaignCounter));
      CounterIsLast(b.strkey, title, U64Be(goal), U64Be(env.now), r.state.campaignCounter);
      Issue(h, s.campaigns.Keys, s.campaignCounter, input);
      BeneficiaryUpdateBounded(s.trustScores, b, env.now);
      AddCampaignKeepsInv(h, s, r.state, c);
    }
  }

  lemma VerifyCampaignPreservesInv(h: Hash, s: State, env: Env, campaignId: Id, score: u32)
    requires Inv(h, s)
    ensures Inv(h, Commit(s, C.VerifyCampaign(s, env, campaignId, score)))
  {
    var r := C.VerifyCampaign(s, env, campaignId, score);
    if r.Done? {
      ReplaceCampaignKeepsInv(h, s, r.state, r.state.campaigns[campaignId]);
    }
  }

  lemma CloseCampaignPreservesInv(h: Hash, s: State, env: Env, campaignId: Id)
    requires Inv(h, s)
    ensures C.CloseCampaign(s, env, campaignId).Done? ==> s.stats.activeCampaigns > 0
    ensures Inv(h, Commit(s, C.CloseCampaign(s, env, campaignId)))
  {
    var r := C.CloseCampaign(s, env, campaignId);
    if r.Done? {
      DeactivateCampaignKeepsInv(h, s, r.state, campaignId);
    }
  }

  /** What `RecordDonation` writes, in the shape `AddDonationKeepsInv`
      consumes. */
  lemma RecordDonationShape(h: Hash, s: State, env: Env, campaignId: Id, donor: Address, amount: u64,
                            anonymous: bool, mintNft: bool)
    requires env.sha256 == h && campaignId in s.campaigns
    requires C.DonationFits(s, env, s.campaigns[campaignId], donor, amount, mintNft)
    ensures var (s', id) := C.RecordDonation(s, env, campaignId, donor, amount, anonymous, mintNft);
      var c := s'.campaigns[campaignId];
      var d := s'.donations[id];
      && id in s'.donations && campaignId in s'.campaigns
      && d.id == id && d.campaignId == campaignId
      && id == h(Flatten(DonationIdInputs(campaignId, donor, amount, env.now, s'.donationCounter)))
      && c == s.campaigns[d.campaignId].(currentAmount := c.currentAmount)
      && c.currentAmount == s.campaigns[d.campaignId].currentAmount + d.amount
      && s' == s.(donationCounter := s'.donationCounter, campaigns := s'.campaigns,
                  donations := s'.donations, stats := s'.stats, trustScores := s'.trustScores)
      && s'.donationCounter == s.donationCounter + 1
      && s'.campaigns == s.campaigns[d.campaignId := c]
      && s'.donations == s.donations[d.id := d]
      && s'.stats == s.stats.(totalDonations := s'.stats.totalDonations, totalRaised := s'.stats.totalRaised)
      && s'.stats.totalDonations == s.stats.totalDonations + 1
      && s'.stats.totalRaised == s.stats.totalRaised + d.amount
      && Trust.DonorUpdateFits(s.trustScores, donor, d.amount, env.now)
      && s'.trustScores == Trust.UpdateDonorTrustScore(s.trustScores, donor, d.amount, env.now)
  {
  }

  /** The writes `donate` makes before minting keep the invariant. */
  lemma RecordDonationKeepsInv(h: Hash, s: State, env: Env, campaignId: Id, donor: Address, amount: u64,
                               anonymous: bool, mintNft: bool)
    requires SeparatesCounters(h) && env.sha256 == h && Inv(h, s)
    requires campaignId in s.campaigns
    requires C.DonationFits(s, env, s.campaigns[campaignId], donor, amount, mintNft)
    ensures Inv(h, C.RecordDonation(s, env, campaignId, donor, amount, anonymous, mintNft).0)
  {
    RecordDonationShape(h, s, env, campaignId, donor, amount, anonymous, mintNft);
    var (s', id) := C.RecordDonation(s, env, campaignId, donor, amount, anonymous, mintNft);
    var d := s'.donations[id];
    CounterIsLast(campaignId, donor.strkey, U64Be(amount), U64Be(env.now), s'.donationCounter);
    Issue(h, s.donations.Keys, s.donationCounter, Flatten(DonationIdInputs(campaignId, donor, amount, env.now, s'.donationCounter)));
    DonorUpdateBounded(s.trustScores, donor, d.amount, env.now);
    AddDonationKeepsInv(h, s, s', s'.campaigns[campaignId], d);
  }

  /** Minting a donation badge for an existing campaign keeps the invariant. */
  lemma MintKeepsInv(h: Hash, s: State, env: Env, owner: Address, campaignId: Id, donationId: Id, amount: u64)
    requires SeparatesCounters(h) && env.sha256 == h && Inv(h, s)
    requires campaignId in s.campaigns && Badges.MintFits(s)
    ensures Inv(h, Badges.MintDonationNft(s, env, owner, campaignId, donationId, amount).0)
  {
    var (s', bid) := Badges.MintDonationNft(s, env, owner, campaignId, donationId, amount);
    var input := Flatten(NftIdInputs(owner, campaignId, donationId, amount, s'.nftCounter));
    CounterIsLast(owner.strkey, campaignId, donationId, U64Be(amount), s'.nftCounter);
    Issue(h, s.badges.Keys, s.nftCounter, input);
    AddBadgeKeepsInv(h, s, s', s'.badges[bid]);
  }

  lemma DonatePreservesInv(h: Hash, s: State, env: Env, campaignId: Id, donor: Address, amount: u64,
                           anonymous: bool, mintNft: bool)
    requires SeparatesCounters(h) && env.sha256 == h && Inv(h, s)
    ensures Inv(h, Commit(s, C.Donate(s, env, campaignId, donor, amount, anonymous, mintNft)))
  {
    var r := C.Donate(s, env, campaignId, donor, amount, anonymous, mintNft);
    if r.Done? {
      var (credited, id) := C.RecordDonation(s, env, campaignId, donor, amount, anonymous, mintNft);
      RecordDonationKeepsInv(h, s, env, campaignId, donor, amount, anonymous, mintNft);
      if mintNft {
        MintKeepsInv(h, credited, env, donor, campaignId, id, credited.donations[id].amount);
      }
    }
  }

  lemma CreateDisbursementPreservesInv(h: Hash, s: State, env: Env, campaignId: Id, recipient: Address,
                                       amount: u64, milestone: Text)
    requires SeparatesCounters(h) && env.sha256 == h && Inv(h, s)
    ensures Inv(h, Commit(s, C.CreateDisbursement(s, env, campaignId, recipient, amount, milestone)))
  {
    var r := C.CreateDisbursement(s, env, campaignId, recipient, amount, milestone);
    if r.Done? {
      var input := Flatten(DisbursementIdInputs(campaignId, recipient, amount, milestone,
                                                r.state.disbursementCounter));
      CounterIsLast(campaignId, recipient.strkey, U64Be(amount), milestone, r.state.disbursementCounter);
      Issue(h, s.disbursements.Keys, s.disbursementCounter, input);
      AddDisbursementKeepsInv(h, s, r.state, r.state.disbursements[r.value]);
    }
  }

  lemma ApproveDisbursementPreservesInv(h: Hash, s: State, env: Env, disbursementId: Id)
    requires Inv(h, s)
    ensures Inv(h, Commit(s, C.ApproveDisbursement(s, env, disbursementId)))
  {
    var r := C.ApproveDisbursement(s, env, disbursementId);
    if r.Done? {
      ReplaceDisbursementKeepsInv(h, s, r.state, r.state.disbursements[disbursementId]);
    }
  }

  lemma ExecuteDisbursementPreservesInv(h: Hash, s: State, env: Env, disbursementId: Id)
    requires Inv(h, s)
    ensures Inv(h, Commit(s, C.ExecuteDisbursement(s, env, disbursementId)))
  {
    var r := C.ExecuteDisbursement(s, env, disbursementId);
    if r.Done? {
      ReplaceDisbursementKeepsInv(h, s, r.state, r.state.disbursements[disbursementId]);
    }
  }

  /** `initialize` is one-shot: once the invariant holds the contract has
      an admin, so every later `initialize` fails and changes nothing. */
  lemma InitializeAgainFails(h: Hash, s: State, env: Env, admin: Address, platformFee: u64)
    requires Inv(h, s)
    ensures C.Initialize(s, env, admin, platformFee) == Failed(AlreadyInitialized)
    ensures Inv(h, Commit(s, C.Initialize(s, env, admin, platformFee)))
  {
  }

  // Each kind of call as a step of `Apply`.

  lemma StepInitialize(h: Hash, s: State, tx: Tx)
    requires SeparatesCounters(h) && Inv(h, s) && tx.call.Initialize?
    ensures Inv(h, Apply(h, s, tx))
  {
    var env := Env(tx.now, tx.signers, h);
    InitializeAgainFails(h, s, env, tx.call.admin, tx.call.platformFee);
  }

  lemma StepCreateCampaign(h: Hash, s: State, tx: Tx)
    requires SeparatesCounters(h) && Inv(h, s) && tx.call.CreateCampaign?
    ensures Inv(h, Apply(h, s, tx))
  {
    var env := Env(tx.now, tx.signers, h);
    var CreateCampaign(b, t, d, g, n, cat, loc) := tx.call;
    CreateCampaignPreservesInv(h, s, env, b, t, d, g, n, cat, loc);
  }

  lemma StepVerifyCampaign(h: Hash, s: State, tx: Tx)
    requires SeparatesCounters(h) && Inv(h, s) && tx.call.VerifyCampaign?
    ensures Inv(h, Apply(h, s, tx))
  {
    var env := Env(tx.now, tx.signers, h);
    VerifyCampaignPreservesInv(h, s, env, tx.call.campaignId, tx.call.trustScore);
  }

  lemma StepCloseCampaign(h: Hash, s: State, tx: Tx)
    requires SeparatesCounters(h) && Inv(h, s) && tx.call.CloseCampaign?
    ensures Inv(h, Apply(h, s, tx))
  {
    var env := Env(tx.now, tx.signers, h);
    CloseCampaignPreservesInv(h, s, env, tx.call.campaignId);
  }

  lemma StepDonate(h: Hash, s: State, tx: Tx)
    requires SeparatesCounters(h) && Inv(h, s) && tx.call.Donate?
    ensures Inv(h, Apply(h, s, tx))
  {
    var env := Env(tx.now, tx.signers, h);
    var Donate(c, donor, amount, anon, mint) := tx.call;
    DonatePreservesInv(h, s, env, c, donor, amount, anon, mint);
  }

  lemma StepCreateDisbursement(h: Hash, s: State, tx: Tx)
    requires SeparatesCounters(h) && Inv(h, s) && tx.call.CreateDisbursement?
    ensures Inv(h, Apply(h, s, tx))
  {
    var env := Env(tx.now, tx.signers, h);
    var CreateDisbursement(c, to, amount, m) := tx.call;
    CreateDisbursementPreservesInv(h, s, env, c, to, amount, m);
  }

  lemma StepApproveDisbursement(h: Hash, s: State, tx: Tx)
    requires SeparatesCounters(h) && Inv(h, s) && tx.call.ApproveDisbursement?
    ensures Inv(h, Apply(h, s, tx))
  {
    var env := Env(tx.now, tx.signers, h);
    ApproveDisbursementPreservesInv(h, s, env, tx.call.disbursementId);
  }

  lemma StepExecuteDisbursement(h: Hash, s: State, tx: Tx)
    requires SeparatesCounters(h) && Inv(h, s) && tx.call.ExecuteDisbursement?
    ensures Inv(h, Apply(h, s, tx))
  {
    var env := Env(tx.now, tx.signers, h);
    ExecuteDisbursementPreservesInv(h, s, env, tx.call.disbursementId);
  }

  /** Every call preserves the invariant: a failed or aborted call because
      it changes nothing, a successful one by the lemmas above. */
  lemma ApplyPreservesInv(h: Hash, s: State, tx: Tx)
    requires SeparatesCounters(h) && Inv(h, s)
    ensures Inv(h, Apply(h, s, tx))
  {
    match tx.call
    case Initialize(_, _) => StepInitialize(h, s, tx);
    case CreateCampaign(_, _, _, _, _, _, _) => StepCreateCampaign(h, s, tx);
    case VerifyCampaign(_, _) => StepVerifyCampaign(h, s, tx);
    case Donate(_, _, _, _, _) => StepDonate(h, s, tx);
    case CloseCampaign(_) => StepCloseCampaign(h, s, tx);
    case CreateDisbursement(_, _, _, _) => StepCreateDisbursement(h, s, tx);
    case ApproveDisbursement(_) => StepApproveDisbursement(h, s, tx);
    case ExecuteDisbursement(_) => StepExecuteDisbursement(h, s, tx);
  }

  /** Any sequence of calls preserves the invariant. */
  lemma {:induction false} RunPreservesInv(h: Hash, s: State, txs: seq<Tx>)
    requires SeparatesCounters(h) && Inv(h, s)
    ensures Inv(h, Run(h, s, txs))
    decreases |txs|
  {
    if txs != [] {
      ApplyPreservesInv(h, s, txs[0]);
      RunPreservesInv(h, Apply(h, s, txs[0]), txs[1..]);
    }
  }

  /** After a successful first `initialize` and any calls at all, every
      campaign's balance is the sum of the net amounts of its donations and
      the statistics agree with the stored records. */
  lemma ReachableIsConsistent(h: Hash, now: u64, admin: Address, fee: u64, txs: seq<Tx>)
    requires SeparatesCounters(h) && fee <= C.MAX_FEE_BPS
    ensures var s := Run(h, C.Initialize(EmptyState, Env(now, {admin}, h), admin, fee).state, txs);
      && Funded(s.campaigns, s.donations)
      && StatsMatch(s.stats, s.campaigns, s.donations, s.badges)
      && ScoresBounded(s.trustScores)
      && (forall k :: k in s.disbursements ==> StatusWellFormed(s.disbursements[k]))
  {
    InitializeEstablishesInv(h, now, admin, fee);
    RunPreservesInv(h, C.Initialize(EmptyState, Env(now, {admin}, h), admin, fee).state, txs);
  }
}
