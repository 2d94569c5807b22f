/** How the records evolve over a run of calls: identifiers are never
    reused, campaigns are never removed, balances never go down, a closed
    campaign stays closed, and stored donations and badges never change.
    Also the behaviours the disbursement workflow allows (re-approval,
    repeated execution, no reservation of funds) and the effect of calls
    made before `initialize`. */
module Lifecycle {
  import opened Base
  import opened Model
  import opened Ids
  import C = Contract
  import opened Invariants

  // ---------------------------------------------------------------------
  // The growth relation
  // ---------------------------------------------------------------------

  /** A campaign record as a later state may hold it: same identity and
      terms, a balance no lower, still closed if it was closed, still
      verified if it was verified. */
  predicate CampaignSucceeds(c: Campaign, c': Campaign)
  {
    && c'.id == c.id && c'.beneficiary == c.beneficiary
    && c'.goalAmount == c.goalAmount && c'.startTime == c.startTime && c'.endTime == c.endTime
    && c.currentAmount <= c'.currentAmount
    && (!c.active ==> !c'.active)
    && (c.verified ==> c'.verified)
  }

  /** A disbursement record as a later state may hold it: the same request,
      whatever its status has become. */
  predicate DisbursementSucceeds(d: Disbursement, d': Disbursement)
  {
    d'.id == d.id && d'.campaignId == d.campaignId && d'.recipient == d.recipient && d'.amount == d.amount
  }

  /** A trust record as a later state may hold it: the counters never go
      down. */
  predicate ScoreSucceeds(t: TrustScore, t': TrustScore)
  {
    && t'.entity == t.entity
    && t.donationCount <= t'.donationCount && t.totalDonated <= t'.totalDonated
    && t.campaignsCreated <= t'.campaignsCreated
  }

  /** Every entry of `m` is still in `m'`, unchanged. */
  predicate Kept<K, V(==)>(m: map<K, V>, m': map<K, V>)
  {
    forall k :: k in m ==> k in m' && m'[k] == m[k]
  }

  predicate CampaignsGrow(m: map<Id, Campaign>, m': map<Id, Campaign>)
  {
    forall k :: k in m ==> k in m' && CampaignSucceeds(m[k], m'[k])
  }

  predicate DisbursementsGrow(m: map<Id, Disbursement>, m': map<Id, Disbursement>)
  {
    forall k :: k in m ==> k in m' && DisbursementSucceeds(m[k], m'[k])
  }

  predicate ScoresGrow(m: map<Address, TrustScore>, m': map<Address, TrustScore>)
  {
    forall a :: a in m ==> a in m' && ScoreSucceeds(m[a], m'[a])
  }

  /** `s'` is a possible later state of `s`: the admin and the fee are
      fixed, the counters never go down, no record disappears, and stored
      donations and badges never change. */
  predicate Grows(s: State, s': State)
  {
    && s'.admin == s.admin && s'.platformFee == s.platformFee
    && s.campaignCounter <= s'.campaignCounter && s.donationCounter <= s'.donationCounter
    && s.nftCounter <= s'.nftCounter && s.disbursementCounter <= s'.disbursementCounter
    && CampaignsGrow(s.campaigns, s'.campaigns)
    && Kept(s.donations, s'.donations)
    && Kept(s.badges, s'.badges)
    && DisbursementsGrow(s.disbursements, s'.disbursements)
    && ScoresGrow(s.trustScores, s'.trustScores)
  }

  lemma GrowsTransitive(s1: State, s2: State, s3: State)
    requires Grows(s1, s2) && Grows(s2, s3)
    ensures Grows(s1, s3)
  {
    KeptTransitive(s1.donations, s2.donations, s3.donations);
    KeptTransitive(s1.badges, s2.badges, s3.badges);
  }

  lemma KeptTransitive<K, V>(m1: map<K, V>, m2: map<K, V>, m3: map<K, V>)
    requires Kept(m1, m2) && Kept(m2, m3)
    ensures Kept(m1, m3)
  {
  }

  // ---------------------------------------------------------------------
  // Fresh identifiers
  // ---------------------------------------------------------------------

  /** A created campaign gets an identifier no stored campaign has. */
  lemma CreateCampaignIdFresh(h: Hash, s: State, env: Env, b: Address, title: Text, desc: Text,
                              goal: u64, days: u64, cat: Text, loc: Text)
    requires env.sha256 == h && IssuedUpTo(h, s.campaigns.Keys, s.campaignCounter)
    ensures var r := C.CreateCampaign(s, env, b, title, desc, goal, days, cat, loc);
      r.Done? ==> r.value !in s.campaigns
  {
    var r := C.CreateCampaign(s, env, b, title, desc, goal, days, cat, loc);
    if r.Done? {
      CounterIsLast(b.strkey, title, U64Be(goal), U64Be(env.now), r.state.campaignCounter);
      FreshId(h, s.campaigns.Keys, s.campaignCounter,
              Flatten(CampaignIdInputs(b, title, goal, env.now, r.state.campaignCounter)));
    }
  }

  /** A donation gets an identifier no stored donation has, and the badge
      it mints one no stored badge has. */
  lemma DonateIdsFresh(h: Hash, s: State, env: Env, campaignId: Id, donor: Address, amount: u64,
                       anonymous: bool, mintNft: bool)
    requires env.sha256 == h
    requires IssuedUpTo(h, s.donations.Keys, s.donationCounter) && IssuedUpTo(h, s.badges.Keys, s.nftCounter)
    ensures var r := C.Donate(s, env, campaignId, donor, amount, anonymous, mintNft);
      r.Done? ==>
        && r.value !in s.donations
        && (mintNft ==> r.state.badges.Keys == s.badges.Keys + {GenerateId(h, NftIdInputs(donor, campaignId,
              r.value, r.state.donations[r.value].amount, r.state.nftCounter))})
        && (mintNft ==> GenerateId(h, NftIdInputs(donor, campaignId, r.value, r.state.donations[r.value].amount,
              r.state.nftCounter)) !in s.badges)
  {
    var r := C.Donate(s, env, campaignId, donor, amount, anonymous, mintNft);
    if r.Done? {
      CounterIsLast(campaignId, donor.strkey, U64Be(amount), U64Be(env.now), r.state.donationCounter);
      FreshId(h, s.donations.Keys, s.donationCounter,
              Flatten(DonationIdInputs(campaignId, donor, amount, env.now, r.state.donationCounter)));
      if mintNft {
        var net := r.state.donations[r.value].amount;
        CounterIsLast(donor.strkey, campaignId, r.value, U64Be(net), r.state.nftCounter);
        FreshId(h, s.badges.Keys, s.nftCounter, Flatten(NftIdInputs(donor, campaignId, r.value, net, r.state.nftCounter)));
      }
    }
  }

  /** A disbursement request gets an identifier no stored request has. */
  lemma CreateDisbursementIdFresh(h: Hash, s: State, env: Env, campaignId: Id, recipient: Address,
                                  amount: u64, milestone: Text)
    requires env.sha256 == h && IssuedUpTo(h, s.disbursements.Keys, s.disbursementCounter)
    ensures var r := C.CreateDisbursement(s, env, campaignId, recipient, amount, milestone);
      r.Done? ==> r.value !in s.disbursements
  {
    var r := C.CreateDisbursement(s, env, campaignId, recipient, amount, milestone);
    if r.Done? {
      CounterIsLast(campaignId, recipient.strkey, U64Be(amount), milestone, r.state.disbursementCounter);
      FreshId(h, s.disbursements.Keys, s.disbursementCounter,
              Flatten(DisbursementIdInputs(campaignId, recipient, amount, milestone, r.state.disbursementCounter)));
    }
  }

  // ---------------------------------------------------------------------
  // Every call only grows the records
  // ---------------------------------------------------------------------

  lemma GrowsReflexive(s: State)
    ensures Grows(s, s)
  {
  }

  lemma CreateCampaignGrows(s: State, env: Env, b: Address, title: Text, desc: Text,
                            goal: u64, days: u64, cat: Text, loc: Text)
    requires var r := C.CreateCampaign(s, env, b, title, desc, goal, days, cat, loc);
      r.Done? ==> r.value !in s.campaigns
    ensures Grows(s, Commit(s, C.CreateCampaign(s, env, b, title, desc, goal, days, cat, loc)))
  {
    var r := C.CreateCampaign(s, env, b, title, desc, goal, days, cat, loc);
    if r.Done? {
      assert CampaignsGrow(s.campaigns, r.state.campaigns);
      assert ScoresGrow(s.trustScores, r.state.trustScores);
    }
  }

  lemma VerifyCampaignGrows(s: State, env: Env, campaignId: Id, score: u32)
    ensures Grows(s, Commit(s, C.VerifyCampaign(s, env, campaignId, score)))
  {
  }

  lemma CloseCampaignGrows(s: State, env: Env, campaignId: Id)
    ensures Grows(s, Commit(s, C.CloseCampaign(s, env, campaignId)))
  {
  }

  lemma DonateGrows(h: Hash, s: State, env: Env, campaignId: Id, donor: Address, amount: u64,
                    anonymous: bool, mintNft: bool)
    requires env.sha256 == h
    requires var r := C.Donate(s, env, campaignId, donor, amount, anonymous, mintNft);
      r.Done? ==>
        && r.value !in s.donations
        && (mintNft ==> GenerateId(h, NftIdInputs(donor, campaignId, r.value, r.state.donations[r.value].amount,
              r.state.nftCounter)) !in s.badges)
    ensures Grows(s, Commit(s, C.Donate(s, env, campaignId, donor, amount, anonymous, mintNft)))
  {
    var r := C.Donate(s, env, campaignId, donor, amount, anonymous, mintNft);
    if r.Done? {
      assert CampaignsGrow(s.campaigns, r.state.campaigns);
      assert Kept(s.donations, r.state.donations);
      assert Kept(s.badges, r.state.badges);
      assert ScoresGrow(s.trustScores, r.state.trustScores);
    }
  }

  lemma CreateDisbursementGrows(s: State, env: Env, campaignId: Id, recipient: Address,
                                amount: u64, milestone: Text)
    requires var r := C.CreateDisbursement(s, env, campaignId, recipient, amount, milestone);
      r.Done? ==> r.value !in s.disbursements
    ensures Grows(s, Commit(s, C.CreateDisbursement(s, env, campaignId, recipient, amount, milestone)))
  {
  }

  lemma ApproveDisbursementGrows(s: State, env: Env, disbursementId: Id)
    ensures Grows(s, Commit(s, C.ApproveDisbursement(s, env, disbursementId)))
  {
  }

  lemma ExecuteDisbursementGrows(s: State, env: Env, disbursementId: Id)
    ensures Grows(s, Commit(s, C.ExecuteDisbursement(s, env, disbursementId)))
  {
  }

  /** Once initialised, with identifiers derived from unused counter
      values, every call only grows the records. */
  lemma ApplyGrows(h: Hash, s: State, tx: Tx)
    requires s.admin.Some?
    requires IssuedUpTo(h, s.campaigns.Keys, s.campaignCounter)
    requires IssuedUpTo(h, s.donations.Keys, s.donationCounter)
    requires IssuedUpTo(h, s.badges.Keys, s.nftCounter)
    requires IssuedUpTo(h, s.disbursements.Keys, s.disbursementCounter)
    ensures Grows(s, Apply(h, s, tx))
  {
    var env := Env(tx.now, tx.signers, h);
    match tx.call
    case Initialize(_, _) => GrowsReflexive(s);
    case CreateCampaign(b, t, d, g, n, cat, loc) =>
      CreateCampaignIdFresh(h, s, env, b, t, d, g, n, cat, loc);
      CreateCampaignGrows(s, env, b, t, d, g, n, cat, loc);
    case VerifyCampaign(c, score) => VerifyCampaignGrows(s, env, c, score);
    case Donate(c, donor, amount, anon, mint) =>
      DonateIdsFresh(h, s, env, c, donor, amount, anon, mint);
      DonateGrows(h, s, env, c, donor, amount, anon, mint);
    case CloseCampaign(c) => CloseCampaignGrows(s, env, c);
    case CreateDisbursement(c, to, amount, m) =>
      CreateDisbursementIdFresh(h, s, env, c, to, amount, m);
      CreateDisbursementGrows(s, env, c, to, amount, m);
    case ApproveDisbursement(d) => ApproveDisbursementGrows(s, env, d);
    case ExecuteDisbursement(d) => ExecuteDisbursementGrows(s, env, d);
  }

  /** Along any run from a consistent state, records only grow: no
      campaign, donation, badge, disbursement or trust record disappears,
      a campaign's balance never goes down and a closed campaign is never
      reopened, and a stored donation or badge is never rewritten. */
  lemma {:induction false} RunGrows(h: Hash, s: State, txs: seq<Tx>)
    requires SeparatesCounters(h) && Inv(h, s)
    ensures Grows(s, Run(h, s, txs))
    decreases |txs|
  {
    if txs == [] {
      GrowsReflexive(s);
    } else {
      var next := Apply(h, s, txs[0]);
      ApplyGrows(h, s, txs[0]);
      ApplyPreservesInv(h, s, txs[0]);
      RunGrows(h, next, txs[1..]);
      GrowsTransitive(s, next, Run(h, next, txs[1..]));
    }
  }
}
