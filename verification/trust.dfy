/** The trust-score engine: one `TrustScore` record per address, created
    with a neutral score of 50 and updated on every donation (donor side)
    and every campaign creation (beneficiary side). Scores are clamped to
    100 before being stored. */
module Trust {
  import opened Base
  import opened Model

  const NEUTRAL_SCORE: nat := 50
  const MAX_SCORE: nat := 100

  /** The record `create_trust_score` writes and the update functions fall
      back to when an address has none. */
  function NewTrustScore(entity: Address, now: u64): TrustScore
  {
    TrustScore(entity, NEUTRAL_SCORE, 0, 0, 0, 0, now)
  }

  /** The stored record of `entity`, or a fresh one. */
  function ScoreOrDefault(scores: map<Address, TrustScore>, entity: Address, now: u64): TrustScore
  {
    if entity in scores then scores[entity] else NewTrustScore(entity, now)
  }

  /** `create_trust_score`: refuses an address that already has a record. */
  function CreateTrustScore(scores: map<Address, TrustScore>, entity: Address, now: u64)
    : (r: Result<map<Address, TrustScore>>)
    ensures r.Err? <==> entity in scores
    ensures r.Err? ==> r.error == ScoreExists
    ensures r.Ok? ==> r.value.Keys == scores.Keys + {entity}
    ensures r.Ok? ==> r.value[entity].score == NEUTRAL_SCORE && r.value[entity].entity == entity
    ensures r.Ok? ==> r.value[entity].donationCount == 0 && r.value[entity].totalDonated == 0
    ensures r.Ok? ==> r.value[entity].campaignsCreated == 0 && r.value[entity].verificationLevel == 0
    ensures r.Ok? ==> forall a :: a in scores ==> r.value[a] == scores[a]
  {
    if entity in scores then Err(ScoreExists)
    else Ok(scores[entity := NewTrustScore(entity, now)])
  }

  /** The donor score of a donation history: 50, plus up to 30 for the
      number of donations (capped at 100 donations), plus up to 15 for the
      volume (one point of the 100-point scale per 1000 units, capped at
      100), plus 5 once there is more than one donation, clamped to 100. */
  function DonorScore(count: nat, total: nat): (r: nat)
    ensures NEUTRAL_SCORE <= r <= MAX_SCORE
  {
    var consistency := if count > 1 then 5 else 0;
    Min(100, 50 + Min(count, 100) * 30 / 100 + Min(total / 1000, 100) * 15 / 100 + consistency)
  }

  /** `update_donor_trust_score` cannot overflow its u32 count or u64 total. */
  predicate DonorUpdateFits(scores: map<Address, TrustScore>, donor: Address, amount: u64, now: u64)
  {
    var t := ScoreOrDefault(scores, donor, now);
    t.donationCount + 1 < U32_LIMIT && t.totalDonated + amount < U64_LIMIT
  }

  /** `update_donor_trust_score`: counts the donation, adds its amount, and
      recomputes the score from the two counters alone. */
  function UpdateDonorTrustScore(scores: map<Address, TrustScore>, donor: Address, amount: u64, now: u64)
    : (r: map<Address, TrustScore>)
    requires DonorUpdateFits(scores, donor, amount, now)
    ensures r.Keys == scores.Keys + {donor}
    ensures forall a :: a in scores && a != donor ==> r[a] == scores[a]
    ensures var before := ScoreOrDefault(scores, donor, now);
      && r[donor].donationCount == before.donationCount + 1
      && r[donor].totalDonated == before.totalDonated + amount
      && r[donor].campaignsCreated == before.campaignsCreated
      && r[donor].verificationLevel == before.verificationLevel
      && r[donor].entity == before.entity
    ensures r[donor].score == DonorScore(r[donor].donationCount, r[donor].totalDonated)
    ensures r[donor].lastUpdated == now
  {
    var t := ScoreOrDefault(scores, donor, now);
    var count := t.donationCount + 1;
    var total := t.totalDonated + amount;
    scores[donor := t.(donationCount := count, totalDonated := total, lastUpdated := now,
                       score := DonorScore(count, total))]
  }

  /** The beneficiary score after a campaign creation: the current score
      plus a boost equal to the new campaign count, capped at 20, clamped to
      100. */
  function BeneficiaryScore(score: nat, created: nat): (r: nat)
    ensures r <= MAX_SCORE
    ensures score <= MAX_SCORE ==> score <= r
    ensures score < MAX_SCORE && created > 0 ==> score < r
  {
    Min(score + Min(created, 20), 100)
  }

  /** `update_beneficiary_trust_score` cannot overflow its u32 count. */
  predicate BeneficiaryUpdateFits(scores: map<Address, TrustScore>, beneficiary: Address, now: u64)
  {
    ScoreOrDefault(scores, beneficiary, now).campaignsCreated + 1 < U32_LIMIT
  }

  /** `update_beneficiary_trust_score`: counts the campaign and adds a boost
      equal to the campaign count (capped at 20) to the current score,
      clamped to 100. */
  function UpdateBeneficiaryTrustScore(scores: map<Address, TrustScore>, beneficiary: Address, now: u64)
    : (r: map<Address, TrustScore>)
    requires BeneficiaryUpdateFits(scores, beneficiary, now)
    ensures r.Keys == scores.Keys + {beneficiary}
    ensures forall a :: a in scores && a != beneficiary ==> r[a] == scores[a]
    ensures var before := ScoreOrDefault(scores, beneficiary, now);
      && r[beneficiary].campaignsCreated == before.campaignsCreated + 1
      && r[beneficiary].score == BeneficiaryScore(before.score, before.campaignsCreated + 1)
      && r[beneficiary].score <= MAX_SCORE
      && (before.score <= MAX_SCORE ==> before.score <= r[beneficiary].score)
      && (before.score < MAX_SCORE ==> before.score < r[beneficiary].score)
      && r[beneficiary].donationCount == before.donationCount
      && r[beneficiary].totalDonated == before.totalDonated
      && r[beneficiary].entity == before.entity
    ensures r[beneficiary].lastUpdated == now
  {
    var t := ScoreOrDefault(scores, beneficiary, now);
    var created := t.campaignsCreated + 1;
    scores[beneficiary := t.(campaignsCreated := created, lastUpdated := now,
                             score := BeneficiaryScore(t.score, created))]
  }

  /** The clamp of the donor formula never binds: the four terms add up to
      at most 50 + 30 + 15 + 5 = 100. */
  lemma DonorScoreUnclamped(count: nat, total: nat)
    ensures DonorScore(count, total)
         == 50 + Min(count, 100) * 30 / 100 + Min(total / 1000, 100) * 15 / 100 + (if count > 1 then 5 else 0)
  {
    ScaledAtMost(Min(count, 100), 100, 30);
    ScaledAtMost(Min(total / 1000, 100), 100, 15);
  }

  lemma ScaledAtMost(a: nat, b: nat, k: nat)
    requires a <= b
    ensures a * k / 100 <= b * k / 100
  {
    assert a * k <= b * k by {
      assert (b - a) * k >= 0;
    }
  }

  /** More donations, or more volume, never lower the donor score. */
  lemma DonorScoreMonotone(c1: nat, t1: nat, c2: nat, t2: nat)
    requires c1 <= c2 && t1 <= t2
    ensures DonorScore(c1, t1) <= DonorScore(c2, t2)
  {
    DonorScoreUnclamped(c1, t1);
    DonorScoreUnclamped(c2, t2);
    ScaledAtMost(Min(c1, 100), Min(c2, 100), 30);
    assert t1 / 1000 <= t2 / 1000;
    ScaledAtMost(Min(t1 / 1000, 100), Min(t2 / 1000, 100), 15);
  }

  /** A donor update depends only on the donation counters: two records that
      agree on them give the same new score, whatever their old scores, so a
      boost earned by creating campaigns is discarded by the next donation. */
  lemma DonorUpdateForgetsScore(s1: map<Address, TrustScore>, s2: map<Address, TrustScore>,
                                donor: Address, amount: u64, now: u64)
    requires donor in s1 && donor in s2
    requires s1[donor].donationCount == s2[donor].donationCount
    requires s1[donor].totalDonated == s2[donor].totalDonated
    requires DonorUpdateFits(s1, donor, amount, now)
    ensures DonorUpdateFits(s2, donor, amount, now)
    ensures UpdateDonorTrustScore(s1, donor, amount, now)[donor].score
         == UpdateDonorTrustScore(s2, donor, amount, now)[donor].score
  {
  }

  /** A first donation of less than 1000 leaves a new donor at the neutral
      score of 50; the second donation earns the 5-point consistency bonus. */
  lemma FirstAndSecondDonation(scores: map<Address, TrustScore>, donor: Address, a1: u64, a2: u64, now: u64)
    requires donor !in scores
    requires a1 < 1000 && a2 < 1000
    ensures DonorUpdateFits(scores, donor, a1, now)
    ensures var once := UpdateDonorTrustScore(scores, donor, a1, now);
      && once[donor].donationCount == 1
      && once[donor].score == NEUTRAL_SCORE
      && DonorUpdateFits(once, donor, a2, now)
      && UpdateDonorTrustScore(once, donor, a2, now)[donor].score == NEUTRAL_SCORE + 5
  {
    var once := UpdateDonorTrustScore(scores, donor, a1, now);
    DonorScoreUnclamped(1, a1);
    DonorScoreUnclamped(2, a1 + a2);
  }

  /** The trust records after `n` campaign creations by `beneficiary`,
      starting from `scores`. */
  function CampaignsBy(scores: map<Address, TrustScore>, beneficiary: Address, now: u64, n: nat)
    : (r: map<Address, TrustScore>)
    requires beneficiary !in scores && n < U32_LIMIT
    ensures n == 0 ==> r == scores
    ensures n > 0 ==> beneficiary in r && r[beneficiary].campaignsCreated == n
    decreases n
  {
    if n == 0 then scores
    else UpdateBeneficiaryTrustScore(CampaignsBy(scores, beneficiary, now, n - 1), beneficiary, now)
  }

  /** 1 + 2 + ... + n. */
  function Triangle(n: nat): (r: nat)
    ensures 2 * r == n * (n + 1)
  {
    if n == 0 then 0 else Triangle(n - 1) + n
  }

  /** A beneficiary with no record who creates `n` campaigns ends at
      `min(100, 50 + 1 + 2 + ... + n)`: the k-th campaign adds k points
      (the cap of 20 is never reached before the clamp of 100 binds). */
  lemma {:induction false} CampaignsByScore(scores: map<Address, TrustScore>, beneficiary: Address, now: u64, n: nat)
    requires beneficiary !in scores && 0 < n < U32_LIMIT
    ensures CampaignsBy(scores, beneficiary, now, n)[beneficiary].score == Min(100, NEUTRAL_SCORE + Triangle(n))
  {
    if n > 1 {
      CampaignsByScore(scores, beneficiary, now, n - 1);
      var before := Min(100, NEUTRAL_SCORE + Triangle(n - 1));
      if before < 100 {
        assert Triangle(n - 1) < 50;
        assert n <= 10 by {
          if n > 10 {
            TriangleMonotone(10, n - 1);
          }
        }
      }
    }
  }

  lemma {:induction false} TriangleMonotone(a: nat, b: nat)
    requires a <= b
    ensures Triangle(a) <= Triangle(b)
  {
    if a < b {
      TriangleMonotone(a, b - 1);
    }
  }

  /** The ninth campaign leaves a new beneficiary at 95 and the tenth brings
      them to the maximum of 100. */
  lemma TenthCampaignReachesMax(scores: map<Address, TrustScore>, beneficiary: Address, now: u64)
    requires beneficiary !in scores
    ensures CampaignsBy(scores, beneficiary, now, 9)[beneficiary].score == 95
    ensures CampaignsBy(scores, beneficiary, now, 10)[beneficiary].score == MAX_SCORE
  {
    CampaignsByScore(scores, beneficiary, now, 9);
    CampaignsByScore(scores, beneficiary, now, 10);
  }
}
