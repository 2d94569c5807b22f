/** NFT reward badges: the tier is a threshold function of the net donation
    amount, and minting stores a badge under a counter-derived id. */
module Badges {
  import opened Base
  import opened Model
  import Ids

  const METADATA_URI: string := "https://savia.org/nft/metadata"

  /** `get_badge_type`. */
  function GetBadgeType(amount: nat): (r: BadgeTier)
    ensures Threshold(r) <= amount
    ensures forall u :: Rank(u) == Rank(r) + 1 ==> amount < Threshold(u)
  {
    if amount < 1000 then Bronze
    else if amount < 5000 then Silver
    else if amount < 10000 then Gold
    else if amount < 50000 then Platinum
    else Diamond
  }

  /** The `badge_type` string the contract stores for a tier. */
  function BadgeName(t: BadgeTier): string
  {
    match t
    case Bronze => "Bronze Supporter"
    case Silver => "Silver Supporter"
    case Gold => "Gold Supporter"
    case Platinum => "Platinum Supporter"
    case Diamond => "Diamond Supporter"
  }

  /** Position of a tier, lowest first. */
  function Rank(t: BadgeTier): nat
  {
    match t
    case Bronze => 0
    case Silver => 1
    case Gold => 2
    case Platinum => 3
    case Diamond => 4
  }

  /** The smallest amount that earns a tier. */
  function Threshold(t: BadgeTier): nat
  {
    match t
    case Bronze => 0
    case Silver => 1000
    case Gold => 5000
    case Platinum => 10000
    case Diamond => 50000
  }

  /** The tier of an amount is the highest tier whose threshold the amount
      reaches: it reaches `t`'s threshold and no higher tier's. */
  lemma BadgeTypeIsHighestReached(amount: nat, t: BadgeTier)
    ensures GetBadgeType(amount) == t
        <==> (Threshold(t) <= amount && forall u :: Rank(u) > Rank(t) ==> amount < Threshold(u))
  {
    var g := GetBadgeType(amount);
    assert Threshold(g) <= amount;
    forall u | Rank(u) > Rank(g)
      ensures amount < Threshold(u)
    {
    }
    assert Rank(g) == Rank(t) ==> g == t;
  }

  /** A larger amount never earns a lower tier. */
  lemma BadgeTypeMonotone(a: nat, b: nat)
    requires a <= b
    ensures Rank(GetBadgeType(a)) <= Rank(GetBadgeType(b))
  {
  }

  /** Different tiers carry different names. */
  lemma BadgeNamesDistinct(t: BadgeTier, u: BadgeTier)
    requires t != u
    ensures BadgeName(t) != BadgeName(u)
  {
    match t
    case Bronze => assert BadgeName(t)[0] == 'B';
    case Silver => assert BadgeName(t)[0] == 'S';
    case Gold => assert BadgeName(t)[0] == 'G';
    case Platinum => assert BadgeName(t)[0] == 'P';
    case Diamond => assert BadgeName(t)[0] == 'D';
  }

  /** `mint_donation_nft` cannot overflow the NFT counter or the NFT total. */
  predicate MintFits(s: State)
  {
    s.nftCounter + 1 < U64_LIMIT && s.stats.totalNfts + 1 < U64_LIMIT
  }

  /** `mint_donation_nft`: derives the badge id from the next NFT counter
      value, stores a badge whose tier follows the amount, and counts it. */
  function MintDonationNft(s: State, env: Env, owner: Address, campaignId: Id, donationId: Id, amount: u64)
    : (r: (State, Id))
    requires MintFits(s)
    ensures var (s', id) := r;
      && s'.nftCounter == s.nftCounter + 1
      && id == Ids.GenerateId(env.sha256, Ids.NftIdInputs(owner, campaignId, donationId, amount, s'.nftCounter))
      && id in s'.badges
      && s'.badges == s.badges[id := s'.badges[id]]
      && s'.badges[id] == NFTBadge(id, owner, GetBadgeType(amount), Some(campaignId), env.now, METADATA_URI)
      && s'.stats == s.stats.(totalNfts := s.stats.totalNfts + 1)
      && s' == s.(nftCounter := s'.nftCounter, badges := s'.badges, stats := s'.stats)
  {
    var counter := s.nftCounter + 1;
    var id := Ids.GenerateId(env.sha256, Ids.NftIdInputs(owner, campaignId, donationId, amount, counter));
    var badge := NFTBadge(id, owner, GetBadgeType(amount), Some(campaignId), env.now, METADATA_URI);
    (s.(nftCounter := counter,
        badges := s.badges[id := badge],
        stats := s.stats.(totalNfts := s.stats.totalNfts + 1)),
     id)
  }
}
