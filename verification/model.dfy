/** The records the Savia contract keeps, its error taxonomy, and the
    single state aggregate that stands for the contract's storage.

    Storage is modelled by fields and maps instead of a keyed store:
    the instance-storage singletons (admin, platform fee, the four
    counters, the statistics) become fields of `State`, and each
    persistent key family (`Campaign(id)`, `Donation(id)`, `TrustScore(addr)`,
    `NFTBadge(id)`, `Disbursement(id)`) becomes one map. A counter or the
    statistics record read with a zero default is the same as a field
    that starts at zero; the platform fee keeps its `Option` because
    `donate` falls back to a different default (200) when it is absent. */
module Model {
  import opened Base

  /** A Soroban `String` or byte payload: only its bytes matter here. */
  type Text = seq<byte>

  /** A Soroban address, carried as the bytes of its string form. */
  datatype Address = Address(strkey: seq<byte>)

  /** `BytesN<32>`: campaign, donation, NFT and disbursement identifiers. */
  type Id = b: seq<byte> | |b| == 32 witness seq(32, _ => 0)

  /** The host's SHA-256, taken as an uninterpreted function. */
  type Hash = seq<byte> -> Id

  datatype Campaign = Campaign(
    id: Id,
    title: Text,
    description: Text,
    beneficiary: Address,
    goalAmount: u64,
    currentAmount: u64,
    startTime: u64,
    endTime: u64,
    verified: bool,
    trustScore: u32,
    category: Text,
    location: Text,
    active: bool)

  datatype Donation = Donation(
    id: Id,
    campaignId: Id,
    donor: Address,
    amount: u64,
    timestamp: u64,
    nftMinted: bool,
    anonymous: bool)

  datatype TrustScore = TrustScore(
    entity: Address,
    score: u32,
    verificationLevel: u32,
    donationCount: u32,
    totalDonated: u64,
    campaignsCreated: u32,
    lastUpdated: u64)

  /** The badge tiers; the contract stores the tier's display name
      (`BadgeName`) in the badge's `badge_type` string. */
  datatype BadgeTier = Bronze | Silver | Gold | Platinum | Diamond

  datatype NFTBadge = NFTBadge(
    id: Id,
    owner: Address,
    badgeType: BadgeTier,
    campaignId: Option<Id>,
    mintedAt: u64,
    metadataUri: string)

  datatype DisbursementStatus = Pending | Approved | Executed | Rejected

  datatype Disbursement = Disbursement(
    id: Id,
    campaignId: Id,
    recipient: Address,
    amount: u64,
    milestone: Text,
    status: DisbursementStatus,
    createdAt: u64,
    executedAt: Option<u64>)

  datatype PlatformStats = PlatformStats(
    totalCampaigns: u64,
    totalDonations: u64,
    totalRaised: u64,
    totalNfts: u64,
    activeCampaigns: u64)

  const ZeroStats := PlatformStats(0, 0, 0, 0, 0)

  datatype SaviaError =
    | InvalidFee
    | InvalidGoal
    | InvalidDuration
    | CampaignNotFound
    | CampaignEnded
    | InvalidAmount
    | ScoreExists
    | InsufficientFunds
    | DisbursementNotFound
    | NotApproved
    | Unauthorized
    | CampaignInactive
    | InvalidInput
    | AlreadyInitialized

  /** Result of an internal helper that can fail with a contract error. */
  datatype Result<T> = Ok(value: T) | Err(error: SaviaError)

  /** Everything the contract keeps in storage. */
  datatype State = State(
    admin: Option<Address>,
    platformFee: Option<u64>,
    campaignCounter: u64,
    donationCounter: u64,
    nftCounter: u64,
    disbursementCounter: u64,
    stats: PlatformStats,
    campaigns: map<Id, Campaign>,
    donations: map<Id, Donation>,
    trustScores: map<Address, TrustScore>,
    badges: map<Id, NFTBadge>,
    disbursements: map<Id, Disbursement>)

  /** The storage of a freshly deployed contract: nothing written yet. */
  const EmptyState := State(None, None, 0, 0, 0, 0, ZeroStats, map[], map[], map[], map[], map[])

  /** What the host supplies to one invocation: the ledger timestamp, the
      principals whose authorisation the invocation carries (what
      `require_auth` consults) and the hash primitive. */
  datatype Env = Env(now: u64, signers: set<Address>, sha256: Hash)

  /** Why the host aborts an invocation: a `require_auth` whose principal
      did not sign, or an arithmetic overflow panic. An aborted invocation
      commits nothing. */
  datatype AbortReason = AuthMissing(principal: Address) | Overflow

  /** The result of one contract entry point: the new storage and the
      returned value, a contract error (nothing written), or an abort
      (nothing written). */
  datatype Outcome<T> =
    | Done(state: State, value: T)
    | Failed(error: SaviaError)
    | Aborted(reason: AbortReason)
}
