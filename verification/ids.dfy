/** Identifier derivation (`generate_id`): every identifier is the hash of
    the concatenation of a list of byte strings whose last element is the
    big-endian bytes of a freshly incremented counter. The hash itself is
    uninterpreted; the only thing ever assumed about it is that inputs
    ending in different counter values hash to different identifiers. */
module Ids {
  import opened Base
  import opened Model

  /** `generate_id`: hash of the inputs appended in order, with nothing
      between them. Every call site passes five inputs, and the identifier
      is then the hash of their plain concatenation. */
  function GenerateId(sha256: Hash, inputs: seq<seq<byte>>): (r: Id)
    ensures |inputs| == 5 ==> r == sha256(inputs[0] + inputs[1] + inputs[2] + inputs[3] + inputs[4])
  {
    if |inputs| == 5 then
      assert inputs == [inputs[0], inputs[1], inputs[2], inputs[3], inputs[4]];
      Flatten5(inputs[0], inputs[1], inputs[2], inputs[3], inputs[4]);
      sha256(Flatten(inputs))
    else
      sha256(Flatten(inputs))
  }

  /** Inputs of a campaign id: beneficiary, title, goal, creation time, counter. */
  function CampaignIdInputs(beneficiary: Address, title: Text, goal: u64, now: u64, counter: u64): seq<seq<byte>>
  {
    [beneficiary.strkey, title, U64Be(goal), U64Be(now), U64Be(counter)]
  }

  /** Inputs of a donation id: campaign id, donor, gross amount, time, counter. */
  function DonationIdInputs(campaignId: Id, donor: Address, amount: u64, now: u64, counter: u64): seq<seq<byte>>
  {
    [campaignId, donor.strkey, U64Be(amount), U64Be(now), U64Be(counter)]
  }

  /** Inputs of a badge id: owner, campaign id, donation id, net amount, counter. */
  function NftIdInputs(owner: Address, campaignId: Id, donationId: Id, amount: u64, counter: u64): seq<seq<byte>>
  {
    [owner.strkey, campaignId, donationId, U64Be(amount), U64Be(counter)]
  }

  /** Inputs of a disbursement id: campaign id, recipient, amount, milestone, counter. */
  function DisbursementIdInputs(campaignId: Id, recipient: Address, amount: u64, milestone: Text, counter: u64): seq<seq<byte>>
  {
    [campaignId, recipient.strkey, U64Be(amount), milestone, U64Be(counter)]
  }

  /** The counter value a hash input ends with (its last eight bytes). */
  function CounterOf(input: seq<byte>): nat
  {
    if |input| < 8 then 0 else FromBe(input[|input| - 8..])
  }

  /** Every one of the four input lists ends with the counter's bytes, so
      the counter can be read back from the concatenation. */
  lemma CounterIsLast(a: seq<byte>, b: seq<byte>, c: seq<byte>, d: seq<byte>, counter: u64)
    ensures CounterOf(Flatten([a, b, c, d, U64Be(counter)])) == counter
  {
    assert [a, b, c, d, U64Be(counter)] == [a, b, c, d] + [U64Be(counter)];
    FlattenSnoc([a, b, c, d], U64Be(counter));
    var f := Flatten([a, b, c, d, U64Be(counter)]);
    assert f[|f| - 8..] == U64Be(counter);
    U64BeRoundTrip(counter);
  }

  /** The model's idealisation of the hash: two hash inputs that end in
      different counter values never give the same identifier. This is not
      the computational collision resistance of SHA-256: it rules out every
      cross-counter collision, and since each counter value has infinitely
      many inputs a real 32-byte hash almost surely has some. Full
      injectivity cannot hold at all, while this property can (see
      `SomeHashSeparatesCounters`); results that assume it describe the
      deployed contract only as long as no cross-counter collision occurs. */
  ghost predicate SeparatesCounters(h: Hash)
  {
    forall a, b :: h(a) == h(b) ==> CounterOf(a) == CounterOf(b)
  }

  /** The counter read back from an input fits in 32 bytes. */
  lemma CounterFitsId(input: seq<byte>)
    ensures CounterOf(input) < Pow256(32)
  {
    if |input| >= 8 {
      FromBeBelow(input[|input| - 8..]);
      Pow256Monotone(8, 32);
    }
  }

  /** A hash that writes the input's counter into the 32 identifier bytes. */
  function CounterHash(input: seq<byte>): Id
  {
    BeBytes(CounterOf(input), 32)
  }

  /** The idealisation can be met: `CounterHash`
      separates counters, because the counter can be decoded back from the
      identifier it gives. */
  lemma SomeHashSeparatesCounters()
    ensures SeparatesCounters(CounterHash)
  {
    forall a, b | CounterHash(a) == CounterHash(b)
      ensures CounterOf(a) == CounterOf(b)
    {
      CounterFitsId(a);
      CounterFitsId(b);
      BeBytesRoundTrip(CounterOf(a), 32);
      BeBytesRoundTrip(CounterOf(b), 32);
    }
  }

  /** No identifier in `ids` derives from an input whose counter is
      beyond `counter`: the counter has not yet reached the inputs of any
      identifier that could be issued later. */
  ghost predicate IssuedUpTo(h: Hash, ids: set<Id>, counter: nat)
  {
    forall input :: CounterOf(input) > counter ==> h(input) !in ids
  }

  /** An input carrying the next counter value yields an identifier that has
      not been issued yet. */
  lemma FreshId(h: Hash, ids: set<Id>, counter: nat, input: seq<byte>)
    requires IssuedUpTo(h, ids, counter)
    requires CounterOf(input) == counter + 1
    ensures h(input) !in ids
  {
  }

  /** With a hash that separates counters, issuing the identifier of the
      next counter value keeps the record of issued identifiers up to date:
      a later input carries a different counter from the one just used, so
      its hash differs too. */
  lemma IssueNext(h: Hash, ids: set<Id>, counter: nat, input: seq<byte>)
    requires SeparatesCounters(h)
    requires IssuedUpTo(h, ids, counter)
    requires CounterOf(input) == counter + 1
    ensures IssuedUpTo(h, ids + {h(input)}, counter + 1)
  {
    forall later | CounterOf(later) > counter + 1
      ensures h(later) !in ids + {h(input)}
    {
      assert CounterOf(later) != CounterOf(input);
    }
  }

  /** Issuing the next identifier: it is new, and the record of issued
      identifiers moves on by one. */
  lemma Issue(h: Hash, ids: set<Id>, counter: nat, input: seq<byte>)
    requires SeparatesCounters(h)
    requires IssuedUpTo(h, ids, counter)
    requires CounterOf(input) == counter + 1
    ensures h(input) !in ids
    ensures IssuedUpTo(h, ids + {h(input)}, counter + 1)
  {
    FreshId(h, ids, counter, input);
    IssueNext(h, ids, counter, input);
  }

  lemma Flatten5(a: seq<byte>, b: seq<byte>, c: seq<byte>, d: seq<byte>, e: seq<byte>)
    ensures Flatten([a, b, c, d, e]) == a + b + c + d + e
  {
    FlattenSnoc([], a);
    FlattenSnoc([a], b);
    FlattenSnoc([a, b], c);
    FlattenSnoc([a, b, c], d);
    FlattenSnoc([a, b, c, d], e);
    assert [] + [a] == [a];
    assert [a] + [b] == [a, b];
    assert [a, b] + [c] == [a, b, c];
    assert [a, b, c] + [d] == [a, b, c, d];
    assert [a, b, c, d] + [e] == [a, b, c, d, e];
  }

  /** Two donation ids are derived from the same bytes only when every
      field agrees: the campaign id has a fixed width and the three trailing
      numbers have eight bytes each, so the donor's bytes are delimited. */
  lemma DonationInputsInjective(
    c1: Id, d1: Address, a1: u64, t1: u64, k1: u64,
    c2: Id, d2: Address, a2: u64, t2: u64, k2: u64)
    requires Flatten(DonationIdInputs(c1, d1, a1, t1, k1)) == Flatten(DonationIdInputs(c2, d2, a2, t2, k2))
    ensures c1 == c2 && d1 == d2 && a1 == a2 && t1 == t2 && k1 == k2
  {
    Flatten5(c1, d1.strkey, U64Be(a1), U64Be(t1), U64Be(k1));
    Flatten5(c2, d2.strkey, U64Be(a2), U64Be(t2), U64Be(k2));
    var f := Flatten(DonationIdInputs(c1, d1, a1, t1, k1));
    var n := |d1.strkey|;
    assert |d2.strkey| == n;
    assert c1 == f[..32] == c2;
    assert d1.strkey == f[32..32 + n] == d2.strkey;
    assert U64Be(a1) == f[32 + n..40 + n] == U64Be(a2);
    assert U64Be(t1) == f[40 + n..48 + n] == U64Be(t2);
    assert U64Be(k1) == f[48 + n..] == U64Be(k2);
    U64BeRoundTrip(a1); U64BeRoundTrip(a2);
    U64BeRoundTrip(t1); U64BeRoundTrip(t2);
    U64BeRoundTrip(k1); U64BeRoundTrip(k2);
  }

  /** Campaign-id inputs are not delimited: the beneficiary's bytes and the
      title run together, so when address strings may differ in length,
      different (beneficiary, title) pairs can give the same hash input. */
  lemma CampaignInputsAmbiguous(goal: u64, now: u64, counter: u64)
    ensures Flatten(CampaignIdInputs(Address([1, 2]), [3], goal, now, counter))
         == Flatten(CampaignIdInputs(Address([1]), [2, 3], goal, now, counter))
  {
    Flatten5([1, 2], [3], U64Be(goal), U64Be(now), U64Be(counter));
    Flatten5([1], [2, 3], U64Be(goal), U64Be(now), U64Be(counter));
    assert [1, 2] + [3] == [1] + [2, 3];
  }

  /** When the two address strings have the same length (as Stellar's
      56-character strkeys do), the campaign-id input determines every
      field: the address is a prefix of known length, and the title is
      what lies between it and the three eight-byte numbers. */
  lemma CampaignInputsInjectiveForEqualKeyLengths(
    b1: Address, t1: Text, g1: u64, n1: u64, k1: u64,
    b2: Address, t2: Text, g2: u64, n2: u64, k2: u64)
    requires |b1.strkey| == |b2.strkey|
    requires Flatten(CampaignIdInputs(b1, t1, g1, n1, k1)) == Flatten(CampaignIdInputs(b2, t2, g2, n2, k2))
    ensures b1 == b2 && t1 == t2 && g1 == g2 && n1 == n2 && k1 == k2
  {
    Flatten5(b1.strkey, t1, U64Be(g1), U64Be(n1), U64Be(k1));
    Flatten5(b2.strkey, t2, U64Be(g2), U64Be(n2), U64Be(k2));
    var f := Flatten(CampaignIdInputs(b1, t1, g1, n1, k1));
    var a := |b1.strkey|;
    var m := |t1|;
    assert |t2| == m;
    assert b1.strkey == f[..a] == b2.strkey;
    assert t1 == f[a..a + m] == t2;
    assert U64Be(g1) == f[a + m..a + m + 8] == U64Be(g2);
    assert U64Be(n1) == f[a + m + 8..a + m + 16] == U64Be(n2);
    assert U64Be(k1) == f[a + m + 16..] == U64Be(k2);
    U64BeRoundTrip(g1); U64BeRoundTrip(g2);
    U64BeRoundTrip(n1); U64BeRoundTrip(n2);
    U64BeRoundTrip(k1); U64BeRoundTrip(k2);
  }
}
