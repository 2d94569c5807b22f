/** Machine-level vocabulary shared by the Savia model: optional values,
    bytes, the unsigned integer widths of the contract's fields, and the
    big-endian byte encoding (`u64::to_be_bytes`) that feeds identifier
    derivation. */
module Base {

  /** Rust's `Option`. */
  datatype Option<+T> = None | Some(value: T) {
    /** `unwrap_or` */
    function GetOr(default: T): T {
      match this
      case Some(v) => v
      case None => default
    }
  }

  const U32_LIMIT: nat := 0x1_0000_0000
  const U64_LIMIT: nat := 0x1_0000_0000_0000_0000

  type byte = x: int | 0 <= x < 256
  type u32 = x: int | 0 <= x < U32_LIMIT
  type u64 = x: int | 0 <= x < U64_LIMIT

  function Min(a: int, b: int): (r: int)
    ensures r <= a && r <= b
    ensures r == a || r == b
  {
    if a <= b then a else b
  }

  /** 256 to the power `width`: the number of values `width` bytes can hold. */
  function Pow256(width: nat): (r: nat)
    ensures r >= 1
  {
    if width == 0 then 1 else 256 * Pow256(width - 1)
  }

  /** The `width` low-order bytes of `n`, most significant first. */
  function BeBytes(n: nat, width: nat): (r: seq<byte>)
    ensures |r| == width
  {
    if width == 0 then [] else BeBytes(n / 256, width - 1) + [n % 256]
  }

  /** `u64::to_be_bytes`: eight bytes, most significant first. */
  function U64Be(n: u64): (r: seq<byte>)
    ensures |r| == 8
  {
    BeBytes(n, 8)
  }

  /** Reads a big-endian byte string back as a number. */
  function FromBe(b: seq<byte>): nat
  {
    if b == [] then 0 else FromBe(b[..|b| - 1]) * 256 + b[|b| - 1]
  }

  lemma {:induction false} BeBytesRoundTrip(n: nat, width: nat)
    requires n < Pow256(width)
    ensures FromBe(BeBytes(n, width)) == n
  {
    if width > 0 {
      var b := BeBytes(n, width);
      assert b[..|b| - 1] == BeBytes(n / 256, width - 1);
      BeBytesRoundTrip(n / 256, width - 1);
    }
  }

  /** A big-endian string of `|b|` bytes holds a number below `256^|b|`. */
  lemma {:induction false} FromBeBelow(b: seq<byte>)
    ensures FromBe(b) < Pow256(|b|)
  {
    if b != [] {
      var init := b[..|b| - 1];
      FromBeBelow(init);
      assert FromBe(init) * 256 <= (Pow256(|init|) - 1) * 256;
    }
  }

  lemma {:induction false} Pow256Monotone(a: nat, b: nat)
    requires a <= b
    ensures Pow256(a) <= Pow256(b)
  {
    if a < b {
      Pow256Monotone(a, b - 1);
    }
  }

  /** Decoding the eight bytes of `to_be_bytes` gives the number back, so the
      encoding is injective. */
  lemma U64BeRoundTrip(n: u64)
    ensures FromBe(U64Be(n)) == n
  {
    assert Pow256(8) == U64_LIMIT;
    BeBytesRoundTrip(n, 8);
  }

  /** Concatenation of a list of byte strings, in order (the loop of
      `generate_id` that appends every input to one buffer). */
  function Flatten(parts: seq<seq<byte>>): (r: seq<byte>)
  {
    if parts == [] then [] else Flatten(parts[..|parts| - 1]) + parts[|parts| - 1]
  }

  lemma FlattenSnoc(parts: seq<seq<byte>>, last: seq<byte>)
    ensures Flatten(parts + [last]) == Flatten(parts) + last
  {
    assert (parts + [last])[..|parts|] == parts;
  }
}
