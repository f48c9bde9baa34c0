/** Where everything stands in the bytes that are hashed for a signature. */
module PreimageLayout {
  import opened Base
  import opened Codec
  import opened MessagePack
  import opened PreimageTheorems

  /** Eight bytes, the first the most significant. */
  function Uint64(b: Bytes): int
    requires |b| == 8
  {
    0x1_0000_0000 * (0x100_0000 * b[0] + 0x1_0000 * b[1] + 0x100 * b[2] + b[3])
    + (0x100_0000 * b[4] + 0x1_0000 * b[5] + 0x100 * b[6] + b[7])
  }

  lemma Four(b: Bytes)
    requires |b| == 4
    ensures FromBigEndian(b) == 0x100_0000 * b[0] + 0x1_0000 * b[1] + 0x100 * b[2] + b[3]
  {
    assert b[..3][..2] == b[..2] && b[..2][..1] == b[..1] && b[..1][..0] == [];
    assert FromBigEndian(b[..1]) == b[0];
    assert FromBigEndian(b[..2]) == 0x100 * b[0] + b[1];
    assert FromBigEndian(b[..3]) == 0x1_0000 * b[0] + 0x100 * b[1] + b[2];
  }

  lemma Eight(b: Bytes)
    requires |b| == 8
    ensures FromBigEndian(b) == Uint64(b)
  {
    Four(b[..4]);
    assert b[..5][..4] == b[..4] && b[..6][..5] == b[..5] && b[..7][..6] == b[..6];
    assert FromBigEndian(b[..5]) == 0x100 * FromBigEndian(b[..4]) + b[4];
    assert FromBigEndian(b[..6]) == 0x1_0000 * FromBigEndian(b[..4]) + 0x100 * b[4] + b[5];
    assert FromBigEndian(b[..7]) == 0x100_0000 * FromBigEndian(b[..4]) + 0x1_0000 * b[4] + 0x100 * b[5] + b[6];
  }

  lemma Uint64Read(n: nat)
    requires n <= MAX_SAFE
    ensures Uint64(BigEndian(n, 8)) == n
  {
    Powers();
    BigEndianRead(n, 8);
    Eight(BigEndian(n, 8));
  }

  const HEX_DIGITS := "0123456789abcdef"

  /** A hexadecimal digit stands for its place among the sixteen, in either letter case. */
  lemma HexValueIs(c: char)
    requires HexChar(c)
    ensures 0 <= HexValue(c) < 16 && HEX_DIGITS[HexValue(c)] == LowerChar(c)
  {
  }

  /** Which inputs are hashed. */
  lemma AcceptedExactly(input: Input)
    ensures Accepted(input) <==>
      && 0 <= input.nonce <= 9_007_199_254_740_991
      && Canonicalize(input.action).Some? && Encodable(Canonicalize(input.action).value)
      && (input.vault.Some? ==>
            && |input.vault.value| == 42 && input.vault.value[0] == '0' && input.vault.value[1] == 'x'
            && forall i :: 2 <= i < 42 ==> HexChar(input.vault.value[i]))
      && (input.expiresAfter.Some? ==>
            input.nonce < input.expiresAfter.value <= input.nonce + 15_000 && input.expiresAfter.value <= 9_007_199_254_740_991)
  {
  }

  /** Address byte `i` is made of digits `2i` and `2i + 1` behind `0x`. */
  predicate IsAddress(b: Bytes, s: string) {
    && |b| == 20 && |s| == 42
    && forall i :: 0 <= i < 20 ==> b[i] == 16 * HexValue(s[2 + 2 * i]) + HexValue(s[3 + 2 * i])
  }

  lemma VaultLaidOut(vault: Option<string>)
    requires vault.Some? ==> HexText(vault.value, 40)
    ensures var b := VaultBytes(vault);
      if vault.None? then b == [0] else |b| == 21 && b[0] == 1 && IsAddress(b[1..], vault.value)
  {
    if vault.Some? { assert VaultBytes(vault)[1..] == AddressBytes(vault.value); }
  }

  lemma ExpiryLaidOut(expiry: Option<int>)
    requires expiry.Some? ==> Safe(expiry.value)
    ensures var b := ExpiryBytes(expiry);
      if expiry.None? then b == [] else |b| == 9 && b[0] == 0 && Uint64(b[1..]) == expiry.value
  {
    if expiry.Some? {
      assert ExpiryBytes(expiry)[1..] == BigEndian(expiry.value, 8);
      Uint64Read(expiry.value);
    }
  }

  lemma Split(a: Bytes, b: Bytes, c: Bytes, d: Bytes)
    ensures var p, n, m := a + (b + (c + d)), |a| + |b|, |a| + |b| + |c|;
      && |p| == m + |d| && p[..|a|] == a && p[|a|..n] == b && p[n..m] == c && p[m..] == d
  {
  }

  /** The action, the nonce in eight bytes, 0 or 1 and the vault, and behind a 0 the expiry in eight bytes. */
  datatype Parts = Parts(action: Bytes, nonce: Bytes, vault: Bytes, expiry: Bytes)

  /** The preimage is these four parts, one after the other. */
  lemma PreimageLaidOut(input: Input) returns (parts: Parts)
    requires Accepted(input)
    ensures var p := Preimage(input);
      var n := |parts.action|;
      var m := n + 8 + |parts.vault|;
      && n + 8 <= m <= |p|
      && parts.action == p[..n] == Encode(Canonicalize(input.action).value)
      && parts.nonce == p[n..n + 8] && parts.vault == p[n + 8..m] && parts.expiry == p[m..]
    ensures |parts.nonce| == 8 && Uint64(parts.nonce) == input.nonce
    ensures if input.vault.None? then parts.vault == [0]
      else |parts.vault| == 21 && parts.vault[0] == 1 && IsAddress(parts.vault[1..], input.vault.value)
    ensures if input.expiresAfter.None? then parts.expiry == []
      else |parts.expiry| == 9 && parts.expiry[0] == 0 && Uint64(parts.expiry[1..]) == input.expiresAfter.value
  {
    parts := Parts(Encode(Canonicalize(input.action).value), BigEndian(input.nonce, 8), VaultBytes(input.vault), ExpiryBytes(input.expiresAfter));
    Split(parts.action, parts.nonce, parts.vault, parts.expiry);
    Uint64Read(input.nonce);
    VaultLaidOut(input.vault);
    ExpiryLaidOut(input.expiresAfter);
  }

  /** The property names as they are hashed. */
  lemma NamesAre()
    ensures NameOf(KType) == "type" && NameOf(KOrders) == "orders" && NameOf(KGrouping) == "grouping" && NameOf(KOid) == "oid"
    ensures NameOf(KOrder) == "order" && NameOf(KCancels) == "cancels" && NameOf(KAsset) == "asset" && NameOf(KCloid) == "cloid"
    ensures NameOf(KIsCross) == "isCross" && NameOf(KLeverage) == "leverage" && NameOf(KLimit) == "limit" && NameOf(KTif) == "tif"
    ensures NameOf(KTrigger) == "trigger" && NameOf(KIsMarket) == "isMarket" && NameOf(KTriggerPx) == "triggerPx" && NameOf(KTpsl) == "tpsl"
    ensures NameOf(KA) == "a" && NameOf(KB) == "b" && NameOf(KP) == "p" && NameOf(KS) == "s"
    ensures NameOf(KR) == "r" && NameOf(KT) == "t" && NameOf(KC) == "c" && NameOf(KO) == "o"
  {
  }
}
