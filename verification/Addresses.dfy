/** Address derivation and validation, and the two module accounts. */
module Addresses {
  import opened Types

  const ESCROW: Address := "aios1escrow000000000000000000000000000000"
  const TREASURY: Address := "aios1treasury00000000000000000000000000000"
  const PREFIX: string := "aios1"

  const HEX_DIGITS: string := "0123456789abcdef"

  /** Value of a hex digit in either case, as hex.DecodeString reads it; none for other characters. */
  function Nibble(c: char): Option<Byte> {
    if '0' <= c <= '9' then Some(c as int - '0' as int)
    else if 'a' <= c <= 'f' then Some(c as int - 'a' as int + 10)
    else if 'A' <= c <= 'F' then Some(c as int - 'A' as int + 10)
    else None
  }

  function HexEncode(bs: seq<Byte>): string {
    if bs == [] then "" else [HEX_DIGITS[bs[0] / 16], HEX_DIGITS[bs[0] % 16]] + HexEncode(bs[1..])
  }

  /** Decodes a hex string; none when its length is odd or a character is not a digit. */
  function HexDecode(s: string): Option<seq<Byte>> {
    if s == "" then Some([])
    else if |s| == 1 || Nibble(s[0]).None? || Nibble(s[1]).None? then None
    else
      var hi, lo := Nibble(s[0]).value, Nibble(s[1]).value;
      if hi >= 16 || lo >= 16 then None
      else
        match HexDecode(s[2..])
        case None => None
        case Some(rest) => Some([hi * 16 + lo] + rest)
  }

  function AddressOf(d: Digest): Address {
    PREFIX + HexEncode(d)
  }

  predicate IsValidAddress(s: string) {
    && PREFIX <= s
    && |s[|PREFIX|..]| == 40
    && HexDecode(s[|PREFIX|..]).Some?
  }

  /** An account that is neither of the chain's own two. */
  predicate IsUser(a: Address) {
    a != ESCROW && a != TREASURY
  }

  lemma {:induction false} HexRoundTrip(bs: seq<Byte>)
    ensures |HexEncode(bs)| == 2 * |bs|
    ensures HexDecode(HexEncode(bs)) == Some(bs)
  {
    if bs != [] {
      HexRoundTrip(bs[1..]);
      var s := HexEncode(bs);
      NibbleOfDigit(bs[0] / 16);
      NibbleOfDigit(bs[0] % 16);
      assert s[2..] == HexEncode(bs[1..]);
      assert [bs[0]] + bs[1..] == bs;
    }
  }

  lemma NibbleOfDigit(n: Byte)
    requires n < 16
    ensures Nibble(HEX_DIGITS[n]) == Some(n)
  {
  }

  lemma {:induction false} HexDecodeIff(s: string)
    ensures HexDecode(s).Some? <==> |s| % 2 == 0 && forall c :: c in s ==> Nibble(c).Some?
    ensures HexDecode(s).Some? ==> |s| == 2 * |HexDecode(s).value|
  {
    if |s| >= 2 {
      HexDecodeIff(s[2..]);
      assert s == [s[0], s[1]] + s[2..];
    }
  }

  /** The valid addresses are the prefix followed by forty hex digits, that is, twenty bytes. */
  lemma ValidAddressIff(s: string)
    ensures IsValidAddress(s)
       <==> |s| == 45 && s[..5] == "aios1" && forall c :: c in s[5..] ==> Nibble(c).Some?
    ensures IsValidAddress(s) ==> |HexDecode(s[5..]).value| == 20
  {
    if |s| >= 5 {
      HexDecodeIff(s[5..]);
      assert PREFIX <= s <==> s[..5] == PREFIX;
    }
  }

  /** A derived address is valid, determines its digest, and is never a module account: the module
      accounts are not valid addresses, so no key can sign for them. */
  lemma DerivedAddress(d: Digest)
    ensures IsValidAddress(AddressOf(d))
    ensures HexDecode(AddressOf(d)[5..]) == Some(d)
    ensures IsUser(AddressOf(d))
  {
    HexRoundTrip(d);
    assert AddressOf(d)[|PREFIX|..] == HexEncode(d);
    ModuleAddressesAreNotValid();
  }

  lemma ModuleAddressesAreNotValid()
    ensures !IsValidAddress(ESCROW) && !IsValidAddress(TREASURY) && ESCROW != TREASURY
  {
    assert |ESCROW| == 41 && |TREASURY| == 42;
  }
}
