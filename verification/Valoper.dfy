/** utils/address.go and utils/validate.go: validator operator addresses and their prefixes. */
module Valoper {
  import opened GoRuntime
  import opened Text

  const VALOPER := "valoper"
  const VALCONS := "valcons"

  /** The human-readable part of an operator address when it ends in "valoper": what comes
      before the last '1', which separates it from the data (BIP 173, section "Bech32"). */
  function ValoperHrp(address: string): Option<string> {
    var k := LastIndex(address, '1');
    if k <= 0 || !HasSuffix(address[..k], VALOPER) then None else Some(address[..k])
  }

  function GetValconsHrpFromValoperHrp(address: string): Option<string> {
    match ValoperHrp(address)
    case None => None
    case Some(hrp) => Some(hrp[..|hrp| - |VALOPER|] + VALCONS)
  }

  function GetAddrHrpFromValoperHrp(address: string): Option<string> {
    match ValoperHrp(address)
    case None => None
    case Some(hrp) => Some(hrp[..|hrp| - |VALOPER|])
  }

  /** The data alphabet of bech32. It has no '1'. */
  predicate Bech32Char(c: char) {
    (Digit(c) && c != '1') || ('a' <= c <= 'z' && c != 'b' && c != 'i' && c != 'o')
  }

  /** `address` is `account` + "valoper" + "1" + `data`. */
  ghost predicate SplitsAs(address: string, account: string, data: string) {
    && address == account + "valoper" + "1" + data
    && account != "" && (forall c | c in account :: LowerOrDigit(c))
    && |data| >= 38 && (forall c | c in data :: Bech32Char(c))
  }

  /** `IsValoperAddressFormat`, decided at the last '1'. */
  predicate IsValoperAddressFormat(address: string) {
    match GetAddrHrpFromValoperHrp(address)
    case None => false
    case Some(account) =>
      var data := address[LastIndex(address, '1') + 1..];
      && account != "" && (forall c | c in account :: LowerOrDigit(c))
      && |data| >= 38 && (forall c | c in data :: Bech32Char(c))
  }

  lemma {:induction false} LastSeparator(before: string, data: string)
    requires '1' !in data
    ensures LastIndex(before + "1" + data, '1') == |before|
  {
    var s := before + "1" + data;
    if data == "" {
      assert s[|before|] == '1';
    } else {
      var shorter := data[..|data| - 1];
      assert s[..|s| - 1] == before + "1" + shorter;
      LastSeparator(before, shorter);
    }
  }

  /** The split is read off the last '1', however often '1' occurs in the account prefix. */
  lemma SplitAtLastOne(address: string, account: string, data: string)
    requires SplitsAs(address, account, data)
    ensures LastIndex(address, '1') == |account| + |VALOPER|
    ensures ValoperHrp(address) == Some(account + VALOPER)
  {
    LastSeparator(account + VALOPER, data);
    assert address[..|account| + |VALOPER|] == account + VALOPER;
    assert (account + VALOPER)[|account|..] == VALOPER;
  }

  /** MAIN. An address that passes the format check splits in one way only, and both prefix
      functions succeed on it with the prefixes of that split. */
  lemma FormatFixesPrefixes(address: string, account: string, data: string)
    requires SplitsAs(address, account, data)
    ensures IsValoperAddressFormat(address)
    ensures GetAddrHrpFromValoperHrp(address) == Some(account)
    ensures GetValconsHrpFromValoperHrp(address) == Some(account + "valcons")
    ensures forall a, d :: SplitsAs(address, a, d) ==> a == account && d == data
  {
    SplitAtLastOne(address, account, data);
    assert (account + VALOPER)[..|account|] == account;
    assert address[|account| + |VALOPER| + 1..] == data;
    forall a, d | SplitsAs(address, a, d) ensures a == account && d == data {
      SplitAtLastOne(address, a, d);
      assert a == address[..|a|] && account == address[..|account|];
      assert d == address[|a| + |VALOPER| + 1..] && data == address[|account| + |VALOPER| + 1..];
    }
  }

  lemma Bech32Alphabet(c: char)
    ensures Bech32Char(c) <==> c in "qpzry9x8gf2tvdw0s3jn54khce6mua7l"
  {
  }

  lemma SplitsMeans(address: string, account: string, data: string)
    ensures SplitsAs(address, account, data)
       <==> && address == account + "valoper" + "1" + data
            && account != "" && (forall c | c in account :: 'a' <= c <= 'z' || '0' <= c <= '9')
            && |data| >= 38 && (forall c | c in data :: c in "qpzry9x8gf2tvdw0s3jn54khce6mua7l")
  {
    forall c ensures Bech32Char(c) <==> c in "qpzry9x8gf2tvdw0s3jn54khce6mua7l" {
      Bech32Alphabet(c);
    }
  }

  /** MAIN. The decision, taken at the last '1', is the regular expression
      `^[a-z\d]+valoper1[qpzry9x8gf2tvdw0s3jn54khce6mua7l]{38,}$`: some way to split the address exists. */
  lemma FormatIsRegexp(address: string)
    ensures IsValoperAddressFormat(address)
       <==> exists account, data ::
              && address == account + "valoper" + "1" + data
              && account != "" && (forall c | c in account :: 'a' <= c <= 'z' || '0' <= c <= '9')
              && |data| >= 38 && (forall c | c in data :: c in "qpzry9x8gf2tvdw0s3jn54khce6mua7l")
  {
    forall account, data {
      SplitsMeans(address, account, data);
    }
    FormatIsSplit(address);
    if account, data :| SplitsAs(address, account, data) {
      assert address == account + "valoper" + "1" + data;
    }
  }

  lemma FormatIsSplit(address: string)
    ensures IsValoperAddressFormat(address) <==> exists account, data :: SplitsAs(address, account, data)
  {
    if account, data :| SplitsAs(address, account, data) {
      FormatFixesPrefixes(address, account, data);
      SplitAtLastOne(address, account, data);
      assert address[LastIndex(address, '1') + 1..] == data;
    }
    if IsValoperAddressFormat(address) {
      var k := LastIndex(address, '1');
      var account := GetAddrHrpFromValoperHrp(address).value;
      assert address[..k] == account + VALOPER;
      assert address == address[..k] + "1" + address[k + 1..];
      assert SplitsAs(address, account, address[k + 1..]);
    }
  }

  /** The prefix functions accept more than the format check: exactly the addresses whose last
      '1' comes right after "valoper". */
  lemma PrefixSucceedsIff(address: string)
    ensures GetAddrHrpFromValoperHrp(address).Some?
       <==> exists before, data :: '1' !in data && address == before + "valoper" + "1" + data
    ensures GetAddrHrpFromValoperHrp(address).Some? <==> GetValconsHrpFromValoperHrp(address).Some?
  {
    if GetAddrHrpFromValoperHrp(address).Some? {
      var k := LastIndex(address, '1');
      var before, data := address[..k - |VALOPER|], address[k + 1..];
      assert address == before + VALOPER + "1" + data by {
        assert address[..k] == before + address[..k][k - |VALOPER|..];
      }
      assert '1' !in data;
    }
    if before, data :| '1' !in data && address == before + "valoper" + "1" + data {
      LastSeparator(before + VALOPER, data);
      assert address[..|before| + |VALOPER|] == before + VALOPER;
      assert (before + VALOPER)[|before|..] == VALOPER;
    }
  }
}
