/** Calldata of the ERC-20 transfer(address,uint256) call (internal/stablecoin/abi.go), as laid out by the
    Solidity Contract ABI Specification, section "Formal Specification of the Encoding". */
module Calldata {
  import opened Wrappers
  import opened Numerals

  datatype EncodeError = RecipientRequired | AmountNotPositive | InvalidAddress | AmountTooLarge

  /** The first four bytes of keccak256("transfer(address,uint256)"). */
  const SELECTOR := "a9059cbb"

  const UINT256_LIMIT: nat := 0x1_0000000000000000_0000000000000000_0000000000000000_0000000000000000

  // ---- Text helpers ----

  function Lower(s: string): (r: string)
    ensures |r| == |s|
  {
    seq(|s|, i requires 0 <= i < |s| => if 'A' <= s[i] <= 'Z' then s[i] - 'A' + 'a' else s[i])
  }

  function TrimHexPrefix(s: string): string {
    if |s| >= 2 && s[0] == '0' && s[1] == 'x' then s[2..] else s
  }

  /** The hex digits of an address: lowercased, without the 0x prefix. */
  function Normalised(to: string): string {
    TrimHexPrefix(Lower(to))
  }

  function ZeroChars(k: nat): (z: string)
    ensures |z| == k
  {
    seq(k, _ => '0')
  }

  predicate IsHexDigit(c: char) {
    '0' <= c <= '9' || 'a' <= c <= 'f'
  }

  predicate IsHex(s: string) {
    forall i :: 0 <= i < |s| ==> IsHexDigit(s[i])
  }

  function HexChar(d: nat): (c: char)
    requires d < 16
    ensures IsHexDigit(c) && HexDigitValue(c) == d
  {
    if d < 10 then '0' + d as char else 'a' + (d - 10) as char
  }

  function HexDigitValue(c: char): (d: nat)
    requires IsHexDigit(c)
    ensures d < 16
  {
    if c <= '9' then (c - '0') as nat else (c - 'a') as nat + 10
  }

  function HexNums(s: string): (ds: seq<nat>)
    requires IsHex(s)
    ensures |ds| == |s|
  {
    seq(|s|, i requires 0 <= i < |s| => HexDigitValue(s[i]))
  }

  /** hex.EncodeToString. */
  function HexOf(bytes: seq<nat>): (s: string)
    requires InBase(256, bytes)
    ensures |s| == 2 * |bytes| && IsHex(s)
  {
    if bytes == [] then ""
    else
      var n := |bytes| - 1;
      HexOf(bytes[..n]) + [HexChar(bytes[n] / 16), HexChar(bytes[n] % 16)]
  }

  // ---- The encoder ----

  function EncodeERC20Transfer(to: string, amount: int): Result<string, EncodeError> {
    if to == "" then Err(RecipientRequired)
    else if amount <= 0 then Err(AmountNotPositive)
    else
      var addrHex := Normalised(to);
      if |addrHex| != 40 then Err(InvalidAddress)
      else
        DigitsCorrect(256, amount);
        var amountBytes := Digits(256, amount);
        if |amountBytes| > 32 then Err(AmountTooLarge)
        else
          Ok("0x" + SELECTOR + (ZeroChars(24) + addrHex)
             + (ZeroChars((32 - |amountBytes|) * 2) + HexOf(amountBytes)))
  }

  // ---- An independent decoder ----

  datatype Transfer = Transfer(to: string, amount: nat)

  /** Reads calldata the way the ABI lays it out: a 4-byte selector, then two 32-byte words, the first
      holding an address in its low 20 bytes, the second a big-endian integer. */
  function Decoded(calldata: string): Option<Transfer> {
    if |calldata| == 138 && calldata[..2] == "0x" && IsHex(calldata[2..])
       && calldata[2..10] == SELECTOR && calldata[10..34] == ZeroChars(24)
    then
      Some(Transfer(calldata[34..74], Value(16, HexNums(calldata[74..]))))
    else None
  }

  // ---- Their agreement ----

  lemma Uint256Limit()
    ensures Pow(256, 32) == UINT256_LIMIT
  {
    assert Pow(256, 4) == 0x1_0000_0000 by {
      assert Pow(256, 1) == 256 && Pow(256, 2) == 256 * Pow(256, 1) && Pow(256, 3) == 256 * Pow(256, 2);
    }
    PowAdd(256, 4, 4);
    PowAdd(256, 8, 8);
    PowAdd(256, 16, 16);
  }

  lemma {:induction false} HexValue(bytes: seq<nat>)
    requires InBase(256, bytes)
    ensures Value(16, HexNums(HexOf(bytes))) == Value(256, bytes)
    decreases |bytes|
  {
    if bytes != [] {
      var n := |bytes| - 1;
      var front, hi, lo := HexNums(HexOf(bytes[..n])), bytes[n] / 16, bytes[n] % 16;
      HexValue(bytes[..n]);
      assert HexNums(HexOf(bytes)) == (front + [hi]) + [lo];
      ValueSnoc(16, front + [hi], lo);
      ValueSnoc(16, front, hi);
    } else {
      assert HexNums("") == [];
    }
  }

  lemma PaddedHexValue(k: nat, bytes: seq<nat>)
    requires InBase(256, bytes)
    ensures var text := ZeroChars(k) + HexOf(bytes);
      IsHex(text) && Value(16, HexNums(text)) == Value(256, bytes)
  {
    var text := ZeroChars(k) + HexOf(bytes);
    assert HexNums(text) == Zeros(k) + HexNums(HexOf(bytes));
    ValuePadded(16, k, HexNums(HexOf(bytes)));
    HexValue(bytes);
  }

  /** The encoder succeeds exactly on a recipient whose normalised form has 40 characters and an amount from
      1 to 2^256 - 1, and its errors come in the order of its checks. */
  lemma EncodeSucceedsIff(to: string, amount: int)
    ensures EncodeERC20Transfer(to, amount).Ok? <==> |Normalised(to)| == 40 && 0 < amount < UINT256_LIMIT
    ensures EncodeERC20Transfer(to, amount) == Err(AmountTooLarge) <==> |Normalised(to)| == 40 && amount >= UINT256_LIMIT
  {
    if amount > 0 {
      DigitsLength(256, amount, 32);
      Uint256Limit();
    }
  }

  lemma EncodeErrorsIff(to: string, amount: int)
    ensures EncodeERC20Transfer(to, amount) == Err(RecipientRequired) <==> to == ""
    ensures EncodeERC20Transfer(to, amount) == Err(AmountNotPositive) <==> to != "" && amount <= 0
    ensures EncodeERC20Transfer(to, amount) == Err(InvalidAddress) <==> to != "" && amount > 0 && |Normalised(to)| != 40
  {
  }

  /** Encoding then decoding gives the lowercased address and the amount, and the calldata is 68 bytes. */
  lemma CalldataRoundTrip(to: string, amount: int)
    requires |Normalised(to)| == 40 && IsHex(Normalised(to)) && 0 < amount < UINT256_LIMIT
    ensures EncodeERC20Transfer(to, amount).Ok?
    ensures var calldata := EncodeERC20Transfer(to, amount).value;
      |calldata| == 2 + 2 * 68 && calldata[..10] == "0xa9059cbb" && Decoded(calldata) == Some(Transfer(Normalised(to), amount))
  {
    EncodeSucceedsIff(to, amount);
    DigitsCorrect(256, amount);
    DigitsLength(256, amount, 32);
    var bytes := Digits(256, amount);
    var k := (32 - |bytes|) * 2;
    PaddedHexValue(k, bytes);
    Layout(Normalised(to), ZeroChars(k) + HexOf(bytes));
  }

  /** Where the parts of the calldata lie. */
  lemma Layout(addr: string, word: string)
    requires |addr| == 40 && IsHex(addr) && |word| == 64 && IsHex(word)
    ensures var c := "0x" + SELECTOR + (ZeroChars(24) + addr) + word;
      && |c| == 138 && c[..2] == "0x" && c[2..10] == SELECTOR && c[10..34] == ZeroChars(24)
      && c[34..74] == addr && c[74..] == word && IsHex(c[2..])
  {
    var c := "0x" + SELECTOR + (ZeroChars(24) + addr) + word;
    assert c[2..] == SELECTOR + (ZeroChars(24) + addr) + word;
  }

  /** Different recipients or amounts give different calldata, up to letter case and the 0x prefix. */
  lemma CalldataInjective(to1: string, amount1: int, to2: string, amount2: int)
    requires |Normalised(to1)| == 40 && IsHex(Normalised(to1)) && 0 < amount1 < UINT256_LIMIT
    requires |Normalised(to2)| == 40 && IsHex(Normalised(to2)) && 0 < amount2 < UINT256_LIMIT
    ensures EncodeERC20Transfer(to1, amount1) == EncodeERC20Transfer(to2, amount2)
       <==> Normalised(to1) == Normalised(to2) && amount1 == amount2
  {
    CalldataRoundTrip(to1, amount1);
    CalldataRoundTrip(to2, amount2);
  }
}
