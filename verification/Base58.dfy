/** Bitcoin-alphabet base58, as used for Jito bundle payloads (src/crypto/onchain.py). */
module Base58 {
  import opened Positional

  type Byte = x: int | 0 <= x < 256

  /** Digits and letters without 0, I, O and l: six runs of consecutive characters. */
  const ALPHABET: string :=
    "123456789" + "ABCDEFGH" + "JKLMN" + "PQRSTUVWXYZ" + "abcdefghijk" + "mnopqrstuvwxyz"

  /** Position of a character in the alphabet, or -1. */
  function IndexOf(c: char): (i: int)
    ensures -1 <= i < 58
  {
    if '1' <= c <= '9' then c as int - '1' as int
    else if 'A' <= c <= 'H' then c as int - 'A' as int + 9
    else if 'J' <= c <= 'N' then c as int - 'J' as int + 17
    else if 'P' <= c <= 'Z' then c as int - 'P' as int + 22
    else if 'a' <= c <= 'k' then c as int - 'a' as int + 33
    else if 'm' <= c <= 'z' then c as int - 'm' as int + 44
    else -1
  }

  function CharAt(i: nat): char
    requires i < 58
  {
    if i < 9 then '1' + i as char
    else if i < 17 then 'A' + (i - 9) as char
    else if i < 22 then 'J' + (i - 17) as char
    else if i < 33 then 'P' + (i - 22) as char
    else if i < 44 then 'a' + (i - 33) as char
    else 'm' + (i - 44) as char
  }

  lemma AlphabetByRuns()
    ensures ALPHABET == seq(58, i requires 0 <= i < 58 => CharAt(i))
  {
  }

  lemma IndexOfCharAt(i: int, c: char)
    ensures 0 <= i < 58 ==> IndexOf(CharAt(i)) == i
    ensures IndexOf(c) >= 0 ==> CharAt(IndexOf(c)) == c
  {
  }

  /** The alphabet lists 58 different characters and `IndexOf` finds exactly those. */
  lemma IndexOfAlphabet(c: char)
    ensures |ALPHABET| == 58
    ensures forall i :: 0 <= i < 58 ==> IndexOf(ALPHABET[i]) == i
    ensures IndexOf(c) >= 0 ==> ALPHABET[IndexOf(c)] == c
  {
    var runs := seq(58, i requires 0 <= i < 58 => CharAt(i));
    assert ALPHABET == runs by { AlphabetByRuns(); }
    IndexOfCharAt(0, c);
    forall i | 0 <= i < 58 ensures IndexOf(ALPHABET[i]) == i {
      IndexOfCharAt(i, c);
      assert runs[i] == CharAt(i);
    }
  }

  predicate IsBase58(s: string) {
    forall i :: 0 <= i < |s| ==> IndexOf(s[i]) >= 0
  }

  function Symbols(ds: seq<int>): (s: string)
    requires InBase(ds, 58)
    ensures |s| == |ds|
  {
    seq(|ds|, i requires 0 <= i < |ds| => ALPHABET[ds[i]])
  }

  function Indices(s: string): (ds: seq<int>)
    ensures |ds| == |s|
  {
    seq(|s|, i requires 0 <= i < |s| => IndexOf(s[i]))
  }

  function Encode(data: seq<Byte>): string {
    Symbols(Recode(data, 256, 58))
  }

  /** The decoder of draft-msporny-base58-03, section 4. */
  function Decode(s: string): (data: seq<int>)
    requires IsBase58(s)
    ensures InBase(data, 256)
  {
    Recode(Indices(s), 58, 256)
  }

  lemma SymbolsIndices(ds: seq<int>)
    requires InBase(ds, 58)
    ensures IsBase58(Symbols(ds)) && Indices(Symbols(ds)) == ds
  {
    IndexOfAlphabet('1');
  }

  lemma IndicesSymbols(s: string)
    requires IsBase58(s)
    ensures InBase(Indices(s), 58) && Symbols(Indices(s)) == s
  {
    forall i | 0 <= i < |s| ensures ALPHABET[IndexOf(s[i])] == s[i] {
      IndexOfAlphabet(s[i]);
    }
  }

  /** Every byte string survives encoding and decoding. */
  lemma DecodeEncode(data: seq<Byte>)
    ensures IsBase58(Encode(data)) && Decode(Encode(data)) == data
  {
    SymbolsIndices(Recode(data, 256, 58));
    RecodeRoundTrip(data, 256, 58);
  }

  /** Every base58 string is the encoding of what it decodes to: the code is a bijection. */
  lemma EncodeDecode(s: string)
    requires IsBase58(s)
    ensures Encode(Decode(s)) == s
  {
    IndicesSymbols(s);
    RecodeRoundTrip(Indices(s), 58, 256);
  }

  lemma EncodeInjective(a: seq<Byte>, b: seq<Byte>)
    requires Encode(a) == Encode(b)
    ensures a == b
  {
    DecodeEncode(a);
    DecodeEncode(b);
  }

  /** Leading '1' characters stand for leading zero bytes, one for one. */
  lemma LeadingOnes(data: seq<Byte>)
    ensures var k, s := LeadingZeros(data), Encode(data);
            && k <= |s|
            && (forall i :: 0 <= i < k ==> s[i] == '1')
            && (k < |s| ==> s[k] != '1')
  {
    IndexOfAlphabet('1');
    ValueNonNegative(data, 256);
    var ds := Digits(Value(data, 256), 58);
    var k := LeadingZeros(data);
    assert Encode(data)[k..] == Symbols(ds);
    if ds != [] {
      assert Encode(data)[k] == ALPHABET[ds[0]];
    }
  }

  // -- the encoder as the source runs it ----------------------------------------------

  function Reversed(s: string): (r: string)
    ensures |r| == |s|
  {
    seq(|s|, i requires 0 <= i < |s| => s[|s| - 1 - i])
  }

  /** Count leading zeros, then peel base-58 digits off the low end and reverse them. */
  method B58Encode(data: seq<Byte>) returns (text: string)
    ensures text == Encode(data)
  {
    var zeros := 0;
    while zeros < |data| && data[zeros] == 0
      invariant zeros <= LeadingZeros(data)
      invariant forall i :: 0 <= i < zeros ==> data[i] == 0
    {
      LeadingZerosReach(data, zeros);
      zeros := zeros + 1;
    }
    LeadingZerosEnd(data, zeros);

    ValueNonNegative(data, 256);
    var number := Value(data, 256);
    ghost var all := Digits(number, 58);
    var chars: string := [];
    while number > 0
      invariant number >= 0
      invariant DigitsDone(all, number, chars)
    {
      DigitRound(all, number, chars);
      IndexOfAlphabet('1');
      var remainder := number % 58;
      number := number / 58;
      chars := chars + [ALPHABET[remainder]];
    }
    text := Symbols(Zeros(zeros)) + Reversed(chars);
    Joined(data, all, chars);
  }

  /** The digits still to come are a prefix of `all`, and `chars` spells the rest backwards. */
  ghost predicate DigitsDone(all: seq<int>, number: nat, chars: string) {
    && InBase(all, 58) && |chars| <= |all|
    && Digits(number, 58) == all[..|all| - |chars|]
    && Reversed(chars) == Symbols(all[|all| - |chars|..])
  }

  lemma DigitRound(all: seq<int>, number: nat, chars: string)
    requires number > 0 && DigitsDone(all, number, chars)
    ensures |ALPHABET| == 58
    ensures number / 58 >= 0 && DigitsDone(all, number / 58, chars + [ALPHABET[number % 58]])
  {
    IndexOfAlphabet('1');
    Shrinks(number, 58);
    var left := all[..|all| - |chars|];
    assert left == Digits(number / 58, 58) + [number % 58];
    PrependDigit(all, chars, number % 58);
    assert left[..|left| - 1] == all[..|all| - |chars| - 1];
  }

  lemma Joined(data: seq<Byte>, all: seq<int>, chars: string)
    requires Value(data, 256) >= 0 && all == Digits(Value(data, 256), 58) && DigitsDone(all, 0, chars)
    ensures Symbols(Zeros(LeadingZeros(data))) + Reversed(chars) == Encode(data)
  {
    assert |chars| == |all| && all[|all| - |chars|..] == all;
    assert Symbols(Zeros(LeadingZeros(data))) + Symbols(all) == Symbols(Zeros(LeadingZeros(data)) + all);
  }

  lemma LeadingZerosReach(data: seq<int>, z: nat)
    requires z < |data| && data[z] == 0 && forall i :: 0 <= i < z ==> data[i] == 0
    ensures z < LeadingZeros(data)
  {
    var k := LeadingZeros(data);
    assert k == |data| || data[k] != 0;
  }

  lemma LeadingZerosEnd(data: seq<int>, z: nat)
    requires z <= LeadingZeros(data) && (z == |data| || data[z] != 0)
    ensures z == LeadingZeros(data)
  {
    var k := LeadingZeros(data);
    assert forall i :: 0 <= i < k ==> data[i] == data[..k][i];
  }

  /** One round of the digit loop: the new character is the digit in front of those already written. */
  lemma PrependDigit(all: seq<int>, chars: string, digit: int)
    requires InBase(all, 58) && |chars| < |all|
    requires all[..|all| - |chars|] != [] && digit == all[|all| - |chars| - 1]
    requires Reversed(chars) == Symbols(all[|all| - |chars|..])
    ensures Reversed(chars + [ALPHABET[digit]]) == Symbols(all[|all| - |chars| - 1..])
  {
    var c := chars + [ALPHABET[digit]];
    var ds := all[|all| - |chars|..];
    assert all[|all| - |c|..] == [digit] + ds;
    forall i | 0 <= i < |c| ensures Reversed(c)[i] == Symbols(all[|all| - |c|..])[i] {
      if i > 0 {
        assert Reversed(chars)[i - 1] == Symbols(ds)[i - 1];
      }
    }
  }
}
