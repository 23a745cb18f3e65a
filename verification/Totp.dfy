/**
 The base32 coder and the code window behind TOTP, after src/auth/mfa/totp.ts. Base32 is
 the unpadded encoding of section 6 of RFC 4648. The HMAC is a parameter.
 */
module Totp {

  type Bits = seq<bool>

  const BYTE: nat := 8
  const GROUP: nat := 5

  const ALPHABET: string := "ABCDEFGHIJKLMNOPQRSTUVWXYZ234567"

  // ---- Numbers as bits, most significant first ----

  function Pow2(width: nat): (p: nat)
    ensures p >= 1
  {
    if width == 0 then 1 else 2 * Pow2(width - 1)
  }

  function BitsOf(value: nat, width: nat): (bits: Bits)
    ensures |bits| == width
  {
    if width == 0 then [] else BitsOf(value / 2, width - 1) + [value % 2 == 1]
  }

  function ValueOf(bits: Bits): (value: nat)
    ensures value < Pow2(|bits|)
  {
    if bits == [] then 0
    else 2 * ValueOf(bits[..|bits| - 1]) + if bits[|bits| - 1] then 1 else 0
  }

  lemma {:induction false} ValueOfBitsOf(value: nat, width: nat)
    requires value < Pow2(width)
    ensures ValueOf(BitsOf(value, width)) == value
  {
    if width > 0 {
      ValueOfBitsOf(value / 2, width - 1);
      assert BitsOf(value, width)[..width - 1] == BitsOf(value / 2, width - 1);
    }
  }

  lemma {:induction false} BitsOfValueOf(bits: Bits)
    ensures BitsOf(ValueOf(bits), |bits|) == bits
  {
    if bits != [] {
      var init := bits[..|bits| - 1];
      BitsOfValueOf(init);
      assert ValueOf(bits) / 2 == ValueOf(init);
      assert bits == init + [bits[|bits| - 1]];
    }
  }

  // ---- Groups of bits ----

  ghost predicate Fit(items: seq<nat>, width: nat) {
    forall i :: 0 <= i < |items| ==> items[i] < Pow2(width)
  }

  /** All the bits of the items, each in `width` bits. */
  function Spread(items: seq<nat>, width: nat): Bits {
    if items == [] then [] else BitsOf(items[0], width) + Spread(items[1..], width)
  }

  /** The values of the whole groups of `width` bits; a shorter rest is dropped. */
  function Regroup(bits: Bits, width: nat): (items: seq<nat>)
    requires width > 0
    ensures forall i :: 0 <= i < |items| ==> items[i] < Pow2(width)
  {
    if |bits| < width then [] else [ValueOf(bits[..width])] + Regroup(bits[width..], width)
  }

  lemma RegroupCons(first: Bits, rest: Bits, width: nat)
    requires width > 0 && |first| == width
    ensures Regroup(first + rest, width) == [ValueOf(first)] + Regroup(rest, width)
  {
    assert (first + rest)[..width] == first && (first + rest)[width..] == rest;
  }

  lemma RegroupStep(bits: Bits, i: nat, width: nat)
    requires width > 0 && i + width <= |bits|
    ensures Regroup(bits[i..], width) == [ValueOf(bits[i..i + width])] + Regroup(bits[i + width..], width)
  {
    assert bits[i..] == bits[i..i + width] + bits[i + width..];
    RegroupCons(bits[i..i + width], bits[i + width..], width);
  }

  lemma {:induction false} RegroupAfterSpread(items: seq<nat>, rest: Bits, width: nat)
    requires width > 0 && Fit(items, width) && |rest| < width
    ensures Regroup(Spread(items, width) + rest, width) == items
  {
    if items == [] {
      assert Spread(items, width) + rest == rest;
    } else {
      var first, others := BitsOf(items[0], width), Spread(items[1..], width);
      assert Spread(items, width) + rest == first + (others + rest);
      RegroupCons(first, others + rest, width);
      ValueOfBitsOf(items[0], width);
      RegroupAfterSpread(items[1..], rest, width);
    }
  }

  /** Regrouping loses at most the bits of an unfinished group. */
  lemma {:induction false} SpreadAfterRegroup(bits: Bits, width: nat)
    requires width > 0
    ensures var kept := |Spread(Regroup(bits, width), width)|;
            && kept <= |bits| < kept + width
            && Spread(Regroup(bits, width), width) == bits[..kept]
  {
    if |bits| >= width {
      var first, rest := bits[..width], bits[width..];
      assert bits == first + rest;
      SpreadAfterRegroup(rest, width);
      BitsOfValueOf(first);
      RegroupCons(first, rest, width);
      SpreadCons(ValueOf(first), Regroup(rest, width), width);
    }
  }

  lemma SpreadCons(first: nat, items: seq<nat>, width: nat)
    ensures Spread([first] + items, width) == BitsOf(first, width) + Spread(items, width)
  {
    assert ([first] + items)[1..] == items;
  }

  lemma {:induction false} SpreadSnoc(items: seq<nat>, last: nat, width: nat)
    ensures Spread(items + [last], width) == Spread(items, width) + BitsOf(last, width)
  {
    if items == [] {
      SpreadCons(last, [], width);
      assert [] + [last] == [last] + [];
    } else {
      SpreadSnoc(items[1..], last, width);
      assert items + [last] == [items[0]] + (items[1..] + [last]);
      SpreadCons(items[0], items[1..] + [last], width);
    }
  }

  lemma {:induction false} SpreadLength(items: seq<nat>, width: nat)
    ensures |Spread(items, width)| == width * |items|
  {
    if items != [] {
      SpreadLength(items[1..], width);
      assert width * |items| == width + width * (|items| - 1);
    }
  }

  // ---- The alphabet ----

  predicate IsSymbol(c: char) {
    'A' <= c <= 'Z' || '2' <= c <= '7'
  }

  /** Position of a character in the alphabet, or -1. */
  function IndexOf(c: char): (i: int)
    ensures -1 <= i < 32
    ensures i >= 0 ==> ALPHABET[i] == c
    ensures i == -1 <==> !IsSymbol(c)
  {
    if 'A' <= c <= 'Z' then (c - 'A') as int
    else if '2' <= c <= '7' then 26 + (c - '2') as int
    else -1
  }

  /** The letters stand for 0 to 25 and the digits 2 to 7 for 26 to 31. */
  lemma IndexOfSymbol(i: nat)
    requires i < 32
    ensures IsSymbol(ALPHABET[i]) && IndexOf(ALPHABET[i]) == i
    ensures ALPHABET[i] as int == if i < 26 then 65 + i else 50 + (i - 26)
  {
  }

  predicate InAlphabet(s: string) {
    forall i :: 0 <= i < |s| ==> IsSymbol(s[i])
  }

  function Symbols(items: seq<nat>): (s: string)
    requires Fit(items, GROUP)
    ensures |s| == |items| && InAlphabet(s)
  {
    assert Pow2(GROUP) == 32;
    assert forall i :: 0 <= i < |items| ==> IsSymbol(ALPHABET[items[i]]);
    seq(|items|, i requires 0 <= i < |items| => ALPHABET[items[i]])
  }

  function Indexes(s: string): (items: seq<nat>)
    requires InAlphabet(s)
    ensures |items| == |s| && Fit(items, GROUP)
  {
    assert Pow2(GROUP) == 32;
    seq(|s|, i requires 0 <= i < |s| => IndexOf(s[i]))
  }

  // ---- Encoding and decoding ----

  function Encode(bytes: seq<nat>): (s: string)
    requires Fit(bytes, BYTE)
    ensures InAlphabet(s)
  {
    Symbols(Regroup(Spread(bytes, BYTE), GROUP))
  }

  datatype Decoded = Bytes(bytes: seq<nat>) | InvalidCharacter

  predicate IsSpace(c: char) {
    || '\U{0009}' <= c <= '\U{000D}' || c == ' ' || c == '\U{00A0}' || c == '\U{1680}'
    || '\U{2000}' <= c <= '\U{200A}' || c == '\U{2028}' || c == '\U{2029}' || c == '\U{202F}'
    || c == '\U{205F}' || c == '\U{3000}' || c == '\U{FEFF}'
  }

  /** Upper-casing, one character at a time; a character may become several. */
  function UpperAll(upper: char -> string, s: string): string {
    if s == [] then [] else upper(s[0]) + UpperAll(upper, s[1..])
  }

  /** Trailing '=' signs are padding. */
  function Unpadded(s: string): string {
    if s != [] && s[|s| - 1] == '=' then Unpadded(s[..|s| - 1]) else s
  }

  function Spaceless(s: string): string {
    if s == [] then [] else (if IsSpace(s[0]) then [] else [s[0]]) + Spaceless(s[1..])
  }

  function Clean(upper: char -> string, input: string): string {
    Spaceless(Unpadded(UpperAll(upper, input)))
  }

  function Decode(upper: char -> string, input: string): Decoded {
    var clean := Clean(upper, input);
    if InAlphabet(clean) then Bytes(Regroup(Spread(Indexes(clean), GROUP), BYTE)) else InvalidCharacter
  }

  /** A blank anywhere, and an equals sign at the end, make no difference. */
  lemma {:induction false} BlanksAndPaddingIgnored(a: string, b: string)
    ensures Spaceless(a + [' '] + b) == Spaceless(a + b)
    ensures Unpadded(a + ['=']) == Unpadded(a)
    decreases |a|
  {
    assert (a + ['='])[..|a|] == a;
    if a == [] {
      assert a + [' '] + b == [' '] + b && ([' '] + b)[1..] == b && a + b == b;
    } else {
      BlanksAndPaddingIgnored(a[1..], b);
      assert (a + [' '] + b)[1..] == a[1..] + [' '] + b && (a + b)[1..] == a[1..] + b;
    }
  }

  /** Upper-casing leaves the alphabet alone. */
  ghost predicate KeepsAlphabet(upper: char -> string) {
    forall c :: IsSymbol(c) ==> upper(c) == [c]
  }

  lemma {:induction false} UpperKeepsSymbols(upper: char -> string, s: string)
    requires KeepsAlphabet(upper) && InAlphabet(s)
    ensures UpperAll(upper, s) == s
  {
    if s != [] {
      UpperKeepsSymbols(upper, s[1..]);
    }
  }

  lemma {:induction false} SpacelessKeepsSymbols(s: string)
    requires InAlphabet(s)
    ensures Spaceless(s) == s
  {
    if s != [] {
      SpacelessKeepsSymbols(s[1..]);
    }
  }

  lemma SymbolsAreClean(upper: char -> string, s: string)
    requires KeepsAlphabet(upper) && InAlphabet(s)
    ensures Clean(upper, s) == s
  {
    UpperKeepsSymbols(upper, s);
    SpacelessKeepsSymbols(s);
  }

  lemma IndexesOfSymbols(items: seq<nat>)
    requires Fit(items, GROUP)
    ensures Indexes(Symbols(items)) == items
  {
    assert Pow2(GROUP) == 32;
    forall i | 0 <= i < |items|
      ensures Indexes(Symbols(items))[i] == items[i]
    {
      IndexOfSymbol(items[i]);
    }
  }

  /** The eight-bit groups in a prefix that drops fewer than five bits. */
  lemma PrefixOfBytes(bytes: seq<nat>, kept: nat)
    requires Fit(bytes, BYTE) && kept <= 8 * |bytes| < kept + 5
    ensures |Spread(bytes, BYTE)| == 8 * |bytes|
    ensures Regroup(Spread(bytes, BYTE)[..kept], BYTE) == if kept == 8 * |bytes| then bytes else bytes[..|bytes| - 1]
  {
    SpreadLength(bytes, BYTE);
    var bits := Spread(bytes, BYTE);
    if kept == 8 * |bytes| {
      RegroupAfterSpread(bytes, [], BYTE);
      assert bits[..kept] == bits + [];
    } else {
      var init, last := bytes[..|bytes| - 1], bytes[|bytes| - 1];
      SpreadSnoc(init, last, BYTE);
      SpreadLength(init, BYTE);
      assert init + [last] == bytes;
      var rest := BitsOf(last, BYTE)[..kept - 8 * |init|];
      assert bits[..kept] == Spread(init, BYTE) + rest;
      RegroupAfterSpread(init, rest, BYTE);
    }
  }

  lemma WholeGroups(n: nat, m: nat)
    requires 5 * m <= 8 * n < 5 * m + 5
    ensures 5 * m == 8 * n <==> n % 5 == 0
  {
    var q := n / 5;
    assert n == 5 * q + n % 5;
    if n % 5 == 0 {
      assert m == 8 * q;
    }
  }

  /** Bytes to five-bit groups and back. */
  lemma BytesThroughGroups(bytes: seq<nat>, groups: seq<nat>)
    requires Fit(bytes, BYTE) && groups == Regroup(Spread(bytes, BYTE), GROUP)
    ensures Regroup(Spread(groups, GROUP), BYTE) == if |bytes| % 5 == 0 then bytes else bytes[..|bytes| - 1]
  {
    var bits := Spread(bytes, BYTE);
    SpreadLength(bytes, BYTE);
    SpreadLength(groups, GROUP);
    SpreadAfterRegroup(bits, GROUP);
    WholeGroups(|bytes|, |groups|);
    PrefixOfBytes(bytes, 5 * |groups|);
  }

  /**
   Decoding an encoding returns the bytes when their number is a multiple of five;
   otherwise it returns all but the last, and only that one is lost.
   */
  lemma DecodeOfEncode(upper: char -> string, bytes: seq<nat>)
    requires KeepsAlphabet(upper) && Fit(bytes, BYTE)
    ensures Decode(upper, Encode(bytes)) == Bytes(if |bytes| % 5 == 0 then bytes else bytes[..|bytes| - 1])
  {
    SymbolsAreClean(upper, Encode(bytes));
    IndexesOfSymbols(Regroup(Spread(bytes, BYTE), GROUP));
    BytesThroughGroups(bytes, Regroup(Spread(bytes, BYTE), GROUP));
  }

  /** The secrets the service generates, of twenty bytes, survive; so no two of them share an encoding. */
  lemma EncodeInjective(upper: char -> string, a: seq<nat>, b: seq<nat>)
    requires KeepsAlphabet(upper) && Fit(a, BYTE) && Fit(b, BYTE)
    requires |a| % 5 == 0 && |b| % 5 == 0 && Encode(a) == Encode(b)
    ensures a == b
  {
    DecodeOfEncode(upper, a);
    DecodeOfEncode(upper, b);
  }

  // ---- The encoding bit by bit ----

  /** Is bit `k` set, counting from the least significant? */
  predicate BitOf(value: nat, k: nat) {
    if k == 0 then value % 2 == 1 else BitOf(value / 2, k - 1)
  }

  lemma {:induction false} BitsInOrder(value: nat, width: nat, i: nat)
    requires i < width
    ensures BitsOf(value, width)[i] == BitOf(value, width - 1 - i)
  {
    if i < width - 1 {
      BitsInOrder(value / 2, width - 1, i);
    }
  }

  lemma {:induction false} SpreadAt(items: seq<nat>, width: nat, k: nat, i: nat)
    requires k < |items| && i < width
    ensures width * k + i < |Spread(items, width)|
    ensures Spread(items, width)[width * k + i] == BitOf(items[k], width - 1 - i)
  {
    if k == 0 {
      BitsInOrder(items[0], width, i);
    } else {
      SpreadAt(items[1..], width, k - 1, i);
      assert width * k + i == width + (width * (k - 1) + i);
    }
  }

  lemma {:induction false} RegroupLength(bits: Bits, width: nat)
    requires width > 0
    ensures width * |Regroup(bits, width)| <= |bits| < width * |Regroup(bits, width)| + width
  {
    if |bits| >= width {
      RegroupLength(bits[width..], width);
      assert width * |Regroup(bits, width)| == width + width * |Regroup(bits[width..], width)|;
    }
  }

  lemma GroupCount(items: seq<nat>, from: nat, groups: seq<nat>, width: nat)
    requires width > 0 && groups == Regroup(Spread(items, from), width)
    ensures width * |groups| <= from * |items| < width * |groups| + width
  {
    SpreadLength(items, from);
    RegroupLength(Spread(items, from), width);
  }

  lemma SameBit(bits: Bits, groups: seq<nat>, width: nat, j: nat, i: nat, n: nat)
    requires width > 0 && groups == Regroup(bits, width) && j < |groups| && i < width && n == width * j + i
    ensures n < |bits| && bits[n] == BitOf(groups[j], width - 1 - i)
  {
    SpreadAfterRegroup(bits, width);
    SpreadAt(groups, width, j, i);
  }

  /** The groups of five hold the bits of the bytes in their order; what is left over is dropped. */
  lemma GroupBits(bytes: seq<nat>, groups: seq<nat>, j: nat, i: nat, k: nat, r: nat)
    requires groups == Regroup(Spread(bytes, BYTE), GROUP) && j < |groups| && i < 5
    requires 8 * k + r == 5 * j + i && r < 8 && k < |bytes|
    ensures BitOf(groups[j], 4 - i) == BitOf(bytes[k], 7 - r)
  {
    SameBit(Spread(bytes, BYTE), groups, GROUP, j, i, 5 * j + i);
    SpreadAt(bytes, BYTE, k, r);
  }

  /** What a symbol stands for: 0 to 25 for the letters, 26 to 31 for the digits from 2. */
  function Worth(c: char): int {
    if c as int >= 65 then c as int - 65 else c as int - 50 + 26
  }

  lemma SymbolWorth(groups: seq<nat>, j: nat)
    requires Fit(groups, GROUP) && j < |groups|
    ensures IsSymbol(Symbols(groups)[j]) && Worth(Symbols(groups)[j]) == groups[j]
  {
    assert Pow2(GROUP) == 32;
    IndexOfSymbol(groups[j]);
  }

  /**
   The encoding of section 6 of RFC 4648, bit by bit: symbol `j` stands for the five bits
   from `5 * j` on of the bytes, most significant first.
   */
  lemma EncodedBits(bytes: seq<nat>, j: nat, i: nat, n: nat)
    requires Fit(bytes, BYTE) && j < |Encode(bytes)| && i < 5 && n == 5 * j + i
    ensures |Encode(bytes)| == 8 * |bytes| / 5 && n / 8 < |bytes|
    ensures IsSymbol(Encode(bytes)[j]) && Worth(Encode(bytes)[j]) >= 0
    ensures BitOf(Worth(Encode(bytes)[j]), 4 - i) == BitOf(bytes[n / 8], 7 - n % 8)
  {
    var groups := Regroup(Spread(bytes, BYTE), GROUP);
    GroupCount(bytes, BYTE, groups, GROUP);
    GroupBits(bytes, groups, j, i, n / 8, n % 8);
    SymbolWorth(groups, j);
  }

  // ---- The loops ----

  method GenerateSecret(buf: seq<nat>) returns (out: string)
    requires Fit(buf, BYTE)
    ensures out == Encode(buf)
  {
    var bits: Bits := [];
    for i := 0 to |buf|
      invariant bits == Spread(buf[..i], BYTE)
    {
      SpreadSnoc(buf[..i], buf[i], BYTE);
      assert buf[..i] + [buf[i]] == buf[..i + 1];
      bits := bits + BitsOf(buf[i], BYTE);
    }
    assert buf[..|buf|] == buf;
    ghost var groups := Regroup(bits, GROUP);
    out := "";
    var i := 0;
    while i + GROUP <= |bits|
      invariant 0 <= i <= |bits|
      invariant |out| <= |groups| && groups[|out|..] == Regroup(bits[i..], GROUP)
      invariant out == Symbols(groups)[..|out|]
    {
      var value := ValueOf(bits[i..i + GROUP]);
      assert bits[i..][..GROUP] == bits[i..i + GROUP] && bits[i..][GROUP..] == bits[i + GROUP..];
      assert Pow2(GROUP) == 32;
      assert groups[|out|] == groups[|out|..][0] == value;
      assert groups[|out|..][1..] == groups[|out| + 1..];
      out := out + [ALPHABET[value]];
      i := i + GROUP;
    }
  }

  lemma ReadOne(clean: string, i: nat)
    requires i < |clean| && InAlphabet(clean[..i]) && IsSymbol(clean[i])
    ensures InAlphabet(clean[..i + 1])
    ensures Spread(Indexes(clean[..i + 1]), GROUP) == Spread(Indexes(clean[..i]), GROUP) + BitsOf(IndexOf(clean[i]), GROUP)
  {
    var before, after := clean[..i], clean[..i + 1];
    assert forall k :: 0 <= k < i ==> after[k] == before[k];
    assert Indexes(after) == Indexes(before) + [IndexOf(clean[i])];
    SpreadSnoc(Indexes(before), IndexOf(clean[i]), GROUP);
  }

  /** The bits of the symbols, or a refusal at the first character that is none. */
  method ReadSymbols(clean: string) returns (ok: bool, bits: Bits)
    ensures ok <==> InAlphabet(clean)
    ensures ok ==> bits == Spread(Indexes(clean), GROUP)
  {
    bits := [];
    for i := 0 to |clean|
      invariant InAlphabet(clean[..i])
      invariant bits == Spread(Indexes(clean[..i]), GROUP)
    {
      var index := IndexOf(clean[i]);
      if index == -1 {
        return false, [];
      }
      ReadOne(clean, i);
      bits := bits + BitsOf(index, GROUP);
    }
    assert clean[..|clean|] == clean;
    ok := true;
  }

  /** The values of the whole groups of bits, one by one. */
  method WholeBytes(bits: Bits, width: nat) returns (bytes: seq<nat>)
    requires width > 0
    ensures bytes == Regroup(bits, width)
  {
    bytes := [];
    var i := 0;
    assert bits[0..] == bits;
    while i + width <= |bits|
      invariant 0 <= i <= |bits|
      invariant Regroup(bits, width) == bytes + Regroup(bits[i..], width)
    {
      RegroupStep(bits, i, width);
      bytes := bytes + [ValueOf(bits[i..i + width])];
      i := i + width;
    }
  }

  method Base32Decode(upper: char -> string, input: string) returns (r: Decoded)
    ensures r == Decode(upper, input)
  {
    var ok, bits := ReadSymbols(Clean(upper, input));
    if !ok {
      return InvalidCharacter;
    }
    var bytes := WholeBytes(bits, BYTE);
    r := Bytes(bytes);
  }

  // ---- Checking a code ----

  datatype LastUsed = Never | Step(step: int)

  datatype Verdict = Valid(step: int) | Invalid | Threw

  predicate IsDigit(c: char) {
    48 <= c as int <= 57
  }

  function Digits(s: string): string {
    if s == [] then [] else (if '0' <= s[0] <= '9' then [s[0]] else []) + Digits(s[1..])
  }

  /** Digits are kept as they stand, and everything else is dropped wherever it stands. */
  lemma {:induction false} DigitsKeepsDigitsOnly(a: string, c: char, b: string)
    ensures (forall i :: 0 <= i < |a| ==> IsDigit(a[i])) ==> Digits(a) == a
    ensures !IsDigit(c) ==> Digits(a + [c] + b) == Digits(a + b)
    decreases |a|
  {
    if a == [] {
      assert ([c] + b)[1..] == b && a + [c] + b == [c] + b && a + b == b;
    } else {
      DigitsKeepsDigitsOnly(a[1..], c, b);
      assert (a + [c] + b)[1..] == a[1..] + [c] + b && (a + b)[1..] == a[1..] + b;
    }
  }

  predicate Fresh(lastUsed: LastUsed, step: int) {
    lastUsed.Step? ==> step > lastUsed.step
  }

  /** The steps of the window that are not replays. */
  predicate Candidate(lastUsed: LastUsed, now: int, window: int, step: int) {
    now - window <= step <= now + window && Fresh(lastUsed, step)
  }

  /**
   Which step a submitted code is accepted for: the earliest fresh step of the window
   whose code it is. `codeOf` is the HMAC code of a decoded secret, six digits.
   */
  method VerifyCode(secret: Decoded, codeOf: (seq<nat>, int) -> string, submitted: string,
                    lastUsed: LastUsed, now: int, window: int) returns (v: Verdict)
    ensures v.Valid? ==>
              && secret.Bytes? && |Digits(submitted)| == 6
              && Candidate(lastUsed, now, window, v.step) && codeOf(secret.bytes, v.step) == Digits(submitted)
              && (forall s :: Candidate(lastUsed, now, window, s) && s < v.step ==> codeOf(secret.bytes, s) != Digits(submitted))
    ensures v.Invalid? ==>
              || |Digits(submitted)| != 6
              || (forall s :: Candidate(lastUsed, now, window, s) ==>
                    secret.Bytes? && codeOf(secret.bytes, s) != Digits(submitted))
    ensures v.Threw? <==>
              secret.InvalidCharacter? && |Digits(submitted)| == 6 && exists s :: Candidate(lastUsed, now, window, s)
  {
    var code := Digits(submitted);
    if |code| != 6 {
      return Invalid;
    }
    var offset := -window;
    while offset <= window
      invariant offset <= window + 1 || window < 0
      invariant forall s :: Candidate(lastUsed, now, window, s) && s < now + offset ==>
                  secret.Bytes? && codeOf(secret.bytes, s) != code
      decreases window - offset
    {
      var step := now + offset;
      if Fresh(lastUsed, step) {
        assert Candidate(lastUsed, now, window, step);
        if secret.InvalidCharacter? {
          return Threw;
        }
        if codeOf(secret.bytes, step) == code {
          return Valid(step);
        }
      }
      offset := offset + 1;
    }
    return Invalid;
  }
}
