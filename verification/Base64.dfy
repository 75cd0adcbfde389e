/**
 * Base64 (RFC 4648, section 4): the validator of base64.ts, the encoder of
 * the page-export patch, and what the two have to do with each other.
 */
module Base64 {

  // ---------------------------------------------------------------- alphabet

  const TABLE: string := "ABCDEFGHIJKLMNOPQRSTUVWXYZ" + "abcdefghijklmnopqrstuvwxyz" + "0123456789+/"

  predicate InAlphabet(c: char) {
    'A' <= c <= 'Z' || 'a' <= c <= 'z' || '0' <= c <= '9' || c == '+' || c == '/'
  }

  /** The letter of a six-bit value. */
  function Letter(n: int): (c: char)
    requires 0 <= n < 64
    ensures InAlphabet(c)
  {
    if n < 26 then ('A' as int + n) as char
    else if n < 52 then ('a' as int + n - 26) as char
    else if n < 62 then ('0' as int + n - 52) as char
    else if n == 62 then '+' else '/'
  }

  /** The six-bit value of a letter. */
  function Value(c: char): (n: int)
    requires InAlphabet(c)
    ensures 0 <= n < 64 && Letter(n) == c
  {
    if 'A' <= c <= 'Z' then c as int - 'A' as int
    else if 'a' <= c <= 'z' then c as int - 'a' as int + 26
    else if '0' <= c <= '9' then c as int - '0' as int + 52
    else if c == '+' then 62 else 63
  }

  lemma ValueOfLetter(n: int)
    requires 0 <= n < 64
    ensures Value(Letter(n)) == n
  {
  }

  lemma TableHoldsLetters(n: int)
    requires 0 <= n < 64
    ensures |TABLE| == 64 && TABLE[n] == Letter(n)
  {
    var upper, lower, rest := "ABCDEFGHIJKLMNOPQRSTUVWXYZ", "abcdefghijklmnopqrstuvwxyz", "0123456789+/";
    if n < 26 { assert TABLE[n] == upper[n]; } else if n < 52 { assert TABLE[n] == lower[n - 26]; } else { assert TABLE[n] == rest[n - 52]; }
  }

  // --------------------------------------------------------------- validator

  predicate AllLetters(s: string) {
    forall i | 0 <= i < |s| :: InAlphabet(s[i])
  }

  /** Letters alone, not one more than whole quanta, or letters and the padding that completes the last quantum. */
  predicate Splits(value: string, content: string, padding: string) {
    && value == content + padding && AllLetters(content)
    && ((padding == "" && |content| % 4 != 1) || (padding == "=" && |content| % 4 == 3) || (padding == "==" && |content| % 4 == 2))
  }

  ghost predicate WellFormed(value: string) {
    exists content, padding :: Splits(value, content, padding)
  }

  predicate EndsWith(value: string, suffix: string) {
    |suffix| <= |value| && value[|value| - |suffix|..] == suffix
  }

  function PaddingOf(value: string): (n: nat)
    ensures n <= |value|
  {
    if EndsWith(value, "==") then 2 else if EndsWith(value, "=") then 1 else 0
  }

  lemma EndsWithIsLast(value: string)
    ensures EndsWith(value, "=") <==> |value| >= 1 && value[|value| - 1] == '='
    ensures EndsWith(value, "==") <==> |value| >= 2 && value[|value| - 2] == '=' && value[|value| - 1] == '='
  {
    if |value| >= 1 { assert value[|value| - 1..] == [value[|value| - 1]]; }
    if |value| >= 2 { assert value[|value| - 2..] == [value[|value| - 2], value[|value| - 1]]; }
  }

  /** A well-formed string splits in only one way. */
  lemma SplitIsUnique(value: string, content: string, padding: string)
    requires Splits(value, content, padding)
    ensures |padding| == PaddingOf(value) && content == value[..|value| - |padding|] && padding == value[|value| - |padding|..]
  {
    hide EndsWith;
    EndsWithIsLast(value);
    if content != "" {
      assert InAlphabet(content[|content| - 1]);
      assert value[|content| - 1] == content[|content| - 1];
    }
  }

  lemma WellFormedIsSplit(value: string)
    ensures var n := |value| - PaddingOf(value); 0 <= n && (WellFormed(value) <==> Splits(value, value[..n], value[n..]))
  {
    if WellFormed(value) {
      var content, padding :| Splits(value, content, padding);
      SplitIsUnique(value, content, padding);
    }
  }

  /** What is checked of the lengths before the letters are looked at. */
  predicate LengthsFit(length: nat, padding: nat)
    requires padding <= length
  {
    var remainder := (length - padding) % 4;
    && remainder != 1 && (padding > 0 ==> length % 4 == 0)
    && (padding == 1 ==> remainder == 3) && (padding == 2 ==> remainder == 2)
  }

  lemma WellFormedIff(value: string)
    ensures var n := PaddingOf(value); WellFormed(value) <==> LengthsFit(|value|, n) && AllLetters(value[..|value| - n])
  {
    hide InAlphabet, AllLetters, EndsWith, WellFormed;
    WellFormedIsSplit(value);
    EndsWithIsLast(value);
    var n := PaddingOf(value);
    var content, padding := value[..|value| - n], value[|value| - n..];
    assert value == content + padding && padding == (if n == 0 then "" else if n == 1 then "=" else "==");
  }

  method IsBase64(value: string) returns (valid: bool)
    ensures valid <==> WellFormed(value)
  {
    hide InAlphabet, PaddingOf, WellFormed;
    var padding := PaddingOf(value);
    var contentLength := |value| - padding;
    var remainder := contentLength % 4;
    WellFormedIff(value);
    ghost var content := value[..contentLength];
    if remainder == 1 || (padding > 0 && |value| % 4 != 0) || (padding == 1 && remainder != 3) || (padding == 2 && remainder != 2) {
      return false;
    }
    for index := 0 to contentLength
      invariant forall i | 0 <= i < index :: InAlphabet(content[i])
    {
      if !InAlphabet(value[index]) {
        assert !InAlphabet(content[index]);
        return false;
      }
    }
    return true;
  }

  // ---------------------------------------------------------------- decoding

  /** The 24 bits of four letters. */
  function Quantum(w: char, x: char, y: char, z: char): (v: int)
    requires InAlphabet(w) && InAlphabet(x) && InAlphabet(y) && InAlphabet(z)
    ensures 0 <= v < 0x100_0000
  {
    Value(w) * 0x4_0000 + Value(x) * 0x1000 + Value(y) * 0x40 + Value(z)
  }

  /** The octets of letters; a last group of two or three letters gives one or two. */
  function DecodeLetters(s: string): (r: seq<int>)
    requires AllLetters(s)
    ensures |r| == |s| * 3 / 4
  {
    if |s| >= 4 then
      var v := Quantum(s[0], s[1], s[2], s[3]);
      [v / 0x1_0000, v / 0x100 % 0x100, v % 0x100] + DecodeLetters(s[4..])
    else if |s| == 3 then
      var v := Quantum(s[0], s[1], s[2], 'A');
      [v / 0x1_0000, v / 0x100 % 0x100]
    else if |s| == 2 then [Quantum(s[0], s[1], 'A', 'A') / 0x1_0000]
    else []
  }

  function Decode(value: string): seq<int>
    requires WellFormed(value)
  {
    WellFormedIsSplit(value);
    DecodeLetters(value[..|value| - PaddingOf(value)])
  }

  lemma {:induction false} DecodeConcat(a: string, b: string)
    requires AllLetters(a) && AllLetters(b) && |a| % 4 == 0
    ensures AllLetters(a + b) && DecodeLetters(a + b) == DecodeLetters(a) + DecodeLetters(b)
  {
    if a == "" {
      assert a + b == b;
    } else {
      assert (a + b)[4..] == a[4..] + b;
      DecodeConcat(a[4..], b);
    }
  }

  /** Padded, and the bits that the padding leaves unused are zero. */
  ghost predicate Canonical(value: string) {
    && WellFormed(value) && |value| % 4 == 0
    && var last := |value| - PaddingOf(value) - 1;
       && (PaddingOf(value) == 1 ==> InAlphabet(value[last]) && Value(value[last]) % 4 == 0)
       && (PaddingOf(value) == 2 ==> InAlphabet(value[last]) && Value(value[last]) % 16 == 0)
  }

  // ---------------------------------------------------------------- encoding

  function Octet(b: bv8): (r: int)
    ensures 0 <= r < 256
  {
    b as int
  }

  function Octets(data: seq<bv8>): seq<int> {
    seq(|data|, i requires 0 <= i < |data| => Octet(data[i]))
  }

  /** The four six-bit values of three octets. */
  function Sextets(a: int, b: int, c: int): (r: (int, int, int, int))
    requires 0 <= a < 256 && 0 <= b < 256 && 0 <= c < 256
    ensures 0 <= r.0 < 64 && 0 <= r.1 < 64 && 0 <= r.2 < 64 && 0 <= r.3 < 64
  {
    (a / 4, a % 4 * 16 + b / 16, b % 16 * 4 + c / 64, c % 64)
  }

  lemma ShiftsOfOctet(a: bv8)
    ensures (a >> 2) as int == a as int / 4 && (a >> 4) as int == a as int / 16 && (a >> 6) as int == a as int / 64
  {
  }

  lemma LowTwoBits(a: bv8)
    ensures (a & 3) as int == a as int % 4
  {
  }

  lemma LowFourBits(a: bv8)
    ensures (a & 15) as int == a as int % 16
  {
  }

  lemma LowSixBits(a: bv8)
    ensures (a & 63) as int == a as int % 64
  {
  }

  lemma JoinedBits(x: bv8, y: bv8)
    requires x & y == 0 && x < 64 && y < 64
    ensures (x | y) as int == x as int + y as int
  {
    assert x | y == x + y;
  }

  lemma RaisedBits(x: bv8)
    ensures x < 4 ==> (x << 4) as int == x as int * 16
    ensures x < 16 ==> (x << 2) as int == x as int * 4
  {
  }

  /** The places in the table that the encoder picks from its 24 bits. */
  function Places(v: bv32): (r: (nat, nat, nat, nat))
    ensures r.0 < 64 && r.1 < 64 && r.2 < 64 && r.3 < 64
  {
    (((v >> 18) & 63) as int, ((v >> 12) & 63) as int, ((v >> 6) & 63) as int, (v & 63) as int)
  }

  function Packed(a: bv8, b: bv8, c: bv8): bv32 {
    ((a as bv32) << 16) | ((b as bv32) << 8) | (c as bv32)
  }

  lemma BitsOfPacked(a: bv8, b: bv8, c: bv8)
    ensures var v := Packed(a, b, c);
            && (v >> 18) & 63 == (a >> 2) as bv32 && (v >> 12) & 63 == (((a & 3) << 4) | (b >> 4)) as bv32
            && (v >> 6) & 63 == (((b & 15) << 2) | (c >> 6)) as bv32 && v & 63 == (c & 63) as bv32
  {
  }

  lemma Widened(a: bv8)
    ensures (a as bv32) as int == a as int
  {
  }

  lemma FirstSextet(a: bv8, w: bv32)
    requires w == (a >> 2) as bv32
    ensures w as int == Octet(a) / 4
  {
    ShiftsOfOctet(a);
    Widened(a >> 2);
  }

  lemma SecondSextet(a: bv8, b: bv8, x: bv32)
    requires x == (((a & 3) << 4) | (b >> 4)) as bv32
    ensures x as int == Octet(a) % 4 * 16 + Octet(b) / 16
  {
    LowTwoBits(a);
    RaisedBits(a & 3);
    ShiftsOfOctet(b);
    NibblesApart(a, b);
    JoinedBits((a & 3) << 4, b >> 4);
    Widened(((a & 3) << 4) | (b >> 4));
  }

  lemma NibblesApart(a: bv8, b: bv8)
    ensures a & 3 < 4 && ((a & 3) << 4) & (b >> 4) == 0 && (a & 3) << 4 < 64 && b >> 4 < 64
    ensures a & 15 < 16 && ((a & 15) << 2) & (b >> 6) == 0 && (a & 15) << 2 < 64 && b >> 6 < 64
  {
  }

  lemma ThirdSextet(b: bv8, c: bv8, y: bv32)
    requires y == (((b & 15) << 2) | (c >> 6)) as bv32
    ensures y as int == Octet(b) % 16 * 4 + Octet(c) / 64
  {
    LowFourBits(b);
    RaisedBits(b & 15);
    ShiftsOfOctet(c);
    NibblesApart(b, c);
    JoinedBits((b & 15) << 2, c >> 6);
    Widened(((b & 15) << 2) | (c >> 6));
  }

  lemma FourthSextet(c: bv8, z: bv32)
    requires z == (c & 63) as bv32
    ensures z as int == Octet(c) % 64
  {
    LowSixBits(c);
    Widened(c & 63);
  }

  lemma FirstPlace(a: bv8, b: bv8, c: bv8)
    ensures Places(Packed(a, b, c)).0 == Octet(a) / 4
  {
    hide Packed, Octet;
    BitsOfPacked(a, b, c);
    FirstSextet(a, (Packed(a, b, c) >> 18) & 63);
  }

  lemma SecondPlace(a: bv8, b: bv8, c: bv8)
    ensures Places(Packed(a, b, c)).1 == Octet(a) % 4 * 16 + Octet(b) / 16
  {
    hide Packed, Octet;
    BitsOfPacked(a, b, c);
    SecondSextet(a, b, (Packed(a, b, c) >> 12) & 63);
  }

  lemma ThirdPlace(a: bv8, b: bv8, c: bv8)
    ensures Places(Packed(a, b, c)).2 == Octet(b) % 16 * 4 + Octet(c) / 64
  {
    hide Packed, Octet;
    BitsOfPacked(a, b, c);
    ThirdSextet(b, c, (Packed(a, b, c) >> 6) & 63);
  }

  lemma FourthPlace(a: bv8, b: bv8, c: bv8)
    ensures Places(Packed(a, b, c)).3 == Octet(c) % 64
  {
    hide Packed, Octet;
    BitsOfPacked(a, b, c);
    FourthSextet(c, Packed(a, b, c) & 63);
  }

  /** The shifts and masks of the encoder pick the six-bit values. */
  lemma PackedSextets(a: bv8, b: bv8, c: bv8)
    ensures Places(Packed(a, b, c)) == Sextets(Octet(a), Octet(b), Octet(c))
  {
    hide Packed, Octet, Places;
    FirstPlace(a, b, c);
    SecondPlace(a, b, c);
    ThirdPlace(a, b, c);
    FourthPlace(a, b, c);
  }

  lemma DigitsOf(a: int, b: int, c: int)
    requires 0 <= a < 256 && 0 <= b < 256 && 0 <= c < 256
    ensures var v := a * 0x1_0000 + b * 0x100 + c; v / 0x1_0000 == a && v / 0x100 % 0x100 == b && v % 0x100 == c
  {
  }

  lemma SextetsSum(a: int, b: int, c: int)
    requires 0 <= a < 256 && 0 <= b < 256 && 0 <= c < 256
    ensures var (w, x, y, z) := Sextets(a, b, c);
            && w * 0x4_0000 + x * 0x1000 + y * 0x40 + z == a * 0x1_0000 + b * 0x100 + c
            && (c == 0 ==> z == 0 && y % 4 == 0) && (b == 0 && c == 0 ==> y == 0 && x % 16 == 0)
  {
  }

  lemma ZeroIsA()
    ensures Letter(0) == 'A'
  {
  }

  function FourLetters(a: int, b: int, c: int): (s: string)
    requires 0 <= a < 256 && 0 <= b < 256 && 0 <= c < 256
    ensures |s| == 4 && AllLetters(s)
  {
    var (w, x, y, z) := Sextets(a, b, c);
    [Letter(w), Letter(x), Letter(y), Letter(z)]
  }

  /** Four letters carry three octets; with a zero octet or two at the end, three or two letters carry the rest. */
  lemma GroupDecodes(a: int, b: int, c: int)
    requires 0 <= a < 256 && 0 <= b < 256 && 0 <= c < 256
    ensures var s := FourLetters(a, b, c);
            && DecodeLetters(s) == [a, b, c]
            && (c == 0 ==> Value(s[2]) % 4 == 0 && DecodeLetters(s[..3]) == [a, b])
            && (b == 0 && c == 0 ==> Value(s[1]) % 16 == 0 && DecodeLetters(s[..2]) == [a])
  {
    hide Letter, Value, Sextets, InAlphabet;
    var (w, x, y, z) := Sextets(a, b, c);
    var s := FourLetters(a, b, c);
    ValueOfLetter(w);
    ValueOfLetter(x);
    ValueOfLetter(y);
    ValueOfLetter(z);
    ZeroIsA();
    SextetsSum(a, b, c);
    DigitsOf(a, b, c);
    assert s[4..] == "";
  }

  /** `content` and `padding` make up the output, and carry the octets with no stray bits. */
  predicate Carries(out: string, content: string, padding: string, octets: seq<int>) {
    && Splits(out, content, padding) && |out| % 4 == 0 && DecodeLetters(content) == octets
    && (padding == "=" ==> Value(content[|content| - 1]) % 4 == 0)
    && (padding == "==" ==> Value(content[|content| - 1]) % 16 == 0)
  }

  lemma {:induction false} CarriesIsCanonical(out: string, content: string, padding: string, octets: seq<int>)
    requires Carries(out, content, padding, octets)
    ensures Canonical(out) && Decode(out) == octets
  {
    hide Value, InAlphabet, DecodeLetters, PaddingOf;
    SplitIsUnique(out, content, padding);
  }

  function PaddingFor(count: int): string {
    if count == 1 then "==" else if count == 2 then "=" else ""
  }

  lemma GroupPart(a: int, b: int, c: int, count: int)
    requires 0 <= a < 256 && 0 <= b < 256 && 0 <= c < 256 && 1 <= count <= 3
    requires (count < 3 ==> c == 0) && (count < 2 ==> b == 0)
    ensures var s := FourLetters(a, b, c)[..count + 1];
            && AllLetters(s) && DecodeLetters(s) == [a, b, c][..count]
            && (count == 2 ==> Value(s[2]) % 4 == 0) && (count == 1 ==> Value(s[1]) % 16 == 0)
  {
    hide Value, InAlphabet, DecodeLetters, FourLetters;
    var four := FourLetters(a, b, c);
    GroupDecodes(a, b, c);
    assert four[..4] == four;
    assert [a, b, c][..count] == if count == 1 then [a] else if count == 2 then [a, b] else [a, b, c];
  }

  /** One more group of one, two or three octets. */
  lemma {:induction false} AppendGroup(out: string, octets: seq<int>, a: int, b: int, c: int, count: int)
    requires Carries(out, out, "", octets) && 1 <= count <= 3
    requires 0 <= a < 256 && 0 <= b < 256 && 0 <= c < 256 && (count < 3 ==> c == 0) && (count < 2 ==> b == 0)
    ensures var s := FourLetters(a, b, c)[..count + 1];
            Carries(out + s + PaddingFor(count), out + s, PaddingFor(count), octets + [a, b, c][..count])
  {
    hide Value, InAlphabet, DecodeLetters, FourLetters, AllLetters;
    var s := FourLetters(a, b, c)[..count + 1];
    GroupPart(a, b, c, count);
    DecodeConcat(out, s);
    assert (out + s)[|out + s| - 1] == s[count];
  }

  lemma NothingCarried()
    ensures Carries("", "", "", Octets([]))
  {
    assert DecodeLetters("") == [];
  }

  lemma PackedStepByStep(a: bv8, b: bv8, c: bv8)
    ensures (a as bv32) << 16 == Packed(a, 0, 0)
    ensures ((a as bv32) << 16) | ((b as bv32) << 8) == Packed(a, b, 0)
  {
  }

  /** The entry at a place of the table. */
  function Pick(n: nat): char
    requires n < 64
  {
    TABLE[n]
  }

  lemma PickIsLetter(n: nat)
    requires n < 64
    ensures Pick(n) == Letter(n)
  {
    hide Letter;
    TableHoldsLetters(n);
  }

  /** What the encoder looks up in its table. */
  lemma LookedUp(a: bv8, b: bv8, c: bv8)
    ensures var (w, x, y, z) := Places(Packed(a, b, c)); [Pick(w), Pick(x), Pick(y), Pick(z)] == FourLetters(Octet(a), Octet(b), Octet(c))
  {
    hide Packed, Octet, Places, Letter, Pick, InAlphabet, Sextets;
    PackedSextets(a, b, c);
    var (w, x, y, z) := Sextets(Octet(a), Octet(b), Octet(c));
    PickIsLetter(w);
    PickIsLetter(x);
    PickIsLetter(y);
    PickIsLetter(z);
  }

  /** The bits of up to three octets, side by side. */
  method Pack(data: seq<bv8>, i: nat) returns (value: bv32)
    requires i < |data|
    ensures value == Packed(data[i], if i + 1 < |data| then data[i + 1] else 0, if i + 2 < |data| then data[i + 2] else 0)
  {
    var remain := |data| - i;
    value := (data[i] as bv32) << 16;
    if remain > 1 { value := value | ((data[i + 1] as bv32) << 8); }
    if remain > 2 { value := value | (data[i + 2] as bv32); }
    PackedStepByStep(data[i], if remain > 1 then data[i + 1] else 0, 0);
  }

  /** How many octets the group at `i` has, and what stands for the missing ones. */
  function GroupAt(data: seq<bv8>, i: nat): (r: (int, int, int, int))
    requires i < |data|
    ensures 1 <= r.0 <= 3 && 0 <= r.1 < 256 && 0 <= r.2 < 256 && 0 <= r.3 < 256 && (r.0 < 3 ==> r.3 == 0) && (r.0 < 2 ==> r.2 == 0)
    ensures i + r.0 <= |data| && (r.0 < 3 ==> i + r.0 == |data|)
  {
    var remain := |data| - i;
    (if remain > 3 then 3 else remain, Octet(data[i]), if remain > 1 then Octet(data[i + 1]) else 0, if remain > 2 then Octet(data[i + 2]) else 0)
  }

  function GroupText(data: seq<bv8>, i: nat): (s: string)
    requires i < |data|
    ensures |s| == 4
  {
    var (count, a, b, c) := GroupAt(data, i);
    FourLetters(a, b, c)[..count + 1] + PaddingFor(count)
  }

  /** One turn of the encoder's loop. */
  method OutputGroup(data: seq<bv8>, i: nat) returns (quantum: string)
    requires i < |data|
    ensures quantum == GroupText(data, i)
  {
    hide Pick, FourLetters, Packed, Places, Octet;
    var remain := |data| - i;
    var value := Pack(data, i);
    var (w, x, y, z) := Places(value);
    quantum := [Pick(w), Pick(x), if remain > 1 then Pick(y) else '=', if remain > 2 then Pick(z) else '='];
    LookedUp(data[i], if remain > 1 then data[i + 1] else 0, if remain > 2 then data[i + 2] else 0);
    ZeroOctet();
  }

  lemma ZeroOctet()
    ensures Octet(0) == 0
  {
  }

  lemma {:induction false} Turn(data: seq<bv8>, i: nat, out: string) returns (content: string, padding: string)
    requires i < |data| && Carries(out, out, "", Octets(data[..i]))
    ensures var count := GroupAt(data, i).0; var more := out + GroupText(data, i);
            && Carries(more, content, padding, Octets(data[..i + count]))
            && (count == 3 ==> content == more && padding == "")
  {
    hide Carries, FourLetters, Octet;
    var (count, a, b, c) := GroupAt(data, i);
    AppendGroup(out, Octets(data[..i]), a, b, c, count);
    assert Octets(data[..i + count]) == Octets(data[..i]) + [a, b, c][..count];
    content, padding := out + FourLetters(a, b, c)[..count + 1], PaddingFor(count);
    assert out + GroupText(data, i) == content + padding;
  }

  /** The encoder's loop: its output is canonical base64 of the data, four letters for every three octets begun. */
  method OutputBase64(data: seq<bv8>) returns (out: string)
    ensures Canonical(out) && Decode(out) == Octets(data)
    ensures |out| == (|data| + 2) / 3 * 4
  {
    hide Canonical, Decode, Carries, Octets, GroupText, GroupAt;
    out := "";
    var i := 0;
    ghost var content, padding := "", "";
    NothingCarried();
    while i < |data|
      invariant i % 3 == 0 && i < |data| + 3 && |out| == i / 3 * 4
      invariant i <= |data| ==> content == out && padding == ""
      invariant Carries(out, content, padding, Octets(data[..if i <= |data| then i else |data|]))
    {
      var quantum := OutputGroup(data, i);
      content, padding := Turn(data, i, out);
      out := out + quantum;
      i := i + 3;
    }
    assert data[..|data|] == data;
    CarriesIsCanonical(out, content, padding, Octets(data));
  }

  /** The write request body has room for the encoding of any file within the limit, with the whole overhead to spare. */
  const WORKSPACE_WRITE_BODY_OVERHEAD_BYTES: nat := 64 * 1024

  function WriteBodyLimit(maxFileBytes: nat): nat {
    (maxFileBytes + 2) / 3 * 4 + WORKSPACE_WRITE_BODY_OVERHEAD_BYTES
  }

  /** Base64 text of a file within the limit, padded or not, leaves the whole overhead of the request body free. */
  lemma {:induction false} FileFitsWriteBody(value: string, data: seq<bv8>, maxFileBytes: nat)
    requires WellFormed(value) && Decode(value) == Octets(data) && |data| <= maxFileBytes
    ensures |value| + WORKSPACE_WRITE_BODY_OVERHEAD_BYTES <= WriteBodyLimit(maxFileBytes)
    ensures |value| % 4 == 0 ==> |value| == (|data| + 2) / 3 * 4
  {
    hide DecodeLetters, EndsWith, Octet;
    WellFormedIsSplit(value);
    assert |Decode(value)| == |data|;
    CeilingGrows(|data|, maxFileBytes);
    FourForThree(|value| - PaddingOf(value), PaddingOf(value));
  }

  /** Letters and padding in groups of four hold a group of three octets each, the last one perhaps in part. */
  lemma FourForThree(letters: nat, padding: nat)
    requires (padding == 0 && letters % 4 != 1) || (padding == 1 && letters % 4 == 3) || (padding == 2 && letters % 4 == 2)
    ensures var groups := (letters * 3 / 4 + 2) / 3;
            letters + padding <= groups * 4 && ((letters + padding) % 4 == 0 ==> letters + padding == groups * 4)
  {
    var whole, rest := letters / 4, letters % 4;
    assert letters * 3 / 4 == whole * 3 + rest * 3 / 4;
  }

  lemma CeilingGrows(m: nat, n: nat)
    requires m <= n
    ensures (m + 2) / 3 <= (n + 2) / 3
  {
  }

  // ------------------------------------------------------ one text per content

  lemma {:induction false} QuantumIsInjective(s: string, t: string)
    requires |s| == 4 && |t| == 4 && AllLetters(s) && AllLetters(t)
    requires Quantum(s[0], s[1], s[2], s[3]) == Quantum(t[0], t[1], t[2], t[3])
    ensures s == t
  {
    hide Letter, InAlphabet;
    assert Letter(Value(s[0])) == s[0] && Letter(Value(t[0])) == t[0];
    assert Letter(Value(s[1])) == s[1] && Letter(Value(t[1])) == t[1];
    assert Letter(Value(s[2])) == s[2] && Letter(Value(t[2])) == t[2];
    assert Letter(Value(s[3])) == s[3] && Letter(Value(t[3])) == t[3];
    SameDigits(Value(s[0]), Value(s[1]), Value(s[2]), Value(s[3]), Value(t[0]), Value(t[1]), Value(t[2]), Value(t[3]));
  }

  lemma SameDigits(a: int, b: int, c: int, d: int, e: int, f: int, g: int, h: int)
    requires 0 <= a < 64 && 0 <= b < 64 && 0 <= c < 64 && 0 <= d < 64
    requires 0 <= e < 64 && 0 <= f < 64 && 0 <= g < 64 && 0 <= h < 64
    requires a * 0x4_0000 + b * 0x1000 + c * 0x40 + d == e * 0x4_0000 + f * 0x1000 + g * 0x40 + h
    ensures a == e && b == f && c == g && d == h
  {
  }

  /** The last letter has no bits beyond the octets. */
  predicate NoStrayBits(s: string)
    requires AllLetters(s)
  {
    (|s| % 4 == 3 ==> Value(s[|s| - 1]) % 4 == 0) && (|s| % 4 == 2 ==> Value(s[|s| - 1]) % 16 == 0)
  }

  lemma TwoOctetsOf(v: int, k: int)
    requires 0 <= v < 0x100_0000 && v == 0x100 * k
    ensures v == v / 0x1_0000 * 0x1_0000 + v / 0x100 % 0x100 * 0x100
  {
    assert v / 0x100 == k && v / 0x1_0000 == k / 0x100;
  }

  lemma OneOctetOf(v: int, k: int)
    requires 0 <= v < 0x100_0000 && v == 0x1_0000 * k
    ensures v == v / 0x1_0000 * 0x1_0000
  {
  }

  /** A short last group, completed to four letters, says the same. */
  function Completed(s: string): (r: string)
    requires AllLetters(s) && 2 <= |s| <= 3
    ensures |r| == 4 && AllLetters(r) && r[..|s|] == s
  {
    if |s| == 2 then s + ['A', 'A'] else s + ['A']
  }

  function Whole(s: string): int
    requires |s| == 4 && AllLetters(s)
  {
    Quantum(s[0], s[1], s[2], s[3])
  }

  lemma {:induction false} LastGroup(s: string)
    requires AllLetters(s) && 2 <= |s| <= 3 && NoStrayBits(s)
    ensures var d := DecodeLetters(s); |d| == |s| - 1 && Whole(Completed(s)) == d[0] * 0x1_0000 + (if |s| == 3 then d[1] * 0x100 else 0)
  {
    hide Value, InAlphabet;
    AIsZero();
    var v := Whole(Completed(s));
    if |s| == 3 {
      TwoOctetsOf(v, Value(s[0]) * 0x400 + Value(s[1]) * 0x10 + Value(s[2]) / 4);
    } else {
      OneOctetOf(v, Value(s[0]) * 4 + Value(s[1]) / 16);
    }
  }

  lemma {:induction false} FirstGroup(s: string)
    requires AllLetters(s) && |s| >= 4
    ensures var d := DecodeLetters(s);
            |d| >= 3 && Whole(s[..4]) == d[0] * 0x1_0000 + d[1] * 0x100 + d[2] && DecodeLetters(s[4..]) == d[3..]
  {
    hide Quantum, InAlphabet;
    var v := Whole(s[..4]);
    Recombined(v, v / 0x1_0000, v / 0x100 % 0x100, v % 0x100);
  }

  lemma AIsZero()
    ensures Value('A') == 0
  {
  }

  lemma {:induction false} DecodeIsInjective(s: string, t: string)
    requires AllLetters(s) && AllLetters(t) && |s| % 4 != 1 && |t| % 4 != 1 && NoStrayBits(s) && NoStrayBits(t)
    requires DecodeLetters(s) == DecodeLetters(t)
    ensures s == t
  {
    hide Value, InAlphabet, DecodeLetters, Whole, NoStrayBits;
    SameLength(|s|, |t|);
    if |s| >= 4 {
      FirstGroup(s);
      FirstGroup(t);
      SameEnd(s);
      SameEnd(t);
      DecodeIsInjective(s[4..], t[4..]);
      WholeIsInjective(s[..4], t[..4]);
      assert s == s[..4] + s[4..] && t == t[..4] + t[4..];
    } else if |s| >= 2 {
      LastGroup(s);
      LastGroup(t);
      WholeIsInjective(Completed(s), Completed(t));
    }
  }

  lemma SameEnd(s: string)
    requires AllLetters(s) && |s| >= 4
    ensures AllLetters(s[4..]) && (NoStrayBits(s) ==> NoStrayBits(s[4..]))
  {
    hide Value, InAlphabet;
  }

  lemma SameLength(m: nat, n: nat)
    requires m % 4 != 1 && n % 4 != 1 && m * 3 / 4 == n * 3 / 4
    ensures m == n
  {
  }

  lemma {:induction false} WholeIsInjective(s: string, t: string)
    requires |s| == 4 && |t| == 4 && AllLetters(s) && AllLetters(t) && Whole(s) == Whole(t)
    ensures s == t
  {
    hide Quantum, InAlphabet;
    QuantumIsInjective(s, t);
  }

  lemma Recombined(v: int, a: int, b: int, c: int)
    requires 0 <= v < 0x100_0000 && a == v / 0x1_0000 && b == v / 0x100 % 0x100 && c == v % 0x100
    ensures v == a * 0x1_0000 + b * 0x100 + c
  {
  }

  /** The padding that completes so many letters. */
  function Completing(letters: nat): string {
    if letters % 4 == 3 then "=" else if letters % 4 == 2 then "==" else ""
  }

  /** A canonical text is its letters, which have no stray bits, and the padding their number calls for. */
  lemma CanonicalParts(value: string)
    requires Canonical(value)
    ensures var s := value[..|value| - PaddingOf(value)];
            && AllLetters(s) && |s| % 4 != 1 && NoStrayBits(s) && Decode(value) == DecodeLetters(s) && value == s + Completing(|s|)
  {
    hide Value, InAlphabet, DecodeLetters, PaddingOf;
    WellFormedIsSplit(value);
  }

  /** Exactly one canonical text carries given octets: the encoder has no other output to choose. */
  lemma {:induction false} CanonicalIsUnique(value: string, other: string)
    requires Canonical(value) && Canonical(other) && Decode(value) == Decode(other)
    ensures value == other
  {
    hide Canonical, Decode, Value, InAlphabet, DecodeLetters, NoStrayBits, PaddingOf, Completing;
    CanonicalParts(value);
    CanonicalParts(other);
    DecodeIsInjective(value[..|value| - PaddingOf(value)], other[..|other| - PaddingOf(other)]);
  }

  lemma {:induction false} TwoLetters(w: char, x: char)
    requires InAlphabet(w) && InAlphabet(x)
    ensures var s := [w, x];
            && WellFormed(s) && PaddingOf(s) == 0 && WellFormed(s + "==") && PaddingOf(s + "==") == 2
            && Decode(s) == Decode(s + "==") == [Quantum(w, x, 'A', 'A') / 0x1_0000]
            && (Canonical(s + "==") <==> Value(x) % 16 == 0) && !Canonical(s)
  {
    hide Value, InAlphabet, EndsWith;
    var s := [w, x];
    assert Splits(s, s, "") && Splits(s + "==", s, "==");
    SplitIsUnique(s, s, "");
    SplitIsUnique(s + "==", s, "==");
  }

  /** The validator also lets through texts no encoder writes: stray bits in the last letter do not matter to it. */
  lemma StrayBitsExample()
    ensures WellFormed("QR==") && WellFormed("QQ==") && WellFormed("QQ")
    ensures Decode("QR==") == Decode("QQ==") == Decode("QQ") == [65]
    ensures Canonical("QQ==") && !Canonical("QR==") && !Canonical("QQ")
  {
    hide Canonical, Decode, WellFormed, PaddingOf;
    TwoLetters('Q', 'Q');
    TwoLetters('Q', 'R');
    assert ['Q', 'Q'] == "QQ" && ['Q', 'R'] == "QR" && "QQ" + "==" == "QQ==" && "QR" + "==" == "QR==";
  }
}
