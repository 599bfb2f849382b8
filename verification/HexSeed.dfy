/** Hexadecimal strings of the trusted-execution tuple generator: 64-bit seeds and binary measurements. */
module HexSeed {
  const TWO_64 := 0x1_0000_0000_0000_0000
  type Byte = b: nat | b < 256

  const LOWER := "0123456789abcdef"

  predicate IsLower(c: char) {
    '0' <= c <= '9' || 'a' <= c <= 'f'
  }

  predicate IsHex(c: char) {
    IsLower(c) || 'A' <= c <= 'F'
  }

  function Digit(d: nat): (c: char)
    requires d < 16
    ensures IsLower(c) && ValueOf(c) == d
  {
    if d < 10 then ('0' as int + d) as char else ('a' as int + d - 10) as char
  }

  /** 0 for other characters. */
  function ValueOf(c: char): (d: nat)
    ensures d < 16
  {
    if '0' <= c <= '9' then c as int - '0' as int
    else if 'a' <= c <= 'f' then c as int - 'a' as int + 10
    else if 'A' <= c <= 'F' then c as int - 'A' as int + 10
    else 0
  }

  predicate AllHex(s: string) {
    forall c :: c in s ==> IsHex(c)
  }

  /** The form of a seed: 16 lower-case digits. */
  predicate IsSeed(s: string) {
    |s| == 16 && forall c :: c in s ==> IsLower(c)
  }

  function Value(s: string): nat {
    if s == "" then 0 else 16 * Value(s[..|s| - 1]) + ValueOf(s[|s| - 1])
  }

  /** The lowest digits of a number, as the format %0<width>llx prints them if there are no more. */
  function Print(n: nat, width: nat): (s: string)
    ensures |s| == width && forall c :: c in s ==> IsLower(c)
  {
    if width == 0 then "" else Print(n / 16, width - 1) + [Digit(n % 16)]
  }

  function Power(k: nat): (p: nat)
    ensures p > 0
  {
    if k == 0 then 1 else 16 * Power(k - 1)
  }

  lemma {:induction false} ValueOfPrint(n: nat, width: nat)
    requires n < Power(width)
    ensures Value(Print(n, width)) == n
  {
    if width > 0 {
      ValueOfPrint(n / 16, width - 1);
      assert Print(n, width)[..width - 1] == Print(n / 16, width - 1);
    }
  }

  lemma {:induction false} PrintOfValue(s: string)
    requires forall c :: c in s ==> IsLower(c)
    ensures Value(s) < Power(|s|) && Print(Value(s), |s|) == s
  {
    if s != "" {
      var init, c := s[..|s| - 1], s[|s| - 1];
      assert s == init + [c] && c in s;
      PrintOfValue(init);
      assert Value(s) / 16 == Value(init) && Value(s) % 16 == ValueOf(c);
      LowerDigit(c);
    }
  }

  lemma LowerDigit(c: char)
    requires IsLower(c)
    ensures Digit(ValueOf(c)) == c
  {
  }

  lemma Power16()
    ensures Power(16) == TWO_64
  {
    assert Power(4) == 0x10000;
    assert Power(8) == 0x1_0000_0000;
    assert Power(12) == 0x1_0000_0000_0000;
  }

  // Addition of seeds.

  function HexPrefix(s: string): (p: string)
    ensures AllHex(p)
  {
    if s != "" && IsHex(s[0]) then [s[0]] + HexPrefix(s[1..]) else ""
  }

  /** strtoull with base 16: the digits up to the first other character, at most the largest 64-bit number. */
  function Strtoull(s: string): (n: nat)
    ensures n < TWO_64
  {
    var v := Value(HexPrefix(s));
    if v < TWO_64 then v else TWO_64 - 1
  }

  /** The value of an unsigned 64-bit number. */
  function Wrap(n: nat): (w: nat)
    ensures w < TWO_64
  {
    n % TWO_64
  }

  /** Both copies of the addition: parse, add with wrap-around, print 16 digits. */
  function AddHex(a: string, b: string): (sum: string)
    ensures IsSeed(sum)
  {
    Print(Wrap(Strtoull(a) + Strtoull(b)), 16)
  }

  lemma DigitValues(d: nat)
    requires d < 16
    ensures ValueOf("0123456789abcdef"[d]) == ValueOf("0123456789ABCDEF"[d]) == d
    ensures Digit(d) == "0123456789abcdef"[d]
  {
  }

  /** Whatever follows the digits is ignored, and too large a number counts as the largest one. */
  lemma {:induction false} DigitsOfPrefix(s: string, c: char, rest: string)
    requires AllHex(s) && !IsHex(c)
    ensures HexPrefix(s + [c] + rest) == s
    ensures Strtoull(s + [c] + rest) == if Value(s) < TWO_64 then Value(s) else TWO_64 - 1
  {
    if s == "" {
      assert (s + [c] + rest)[0] == c;
    } else {
      assert s[0] in s && (s + [c] + rest)[0] == s[0];
      DigitsOfPrefix(s[1..], c, rest);
      assert (s + [c] + rest)[1..] == s[1..] + [c] + rest && s == [s[0]] + s[1..];
    }
  }

  lemma {:induction false} WholePrefix(s: string)
    requires AllHex(s)
    ensures HexPrefix(s) == s
  {
    if s != "" {
      assert s[0] in s;
      WholePrefix(s[1..]);
    }
  }

  lemma SeedValue(s: string)
    requires IsSeed(s)
    ensures Strtoull(s) == Value(s) < TWO_64
  {
    Power16();
    PrintOfValue(s);
    WholePrefix(s);
  }

  lemma SeedPrints(s: string)
    requires IsSeed(s)
    ensures Value(s) < TWO_64 && Print(Value(s), 16) == s
  {
    Power16();
    PrintOfValue(s);
  }

  lemma NumberPrints(n: nat)
    requires n < TWO_64
    ensures IsSeed(Print(n, 16)) && Strtoull(Print(n, 16)) == n == Value(Print(n, 16))
  {
    Power16();
    ValueOfPrint(n, 16);
    WholePrefix(Print(n, 16));
  }

  /** Parsing a seed and printing a 64-bit number are mutually inverse. */
  lemma SeedsAreNumbers(s: string, n: nat)
    ensures IsSeed(s) ==> Print(Strtoull(s), 16) == s
    ensures n < TWO_64 ==> IsSeed(Print(n, 16)) && Strtoull(Print(n, 16)) == n
  {
    if IsSeed(s) {
      SeedValue(s);
      SeedPrints(s);
    }
    if n < TWO_64 {
      NumberPrints(n);
    }
  }

  /** For seeds it is addition modulo 2^64. */
  lemma AddHexAdds(a: string, b: string)
    requires IsSeed(a) && IsSeed(b)
    ensures Value(AddHex(a, b)) == Wrap(Value(a) + Value(b))
  {
    SeedValue(a);
    SeedValue(b);
    NumberPrints(Wrap(Strtoull(a) + Strtoull(b)));
  }

  lemma SameValue(a: string, b: string)
    requires IsSeed(a) && IsSeed(b) && Value(a) == Value(b)
    ensures a == b
  {
    SeedPrints(a);
    SeedPrints(b);
  }

  lemma AddModulo(x: int, y: int)
    ensures (x % TWO_64 + y) % TWO_64 == (x + y) % TWO_64
    ensures (y + x % TWO_64) % TWO_64 == (x + y) % TWO_64
  {
    var q := x / TWO_64;
    assert x == q * TWO_64 + x % TWO_64;
    ModuloShift(x % TWO_64 + y, q);
  }

  lemma ModuloShift(z: int, q: int)
    ensures (z + q * TWO_64) % TWO_64 == z % TWO_64
  {
    var r, d := z % TWO_64, z / TWO_64;
    assert z + q * TWO_64 == (d + q) * TWO_64 + r;
  }

  lemma WrapSum(x: nat, y: nat, z: nat)
    ensures Wrap(Wrap(x + y) + z) == Wrap(x + Wrap(y + z)) == Wrap(x + y + z)
  {
    AddModulo(x + y, z);
    AddModulo(y + z, x);
  }

  // Adding seeds is commutative and associative.

  lemma AddHexCommutes(a: string, b: string)
    requires IsSeed(a) && IsSeed(b)
    ensures AddHex(a, b) == AddHex(b, a)
  {
    AddHexAdds(a, b);
    AddHexAdds(b, a);
    SameValue(AddHex(a, b), AddHex(b, a));
  }

  lemma AddHexAssociates(a: string, b: string, c: string)
    requires IsSeed(a) && IsSeed(b) && IsSeed(c)
    ensures AddHex(AddHex(a, b), c) == AddHex(a, AddHex(b, c))
  {
    var ab, bc := AddHex(a, b), AddHex(b, c);
    AddHexAdds(a, b);
    AddHexAdds(b, c);
    AddHexAdds(ab, c);
    AddHexAdds(a, bc);
    WrapSum(Value(a), Value(b), Value(c));
    SameValue(AddHex(ab, c), AddHex(a, bc));
  }

  // Loops.

  /** A random seed: one digit for every random byte. */
  method GetRandomHex(hexStr: array<char>, length: nat, randomBytes: seq<nat>)
    requires length == |randomBytes| < hexStr.Length
    modifies hexStr
    ensures forall k :: 0 <= k < length ==> IsLower(hexStr[k]) && ValueOf(hexStr[k]) == randomBytes[k] % 16
    ensures hexStr[length] == '\0'
    ensures length == 16 ==> IsSeed(hexStr[..length])
  {
    for i := 0 to length
      invariant forall k :: 0 <= k < i ==> IsLower(hexStr[k]) && ValueOf(hexStr[k]) == randomBytes[k] % 16
    {
      assert LOWER[randomBytes[i] % 16] == Digit(randomBytes[i] % 16);
      hexStr[i] := LOWER[randomBytes[i] % 16];
    }
    hexStr[length] := '\0';
  }

  /** Parse a measurement of a fixed size. 0 exactly if the text has two hexadecimal digits for every byte; then the
      buffer holds the bytes, else at most a prefix of them was written. */
  method ParseHex(hex: string, buffer: array<Byte>) returns (r: int)
    modifies buffer
    ensures r == 0 || r == -1
    ensures r == 0 <==> |hex| == 2 * buffer.Length && AllHex(hex)
    ensures r == 0 ==> forall k :: 0 <= k < buffer.Length ==>
              buffer[k] == 16 * ValueOf(hex[2 * k]) + ValueOf(hex[2 * k + 1])
  {
    var maxLen := buffer.Length * 2 + 10;
    var hexLen := if |hex| < maxLen then |hex| else maxLen;
    if hexLen != buffer.Length * 2 || hexLen == maxLen {
      return -1;
    }
    for i := 0 to buffer.Length
      invariant forall k :: 0 <= k < 2 * i ==> IsHex(hex[k])
      invariant forall k :: 0 <= k < i ==> buffer[k] == 16 * ValueOf(hex[2 * k]) + ValueOf(hex[2 * k + 1])
    {
      if !IsHex(hex[2 * i]) || !IsHex(hex[2 * i + 1]) {
        assert hex[2 * i] in hex && hex[2 * i + 1] in hex;
        return -1;
      }
      buffer[i] := 16 * ValueOf(hex[2 * i]) + ValueOf(hex[2 * i + 1]);
    }
    r := 0;
  }

  /** The text of a measurement, two digits for every byte. */
  function HexOf(bytes: seq<Byte>): (s: string)
    ensures |s| == 2 * |bytes|
  {
    if bytes == [] then "" else HexOf(bytes[..|bytes| - 1]) + Print(bytes[|bytes| - 1], 2)
  }

  lemma TwoDigits(b: Byte)
    ensures var d := Print(b, 2); IsHex(d[0]) && IsHex(d[1]) && b == 16 * ValueOf(d[0]) + ValueOf(d[1])
  {
    assert Print(b / 16, 1) == Print(b / 256, 0) + [Digit(b / 16 % 16)];
    assert Print(b, 2) == [Digit(b / 16), Digit(b % 16)];
  }

  /** The two digits of every byte of a printed measurement give that byte. */
  lemma {:induction false} HexOfBytes(bytes: seq<Byte>)
    ensures AllHex(HexOf(bytes))
    ensures forall k :: 0 <= k < |bytes| ==>
              bytes[k] == 16 * ValueOf(HexOf(bytes)[2 * k]) + ValueOf(HexOf(bytes)[2 * k + 1])
  {
    if bytes != [] {
      var init, b := bytes[..|bytes| - 1], bytes[|bytes| - 1];
      HexOfBytes(init);
      TwoDigits(b);
      assert HexOf(bytes) == HexOf(init) + Print(b, 2);
    }
  }
}
