/**
 * IPv4 addresses and CIDR ranges as `ipInRange` handles them: PHP's
 * `FILTER_VALIDATE_IP` / `ip2long` for dotted quads, and the comparison of
 * the two addresses under `-1 << (32 - prefix)`.
 */
module Cidr {
  import opened Values
  import opened Strings

  /** 2^32: the number of IPv4 addresses. */
  const AddressSpace: nat := 0x1_0000_0000

  function Pow2(n: nat): (r: nat)
    ensures r >= 1
  {
    if n == 0 then 1 else 2 * Pow2(n - 1)
  }

  /**
   * One part of a dotted quad as PHP's IPv4 validator reads it: decimal
   * digits, no leading zero (that would be octal), at most 255.
   */
  predicate ValidOctet(p: string)
  {
    p != [] && AllDigits(p) && (p[0] != '0' || |p| == 1) && DigitsValue(p) <= 255
  }

  /** The 32-bit number of four octets, most significant first. */
  function QuadValue(a: nat, b: nat, c: nat, d: nat): (n: nat)
    requires a <= 255 && b <= 255 && c <= 255 && d <= 255
    ensures n < AddressSpace
  {
    ((a * 256 + b) * 256 + c) * 256 + d
  }

  /**
   * `ip2long($s)` for a string that `filter_var($s, FILTER_VALIDATE_IP)`
   * accepts as IPv4; `None` for any other string without ':'.
   */
  function ParseIPv4(s: string): (r: Option<nat>)
    ensures r.Some? ==> r.value < AddressSpace
  {
    QuadOf(Split(s, '.'))
  }

  /** The address spelled by the '.'-separated parts of a string: four valid octets, or none. */
  function QuadOf(parts: seq<string>): (r: Option<nat>)
    ensures r.Some? ==> r.value < AddressSpace
  {
    if |parts| == 4 && ValidOctet(parts[0]) && ValidOctet(parts[1]) && ValidOctet(parts[2]) && ValidOctet(parts[3]) then
      Some(QuadValue(DigitsValue(parts[0]), DigitsValue(parts[1]), DigitsValue(parts[2]), DigitsValue(parts[3])))
    else None
  }

  /**
   * `$a & (-1 << $shift)` for an address `$a` in [0, 2^32): the low `shift`
   * bits are cleared, and a shift of 32 or more clears them all.
   */
  function Masked(a: nat, shift: nat): (m: int)
    ensures shift < 32 ==> m == a - a % Pow2(shift)
    ensures shift >= 32 ==> m == 0
  {
    if shift >= 32 then 0 else (a / Pow2(shift)) * Pow2(shift)
  }

  /** The prefix length written after the first '/' of a range, read by `(int)`. */
  function PrefixOf(range: string): int
    requires '/' in range
  {
    IntCast(Split(range, '/')[1])
  }

  /** The part of a range before its first '/'. */
  function SubnetOf(range: string): string
    requires '/' in range
  {
    Split(range, '/')[0]
  }

  /**
   * PHP's IPv6 validator, which `filter_var($s, FILTER_VALIDATE_IP)` applies
   * to a string holding ':'; the model takes it as given.
   */
  type Ipv6Validator = string -> bool

  /** A string PHP's IPv4 validator accepts: a dotted quad, so without ':'. */
  predicate IsIPv4(s: string)
  {
    ':' !in s && ParseIPv4(s).Some?
  }

  /**
   * `filter_var($s, FILTER_VALIDATE_IP)`: a string with ':' is judged by
   * the IPv6 validator, any other must be a dotted quad.
   */
  predicate ValidIp(s: string, v6: Ipv6Validator)
  {
    if ':' in s then v6(s) else IsIPv4(s)
  }

  /**
   * `ip2long($s)` used as an integer in `&`: the address of a dotted quad;
   * for any other string `ip2long` gives false, which `&` reads as 0.
   */
  function LongOf(s: string): (n: nat)
    ensures n < AddressSpace
    ensures !IsIPv4(s) ==> n == 0
  {
    if IsIPv4(s) then ParseIPv4(s).value else 0
  }

  /** What `ipInRange` does: answer, or throw `ArithmeticError` for a shift by a negative number. */
  datatype RangeTest = Answer(inRange: bool) | NegativeShift

  /**
   * `ipInRange($ip, $range)`: false without a '/', or when `filter_var`
   * rejects the address or the part before the '/'; a prefix above 32 makes
   * `-1 << (32 - prefix)` throw; otherwise whether both `ip2long` values
   * agree once masked.
   */
  function IpInRange(ip: string, range: string, v6: Ipv6Validator): (r: RangeTest)
    ensures r.NegativeShift? <==>
      '/' in range && ValidIp(ip, v6) && ValidIp(SubnetOf(range), v6) && PrefixOf(range) > 32
    ensures r == Answer(true) ==> '/' in range && ValidIp(ip, v6) && ValidIp(SubnetOf(range), v6)
  {
    if '/' !in range then Answer(false)
    else if !ValidIp(ip, v6) || !ValidIp(SubnetOf(range), v6) then Answer(false)
    else if PrefixOf(range) > 32 then NegativeShift
    else Answer(Masked(LongOf(ip), 32 - PrefixOf(range)) == Masked(LongOf(SubnetOf(range)), 32 - PrefixOf(range)))
  }

  lemma MulCancel(x: int, y: int, k: int)
    requires k > 0 && x * k == y * k
    ensures x == y
  {
    assert (x - y) * k == 0;
  }

  /** Two addresses agree once masked exactly when they agree above the cleared bits. */
  lemma MaskedAgree(a: nat, b: nat, shift: nat)
    requires a < AddressSpace && b < AddressSpace && shift <= 32
    ensures Masked(a, shift) == Masked(b, shift) <==> a / Pow2(shift) == b / Pow2(shift)
  {
    var k := Pow2(shift);
    if shift == 32 {
      Pow2Of32();
      assert a / k == 0 && b / k == 0;
    } else if Masked(a, shift) == Masked(b, shift) {
      MulCancel(a / k, b / k, k);
    }
  }

  /**
   * For two dotted quads and a prefix `p` in 0..32, an address is in the
   * range exactly when its top `p` bits are those of the subnet.
   */
  lemma InRangeIffTopBitsAgree(ip: string, range: string, v6: Ipv6Validator)
    requires '/' in range && IsIPv4(ip) && IsIPv4(SubnetOf(range))
    requires 0 <= PrefixOf(range) <= 32
    ensures var a := ParseIPv4(ip).value;
      var b := ParseIPv4(SubnetOf(range)).value;
      var k := Pow2(32 - PrefixOf(range));
      IpInRange(ip, range, v6) == Answer(a / k == b / k)
  {
    MaskedAgree(ParseIPv4(ip).value, ParseIPv4(SubnetOf(range)).value, 32 - PrefixOf(range));
  }

  lemma Pow2Of32()
    ensures Pow2(32) == AddressSpace
  {
    assert Pow2(8) == 256;
    assert Pow2(16) == 65536;
    assert Pow2(24) == 16777216;
  }

  /** A prefix of 32 admits exactly the subnet address itself. */
  lemma FullPrefixIsExact(ip: string, range: string, v6: Ipv6Validator)
    requires '/' in range && PrefixOf(range) == 32 && IsIPv4(ip) && IsIPv4(SubnetOf(range))
    ensures IpInRange(ip, range, v6) == Answer(ParseIPv4(ip) == ParseIPv4(SubnetOf(range)))
  {
  }

  /**
   * A prefix of 0 or less (a non-numeric one reads as 0) admits every
   * address `filter_var` accepts, IPv6 ones included.
   */
  lemma EmptyPrefixAdmitsAll(ip: string, range: string, v6: Ipv6Validator)
    requires '/' in range && PrefixOf(range) <= 0
    requires ValidIp(ip, v6) && ValidIp(SubnetOf(range), v6)
    ensures IpInRange(ip, range, v6) == Answer(true)
  {
  }

  /** An address `filter_var` rejects, or a range whose subnet it rejects, is never in range and never throws. */
  lemma InvalidNeverInRange(ip: string, range: string, v6: Ipv6Validator)
    requires !ValidIp(ip, v6) || ('/' in range && !ValidIp(SubnetOf(range), v6))
    ensures IpInRange(ip, range, v6) == Answer(false)
  {
  }

  /** A range with a prefix above 32 throws for every valid address and subnet, an IPv4 client included. */
  lemma LongPrefixThrows(ip: string, range: string, v6: Ipv6Validator)
    requires '/' in range && PrefixOf(range) > 32
    requires ValidIp(ip, v6) && ValidIp(SubnetOf(range), v6)
    ensures IpInRange(ip, range, v6) == NegativeShift
  {
  }

  /**
   * As written, every IPv6 address `filter_var` accepts is in any range
   * whose masked subnet is 0: `ip2long` gives false for it and `false & $mask`
   * is 0. Such ranges are the IPv6 ranges with a prefix of at most 32 and
   * IPv4 ranges such as 0.0.0.0/8.
   */
  lemma Ipv6InZeroRange(ip: string, range: string, v6: Ipv6Validator)
    requires ':' in ip && v6(ip)
    requires '/' in range && 0 <= PrefixOf(range) <= 32 && ValidIp(SubnetOf(range), v6)
    requires Masked(LongOf(SubnetOf(range)), 32 - PrefixOf(range)) == 0
    ensures IpInRange(ip, range, v6) == Answer(true)
  {
    assert LongOf(ip) == 0;
    assert Masked(0, 32 - PrefixOf(range)) == 0;
  }

  /** As written, an IPv6 range of prefix at most 32 holds every valid IPv6 address. */
  lemma Ipv6RangeHoldsAllIpv6(ip: string, range: string, v6: Ipv6Validator)
    requires ':' in ip && v6(ip)
    requires '/' in range && 0 <= PrefixOf(range) <= 32
    requires ':' in SubnetOf(range) && v6(SubnetOf(range))
    ensures IpInRange(ip, range, v6) == Answer(true)
  {
    Ipv6InZeroRange(ip, range, v6);
  }

  /**
   * `ipInRange` as evidently intended: an address `ip2long` cannot read is
   * not in any range, rather than being compared as 0.
   */
  function IpInRangeIPv4(ip: string, range: string, v6: Ipv6Validator): (r: RangeTest)
    ensures r == Answer(true) ==> '/' in range && IsIPv4(ip) && IsIPv4(SubnetOf(range))
    ensures '/' in range && IsIPv4(ip) && IsIPv4(SubnetOf(range)) ==> r == IpInRange(ip, range, v6)
    ensures r.NegativeShift? <==> IpInRange(ip, range, v6).NegativeShift?
    ensures r == Answer(true) ==> IpInRange(ip, range, v6) == Answer(true)
  {
    if '/' !in range then Answer(false)
    else if !ValidIp(ip, v6) || !ValidIp(SubnetOf(range), v6) then Answer(false)
    else if PrefixOf(range) > 32 then NegativeShift
    else if !IsIPv4(ip) || !IsIPv4(SubnetOf(range)) then Answer(false)
    else Answer(Masked(LongOf(ip), 32 - PrefixOf(range)) == Masked(LongOf(SubnetOf(range)), 32 - PrefixOf(range)))
  }

  /** The intended test admits no IPv6 address into any range. */
  lemma IntendedRangeRefusesIpv6(ip: string, range: string, v6: Ipv6Validator)
    requires ':' in ip
    ensures IpInRangeIPv4(ip, range, v6) != Answer(true)
  {
  }

  /** A dotted quad splits into its four parts. */
  lemma SplitQuad(s: string, p0: string, p1: string, p2: string, p3: string)
    requires s == p0 + "." + p1 + "." + p2 + "." + p3
    requires '.' !in p0 && '.' !in p1 && '.' !in p2 && '.' !in p3
    ensures Split(s, '.') == [p0, p1, p2, p3]
  {
    var t2 := p2 + ['.'] + p3;
    var t1 := p1 + ['.'] + t2;
    assert s == p0 + ['.'] + t1;
    SplitWithoutSeparator(p3, '.');
    SplitAtFirst(p2, '.', p3);
    SplitAtFirst(p1, '.', t2);
    SplitAtFirst(p0, '.', t1);
  }

  /** A range "subnet/prefix" with a single '/' splits into its two parts. */
  lemma SplitRange(range: string, subnet: string, prefix: string)
    requires range == subnet + "/" + prefix && '/' !in subnet && '/' !in prefix
    ensures Split(range, '/') == [subnet, prefix]
  {
    assert range == subnet + ['/'] + prefix;
    SplitAtFirst(subnet, '/', prefix);
    SplitWithoutSeparator(prefix, '/');
  }

  /** Appending a digit multiplies the value by ten and adds the digit. */
  lemma DigitsValueSnoc(s: string, d: char)
    requires AllDigits(s) && IsDigit(d)
    ensures AllDigits(s + [d]) && DigitsValue(s + [d]) == DigitsValue(s) * 10 + (d as int - '0' as int)
  {
    assert (s + [d])[..|s|] == s;
  }

  /** The octets of the example addresses. */
  lemma ExampleOctets()
    ensures ValidOctet("192") && DigitsValue("192") == 192
    ensures ValidOctet("168") && DigitsValue("168") == 168
    ensures ValidOctet("1") && DigitsValue("1") == 1
    ensures ValidOctet("2") && DigitsValue("2") == 2
    ensures ValidOctet("5") && DigitsValue("5") == 5
    ensures ValidOctet("0") && DigitsValue("0") == 0
    ensures AllDigits("24") && DigitsValue("24") == 24
  {
    DigitsValueSnoc([], '1');
    DigitsValueSnoc("1", '9');
    DigitsValueSnoc("19", '2');
    assert "19" + ['2'] == "192";
    DigitsValueSnoc("1", '6');
    DigitsValueSnoc("16", '8');
    assert "16" + ['8'] == "168";
    DigitsValueSnoc([], '2');
    DigitsValueSnoc("2", '4');
    assert "2" + ['4'] == "24";
    DigitsValueSnoc([], '5');
    DigitsValueSnoc([], '0');
  }

  /** A string that splits into four valid octets is the address they spell. */
  lemma ParseQuad(s: string, p0: string, p1: string, p2: string, p3: string)
    requires Split(s, '.') == [p0, p1, p2, p3]
    requires ValidOctet(p0) && ValidOctet(p1) && ValidOctet(p2) && ValidOctet(p3)
    ensures ParseIPv4(s) == Some(QuadValue(DigitsValue(p0), DigitsValue(p1), DigitsValue(p2), DigitsValue(p3)))
  {
    QuadOfOctets(p0, p1, p2, p3);
  }

  lemma QuadOfOctets(p0: string, p1: string, p2: string, p3: string)
    requires ValidOctet(p0) && ValidOctet(p1) && ValidOctet(p2) && ValidOctet(p3)
    ensures QuadOf([p0, p1, p2, p3]) == Some(QuadValue(DigitsValue(p0), DigitsValue(p1), DigitsValue(p2), DigitsValue(p3)))
  {
    var parts := [p0, p1, p2, p3];
    assert parts[0] == p0 && parts[1] == p1 && parts[2] == p2 && parts[3] == p3;
  }

  /** A dotted quad of valid octets splits into them. */
  lemma SplitOctets(s: string, p0: string, p1: string, p2: string, p3: string)
    requires s == p0 + "." + p1 + "." + p2 + "." + p3
    requires ValidOctet(p0) && ValidOctet(p1) && ValidOctet(p2) && ValidOctet(p3)
    ensures Split(s, '.') == [p0, p1, p2, p3]
  {
    AllDigitsLacks(p0, '.');
    AllDigitsLacks(p1, '.');
    AllDigitsLacks(p2, '.');
    AllDigitsLacks(p3, '.');
    SplitQuad(s, p0, p1, p2, p3);
  }

  /** A dotted quad lacks any character other than '.' that none of its parts holds. */
  lemma QuadLacks(s: string, p0: string, p1: string, p2: string, p3: string, c: char)
    requires s == p0 + "." + p1 + "." + p2 + "." + p3
    requires c != '.' && c !in p0 && c !in p1 && c !in p2 && c !in p3
    ensures c !in s
  {
    var dot: string := ".";
    assert c !in dot;
    var t := p2 + dot + p3;
    assert c !in t;
    var u := p1 + dot + t;
    assert c !in u;
    assert s == p0 + dot + u;
  }

  /** A dotted quad of valid octets holds neither '/' nor ':', and is the address its octets spell. */
  lemma DottedQuad(s: string, p0: string, p1: string, p2: string, p3: string)
    requires s == p0 + "." + p1 + "." + p2 + "." + p3
    requires ValidOctet(p0) && ValidOctet(p1) && ValidOctet(p2) && ValidOctet(p3)
    ensures '/' !in s && ':' !in s
    ensures ParseIPv4(s) == Some(QuadValue(DigitsValue(p0), DigitsValue(p1), DigitsValue(p2), DigitsValue(p3)))
  {
    AllDigitsLacks(p0, '/');
    AllDigitsLacks(p1, '/');
    AllDigitsLacks(p2, '/');
    AllDigitsLacks(p3, '/');
    AllDigitsLacks(p0, ':');
    AllDigitsLacks(p1, ':');
    AllDigitsLacks(p2, ':');
    AllDigitsLacks(p3, ':');
    QuadLacks(s, p0, p1, p2, p3, '/');
    QuadLacks(s, p0, p1, p2, p3, ':');
    SplitOctets(s, p0, p1, p2, p3);
    ParseQuad(s, p0, p1, p2, p3);
  }

  /** The range 192.168.1.0/24 as `ipInRange` reads it. */
  lemma ExampleRange(range: string)
    requires range == "192" + "." + "168" + "." + "1" + "." + "0" + "/" + "24"
    ensures '/' in range && PrefixOf(range) == 24
    ensures IsIPv4(SubnetOf(range)) && ParseIPv4(SubnetOf(range)) == Some(QuadValue(192, 168, 1, 0))
  {
    var subnet := "192" + "." + "168" + "." + "1" + "." + "0";
    ExampleOctets();
    DottedQuad(subnet, "192", "168", "1", "0");
    AllDigitsLacks("24", '/');
    SplitRange(range, subnet, "24");
    IntCastOfDigits("24");
    assert PrefixOf(range) == 24;
  }

  /** 192.168.1.5 is in 192.168.1.0/24. */
  lemma SubnetExampleInside(x: string, range: string, v6: Ipv6Validator)
    requires x == "192" + "." + "168" + "." + "1" + "." + "5"
    requires range == "192" + "." + "168" + "." + "1" + "." + "0" + "/" + "24"
    ensures IpInRange(x, range, v6) == Answer(true)
  {
    ExampleRange(range);
    ExampleOctets();
    DottedQuad(x, "192", "168", "1", "5");
    InRangeIffTopBitsAgree(x, range, v6);
    assert Pow2(8) == 256;
    assert QuadValue(192, 168, 1, 5) / 256 == 12625921 == QuadValue(192, 168, 1, 0) / 256;
  }

  /** 192.168.2.5 is not in 192.168.1.0/24. */
  lemma SubnetExampleOutside(y: string, range: string, v6: Ipv6Validator)
    requires y == "192" + "." + "168" + "." + "2" + "." + "5"
    requires range == "192" + "." + "168" + "." + "1" + "." + "0" + "/" + "24"
    ensures IpInRange(y, range, v6) == Answer(false)
  {
    ExampleRange(range);
    ExampleOctets();
    DottedQuad(y, "192", "168", "2", "5");
    InRangeIffTopBitsAgree(y, range, v6);
    assert Pow2(8) == 256;
    assert QuadValue(192, 168, 2, 5) / 256 == 12625922;
    assert QuadValue(192, 168, 1, 0) / 256 == 12625921;
  }

  /**
   * The address "::1" is in the range "2001:db8::/32" for any IPv6
   * validator that accepts both (PHP's does).
   */
  lemma Ipv6LoopbackInDocumentationRange(ip: string, range: string, v6: Ipv6Validator)
    requires ip == "::1" && range == "2001:db8::" + "/" + "32"
    requires v6(ip) && v6("2001:db8::")
    ensures IpInRange(ip, range, v6) == Answer(true)
    ensures IpInRangeIPv4(ip, range, v6) == Answer(false)
  {
    var subnet := "2001:db8::";
    assert ':' in ip && ':' in subnet && '/' !in subnet;
    DigitsValueSnoc([], '3');
    DigitsValueSnoc("3", '2');
    assert "3" + ['2'] == "32";
    AllDigitsLacks("32", '/');
    SplitRange(range, subnet, "32");
    IntCastOfDigits("32");
    assert PrefixOf(range) == 32;
    Ipv6RangeHoldsAllIpv6(ip, range, v6);
  }
}
