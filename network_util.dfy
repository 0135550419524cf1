/** Choosing the address this client reports: subnet membership, the
    scoring of IPv4 addresses, and the pick over the machine's addresses
    (which are given, not enumerated). */
module NetworkUtils {
  import opened Wrappers
  import opened Errors
  import opened Text

  type Octet = x: int | 0 <= x < 256
  type Ipv6Bytes = s: seq<Octet> | |s| == 16 witness seq(16, i => 0)

  /** An `IPAddress`: its bytes per address family; any other family is
      kept by its number. */
  datatype IPAddress = V4(a: Octet, b: Octet, c: Octet, d: Octet) | V6(bytes: Ipv6Bytes) | OtherFamily(family: nat)

  /** The two addresses' `AddressFamily` is the same. */
  predicate SameFamily(x: IPAddress, y: IPAddress) {
    match x
    case V4(_, _, _, _) => y.V4?
    case V6(_) => y.V6?
    case OtherFamily(f) => y.OtherFamily? && y.family == f
  }

  function Pow2(n: nat): (r: nat)
    ensures r >= 1
  {
    if n == 0 then 1 else 2 * Pow2(n - 1)
  }

  /** The 32-bit value `BitConverter.ToUInt32` reads from the reversed
      address bytes on a little-endian machine: the big-endian value. */
  function Value4(ip: IPAddress): nat
    requires ip.V4?
  {
    ip.a * 0x100_0000 + ip.b * 0x1_0000 + ip.c * 0x100 + ip.d
  }

  /** Bit `i` of an IPv6 address in `BitArray` order: byte by byte, each
      byte from its least significant bit. */
  function BitArrayBit(bytes: Ipv6Bytes, i: nat): nat
    requires i < 128
  {
    (bytes[i / 8] / Pow2(i % 8)) % 2
  }

  /** Bit `i` of an IPv6 address in network order: byte by byte, each byte
      from its most significant bit, as prefix lengths count. */
  function NetworkBit(bytes: Ipv6Bytes, i: nat): nat
    requires i < 128
  {
    (bytes[i / 8] / Pow2(7 - i % 8)) % 2
  }

  /** The first position of `c` in `s`. */
  function IndexOf(s: string, c: char): (r: Option<nat>)
    ensures r.Some? ==> r.value < |s| && s[r.value] == c && c !in s[..r.value]
    ensures r.None? ==> c !in s
  {
    if s == [] then None
    else if s[0] == c then Some(0)
    else match IndexOf(s[1..], c)
      case None => None
      case Some(i) =>
        assert s[..i + 1] == [s[0]] + s[1..][..i];
        Some(i + 1)
  }

  /** A character found at `k` and nowhere before is what `IndexOf` finds. */
  lemma {:induction false} IndexOfFirst(s: string, c: char, k: nat)
    requires k < |s| && s[k] == c && c !in s[..k]
    ensures IndexOf(s, c) == Some(k)
    decreases k
  {
    if k > 0 {
      assert s[0] == s[..k][0];
      assert s[1..][..k - 1] == s[..k][1..];
      IndexOfFirst(s[1..], c, k - 1);
    }
  }

  /** What `IsInSubnet` reads from the mask before it compares bits: a
      mask address of another family than the address, or the mask address
      with the prefix length. */
  datatype MaskParse = Mismatch | Mask(maskAddress: IPAddress, maskLength: int)

  /** The steps of `IsInSubnet` before the comparison: the mask must hold a
      `/`; the address before it is parsed (`parse` stands for
      `IPAddress.Parse`, `None` for input it rejects); a family mismatch
      settles the answer before the length is read; the length is read
      with `int.Parse`. */
  function ParseMask(address: IPAddress, subnetMask: string, parse: string -> Option<IPAddress>): (r: Outcome<MaskParse>)
    ensures '/' !in subnetMask ==> r == Failure(NotSupported)
    ensures r.Success? && r.value.Mask? ==> SameFamily(r.value.maskAddress, address)
  {
    match IndexOf(subnetMask, '/')
    case None => Failure(NotSupported)
    case Some(slash) =>
      var maskAddress := parse(subnetMask[..slash]);
      if maskAddress.None? then Failure(Format)
      else if !SameFamily(maskAddress.value, address) then Success(Mismatch)
      else
        var maskLength := ParseInt32(subnetMask[slash + 1..]);
        if maskLength.Failure? then Failure(maskLength.error)
        else Success(Mask(maskAddress.value, maskLength.value))
  }

  /** A mask written as an address, `/` and a length is cut at the `/`. */
  lemma ParseMaskOf(address: IPAddress, maskPart: string, lengthPart: string, parse: string -> Option<IPAddress>)
    requires '/' !in maskPart
    ensures var s := maskPart + "/" + lengthPart;
            && IndexOf(s, '/') == Some(|maskPart|)
            && s[..|maskPart|] == maskPart && s[|maskPart| + 1..] == lengthPart
  {
    var s := maskPart + "/" + lengthPart;
    assert s[..|maskPart|] == maskPart;
    assert s[|maskPart| + 1..] == lengthPart;
    IndexOfFirst(s, '/', |maskPart|);
  }

  /** A mask of the address's own family with a readable length. */
  lemma ParseMaskMask(address: IPAddress, maskPart: string, lengthPart: string, parse: string -> Option<IPAddress>,
                      mask: IPAddress, maskLength: int)
    requires '/' !in maskPart
    requires parse(maskPart) == Some(mask) && SameFamily(mask, address)
    requires ParseInt32(lengthPart) == Success(maskLength)
    ensures ParseMask(address, maskPart + "/" + lengthPart, parse) == Success(Mask(mask, maskLength))
  {
    ParseMaskOf(address, maskPart, lengthPart, parse);
  }

  /** A family mismatch answers before the prefix length is looked at, so
      it holds even when the length is not a number. */
  lemma MismatchIgnoresLength(address: IPAddress, maskPart: string, lengthPart: string, parse: string -> Option<IPAddress>)
    requires '/' !in maskPart
    requires parse(maskPart).Some? && !SameFamily(parse(maskPart).value, address)
    ensures ParseMask(address, maskPart + "/" + lengthPart, parse) == Success(Mismatch)
  {
    ParseMaskOf(address, maskPart, lengthPart, parse);
  }

  /** The IPv6 comparison loop as written, from bit `i` on: the first
      `maskLength` bits in `BitArray` order must match; asking for a bit
      past the 128th throws. */
  function ComparePrefixFrom(mask: Ipv6Bytes, ip: Ipv6Bytes, i: nat, maskLength: int): Outcome<bool>
    requires i <= 128
    decreases if maskLength > i then maskLength - i else 0
  {
    if i >= maskLength then Success(true)
    else if i >= 128 then Failure(ArgumentOutOfRange("index"))
    else if BitArrayBit(ip, i) != BitArrayBit(mask, i) then Success(false)
    else ComparePrefixFrom(mask, ip, i + 1, maskLength)
  }

  /** All bits before `n` agree in `BitArray` order. */
  predicate BitArrayPrefixEqual(mask: Ipv6Bytes, ip: Ipv6Bytes, n: nat)
    requires n <= 128
  {
    forall i :: 0 <= i < n ==> BitArrayBit(ip, i) == BitArrayBit(mask, i)
  }

  function MinNat(x: nat, y: nat): nat {
    if x <= y then x else y
  }

  /** The loop answers true exactly when the prefix is at most 128 bits and
      those bits agree, and throws exactly when it is longer and all 128
      bits agree. */
  lemma {:induction false} ComparePrefixMeaning(mask: Ipv6Bytes, ip: Ipv6Bytes, i: nat, maskLength: int)
    requires i <= 128
    requires i <= maskLength ==> BitArrayPrefixEqual(mask, ip, i)
    ensures var n := if maskLength <= 0 then 0 else MinNat(maskLength, 128);
            && (ComparePrefixFrom(mask, ip, i, maskLength) == Success(true) <==>
                  maskLength <= 128 && (i >= maskLength || BitArrayPrefixEqual(mask, ip, n)))
            && (ComparePrefixFrom(mask, ip, i, maskLength).Failure? <==>
                  maskLength > 128 && BitArrayPrefixEqual(mask, ip, 128))
            && (ComparePrefixFrom(mask, ip, i, maskLength).Failure? ==>
                  ComparePrefixFrom(mask, ip, i, maskLength) == Failure(ArgumentOutOfRange("index")))
    decreases if maskLength > i then maskLength - i else 0
  {
    if i < maskLength && i < 128 && BitArrayBit(ip, i) == BitArrayBit(mask, i) {
      ComparePrefixMeaning(mask, ip, i + 1, maskLength);
    }
  }

  /** The low `shift` bits aside, `x` and `y` agree: what comparing two
      32-bit values masked with `uint.MaxValue << shift` tests. */
  predicate AgreeAbove(x: nat, y: nat, shift: nat) {
    x / Pow2(shift) == y / Pow2(shift)
  }

  /** The comparison of `IsInSubnet` as written, once the mask is read: for
      IPv4 the mask is `uint.MaxValue << (32 - maskLength)`, whose shift
      count C# takes modulo 32; for IPv6 the loop above; other families are
      not supported. */
  function CompareAsWritten(mask: IPAddress, address: IPAddress, maskLength: int): Outcome<bool>
    requires SameFamily(mask, address)
  {
    match mask
    case V4(_, _, _, _) => Success(AgreeAbove(Value4(mask), Value4(address), (32 - maskLength) % 32))
    case V6(m) => ComparePrefixFrom(m, address.bytes, 0, maskLength)
    case OtherFamily(_) => Failure(NotSupported)
  }

  /** `IsInSubnet` as written. */
  function InSubnetAsWritten(address: IPAddress, subnetMask: string, parse: string -> Option<IPAddress>): Outcome<bool> {
    var m := ParseMask(address, subnetMask, parse);
    if m.Failure? then Failure(m.error)
    else if m.value.Mismatch? then Success(false)
    else CompareAsWritten(m.value.maskAddress, address, m.value.maskLength)
  }

  /** The comparison loop of the IPv6 branch. */
  method ComparePrefixBits(mask: Ipv6Bytes, ip: Ipv6Bytes, maskLength: int) returns (r: Outcome<bool>)
    ensures r == ComparePrefixFrom(mask, ip, 0, maskLength)
  {
    var maskIndex := 0;
    while maskIndex < maskLength
      invariant 0 <= maskIndex <= 128
      invariant ComparePrefixFrom(mask, ip, maskIndex, maskLength) == ComparePrefixFrom(mask, ip, 0, maskLength)
      decreases maskLength - maskIndex
    {
      if maskIndex >= 128 {
        return Failure(ArgumentOutOfRange("index"));
      }
      if BitArrayBit(ip, maskIndex) != BitArrayBit(mask, maskIndex) {
        return Success(false);
      }
      maskIndex := maskIndex + 1;
    }
    return Success(true);
  }

  /** `IsInSubnet` as the source has it. */
  method IsInSubnetAsWritten(address: IPAddress, subnetMask: string, parse: string -> Option<IPAddress>) returns (r: Outcome<bool>)
    ensures r == InSubnetAsWritten(address, subnetMask, parse)
  {
    var m := ParseMask(address, subnetMask, parse);
    if m.Failure? {
      return Failure(m.error);
    }
    if m.value.Mismatch? {
      return Success(false);
    }
    var mask := m.value.maskAddress;
    if mask.V4? {
      r := Success(AgreeAbove(Value4(mask), Value4(address), (32 - m.value.maskLength) % 32));
    } else if mask.V6? {
      r := ComparePrefixBits(mask.bytes, address.bytes, m.value.maskLength);
    } else {
      r := Failure(NotSupported);
    }
  }

  /** The comparison as intended: a prefix length outside the family's
      range is refused, and the address is in the subnet when its first
      `maskLength` bits in network order are the mask's; for IPv4 that is
      agreeing above the low `32 - maskLength` bits. */
  function CompareIntended(mask: IPAddress, address: IPAddress, maskLength: int): Outcome<bool>
    requires SameFamily(mask, address)
  {
    match mask
    case V4(_, _, _, _) =>
      if maskLength < 0 || maskLength > 32 then Failure(ArgumentOutOfRange("subnetMask"))
      else Success(AgreeAbove(Value4(mask), Value4(address), 32 - maskLength))
    case V6(m) =>
      if maskLength < 0 || maskLength > 128 then Failure(ArgumentOutOfRange("subnetMask"))
      else Success(forall i :: 0 <= i < maskLength ==> NetworkBit(address.bytes, i) == NetworkBit(m, i))
    case OtherFamily(_) => Failure(NotSupported)
  }

  /** `IsInSubnet` as intended. */
  function InSubnet(address: IPAddress, subnetMask: string, parse: string -> Option<IPAddress>): Outcome<bool> {
    var m := ParseMask(address, subnetMask, parse);
    if m.Failure? then Failure(m.error)
    else if m.value.Mismatch? then Success(false)
    else CompareIntended(m.value.maskAddress, address, m.value.maskLength)
  }

  /** For IPv4 the comparison as written and as intended agree on every
      prefix length from 1 to 32; they part only outside that range. */
  lemma V4AgreesOnPositiveLengths(mask: IPAddress, address: IPAddress, maskLength: int)
    requires mask.V4? && address.V4? && 1 <= maskLength <= 32
    ensures CompareAsWritten(mask, address, maskLength) == CompareIntended(mask, address, maskLength)
  {
    assert (32 - maskLength) % 32 == 32 - maskLength;
  }

  /** Dividing by 2^32 leaves nothing of an IPv4 value. */
  lemma Pow2Of32()
    ensures Pow2(32) == 0x1_0000_0000
  {
    assert Pow2(8) == 256;
    assert Pow2(16) == 256 * 256 by {
      Pow2Add(8, 8);
    }
    Pow2Add(16, 16);
  }

  lemma {:induction false} Pow2Add(x: nat, y: nat)
    ensures Pow2(x + y) == Pow2(x) * Pow2(y)
    decreases x
  {
    if x > 0 {
      Pow2Add(x - 1, y);
    }
  }

  /** Agreeing above no bit is equality; above all 32 bits, nothing. */
  lemma V4AgreeExtremes(mask: IPAddress, address: IPAddress)
    requires mask.V4? && address.V4?
    ensures AgreeAbove(Value4(mask), Value4(address), 32)
    ensures AgreeAbove(Value4(mask), Value4(address), 0) <==> mask == address
  {
    Pow2Of32();
    var x, y := Value4(mask), Value4(address);
    assert x < 0x1_0000_0000 && y < 0x1_0000_0000;
    assert x / Pow2(32) == 0 && y / Pow2(32) == 0;
    assert Pow2(0) == 1;
    assert x / Pow2(0) == x && y / Pow2(0) == y;
    if x == y {
      Value4Injective(mask, address);
    }
  }

  /** Distinct IPv4 addresses have distinct numbers. */
  lemma Value4Injective(x: IPAddress, y: IPAddress)
    requires x.V4? && y.V4? && Value4(x) == Value4(y)
    ensures x == y
  {
    assert x.a == y.a;
    assert x.b == y.b;
    assert x.c == y.c;
  }

  /** As intended, a /0 subnet holds every IPv4 address, and a /32 subnet
      only its own address. */
  lemma V4PrefixExtremes(mask: IPAddress, address: IPAddress)
    requires mask.V4? && address.V4?
    ensures CompareIntended(mask, address, 0) == Success(true)
    ensures CompareIntended(mask, address, 32) == Success(mask == address)
  {
    V4AgreeExtremes(mask, address);
  }

  /** `d` times a larger factor is at least `d` more. */
  lemma {:induction false} MulGap(d: nat, a: nat, b: nat)
    ensures a > b ==> d * a >= d * b + d
    decreases a
  {
    if a > b + 1 {
      MulGap(d, a - 1, b);
      assert d * a == d * (a - 1) + d;
    } else if a == b + 1 {
      assert d * a == d * b + d;
    }
  }

  /** Division by `d` has one quotient. */
  lemma DivUnique(x: nat, d: nat, q: nat, r: nat)
    requires 0 <= r < d && x == d * q + r
    ensures x / d == q
  {
    var q', r' := x / d, x % d;
    assert x == d * q' + r';
    MulGap(d, q', q);
    MulGap(d, q, q');
  }

  /** Bit `j + 1` of `x` is bit `j` of `x / 2`. */
  lemma DivPow2Step(x: nat, j: nat)
    ensures x / Pow2(j + 1) == (x / 2) / Pow2(j)
  {
    var p := Pow2(j);
    var q, r := (x / 2) / p, (x / 2) % p;
    assert x / 2 == p * q + r;
    assert x == (2 * p) * q + (2 * r + x % 2);
    DivUnique(x, 2 * p, q, 2 * r + x % 2);
  }

  /** Two numbers under `2^n` with the same `n` low bits are equal. */
  lemma {:induction false} BitsDetermine(x: nat, y: nat, n: nat)
    requires x < Pow2(n) && y < Pow2(n)
    requires forall j :: 0 <= j < n ==> (x / Pow2(j)) % 2 == (y / Pow2(j)) % 2
    ensures x == y
    decreases n
  {
    if n > 0 {
      forall j | 0 <= j < n - 1
        ensures ((x / 2) / Pow2(j)) % 2 == ((y / 2) / Pow2(j)) % 2
      {
        DivPow2Step(x, j);
        DivPow2Step(y, j);
      }
      BitsDetermine(x / 2, y / 2, n - 1);
      assert (x / Pow2(0)) % 2 == (y / Pow2(0)) % 2;
    }
  }

  /** A byte is its eight bits. */
  lemma ByteBits(x: Octet, y: Octet)
    requires forall j :: 0 <= j < 8 ==> (x / Pow2(j)) % 2 == (y / Pow2(j)) % 2
    ensures x == y
  {
    Pow2Add(4, 4);
    assert Pow2(4) == 16;
    BitsDetermine(x, y, 8);
  }

  /** The 128 bits of an IPv6 address, read in either order, are the
      address. */
  lemma V6AllBits(m: Ipv6Bytes, b: Ipv6Bytes)
    ensures (forall i :: 0 <= i < 128 ==> NetworkBit(b, i) == NetworkBit(m, i)) <==> m == b
    ensures BitArrayPrefixEqual(m, b, 128) <==> m == b
  {
    if forall i :: 0 <= i < 128 ==> NetworkBit(b, i) == NetworkBit(m, i) {
      forall k | 0 <= k < 16
        ensures m[k] == b[k]
      {
        forall j | 0 <= j < 8
          ensures (m[k] / Pow2(j)) % 2 == (b[k] / Pow2(j)) % 2
        {
          var i := 8 * k + 7 - j;
          assert i / 8 == k && i % 8 == 7 - j;
          assert NetworkBit(b, i) == NetworkBit(m, i);
        }
        ByteBits(m[k], b[k]);
      }
    }
    if BitArrayPrefixEqual(m, b, 128) {
      forall k | 0 <= k < 16
        ensures m[k] == b[k]
      {
        forall j | 0 <= j < 8
          ensures (m[k] / Pow2(j)) % 2 == (b[k] / Pow2(j)) % 2
        {
          var i := 8 * k + j;
          assert i / 8 == k && i % 8 == j;
          assert BitArrayBit(b, i) == BitArrayBit(m, i);
        }
        ByteBits(m[k], b[k]);
      }
    }
  }

  /** As intended, a /0 subnet holds every IPv6 address and a /128 subnet
      only its own address. */
  lemma V6PrefixExtremes(m: Ipv6Bytes, b: Ipv6Bytes)
    ensures CompareIntended(V6(m), V6(b), 0) == Success(true)
    ensures CompareIntended(V6(m), V6(b), 128) == Success(m == b)
  {
    V6AllBits(m, b);
  }

  /** The loop as written agrees with the intended comparison on /0 and
      /128, so the two part only on prefixes that end inside a byte. */
  lemma V6AsWrittenExtremes(m: Ipv6Bytes, b: Ipv6Bytes)
    ensures CompareAsWritten(V6(m), V6(b), 0) == Success(true)
    ensures CompareAsWritten(V6(m), V6(b), 128) == Success(m == b)
  {
    assert ComparePrefixFrom(m, b, 0, 0) == Success(true);
    V6FullLoop(m, b);
  }

  lemma V6FullLoop(m: Ipv6Bytes, b: Ipv6Bytes)
    ensures ComparePrefixFrom(m, b, 0, 128) == Success(m == b)
  {
    var r := ComparePrefixFrom(m, b, 0, 128);
    ComparePrefixMeaning(m, b, 0, 128);
    assert MinNat(128, 128) == 128;
    assert r.Success? && (r.value <==> BitArrayPrefixEqual(m, b, 128));
    V6AllBits(m, b);
  }

  /** A prefix length written in decimal is read back. */
  lemma ReadLength(n: nat, text: string)
    requires n <= 128 && text == NatToString(n)
    ensures ParseInt32(text) == Success(n)
  {
    ParseNatToString(n);
  }

  /** Once the mask reads as `0.0.0.0` with length 0, the comparison as
      written sees a shift of 0, and the intended one a shift of 32. */
  lemma ZeroPrefixOf(ip: IPAddress, subnetMask: string, parse: string -> Option<IPAddress>)
    requires ip == V4(10, 0, 0, 1)
    requires ParseMask(ip, subnetMask, parse) == Success(Mask(V4(0, 0, 0, 0), 0))
    ensures InSubnetAsWritten(ip, subnetMask, parse) == Success(false)
    ensures InSubnet(ip, subnetMask, parse) == Success(true)
  {
    var mask := V4(0, 0, 0, 0);
    V4AgreeExtremes(mask, ip);
    assert CompareAsWritten(mask, ip, 0) == Success(false);
    assert CompareIntended(mask, ip, 0) == Success(true);
  }

  /** The pieces of the text `0.0.0.0/0`. */
  lemma ZeroPrefixText()
    ensures '/' !in "0.0.0.0"
    ensures "0.0.0.0" + "/" + "0" == "0.0.0.0/0"
    ensures ParseInt32("0") == Success(0)
  {
    ReadLength(0, "0");
  }

  /** `0.0.0.0/0` should hold `10.0.0.1`; as written it does not, because
      the shift by 32 is taken as a shift by 0 and the whole address is
      compared. */
  lemma ZeroPrefixAsWritten(parse: string -> Option<IPAddress>)
    requires parse("0.0.0.0") == Some(V4(0, 0, 0, 0))
    ensures InSubnetAsWritten(V4(10, 0, 0, 1), "0.0.0.0/0", parse) == Success(false)
    ensures InSubnet(V4(10, 0, 0, 1), "0.0.0.0/0", parse) == Success(true)
  {
    var mask, ip := V4(0, 0, 0, 0), V4(10, 0, 0, 1);
    ZeroPrefixText();
    ParseMaskMask(ip, "0.0.0.0", "0", parse, mask, 0);
    ZeroPrefixOf(ip, "0.0.0.0/0", parse);
  }

  /** `fe80::` with its ten-bit prefix as bytes, and `fec0::1`. */
  function LinkLocalNet(): Ipv6Bytes {
    [0xfe, 0x80, 0, 0, 0, 0, 0, 0, 0, 0, 0, 0, 0, 0, 0, 0]
  }

  function SiteLocalOne(): Ipv6Bytes {
    [0xfe, 0xc0, 0, 0, 0, 0, 0, 0, 0, 0, 0, 0, 0, 0, 0, 1]
  }

  /** The first ten bits of `fe80::` and `fec0::1` agree in `BitArray`
      order, but the tenth differs in network order. */
  lemma LinkLocalBits()
    ensures BitArrayPrefixEqual(LinkLocalNet(), SiteLocalOne(), 10)
    ensures NetworkBit(SiteLocalOne(), 9) != NetworkBit(LinkLocalNet(), 9)
  {
    var mask, ip := LinkLocalNet(), SiteLocalOne();
    assert Pow2(1) == 2 && Pow2(6) == 64;
    forall i | 0 <= i < 10
      ensures BitArrayBit(ip, i) == BitArrayBit(mask, i)
    {
      if i < 8 {
        assert mask[i / 8] == ip[i / 8];
      } else {
        assert i / 8 == 1 && i % 8 == i - 8;
        assert mask[1] == 0x80 && ip[1] == 0xc0;
      }
    }
  }

  /** Once the mask reads as `fe80::` with length 10, the two comparisons
      part on `fec0::1`. */
  lemma LowBitFirstOf(subnetMask: string, parse: string -> Option<IPAddress>)
    requires ParseMask(V6(SiteLocalOne()), subnetMask, parse) == Success(Mask(V6(LinkLocalNet()), 10))
    ensures InSubnetAsWritten(V6(SiteLocalOne()), subnetMask, parse) == Success(true)
    ensures InSubnet(V6(SiteLocalOne()), subnetMask, parse) == Success(false)
  {
    LinkLocalBits();
    ComparePrefixMeaning(LinkLocalNet(), SiteLocalOne(), 0, 10);
  }

  /** `fec0::1` is outside `fe80::/10` (its tenth bit is 1 where the
      network's is 0), yet the loop as written, reading each byte from its
      low bit, finds the first ten bits equal. */
  lemma LowBitFirstAsWritten(parse: string -> Option<IPAddress>)
    requires parse("fe80::") == Some(V6(LinkLocalNet()))
    ensures InSubnetAsWritten(V6(SiteLocalOne()), "fe80::/10", parse) == Success(true)
    ensures InSubnet(V6(SiteLocalOne()), "fe80::/10", parse) == Success(false)
  {
    LinkLocalText();
    ParseMaskMask(V6(SiteLocalOne()), "fe80::", "10", parse, V6(LinkLocalNet()), 10);
    LowBitFirstOf("fe80::/10", parse);
  }

  /** The pieces of the text `fe80::/10`. */
  lemma LinkLocalText()
    ensures '/' !in "fe80::"
    ensures "fe80::" + "/" + "10" == "fe80::/10"
    ensures ParseInt32("10") == Success(10)
  {
    LinkLocalJoin();
    TenText();
    ReadLength(10, "10");
  }

  lemma LinkLocalJoin()
    ensures '/' !in "fe80::"
    ensures "fe80::" + "/" + "10" == "fe80::/10"
  {
    var t := "fe80::";
    assert t == ['f', 'e', '8', '0', ':', ':'];
    assert t + "/" + "10" == ['f', 'e', '8', '0', ':', ':', '/', '1', '0'];
  }

  lemma TenText()
    ensures NatToString(10) == "10"
  {
    assert NatToString(1) == "1";
    assert NatToString(0) == "0";
  }

  /** The text of an IPv4 address: four decimal numbers joined by dots. */
  function DottedQuad(ip: IPAddress): string
    requires ip.V4?
  {
    JoinWith([NatToString(ip.a), NatToString(ip.b), NatToString(ip.c), NatToString(ip.d)], '.')
  }

  /** Splitting the text at the dots gives the four numbers back. */
  lemma DottedQuadParts(ip: IPAddress)
    requires ip.V4?
    ensures SplitOn(DottedQuad(ip), '.') == [NatToString(ip.a), NatToString(ip.b), NatToString(ip.c), NatToString(ip.d)]
  {
    var parts := [NatToString(ip.a), NatToString(ip.b), NatToString(ip.c), NatToString(ip.d)];
    forall i, k | 0 <= i < 4 && 0 <= k < |parts[i]|
      ensures parts[i][k] != '.'
    {
      assert IsDigit(parts[i][k]);
    }
    SplitJoin(parts, '.');
  }

  /** The numbers of the scoring table. */
  const NETWORK_ADDRESS_SCORE: int := 1000
  const PRIVATE_ADDRESS_SCORE_TYPE_A: int := 900
  const PRIVATE_ADDRESS_SCORE_TYPE_B: int := 905
  const PRIVATE_ADDRESS_SCORE_TYPE_C: int := 910
  const NONE_DHCP_SCORE: int := -1

  /** `ScoringInterNetwork`: loopback scores 0; otherwise the first two
      numbers of the address's text decide. */
  function ScoringInterNetwork(ip: IPAddress): (r: int)
    requires ip.V4?
    ensures r in {0, PRIVATE_ADDRESS_SCORE_TYPE_A, PRIVATE_ADDRESS_SCORE_TYPE_B, PRIVATE_ADDRESS_SCORE_TYPE_C,
                  NONE_DHCP_SCORE, NETWORK_ADDRESS_SCORE}
    ensures ip.a == 127 ==> r == 0
  {
    if ip.a == 127 then 0
    else
      DottedQuadParts(ip);
      var values := SplitOn(DottedQuad(ip), '.');
      if values[0] == "10" then PRIVATE_ADDRESS_SCORE_TYPE_A
      else if values[0] == "172" then
        ParseNatToString(ip.b);
        var second := ParseInt32(values[1]).value;
        if second >= 16 && second <= 31 then PRIVATE_ADDRESS_SCORE_TYPE_B else NETWORK_ADDRESS_SCORE
      else if values[0] == "192" then
        (if values[1] == "168" then PRIVATE_ADDRESS_SCORE_TYPE_C else NETWORK_ADDRESS_SCORE)
      else if values[0] == "169" then
        (if values[1] == "254" then NONE_DHCP_SCORE else NETWORK_ADDRESS_SCORE)
      else NETWORK_ADDRESS_SCORE
  }

  /** `ScoringIPAddress`: IPv6 and other families all score 0. */
  function Score(ip: IPAddress): (r: int)
    ensures -1 <= r <= NETWORK_ADDRESS_SCORE
    ensures r < 0 ==> ip.V4? && ip.a != 127
  {
    if ip.V4? then ScoringInterNetwork(ip) else 0
  }

  /** The scoring table on the address's numbers: loopback (127/8) 0,
      10/8 900, 172.16/12 905, 192.168/16 910, link-local 169.254/16 -1,
      anything else 1000. */
  lemma ScoreTable(ip: IPAddress)
    requires ip.V4?
    ensures Score(ip) == if ip.a == 127 then 0
                         else if ip.a == 10 then 900
                         else if ip.a == 172 && 16 <= ip.b <= 31 then 905
                         else if ip.a == 192 && ip.b == 168 then 910
                         else if ip.a == 169 && ip.b == 254 then -1
                         else 1000
  {
    DottedQuadParts(ip);
    NatToStringInjective(ip.a, 10);
    NatToStringInjective(ip.a, 172);
    NatToStringInjective(ip.a, 192);
    NatToStringInjective(ip.a, 169);
    NatToStringInjective(ip.b, 168);
    NatToStringInjective(ip.b, 254);
    assert NatToString(10) == "10" && NatToString(172) == "172" && NatToString(192) == "192";
    assert NatToString(169) == "169" && NatToString(168) == "168" && NatToString(254) == "254";
    ParseNatToString(ip.b);
  }

  /** The subnet search: the first address in the subnet; an error from
      the membership test ends the search; no match is unsupported. */
  function FirstInSubnet(addresses: seq<IPAddress>, subnetMask: string, parse: string -> Option<IPAddress>): (r: Outcome<IPAddress>)
    ensures r.Success? ==> r.value in addresses && InSubnet(r.value, subnetMask, parse) == Success(true)
    ensures (forall i :: 0 <= i < |addresses| ==> InSubnet(addresses[i], subnetMask, parse) == Success(false)) ==>
              r == Failure(NotSupported)
  {
    if addresses == [] then Failure(NotSupported)
    else
      var inSubnet := InSubnet(addresses[0], subnetMask, parse);
      if inSubnet.Failure? then Failure(inSubnet.error)
      else if inSubnet.value then Success(addresses[0])
      else
        assert forall i :: 0 <= i < |addresses[1..]| ==> addresses[1..][i] == addresses[i + 1];
        FirstInSubnet(addresses[1..], subnetMask, parse)
  }

  /** `GetValuableIPAddress` over the given addresses: none is unsupported;
      with a subnet, the first address in it; without, the first address of
      the highest score (`OrderByDescending` is stable). */
  method GetValuableIPAddress(addresses: seq<IPAddress>, subnetMask: Option<string>, parse: string -> Option<IPAddress>)
    returns (r: Outcome<IPAddress>)
    ensures addresses == [] ==> r == Failure(NotSupported)
    ensures addresses != [] && !IsNullOrWhiteSpace(subnetMask) ==> r == FirstInSubnet(addresses, subnetMask.value, parse)
    ensures addresses != [] && IsNullOrWhiteSpace(subnetMask) ==>
              && r.Success?
              && (forall j :: 0 <= j < |addresses| ==> Score(addresses[j]) <= Score(r.value))
              && exists k :: 0 <= k < |addresses| && addresses[k] == r.value
                             && forall j :: 0 <= j < k ==> Score(addresses[j]) < Score(r.value)
  {
    if addresses == [] {
      return Failure(NotSupported);
    }
    if !IsNullOrWhiteSpace(subnetMask) {
      r := SearchSubnet(addresses, subnetMask.value, parse);
      return;
    }
    var scores := seq(|addresses|, j requires 0 <= j < |addresses| => Score(addresses[j]));
    var best := HighestScore(scores);
    r := Success(addresses[best]);
    assert forall j :: 0 <= j < |addresses| ==> Score(addresses[j]) == scores[j];
    assert forall j :: 0 <= j < best ==> Score(addresses[j]) < Score(r.value);
    assert addresses[best] == r.value;
  }

  /** The first address in the subnet, scanning in order. */
  method SearchSubnet(addresses: seq<IPAddress>, subnetMask: string, parse: string -> Option<IPAddress>)
    returns (r: Outcome<IPAddress>)
    ensures r == FirstInSubnet(addresses, subnetMask, parse)
  {
    var i := 0;
    while i < |addresses|
      invariant 0 <= i <= |addresses|
      invariant FirstInSubnet(addresses[i..], subnetMask, parse) == FirstInSubnet(addresses, subnetMask, parse)
    {
      assert addresses[i..][1..] == addresses[i + 1..];
      var inSubnet := InSubnet(addresses[i], subnetMask, parse);
      if inSubnet.Failure? {
        return Failure(inSubnet.error);
      }
      if inSubnet.value {
        return Success(addresses[i]);
      }
      i := i + 1;
    }
    return Failure(NotSupported);
  }

  /** The position a stable descending order puts first: the first of the
      highest scores. */
  method HighestScore(scores: seq<int>) returns (best: nat)
    requires scores != []
    ensures best < |scores|
    ensures forall j :: 0 <= j < |scores| ==> scores[j] <= scores[best]
    ensures forall j :: 0 <= j < best ==> scores[j] < scores[best]
  {
    best := 0;
    var i := 1;
    while i < |scores|
      invariant 1 <= i <= |scores| && best < i
      invariant forall j :: 0 <= j < i ==> scores[j] <= scores[best]
      invariant forall j :: 0 <= j < best ==> scores[j] < scores[best]
    {
      if scores[i] > scores[best] {
        best := i;
      }
      i := i + 1;
    }
  }
}
