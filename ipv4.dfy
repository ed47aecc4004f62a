/**
 * IPv4 addresses as the scanner handles them: a 32-bit unsigned integer, written
 * in the dotted-decimal `#.#.#.#` form of section 2.1 of RFC 1123 (four octets,
 * high byte first), parsed back the way Python's `ipaddress.IPv4Address` does,
 * and expanded into the inclusive range of addresses a scan visits.
 */
module Ipv4 {
  import opened Options
  import opened Decimal
  import opened Strings

  const AddressCount: nat := 0x1_0000_0000

  type Address = n: int | 0 <= n < AddressCount

  /** The four octets of an address, high byte first. */
  function Octets(a: Address): (o: seq<nat>)
    ensures |o| == 4 && forall i :: 0 <= i < 4 ==> o[i] < 256
  {
    [a / 256 / 256 / 256, a / 256 / 256 % 256, a / 256 % 256, a % 256]
  }

  function FromOctets(o0: nat, o1: nat, o2: nat, o3: nat): Address
    requires o0 < 256 && o1 < 256 && o2 < 256 && o3 < 256
  {
    ((o0 * 256 + o1) * 256 + o2) * 256 + o3
  }

  /** The octets of an address put together from four octets are those four. */
  lemma OctetsOfFromOctets(o0: nat, o1: nat, o2: nat, o3: nat)
    requires o0 < 256 && o1 < 256 && o2 < 256 && o3 < 256
    ensures Octets(FromOctets(o0, o1, o2, o3)) == [o0, o1, o2, o3]
  {
    var a := FromOctets(o0, o1, o2, o3);
    assert a / 256 == (o0 * 256 + o1) * 256 + o2;
    assert a / 256 / 256 == o0 * 256 + o1;
    assert a / 256 / 256 / 256 == o0;
  }

  lemma FromOctetsOfOctets(a: Address)
    ensures var o := Octets(a); FromOctets(o[0], o[1], o[2], o[3]) == a
  {
    var o := Octets(a);
    assert a == (a / 256) * 256 + a % 256;
    assert a / 256 == (a / 256 / 256) * 256 + o[2];
    assert a / 256 / 256 == o[0] * 256 + o[1];
  }

  /** `str(IPv4Address(a))`: the octets in decimal, joined by dots. */
  function Format(a: Address): string {
    var o := Octets(a);
    Join([NatToString(o[0]), NatToString(o[1]), NatToString(o[2]), NatToString(o[3])], '.')
  }

  /**
   * One dotted component, as `ipaddress` accepts it: one to three ASCII digits,
   * no leading zero (unless the octet is "0"), value at most 255.
   */
  function ParseOctet(s: string): (r: Option<nat>)
    ensures r.Some? ==> r.value < 256
  {
    if s == [] || !AllDigits(s) || |s| > 3 || (s[0] == '0' && |s| > 1) then None
    else if Value(s) > 255 then None
    else Some(Value(s))
  }

  /** `IPv4Address(s)` for a string `s`: exactly four dot-separated octets. */
  function Parse(s: string): Option<Address> {
    var parts := Split(s, '.');
    if |parts| != 4 then None
    else
      match (ParseOctet(parts[0]), ParseOctet(parts[1]), ParseOctet(parts[2]), ParseOctet(parts[3]))
      case (Some(o0), Some(o1), Some(o2), Some(o3)) => Some(FromOctets(o0, o1, o2, o3))
      case _ => None
  }

  lemma ParseOctetOfNatToString(n: nat)
    requires n < 256
    ensures ParseOctet(NatToString(n)) == Some(n)
  {
    LengthOfNatToString(n, 3);
    ValueOfNatToString(n);
  }

  lemma NatToStringOfParseOctet(s: string)
    requires ParseOctet(s).Some?
    ensures NatToString(ParseOctet(s).value) == s
  {
    NatToStringOfValue(s);
  }

  /** Every address is parsed back from the text it is written as. */
  lemma ParseFormat(a: Address)
    ensures Parse(Format(a)) == Some(a)
  {
    var o := Octets(a);
    var parts := [NatToString(o[0]), NatToString(o[1]), NatToString(o[2]), NatToString(o[3])];
    SplitJoin(parts, '.');
    ParseOctetOfNatToString(o[0]);
    ParseOctetOfNatToString(o[1]);
    ParseOctetOfNatToString(o[2]);
    ParseOctetOfNatToString(o[3]);
    FromOctetsOfOctets(a);
  }

  /** Every text that parses is the canonical text of the address it parses to. */
  lemma FormatParse(s: string)
    requires Parse(s).Some?
    ensures Format(Parse(s).value) == s
  {
    var parts := Split(s, '.');
    NatToStringOfParseOctet(parts[0]);
    NatToStringOfParseOctet(parts[1]);
    NatToStringOfParseOctet(parts[2]);
    NatToStringOfParseOctet(parts[3]);
    OctetsOfFromOctets(ParseOctet(parts[0]).value, ParseOctet(parts[1]).value, ParseOctet(parts[2]).value,
                       ParseOctet(parts[3]).value);
    JoinSplit(s, '.');
    assert parts == [parts[0], parts[1], parts[2], parts[3]];
  }

  /** Different addresses are written differently. */
  lemma FormatInjective(a: Address, b: Address)
    ensures Format(a) == Format(b) ==> a == b
  {
    ParseFormat(a);
    ParseFormat(b);
  }

  /**
   * The addresses `lo..hi` inclusive, in increasing order, as text: the list
   * `[str(IPv4Address(ip)) for ip in range(lo, hi + 1)]`.
   */
  function Range(lo: Address, hi: Address): (r: seq<string>)
    ensures |r| == if lo <= hi then hi - lo + 1 else 0
  {
    FormatAll(Addresses(lo, hi))
  }

  /** `range(lo, hi + 1)`. */
  function Addresses(lo: Address, hi: Address): (r: seq<Address>)
    ensures |r| == if lo <= hi then hi - lo + 1 else 0
    decreases hi - lo
  {
    if lo > hi then [] else if lo == hi then [lo] else [lo] + Addresses(lo + 1, hi)
  }

  /** Each address of a list as text. */
  function FormatAll(addresses: seq<Address>): (r: seq<string>)
    ensures |r| == |addresses|
  {
    if addresses == [] then [] else [Format(addresses[0])] + FormatAll(addresses[1..])
  }

  /** The `i`-th entry of the range is the text of the address `lo + i`. */
  lemma RangeAt(lo: Address, hi: Address, i: nat)
    requires i < |Range(lo, hi)|
    ensures lo + i <= hi && Range(lo, hi)[i] == Format(lo + i)
  {
    AddressesAt(lo, hi, i);
    FormatAllAt(Addresses(lo, hi), i);
  }

  lemma {:induction false} AddressesAt(lo: Address, hi: Address, i: nat)
    requires i < |Addresses(lo, hi)|
    ensures lo + i <= hi && Addresses(lo, hi)[i] == lo + i
    decreases hi - lo
  {
    if i > 0 {
      AddressesAt(lo + 1, hi, i - 1);
    }
  }

  lemma {:induction false} FormatAllAt(addresses: seq<Address>, i: nat)
    requires i < |addresses|
    ensures FormatAll(addresses)[i] == Format(addresses[i])
  {
    if i > 0 {
      FormatAllAt(addresses[1..], i - 1);
    }
  }

  /** The range holds the text of each address of `lo..hi` and nothing else. */
  lemma RangeMembers(lo: Address, hi: Address, s: string)
    ensures s in Range(lo, hi) <==> Parse(s).Some? && lo <= Parse(s).value <= hi
  {
    if s in Range(lo, hi) {
      RangeMemberParses(lo, hi, s);
    }
    if Parse(s).Some? && lo <= Parse(s).value <= hi {
      RangeHolds(lo, hi, s);
    }
  }

  lemma RangeMemberParses(lo: Address, hi: Address, s: string)
    requires s in Range(lo, hi)
    ensures Parse(s).Some? && lo <= Parse(s).value <= hi
  {
    var r := Range(lo, hi);
    var i :| 0 <= i < |r| && r[i] == s;
    RangeAt(lo, hi, i);
    var a: Address := lo + i;
    assert s == Format(a);
    ParseFormat(a);
    assert Parse(s) == Some(a);
  }

  lemma RangeHolds(lo: Address, hi: Address, s: string)
    requires Parse(s).Some? && lo <= Parse(s).value <= hi
    ensures s in Range(lo, hi)
  {
    var a := Parse(s).value;
    FormatParse(s);
    RangeAt(lo, hi, a - lo);
  }

  /** No address occurs twice in the range. */
  lemma RangeOnce(lo: Address, hi: Address, s: string)
    ensures multiset(Range(lo, hi))[s] <= 1
  {
    RangeDistinct(lo, hi);
    DistinctCountsOnce(Range(lo, hi), s);
  }

  lemma RangeDistinct(lo: Address, hi: Address)
    ensures var r := Range(lo, hi); forall i, j :: 0 <= i < j < |r| ==> r[i] != r[j]
  {
    var r := Range(lo, hi);
    forall i, j | 0 <= i < j < |r|
      ensures r[i] != r[j]
    {
      RangeEntriesDiffer(lo, hi, i, j);
    }
  }

  lemma RangeEntriesDiffer(lo: Address, hi: Address, i: nat, j: nat)
    requires i < j < |Range(lo, hi)|
    ensures Range(lo, hi)[i] != Range(lo, hi)[j]
  {
    RangeAt(lo, hi, i);
    RangeAt(lo, hi, j);
    FormatInjective(lo + i, lo + j);
  }

  lemma {:induction false} DistinctCountsOnce<T>(r: seq<T>, x: T)
    requires forall i, j :: 0 <= i < j < |r| ==> r[i] != r[j]
    ensures multiset(r)[x] <= 1
  {
    if r != [] {
      var t := r[1..];
      DistinctCountsOnce(t, x);
      assert r == [r[0]] + t;
      if x == r[0] {
        assert forall k :: 0 <= k < |t| ==> t[k] == r[k + 1];
        assert x !in t;
      }
    }
  }
}
