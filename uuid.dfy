/**
 * The UUIDs the harness stamps on each synthetic event: `uuid.NewV4().String()`.
 *
 * Generation follows section 4.4 of RFC 4122: sixteen random octets, then the
 * version field (high nibble of octet 6) is set to 4 and the variant field (two
 * high bits of octet 8) to binary 10. The random source is a parameter. The
 * text form is the one of section 3 of RFC 4122: 32 lower-case hex digits in
 * groups of 8-4-4-4-12 separated by hyphens.
 */
module Uuid {
  import opened Common

  type Uuid = s: seq<byte> | |s| == 16 witness seq(16, _ => 0)

  const HEX_DIGITS: string := "0123456789abcdef"

  /** A version-4, RFC 4122 variant UUID. */
  predicate IsV4(u: Uuid) {
    u[6] as int / 16 == 4 && u[8] as int / 64 == 2
  }

  /** NewV4 applied to the sixteen octets the random source returned. */
  function NewV4(random: Uuid): (u: Uuid)
    ensures IsV4(u)
    ensures forall i :: 0 <= i < 16 && i != 6 && i != 8 ==> u[i] == random[i]
    ensures u[6] % 16 == random[6] % 16 && u[8] % 64 == random[8] % 64
  {
    random[6 := (random[6] as int % 16 + 0x40) as byte][8 := (random[8] as int % 64 + 0x80) as byte]
  }

  /** The lower-case hex digit of a nibble. */
  function Hex(n: int): (c: char)
    requires 0 <= n < 16
    ensures c in HEX_DIGITS
  {
    HEX_DIGITS[n]
  }

  /** The nibble a lower-case hex digit stands for, if it is one. */
  function HexValue(c: char): (r: Option<int>)
    ensures r.Some? <==> c in HEX_DIGITS
    ensures r.Some? ==> 0 <= r.value < 16 && Hex(r.value) == c
  {
    if '0' <= c <= '9' then Some(c as int - '0' as int)
    else if 'a' <= c <= 'f' then Some(c as int - 'a' as int + 10)
    else None
  }

  /** Number of hyphens that precede position i of the text form. */
  function HyphensBefore(i: int): int {
    if i <= 8 then 0 else if i <= 13 then 1 else if i <= 18 then 2 else if i <= 23 then 3 else 4
  }

  /** Character i of the text form: a hyphen after the groups of 8, 4, 4 and 4 digits,
      otherwise the high then the low hex digit of each octet in order. */
  function TextChar(u: Uuid, i: int): char
    requires 0 <= i < 36
  {
    if i == 8 || i == 13 || i == 18 || i == 23 then '-'
    else
      var j := i - HyphensBefore(i);
      if j % 2 == 0 then Hex(u[j / 2] as int / 16) else Hex(u[j / 2] as int % 16)
  }

  /** The canonical 8-4-4-4-12 text form (`UUID.String`). */
  function ToString(u: Uuid): (s: string)
    ensures |s| == 36
    ensures s[8] == '-' && s[13] == '-' && s[18] == '-' && s[23] == '-'
  {
    seq(36, i requires 0 <= i < 36 => TextChar(u, i))
  }

  /** Position in the text form of the high hex digit of octet k. */
  function Pos(k: int): (p: int)
    requires 0 <= k < 16
    ensures 0 <= p < 35
  {
    2 * k + (if k < 4 then 0 else if k < 6 then 1 else if k < 8 then 2 else if k < 10 then 3 else 4)
  }

  /** The octet written at the two hex digits that start at position p. */
  function OctetAt(s: string, p: int): byte
    requires 0 <= p < |s| - 1
    requires s[p] in HEX_DIGITS && s[p + 1] in HEX_DIGITS
  {
    (HexValue(s[p]).value * 16 + HexValue(s[p + 1]).value) as byte
  }

  /** Reads a canonical text form back into its octets; None for any other string. */
  function Parse(s: string): (r: Option<Uuid>)
    ensures r.Some? ==> |s| == 36 && s[8] == '-' && s[13] == '-' && s[18] == '-' && s[23] == '-'
  {
    if |s| == 36 && s[8] == '-' && s[13] == '-' && s[18] == '-' && s[23] == '-'
       && forall k :: 0 <= k < 16 ==> s[Pos(k)] in HEX_DIGITS && s[Pos(k) + 1] in HEX_DIGITS
    then Some(seq(16, k requires 0 <= k < 16 => OctetAt(s, Pos(k))))
    else None
  }

  /** Octet k of the UUID is spelled at positions Pos(k) and Pos(k) + 1. */
  lemma ToStringAt(u: Uuid, k: int)
    requires 0 <= k < 16
    ensures ToString(u)[Pos(k)] == Hex(u[k] as int / 16)
    ensures ToString(u)[Pos(k) + 1] == Hex(u[k] as int % 16)
  {
    var p := Pos(k);
    assert p - HyphensBefore(p) == 2 * k && p + 1 - HyphensBefore(p + 1) == 2 * k + 1;
    assert p != 8 && p != 13 && p != 18 && p != 23;
    assert p + 1 != 8 && p + 1 != 13 && p + 1 != 18 && p + 1 != 23;
    assert (2 * k) / 2 == k && (2 * k) % 2 == 0;
    assert (2 * k + 1) / 2 == k && (2 * k + 1) % 2 == 1;
    assert ToString(u)[p] == TextChar(u, p);
    assert ToString(u)[p + 1] == TextChar(u, p + 1);
  }

  lemma HexValueHex(n: int)
    requires 0 <= n < 16
    ensures HexValue(Hex(n)) == Some(n)
  {
    assert HEX_DIGITS[n] == if n < 10 then ('0' as int + n) as char else ('a' as int + n - 10) as char;
  }

  /** Parse inverts the text form. */
  lemma ParseToString(u: Uuid)
    ensures Parse(ToString(u)) == Some(u)
  {
    var s := ToString(u);
    forall k | 0 <= k < 16
      ensures s[Pos(k)] in HEX_DIGITS && s[Pos(k) + 1] in HEX_DIGITS
      ensures OctetAt(s, Pos(k)) == u[k]
    {
      ToStringAt(u, k);
      HexValueHex(u[k] as int / 16);
      HexValueHex(u[k] as int % 16);
    }
    var r := Parse(s);
    assert r.Some?;
    forall k | 0 <= k < 16 ensures r.value[k] == u[k] {
    }
    assert r.value == u;
  }

  /** Distinct UUIDs have distinct text forms. */
  lemma ToStringInjective(u: Uuid, v: Uuid)
    ensures ToString(u) == ToString(v) ==> u == v
  {
    ParseToString(u);
    ParseToString(v);
  }

  /** The text of a version-4 UUID shows the version digit 4 and a variant digit 8, 9, a or b. */
  lemma V4Text(u: Uuid)
    requires IsV4(u)
    ensures ToString(u)[14] == '4'
    ensures ToString(u)[19] in "89ab"
  {
    ToStringAt(u, 6);
    ToStringAt(u, 8);
  }
}
