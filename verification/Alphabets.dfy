/**
 Which characters the codecs read and write, against alphabets that are spelled out: set names
 (app/route_ipset_batch.py:51-53), domains (app/route_dns_batch.py:150-158) and base64 (RFC 4648, section 5).
 */
module Alphabets {
  import DnsNames
  import IpsetBatch
  import Shadowsocks

  const CAPITALS := "ABCDEFGHIJKLMNOPQRSTUVWXYZ"
  const SMALL := "abcdefghijklmnopqrstuvwxyz"
  const DIGITS := "0123456789"

  lemma CapitalsAre(c: char)
    ensures |CAPITALS| == 26 && (c in CAPITALS <==> 'A' <= c <= 'Z')
    ensures 'A' <= c <= 'Z' ==> CAPITALS[c as int - 'A' as int] == c
  {
    if 'A' <= c <= 'Z' { assert CAPITALS[c as int - 'A' as int] == c; }
  }

  lemma SmallAre(c: char)
    ensures |SMALL| == 26 && (c in SMALL <==> 'a' <= c <= 'z')
    ensures 'a' <= c <= 'z' ==> SMALL[c as int - 'a' as int] == c
  {
    if 'a' <= c <= 'z' { assert SMALL[c as int - 'a' as int] == c; }
  }

  lemma DigitsAre(c: char)
    ensures |DIGITS| == 10 && (c in DIGITS <==> '0' <= c <= '9')
    ensures '0' <= c <= '9' ==> DIGITS[c as int - '0' as int] == c
  {
    if '0' <= c <= '9' { assert DIGITS[c as int - '0' as int] == c; }
  }

  predicate NameChar(c: char) {
    c in SMALL || c in CAPITALS || c in DIGITS || c == '_'
  }

  /** A set name has one to 31 letters, digits or underscores. */
  lemma SetNameMeans(name: string)
    ensures IpsetBatch.ValidName(name) <==>
              name != "" && |name| < 32 && forall i :: 0 <= i < |name| ==> NameChar(name[i])
  {
    forall i | 0 <= i < |name|
      ensures NameChar(name[i]) <==>
                'a' <= name[i] <= 'z' || 'A' <= name[i] <= 'Z' || '0' <= name[i] <= '9' || name[i] == '_'
    {
      SmallAre(name[i]);
      CapitalsAre(name[i]);
      DigitsAre(name[i]);
    }
  }

  predicate DomainChar(c: char) {
    c in SMALL || c in DIGITS || c in {'_', '.', '-'}
  }

  /** A domain is asked for exactly if it has 1 to 253 small letters, digits, underscores, dots or dashes, does not
      begin with a dash, and has no empty label and none that is longer than 63 before its last dots. */
  lemma DomainMeans(domain: string)
    ensures DnsNames.AcceptedDomain(domain) <==>
              && domain != "" && |domain| < 254 && domain[0] != '-'
              && (forall i :: 0 <= i < |domain| ==> DomainChar(domain[i]))
              && forall part :: part in DnsNames.Split(DnsNames.StripDots(domain)) ==> part != "" && |part| < 64
  {
    forall i | 0 <= i < |domain| ensures DomainChar(domain[i]) <==> DnsNames.DomainChar(domain[i]) {
      SmallAre(domain[i]);
      DigitsAre(domain[i]);
    }
  }

  /** Lower-casing turns each capital into the small letter in its place and changes nothing else. */
  lemma LowerMeans(i: nat, c: char)
    requires i < 26
    ensures |CAPITALS| == |SMALL| == 26 && DnsNames.LowerChar(CAPITALS[i]) == SMALL[i]
    ensures c !in CAPITALS ==> DnsNames.LowerChar(c) == c
  {
    CapitalsAre('A' + i as char);
    SmallAre('a' + i as char);
    CapitalsAre(c);
  }

  /** The base64 letters are the capitals, the small letters, the digits, the dash and the underscore, in this order. */
  lemma LetterIsListed(v: nat)
    requires v < 64
    ensures |CAPITALS| == |SMALL| == 26 && |DIGITS| == 10
    ensures Shadowsocks.Letter(v) ==
              if v < 26 then CAPITALS[v] else if v < 52 then SMALL[v - 26] else if v < 62 then DIGITS[v - 52]
              else if v == 62 then '-' else '_'
  {
    CapitalsAre('A' + (if v < 26 then v else 0) as char);
    SmallAre('a' + (if 26 <= v < 52 then v - 26 else 0) as char);
    DigitsAre('0' + (if 52 <= v < 62 then v - 52 else 0) as char);
  }
}
