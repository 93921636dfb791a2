/**
 * The cache key scheme. Every cache key the gate uses is one of three
 * fixed prefixes followed by an IP address (or other condition string).
 */
module Keys {

  /** Prefix of the ban flag of an IP. */
  const BanishPrefix: string := "DJANGO_BANISH:"
  /** Prefix of the abuse counter of an IP. */
  const AbusePrefix: string := "DJANGO_BANISH_ABUSE:"
  /** Prefix of the whitelist flag of an IP. */
  const WhitelistPrefix: string := "DJANGO_BANISH_WHITELIST:"

  function BanKey(ip: string): (key: string) { BanishPrefix + ip }

  function AbuseKey(ip: string): (key: string) { AbusePrefix + ip }

  function WhitelistKey(ip: string): (key: string) { WhitelistPrefix + ip }

  /** The three prefixes are pairwise distinct and none is a prefix of another. */
  lemma PrefixesUnrelated()
    ensures BanishPrefix != AbusePrefix && BanishPrefix != WhitelistPrefix && AbusePrefix != WhitelistPrefix
    ensures !(BanishPrefix <= AbusePrefix) && !(AbusePrefix <= BanishPrefix)
    ensures !(BanishPrefix <= WhitelistPrefix) && !(WhitelistPrefix <= BanishPrefix)
    ensures !(AbusePrefix <= WhitelistPrefix) && !(WhitelistPrefix <= AbusePrefix)
  {
    assert BanishPrefix[13] == ':' && AbusePrefix[13] == '_' && WhitelistPrefix[13] == '_';
    assert AbusePrefix[14] == 'A' && WhitelistPrefix[14] == 'W';
  }

  /** Keys built from different prefixes never collide, whatever the conditions. */
  lemma FamiliesDisjoint(a: string, b: string)
    ensures BanKey(a) != AbuseKey(b)
    ensures BanKey(a) != WhitelistKey(b)
    ensures AbuseKey(a) != WhitelistKey(b)
  {
    assert BanKey(a)[13] == ':' && AbuseKey(b)[13] == '_' && WhitelistKey(b)[13] == '_';
    assert AbuseKey(a)[14] == 'A' && WhitelistKey(b)[14] == 'W';
  }

  /** Within one family, the key determines the condition. */
  lemma KeysInjective(a: string, b: string)
    ensures BanKey(a) == BanKey(b) <==> a == b
    ensures AbuseKey(a) == AbuseKey(b) <==> a == b
    ensures WhitelistKey(a) == WhitelistKey(b) <==> a == b
  {
    assert BanKey(a)[|BanishPrefix|..] == a && BanKey(b)[|BanishPrefix|..] == b;
    assert AbuseKey(a)[|AbusePrefix|..] == a && AbuseKey(b)[|AbusePrefix|..] == b;
    assert WhitelistKey(a)[|WhitelistPrefix|..] == a && WhitelistKey(b)[|WhitelistPrefix|..] == b;
  }
}
