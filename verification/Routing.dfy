/** From a Host header to a tunnel's name, and back (internal/edge/router.go). Host names
    are ASCII. */
module Routing {
  function LowerChar(c: char): char {
    if 'A' <= c <= 'Z' then c + 32 as char else c
  }

  function Lower(s: string): (r: string)
    ensures |r| == |s| && forall i :: 0 <= i < |s| ==> r[i] == LowerChar(s[i])
  {
    if s == [] then [] else Lower(s[..|s| - 1]) + [LowerChar(s[|s| - 1])]
  }

  /** The same letter, in upper or lower case. */
  predicate SameLetter(a: char, b: char) {
    || a == b
    || ('A' <= a <= 'Z' && b as int == a as int + 32)
    || ('A' <= b <= 'Z' && a as int == b as int + 32)
  }

  /** Character by character the same, in any case. */
  predicate SameName(s: string, t: string) {
    |s| == |t| && forall i :: 0 <= i < |s| ==> SameLetter(s[i], t[i])
  }

  predicate NoUpperCase(s: string) {
    forall i :: 0 <= i < |s| ==> !('A' <= s[i] <= 'Z')
  }

  /** Lower changes nothing but the case, and leaves no upper case. */
  lemma LowerOnlyLowers(s: string)
    ensures SameName(s, Lower(s)) && NoUpperCase(Lower(s))
    ensures NoUpperCase(s) ==> Lower(s) == s
  {
  }

  lemma SameLetterIff(a: char, b: char)
    ensures SameLetter(a, b) <==> LowerChar(a) == LowerChar(b)
  {
  }

  /** So two names are the same in any case exactly if they lower to the same. */
  lemma SameNameIff(s: string, t: string)
    ensures SameName(s, t) <==> Lower(s) == Lower(t)
  {
    forall i | 0 <= i < |s| && i < |t| ensures SameLetter(s[i], t[i]) <==> Lower(s)[i] == Lower(t)[i] {
      SameLetterIff(s[i], t[i]);
    }
  }

  predicate HasSuffix(s: string, suffix: string) {
    |suffix| <= |s| && s[|s| - |suffix|..] == suffix
  }

  /** The tunnel a host names; the empty string stands for the apex site. */
  function Subdomain(host: string, base: string): string {
    var h, b := Lower(host), Lower(base);
    var suffix := "." + b;
    if h == b then ""
    else if HasSuffix(h, suffix) then h[..|h| - |suffix|]
    else ""
  }

  lemma LowerSplits(host: string, base: string, name: string)
    requires name != ""
    ensures Subdomain(host, base) == name <==> Lower(host) == name + "." + Lower(base)
  {
    var h, suffix := Lower(host), "." + Lower(base);
    assert name + "." + Lower(base) == name + suffix;
    if h == name + suffix {
      assert h[|h| - |suffix|..] == suffix && h[..|h| - |suffix|] == name;
    }
    if HasSuffix(h, suffix) {
      assert h == h[..|h| - |suffix|] + suffix;
    }
  }

  /** A host routes to a name exactly if it is that name under the base in any case; the name
      has no upper case. */
  lemma RoutesIff(host: string, base: string, name: string)
    requires name != ""
    ensures Subdomain(host, base) == name <==> NoUpperCase(name) && SameName(host, name + "." + base)
  {
    LowerSplits(host, base, name);
    LowerOnlyLowers(host);
    LowerOnlyLowers(name);
    LowerJoins(name + ".", base);
    LowerJoins(name, ".");
    assert Lower(".") == ".";
    SameNameIff(host, name + "." + base);
    if Subdomain(host, base) == name {
      assert forall i :: 0 <= i < |name| ==> name[i] == Lower(host)[i];
    }
  }

  /** The base itself, in any case, is the apex site, and so is every host not under it. */
  lemma ApexHosts(host: string, base: string)
    ensures SameName(host, base) ==> Subdomain(host, base) == ""
    ensures (forall name :: !SameName(host, name + "." + base)) ==> Subdomain(host, base) == ""
  {
    SameNameIff(host, base);
    if Subdomain(host, base) != "" { RoutesIff(host, base, Subdomain(host, base)); }
  }

  predicate NameEnd(c: char) { 'a' <= c <= 'z' || '0' <= c <= '9' }

  predicate NameChar(c: char) { NameEnd(c) || c == '-' }

  /** The pattern for names that agents may claim. */
  predicate ValidName(name: string) {
    && 3 <= |name| <= 63
    && NameEnd(name[0]) && NameEnd(name[|name| - 1])
    && forall i :: 0 < i < |name| - 1 ==> NameChar(name[i])
  }

  function Repeated(c: char, n: nat): (s: string)
    ensures |s| == n && forall i :: 0 <= i < n ==> s[i] == c
  {
    if n == 0 then "" else [c] + Repeated(c, n - 1)
  }

  /** Names have 3 to 63 characters: each such length has one, and no other. */
  lemma NameLengths(n: nat)
    ensures (exists name :: |name| == n && ValidName(name)) <==> 3 <= n <= 63
  {
    if 3 <= n <= 63 {
      assert ValidName(Repeated('a', n));
    }
  }

  function HostOf(name: string, base: string): string { name + "." + base }

  lemma LowerJoins(a: string, b: string)
    ensures Lower(a + b) == Lower(a) + Lower(b)
  {
  }

  lemma ValidNamesAreLower(name: string)
    requires ValidName(name)
    ensures Lower(name) == name
  {
    assert forall i :: 0 <= i < |name| ==> NameChar(name[i]);
  }

  /** The characters a claimable name is made of, spelled out; a hyphen only inside. */
  lemma NameCharacters(name: string)
    ensures ValidName(name) <==>
      && 3 <= |name| <= 63 && name[0] != '-' && name[|name| - 1] != '-'
      && forall i :: 0 <= i < |name| ==> 'a' <= name[i] <= 'z' || '0' <= name[i] <= '9' || name[i] == '-'
  {
    if ValidName(name) {
      forall i | 0 <= i < |name| ensures NameChar(name[i]) {
        if i == 0 || i == |name| - 1 { assert NameEnd(name[i]); }
      }
    }
  }

  /** The public host of a claimable name routes back to that name, in whatever case the base
      is configured and the request's Host header written, and no other claimable name's does. */
  lemma HostRoutesBack(name: string, other: string, base: string, host: string)
    requires ValidName(name) && ValidName(other) && SameName(host, name + "." + base)
    ensures Subdomain(host, base) == name
    ensures SameName(host, other + "." + base) ==> other == name
  {
    HostRoutes(name, base, host);
    if SameName(host, other + "." + base) { HostRoutes(other, base, host); }
  }

  lemma HostRoutes(name: string, base: string, host: string)
    requires ValidName(name) && SameName(host, name + "." + base)
    ensures Subdomain(host, base) == name
  {
    ValidNamesAreLower(name);
    LowerOnlyLowers(name);
    RoutesIff(host, base, name);
  }

  /** What the limiter counts together: one client address on one tunnel. */
  function LimiterKey(ip: string, sub: string): string { ip + "|" + sub }

  /** Two requests share a bucket exactly if they come from the same address to the same
      tunnel; an address holds no bar. */
  lemma BucketsAreShared(ip: string, sub: string, ip': string, sub': string)
    requires '|' !in ip && '|' !in ip'
    ensures LimiterKey(ip, sub) == LimiterKey(ip', sub') <==> ip == ip' && sub == sub'
  {
    var k, k' := LimiterKey(ip, sub), LimiterKey(ip', sub');
    if k == k' {
      assert k[|ip|] == '|' && k'[|ip'|] == '|';
      assert forall i :: 0 <= i < |ip| ==> k[i] == ip[i];
      assert forall i :: 0 <= i < |ip'| ==> k'[i] == ip'[i];
      assert |ip| == |ip'|;
      assert k[..|ip|] == ip && k'[..|ip'|] == ip';
      assert k[|ip| + 1..] == sub && k'[|ip'| + 1..] == sub';
    }
  }
}
