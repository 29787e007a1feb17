/**
 * The rules of pkg/core/router.go stated as functions: which keywords find
 * each role, how an address becomes a route target, how many attempts a
 * lookup gets, and what resolving every configured domain yields.
 */
module RouterSpec {
  import opened Wrappers
  import opened Strings
  import opened Network
  import opened CoreConfig
  import opened Platform

  // ---------------------------------------------------------------------
  // Keywords (DetectInterfaces)
  // ---------------------------------------------------------------------

  const DefaultWifiKeyword := "Wi-Fi"
  const DefaultPhoneKeyword := "iPhone USB"

  /** The configured Wi-Fi keyword, or "Wi-Fi" when none is configured. */
  function WifiKeyword(config: Config): (kw: string)
    ensures kw != ""
    ensures config.wifiKeyword != "" ==> kw == config.wifiKeyword
    ensures config.wifiKeyword == "" ==> kw == "Wi-Fi"
  {
    if config.wifiKeyword == "" then DefaultWifiKeyword else config.wifiKeyword
  }

  /** The configured phone keyword, or "iPhone USB" when none is configured. */
  function PhoneKeyword(config: Config): (kw: string)
    ensures kw != ""
    ensures config.phoneKeyword != "" ==> kw == config.phoneKeyword
    ensures config.phoneKeyword == "" ==> kw == "iPhone USB"
  {
    if config.phoneKeyword == "" then DefaultPhoneKeyword else config.phoneKeyword
  }

  function WifiKeywords(config: Config): seq<string> {
    [WifiKeyword(config), "Wi-Fi"]
  }

  function PhoneKeywords(config: Config): seq<string> {
    [PhoneKeyword(config), "iPhone USB", "iPad USB", "RNDIS"]
  }

  /**
   * Whatever keyword is configured, the Wi-Fi role is matched when some port
   * name contains "wi-fi": the port found is that one or an earlier one.
   */
  lemma WifiFallback(config: Config, interfaces: seq<InterfaceInfo>, i: nat)
    requires i < |interfaces| && Contains(ToLower(interfaces[i].name), ToLower("Wi-Fi"))
    ensures exists j :: 0 <= j <= i && FindInterfaceByName(interfaces, WifiKeywords(config)) == Some(interfaces[j])
  {
    assert NameMatches(interfaces[i].name, WifiKeywords(config)) by {
      assert WifiKeywords(config)[1] == "Wi-Fi";
    }
    FoundNoLater(interfaces, WifiKeywords(config), i);
  }

  /**
   * Whatever keyword is configured, the phone role is matched when some port
   * name contains "iPhone USB", "iPad USB" or "RNDIS": the port found is that
   * one or an earlier one.
   */
  lemma PhoneFallback(config: Config, interfaces: seq<InterfaceInfo>, i: nat, k: nat)
    requires i < |interfaces| && 1 <= k < |PhoneKeywords(config)|
    requires Contains(ToLower(interfaces[i].name), ToLower(PhoneKeywords(config)[k]))
    ensures exists j :: 0 <= j <= i && FindInterfaceByName(interfaces, PhoneKeywords(config)) == Some(interfaces[j])
  {
    assert NameMatches(interfaces[i].name, PhoneKeywords(config));
    FoundNoLater(interfaces, PhoneKeywords(config), i);
  }

  /** When the port at `i` matches, the search returns a port at or before `i`. */
  lemma FoundNoLater(interfaces: seq<InterfaceInfo>, keywords: seq<string>, i: nat)
    requires i < |interfaces| && NameMatches(interfaces[i].name, keywords)
    ensures exists j :: 0 <= j <= i && FindInterfaceByName(interfaces, keywords) == Some(interfaces[j])
  {
    var r := FindInterfaceByName(interfaces, keywords);
    var j :| 0 <= j < |interfaces| && interfaces[j] == r.value
             && NameMatches(interfaces[j].name, keywords)
             && forall m :: 0 <= m < j ==> !NameMatches(interfaces[m].name, keywords);
    assert j <= i;
    assert r == Some(interfaces[j]);
  }

  // ---------------------------------------------------------------------
  // Route targets (isCIDR and the "/32" suffix)
  // ---------------------------------------------------------------------

  /** isCIDR: the string contains a slash. */
  predicate IsCIDR(s: string) {
    Contains(s, "/")
  }

  /** isCIDR holds exactly when some character of the string is a slash. */
  lemma IsCIDRMeansSlash(s: string)
    ensures IsCIDR(s) <==> exists i :: 0 <= i < |s| && s[i] == '/'
  {
    ContainsAt(s, "/");
    if IsCIDR(s) {
      var i :| OccursAt(s, "/", i);
      assert s[i] == s[i..i + 1][0];
    }
    if exists i :: 0 <= i < |s| && s[i] == '/' {
      var i :| 0 <= i < |s| && s[i] == '/';
      assert s[i..i + 1] == "/";
      assert OccursAt(s, "/", i);
    }
  }

  /** The target routed for an address: itself when it has a slash, else a host route. */
  function HostTarget(ip: string): string {
    if IsCIDR(ip) then ip else ip + "/32"
  }

  function HostTargets(ips: seq<string>): (ts: seq<string>)
    ensures |ts| == |ips|
  {
    seq(|ips|, i requires 0 <= i < |ips| => HostTarget(ips[i]))
  }

  /**
   * Every target is a CIDR, formatting twice changes nothing, and an
   * address is left alone exactly when it already is a CIDR.
   */
  lemma HostTargetFacts(ip: string)
    ensures IsCIDR(HostTarget(ip))
    ensures HostTarget(HostTarget(ip)) == HostTarget(ip)
    ensures HostTarget(ip) == ip <==> IsCIDR(ip)
  {
    if !IsCIDR(ip) {
      assert HasPrefix("/32", "/");
      assert Contains("/32", "/");
      ContainsInSuffix(ip, "/32", "/");
      assert |HostTarget(ip)| == |ip| + 3;
    }
  }

  // ---------------------------------------------------------------------
  // Lookups (ResolveDomains)
  // ---------------------------------------------------------------------

  /** The configured domains, each once: the keys of the Go map. */
  function DomainSet(config: Config): set<string> {
    set d | d in config.tetherDomains
  }

  /** `order` lists every element of `s` exactly once. */
  predicate Enumerates(order: seq<string>, s: set<string>) {
    (forall d :: d in order ==> d in s)
    && (forall d :: d in s ==> d in order)
    && (forall i, j :: 0 <= i < j < |order| ==> order[i] != order[j])
  }

  /** `order` lists, once each, the elements of `all` already taken out of `remaining`. */
  predicate Partition(order: seq<string>, remaining: set<string>, all: set<string>) {
    && remaining <= all
    && (forall d :: d in order ==> d in all && d !in remaining)
    && (forall d :: d in all ==> d in order || d in remaining)
    && (forall i, j :: 0 <= i < j < |order| ==> order[i] != order[j])
  }

  lemma PartitionStep(order: seq<string>, remaining: set<string>, all: set<string>, d: string)
    requires Partition(order, remaining, all) && d in remaining
    ensures Partition(order + [d], remaining - {d}, all)
  {
  }

  lemma PartitionDone(order: seq<string>, all: set<string>)
    requires Partition(order, {}, all)
    ensures Enumerates(order, all)
  {
  }

  /** The name actually looked up: one leading "*." is dropped. */
  function LookupName(domain: string): (name: string)
    ensures HasPrefix(domain, "*.") ==> domain == "*." + name
    ensures !HasPrefix(domain, "*.") ==> name == domain
  {
    TrimPrefix(domain, "*.")
  }

  /** Exactly one wildcard label is dropped, whatever follows it. */
  lemma LookupNameStripsOnce(rest: string)
    ensures LookupName("*." + rest) == rest
  {
    assert HasPrefix("*." + rest, "*.");
  }

  /** Three attempts when both interfaces are up, otherwise one. */
  function MaxTries(bothActive: bool): (n: nat)
    ensures n == 3 <==> bothActive
    ensures n == 1 <==> !bothActive
  {
    if bothActive then 3 else 1
  }

  /** The answer of a run of attempts, the commands it gave, and how many lookups it made. */
  datatype Attempts = Attempts(answer: Option<seq<string>>, commands: seq<Command>, used: nat)

  /** Up to `tries` lookups of `name` from lookup number `n` on, stopping at the first answer. */
  function Retry(host: Host, name: string, n: nat, tries: nat): Attempts
    requires tries >= 1
    decreases tries
  {
    var answer := host.Answer(name, n);
    if answer.Some? || tries == 1 then Attempts(answer, [Lookup(name)], 1)
    else
      var rest := Retry(host, name, n + 1, tries - 1);
      Attempts(rest.answer, [Lookup(name), Pause] + rest.commands, rest.used + 1)
  }

  /** Lookups at the even positions and pauses between them. */
  function Interleaved(name: string, len: nat): (cs: seq<Command>)
    ensures |cs| == len
  {
    seq(len, i requires 0 <= i < len => if i % 2 == 0 then Lookup(name) else Pause)
  }

  lemma InterleavedSnoc(name: string, len: nat)
    ensures Interleaved(name, len) + [if len % 2 == 0 then Lookup(name) else Pause] == Interleaved(name, len + 1)
  {
  }

  lemma InterleavedCons(name: string, len: nat)
    ensures [Lookup(name), Pause] + Interleaved(name, len) == Interleaved(name, len + 2)
  {
    var a := [Lookup(name), Pause] + Interleaved(name, len);
    var b := Interleaved(name, len + 2);
    forall i | 2 <= i < len + 2 ensures a[i] == b[i] {
      assert (i - 2) % 2 == i % 2;
    }
  }

  /** A run of k attempts is k lookups with one pause between each two of them, and nothing else. */
  lemma {:induction false} RetryShape(host: Host, name: string, n: nat, tries: nat)
    requires tries >= 1
    ensures 1 <= Retry(host, name, n, tries).used <= tries
    ensures Retry(host, name, n, tries).commands == Interleaved(name, 2 * Retry(host, name, n, tries).used - 1)
    decreases tries
  {
    var answer := host.Answer(name, n);
    if !(answer.Some? || tries == 1) {
      var rest := Retry(host, name, n + 1, tries - 1);
      RetryShape(host, name, n + 1, tries - 1);
      InterleavedCons(name, 2 * rest.used - 1);
    }
  }

  /**
   * The run stops at the first lookup that answers, and returns that answer;
   * it fails only after all `tries` lookups failed.
   */
  lemma {:induction false} RetryOutcome(host: Host, name: string, n: nat, tries: nat)
    requires tries >= 1
    ensures var a := Retry(host, name, n, tries);
      && (forall m :: n <= m < n + a.used - 1 ==> host.Answer(name, m).None?)
      && a.answer == host.Answer(name, n + a.used - 1)
      && (a.answer.None? ==> a.used == tries)
    decreases tries
  {
    var answer := host.Answer(name, n);
    if !(answer.Some? || tries == 1) {
      var rest := Retry(host, name, n + 1, tries - 1);
      RetryOutcome(host, name, n + 1, tries - 1);
      assert answer.None?;
    }
  }

  /**
   * The retry count: when every lookup fails, a domain is looked up three
   * times with a pause between each two while both interfaces are up, and
   * once otherwise.
   */
  lemma RetryCount(host: Host, name: string, n: nat, bothActive: bool)
    requires forall m :: n <= m < n + MaxTries(bothActive) ==> host.Answer(name, m).None?
    ensures var a := Retry(host, name, n, MaxTries(bothActive));
      && a.answer.None? && a.used == MaxTries(bothActive)
      && a.commands == if bothActive then [Lookup(name), Pause, Lookup(name), Pause, Lookup(name)] else [Lookup(name)]
  {
    var tries := MaxTries(bothActive);
    RetryShape(host, name, n, tries);
    RetryOutcome(host, name, n, tries);
    var a := Retry(host, name, n, tries);
    assert host.Answer(name, n + a.used - 1).None?;
    assert a.used == tries;
  }

  /** What resolving the domains in `order` yields, from lookup number `n` on. */
  datatype Resolution = Resolution(ips: seq<string>, succeeded: nat, commands: seq<Command>, lookups: nat)

  /** The resolution `done` followed by one more domain's attempts `a`. */
  function Then(done: Resolution, a: Attempts): Resolution {
    if a.answer.Some?
    then Resolution(done.ips + a.answer.value, done.succeeded + 1, done.commands + a.commands, done.lookups + a.used)
    else Resolution(done.ips, done.succeeded, done.commands + a.commands, done.lookups + a.used)
  }

  function ResolveAll(host: Host, order: seq<string>, n: nat, tries: nat): Resolution
    requires tries >= 1
    decreases |order|
  {
    if order == [] then Resolution([], 0, [], n)
    else
      var done := ResolveAll(host, order[..|order| - 1], n, tries);
      Then(done, Retry(host, LookupName(order[|order| - 1]), done.lookups, tries))
  }

  lemma ResolveAllSnoc(host: Host, order: seq<string>, domain: string, n: nat, tries: nat)
    requires tries >= 1
    ensures var done := ResolveAll(host, order, n, tries);
      ResolveAll(host, order + [domain], n, tries) == Then(done, Retry(host, LookupName(domain), done.lookups, tries))
  {
    assert (order + [domain])[..|order|] == order;
  }

  /** No address is resolved exactly when no domain succeeded, and at most every domain succeeds. */
  lemma {:induction false} ResolveAllEmpty(host: Host, order: seq<string>, n: nat, tries: nat)
    requires tries >= 1
    ensures ResolveAll(host, order, n, tries).ips == [] <==> ResolveAll(host, order, n, tries).succeeded == 0
    ensures ResolveAll(host, order, n, tries).succeeded <= |order|
    decreases |order|
  {
    if order != [] {
      var init := order[..|order| - 1];
      var done := ResolveAll(host, init, n, tries);
      ResolveAllEmpty(host, init, n, tries);
      RetryOutcome(host, LookupName(order[|order| - 1]), done.lookups, tries);
    }
  }

  /** Each domain gets between one and `tries` lookups. */
  lemma {:induction false} ResolveAllLookups(host: Host, order: seq<string>, n: nat, tries: nat)
    requires tries >= 1
    ensures n + |order| <= ResolveAll(host, order, n, tries).lookups <= n + tries * |order|
    decreases |order|
  {
    if order != [] {
      var init := order[..|order| - 1];
      var done := ResolveAll(host, init, n, tries);
      var a := Retry(host, LookupName(order[|order| - 1]), done.lookups, tries);
      ResolveAllLookups(host, init, n, tries);
      RetryShape(host, LookupName(order[|order| - 1]), done.lookups, tries);
      assert ResolveAll(host, order, n, tries) == Then(done, a);
      MulSucc(tries, |init|);
    }
  }

  lemma MulSucc(a: nat, b: nat)
    ensures a * (b + 1) == a * b + a
  {
  }

  /** One lookup per domain, in iteration order. */
  function LookupEach(order: seq<string>): (cs: seq<Command>)
    ensures |cs| == |order|
  {
    seq(|order|, i requires 0 <= i < |order| => Lookup(LookupName(order[i])))
  }

  /** With a single attempt each, every domain is looked up once, and nothing is paused. */
  lemma {:induction false} ResolveAllOnce(host: Host, order: seq<string>, n: nat)
    ensures ResolveAll(host, order, n, 1).commands == LookupEach(order)
    ensures ResolveAll(host, order, n, 1).lookups == n + |order|
    decreases |order|
  {
    if order != [] {
      var init := order[..|order| - 1];
      ResolveAllOnce(host, init, n);
      assert LookupEach(order) == LookupEach(init) + [Lookup(LookupName(order[|order| - 1]))];
    }
  }
}
