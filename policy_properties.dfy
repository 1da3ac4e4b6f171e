/** Properties that relate the rule compiler `New` (through `Build`, the
    function it is proved to compute) to the deciders. */
module PolicyProperties {
  import opened Wrappers
  import opened Cidr
  import opened NetworkPolicy

  /** Repeating a rule that is already on a list adds no error. */
  lemma FirstErrorRepeat(o: Oracles, l: seq<string>, r: string)
    requires r in l
    ensures FirstError(o, l + [r]) == FirstError(o, l)
  {
    FirstErrorAppend(o, l, [r]);
    if FirstError(o, l).None? {
      var i :| 0 <= i < |l| && l[i] == r;
      assert !Classify(o, l[i]).Rejected?;
      assert FirstError(o, [r]).None?;
    }
  }

  /** Duplicate allow-list texts collapse: compiling the list with a rule
      repeated gives the same outcome as compiling it once. */
  lemma RepeatedAllowRuleChangesNothing(o: Oracles, options: Options, r: string)
    requires r in options.allowList
    ensures Build(o, options.(allowList := options.allowList + [r])) == Build(o, options)
  {
    var l := options.allowList;
    var d := options.denyList;
    FirstErrorRepeat(o, l, r);
    FirstErrorAppend(o, l + [r], d);
    FirstErrorAppend(o, l, d);
    assert (l + [r]) + d == options.(allowList := l + [r]).allowList + d;
    assert PatternRules(o, l + [r]) == PatternRules(o, l);
    assert Blocks(o, l + [r]) == Blocks(o, l) by {
      BlocksSnoc(o, l, r);
    }
  }

  /** Duplicate deny-list texts collapse in the same way. */
  lemma RepeatedDenyRuleChangesNothing(o: Oracles, options: Options, r: string)
    requires r in options.denyList
    ensures Build(o, options.(denyList := options.denyList + [r])) == Build(o, options)
  {
    var l := options.allowList;
    var d := options.denyList;
    FirstErrorRepeat(o, d, r);
    FirstErrorAppend(o, l, d + [r]);
    FirstErrorAppend(o, l, d);
    assert PatternRules(o, d + [r]) == PatternRules(o, d);
    assert Blocks(o, d + [r]) == Blocks(o, d) by {
      BlocksSnoc(o, d, r);
    }
  }

  /** Some rule of `l` that is not a regular expression names a network
      covering `ip`. */
  predicate CoveredByBlockRule(o: Oracles, l: seq<string>, ip: IP) {
    exists r :: r in l && !o.compiles(r) && AsCidr(o, r).Ok? && Covers(AsCidr(o, r).value, ip)
  }

  /** Some rule of `l` that compiles as a regular expression matches `host`. */
  predicate MatchesPatternRule(o: Oracles, l: seq<string>, host: string) {
    exists r :: r in l && o.compiles(r) && o.matches(r, host)
  }

  /** A ranger built by `New` always has an allow trie, so it accepts an
      address exactly when the address parses, some allow rule that is not a
      regular expression covers it, and no such deny rule does. */
  lemma BuiltAddressDecision(o: Oracles, options: Options, rg: Ranger, s: string)
    requires Build(o, options) == Ok(rg)
    ensures rg.ValidateAddress(o, s) <==>
      o.parseIP(s).Some? &&
      CoveredByBlockRule(o, options.allowList, o.parseIP(s).value) &&
      !CoveredByBlockRule(o, options.denyList, o.parseIP(s).value)
  {
  }

  /** On a ranger built by `New`, a non-IP input that parses as a URL with
      scheme `sc` is accepted exactly when the scheme is on the allow-scheme
      list and not on the deny-scheme list, some allow pattern matches the
      input and no deny pattern does. */
  lemma BuiltUrlDecision(o: Oracles, options: Options, rg: Ranger, host: string, sc: string)
    requires Build(o, options) == Ok(rg)
    requires o.parseIP(host).None? && o.parseURLScheme(host) == Some(sc)
    ensures rg.Validation(o, host) <==>
      sc !in options.denySchemeList && sc in options.allowSchemeList &&
      MatchesPatternRule(o, options.allowList, host) &&
      !MatchesPatternRule(o, options.denyList, host)
  {
  }

  /** Regex-first classification makes every allow rule that compiles a
      pattern, so a ranger built from such an allow list (in particular an
      empty one) refuses every address, on both the address and the IP
      path of `Validate`. */
  lemma PatternOnlyAllowListRefusesEveryAddress(o: Oracles, options: Options, rg: Ranger, s: string)
    requires Build(o, options) == Ok(rg)
    requires forall r :: r in options.allowList ==> o.compiles(r)
    ensures !rg.ValidateAddress(o, s)
    ensures o.parseIP(s).Some? ==> !rg.Validation(o, s)
  {
  }

  /** With Go's libraries, every text `net.ParseCIDR` accepts (with or
      without the `/32` `asCidr` appends) is made of hex digits, `.`, `:`
      and `/`, and so also compiles as a regular expression. Under that
      fact no rule of a successful `New` reaches a trie: both tries are
      present and empty, and every address is refused. */
  lemma CidrTextsCompileLeaveTriesEmpty(o: Oracles, options: Options, rg: Ranger)
    requires Build(o, options) == Ok(rg)
    requires forall s :: o.parseCIDR(CidrText(o, s)).Some? ==> o.compiles(s)
    ensures rg.allowRanger == Some(Trie({})) && rg.denyRanger == Some(Trie({}))
    ensures forall s :: !rg.ValidateAddress(o, s)
  {
    forall r | r in options.allowList + options.denyList
      ensures o.compiles(r)
    {
    }
    assert rg.allowRanger.value.nets == {};
    assert rg.denyRanger.value.nets == {};
  }

  /** On a ranger built by `New`, an input that parses as an IP gets the
      same answer from `Validate` as from `ValidateAddress`: patterns and
      schemes are not consulted. */
  lemma BuiltIpInputDecidedAsAddress(o: Oracles, options: Options, rg: Ranger, host: string)
    requires Build(o, options) == Ok(rg)
    requires o.parseIP(host).Some?
    ensures rg.Validation(o, host) == rg.ValidateAddress(o, host)
  {
  }

  /** A deny rule that compiles as a regular expression refuses every
      non-IP input it matches, whatever the allow side says. */
  lemma DenyPatternRefusesMatchingHost(o: Oracles, options: Options, rg: Ranger, r: string, host: string)
    requires Build(o, options) == Ok(rg)
    requires r in options.denyList && o.compiles(r) && o.matches(r, host)
    requires o.parseIP(host).None?
    ensures !rg.Validation(o, host)
  {
  }

  /** A deny rule that does not compile as a regular expression denies
      every address its network covers, whatever the allow list holds. */
  lemma DenyBlockRefusesCoveredAddress(o: Oracles, options: Options, rg: Ranger, r: string, s: string)
    requires Build(o, options) == Ok(rg)
    requires r in options.denyList && !o.compiles(r)
    requires o.parseIP(s).Some?
    requires AsCidr(o, r).Ok? && Covers(AsCidr(o, r).value, o.parseIP(s).value)
    ensures !rg.ValidateAddress(o, s)
    ensures !rg.Validation(o, s)
  {
  }

  /** A URL whose scheme is on the deny-scheme list is refused even if all
      pattern rules would let it through. */
  lemma DeniedSchemeRefused(o: Oracles, options: Options, rg: Ranger, host: string)
    requires Build(o, options) == Ok(rg)
    requires o.parseIP(host).None?
    requires o.parseURLScheme(host).Some? && o.parseURLScheme(host).value in options.denySchemeList
    ensures !rg.Validation(o, host)
  {
  }
}
