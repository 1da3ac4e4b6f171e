/** The policy engine of `ranger.go`: the rule compiler `New` and the
    deciders `ValidateAddress`, `Validate` and `ValidateURLWithIP`.

    The foreign calls the Go code makes (regular expressions, address, URL
    and CIDR parsing) are the fields of an `Oracles` value that every
    operation takes as a parameter. */
module NetworkPolicy {
  import opened Wrappers
  import opened Cidr

  /** The library functions the engine calls, as uninterpreted functions. */
  datatype Oracles = Oracles(
    compiles: string -> bool,            // regexp.Compile(r) returns no error
    matches: (string, string) -> bool,   // regexp.MustCompile(p).MatchString(s)
    parseIP: string -> Option<IP>,       // net.ParseIP, nil when unparsable
    parseURLScheme: string -> Option<string>, // url.Parse: the scheme, None on error
    isIP: string -> bool,                // iputil.IsIP
    parseCIDR: string -> Option<Network> // net.ParseCIDR: the network, None on error
  )

  /** The four rule lists of the configuration (`Options`). */
  datatype Options = Options(
    denyList: seq<string>,
    allowList: seq<string>,
    allowSchemeList: seq<string>,
    denySchemeList: seq<string>
  )

  // ---------------------------------------------------------------------
  // Rule classification (asCidr and the body of New's rule loops)
  // ---------------------------------------------------------------------

  /** The text `asCidr` hands to `net.ParseCIDR`: `/32` is appended to
      anything `iputil.IsIP` accepts, whatever its address family. */
  function CidrText(o: Oracles, s: string): string {
    if o.isIP(s) then s + "/32" else s
  }

  /** `asCidr`: parses `s` (with `/32` appended to an IP) as a CIDR block,
      passing the parser's error on. */
  function AsCidr(o: Oracles, s: string): (r: Result<Network, CidrError>)
    ensures o.isIP(s) ==> (r.Ok? <==> o.parseCIDR(s + "/32").Some?)
    ensures !o.isIP(s) ==> (r.Ok? <==> o.parseCIDR(s).Some?)
    ensures r.Ok? ==> o.parseCIDR(CidrText(o, s)) == Some(r.value)
    ensures r.Err? ==> r.error == InvalidCidrAddress(CidrText(o, s))
  {
    var text := CidrText(o, s);
    match o.parseCIDR(text)
    case None => Err(InvalidCidrAddress(text))
    case Some(n) => Ok(n)
  }

  /** Where one allow/deny rule ends up. */
  datatype Kind =
    | Pattern                    // compiled as a regular expression, kept in the rule map
    | Block(network: Network)    // inserted into the trie as this network
    | Rejected(error: CidrError) // makes New fail with this error

  /** The classification `New` applies to each rule: a regular expression
      first; only a rule that does not compile is parsed as a CIDR block and
      inserted into the trie. */
  function Classify(o: Oracles, rule: string): (k: Kind)
    ensures k.Pattern? <==> o.compiles(rule)
    ensures k.Block? ==> AsCidr(o, rule) == Ok(k.network) && Insertable(k.network)
    ensures k.Rejected? <==>
      !o.compiles(rule) && (AsCidr(o, rule).Err? || !Insertable(AsCidr(o, rule).value))
    ensures k.Rejected? && AsCidr(o, rule).Err? ==> k.error == AsCidr(o, rule).error
    ensures k.Rejected? && AsCidr(o, rule).Ok? ==> k.error == InvalidNetworkInput(AsCidr(o, rule).value)
  {
    if o.compiles(rule) then Pattern
    else match AsCidr(o, rule)
      case Err(e) => Rejected(e)
      case Ok(n) => match NewTrie().Insert(n)
        case Err(e) => Rejected(e)
        case Ok(_) => Block(n)
  }

  /** The error of the first rejected rule of `l`, if any. */
  function FirstError(o: Oracles, l: seq<string>): (e: Option<CidrError>)
    ensures e.None? <==> forall i :: 0 <= i < |l| ==> !Classify(o, l[i]).Rejected?
    ensures e.Some? ==> exists i :: (0 <= i < |l| && Classify(o, l[i]) == Rejected(e.value) &&
      (forall j :: 0 <= j < i ==> !Classify(o, l[j]).Rejected?))
  {
    if l == [] then None
    else match Classify(o, l[0])
      case Rejected(err) => Some(err)
      case _ =>
        var rest := FirstError(o, l[1..]);
        assert forall i :: 1 <= i < |l| ==> l[i] == l[1..][i - 1];
        if rest.Some? then
          ghost var i :| 0 <= i < |l| - 1 && Classify(o, l[1..][i]) == Rejected(rest.value) &&
            (forall j :: 0 <= j < i ==> !Classify(o, l[1..][j]).Rejected?);
          assert Classify(o, l[i + 1]) == Rejected(rest.value);
          rest
        else rest
  }

  /** The raw texts of the rules of `l` that compile as regular expressions:
      the keys of the rule map. */
  function PatternRules(o: Oracles, l: seq<string>): set<string> {
    set r | r in l && o.compiles(r)
  }

  /** The networks the rules of `l` that do not compile as regular
      expressions are inserted as. */
  function Blocks(o: Oracles, l: seq<string>): set<Network> {
    set r | r in l && Classify(o, r).Block? :: Classify(o, r).network
  }

  /** One rule list compiled into a rule map and a trie: every rule that
      compiles is a key of the map, every other rule's network is in the
      trie, and nothing else is in either. */
  ghost predicate Compiled(o: Oracles, l: seq<string>, rules: set<string>, trie: Trie) {
    (forall r :: r in rules <==> r in l && o.compiles(r)) &&
    (forall r :: r in l && !o.compiles(r) ==>
      AsCidr(o, r).Ok? && AsCidr(o, r).value in trie.nets) &&
    (forall n :: n in trie.nets ==>
      exists r :: r in l && !o.compiles(r) && AsCidr(o, r) == Ok(n))
  }

  /** What `New` computes: the first rejected rule's error (allow list
      before deny list), or a ranger with all six fields present. */
  function Build(o: Oracles, options: Options): (res: Result<Ranger, CidrError>)
    ensures res.Err? <==> exists r :: r in options.allowList + options.denyList && Classify(o, r).Rejected?
    ensures res.Err? ==>
      var all := options.allowList + options.denyList;
      exists i :: (0 <= i < |all| && Classify(o, all[i]) == Rejected(res.error) &&
        (forall j :: 0 <= j < i ==> !Classify(o, all[j]).Rejected?))
    ensures res.Ok? ==> res.value.AllPresent()
    ensures res.Ok? ==> forall s :: s in res.value.allowSchemeList.value <==> s in options.allowSchemeList
    ensures res.Ok? ==> forall s :: s in res.value.denySchemeList.value <==> s in options.denySchemeList
    ensures res.Ok? ==>
      Compiled(o, options.allowList, res.value.allowRules.value, res.value.allowRanger.value)
    ensures res.Ok? ==>
      Compiled(o, options.denyList, res.value.denyRules.value, res.value.denyRanger.value)
  {
    var all := options.allowList + options.denyList;
    match FirstError(o, all)
    case Some(e) =>
      assert exists i :: 0 <= i < |all| && Classify(o, all[i]).Rejected?;
      Err(e)
    case None =>
      assert forall r :: r in all ==> !Classify(o, r).Rejected?;
      CompiledFromBlocks(o, options.allowList);
      CompiledFromBlocks(o, options.denyList);
      Ok(Ranger(
        denyRanger := Some(Trie(Blocks(o, options.denyList))),
        allowRanger := Some(Trie(Blocks(o, options.allowList))),
        allowRules := Some(PatternRules(o, options.allowList)),
        denyRules := Some(PatternRules(o, options.denyList)),
        allowSchemeList := Some(set s | s in options.allowSchemeList),
        denySchemeList := Some(set s | s in options.denySchemeList)))
  }

  /** A list with no rejected rule compiles into its pattern rules and its blocks. */
  lemma CompiledFromBlocks(o: Oracles, l: seq<string>)
    requires forall r :: r in l ==> !Classify(o, r).Rejected?
    ensures Compiled(o, l, PatternRules(o, l), Trie(Blocks(o, l)))
  {
  }

  /** Appending one rule adds at most its own network to the blocks. */
  lemma BlocksSnoc(o: Oracles, l: seq<string>, r: string)
    ensures Blocks(o, l + [r]) ==
      Blocks(o, l) + (if Classify(o, r).Block? then {Classify(o, r).network} else {})
  {
  }

  /** If every rule before index `i` is accepted and the rule at `i` is
      rejected, the list's first error is that rule's. */
  lemma FirstErrorAt(o: Oracles, l: seq<string>, i: nat)
    requires i < |l| && Classify(o, l[i]).Rejected?
    requires forall j :: 0 <= j < i ==> !Classify(o, l[j]).Rejected?
    ensures FirstError(o, l) == Some(Classify(o, l[i]).error)
  {
  }

  /** The first error of two lists processed in sequence is the first
      list's, or else the second list's. */
  lemma {:induction false} FirstErrorAppend(o: Oracles, a: seq<string>, b: seq<string>)
    ensures FirstError(o, a + b) == if FirstError(o, a).Some? then FirstError(o, a) else FirstError(o, b)
  {
    if a != [] {
      assert (a + b)[0] == a[0];
      assert (a + b)[1..] == a[1..] + b;
      FirstErrorAppend(o, a[1..], b);
    } else {
      assert a + b == b;
    }
  }

  /** One scheme loop of `New`: the set of the supplied scheme strings. */
  method SchemeSet(l: seq<string>) returns (schemes: set<string>)
    ensures forall s :: s in schemes <==> s in l
  {
    schemes := {};
    for i := 0 to |l|
      invariant schemes == set s | s in l[..i]
    {
      assert l[..i + 1] == l[..i] + [l[i]];
      schemes := schemes + {l[i]};
    }
    assert l[..|l|] == l;
  }

  /** One rule loop of `New`: each rule is kept as a pattern if it compiles,
      and otherwise parsed and inserted into the trie; the loop returns at
      the first rule that fails. */
  method CompileRules(o: Oracles, l: seq<string>) returns (res: Result<(set<string>, Trie), CidrError>)
    ensures res.Err? ==> FirstError(o, l) == Some(res.error)
    ensures res.Ok? ==> FirstError(o, l).None? && res.value == (PatternRules(o, l), Trie(Blocks(o, l)))
  {
    var rules: set<string> := {};
    var ranger := NewTrie();
    for i := 0 to |l|
      invariant rules == PatternRules(o, l[..i])
      invariant ranger == Trie(Blocks(o, l[..i]))
      invariant forall j :: 0 <= j < i ==> !Classify(o, l[j]).Rejected?
    {
      var r := l[i];
      assert l[..i + 1] == l[..i] + [r];
      BlocksSnoc(o, l[..i], r);
      if o.compiles(r) {
        rules := rules + {r};
        continue;
      }
      var cidr := AsCidr(o, r);
      if cidr.Err? {
        FirstErrorAt(o, l, i);
        return Err(cidr.error);
      }
      var inserted := ranger.Insert(cidr.value);
      if inserted.Err? {
        FirstErrorAt(o, l, i);
        return Err(inserted.error);
      }
      ranger := inserted.value;
    }
    assert l[..|l|] == l;
    res := Ok((rules, ranger));
  }

  /** `New`: builds the scheme sets, then compiles the allow list and the
      deny list, returning at the first rule that fails. */
  method New(o: Oracles, options: Options) returns (res: Result<Ranger, CidrError>)
    ensures res == Build(o, options)
  {
    var allowSchemeList := SchemeSet(options.allowSchemeList);
    var denySchemeList := SchemeSet(options.denySchemeList);
    FirstErrorAppend(o, options.allowList, options.denyList);

    var allow := CompileRules(o, options.allowList);
    if allow.Err? {
      return Err(allow.error);
    }
    var deny := CompileRules(o, options.denyList);
    if deny.Err? {
      return Err(deny.error);
    }

    assert allowSchemeList == set s | s in options.allowSchemeList;
    assert denySchemeList == set s | s in options.denySchemeList;
    res := Ok(Ranger(
      denyRanger := Some(deny.value.1),
      allowRanger := Some(allow.value.1),
      allowRules := Some(allow.value.0),
      denyRules := Some(deny.value.0),
      allowSchemeList := Some(allowSchemeList),
      denySchemeList := Some(denySchemeList)));
  }

  // ---------------------------------------------------------------------
  // The compiled policy and its deciders
  // ---------------------------------------------------------------------

  /** `rangerContains`: the trie's answer, with a lookup error read as "no". */
  function RangerContains(t: Trie, ip: IP): (b: bool)
    ensures b <==> IsAddressLength(|ip.bits|) && exists n :: n in t.nets && Covers(n, ip)
  {
    var r := t.Contains(ip);
    r.Ok? && r.value
  }

  /** Whether some rule of `rules` matches `host` (a loop over a Go map,
      whose order is unspecified, that stops at the first match). */
  method AnyMatch(o: Oracles, rules: set<string>, host: string) returns (found: bool)
    ensures found <==> exists p :: p in rules && o.matches(p, host)
  {
    found := false;
    var pending := rules;
    while pending != {}
      invariant pending <= rules
      invariant forall p :: p in rules - pending ==> !o.matches(p, host)
      decreases |pending|
    {
      var p :| p in pending;
      if o.matches(p, host) {
        found := true;
        break;
      }
      pending := pending - {p};
    }
  }

  /** The compiled policy (`Ranger`). Each field is optional because the
      deciders test it against nil; `New` always fills all six. */
  datatype Ranger = Ranger(
    denyRanger: Option<Trie>,
    allowRanger: Option<Trie>,
    allowRules: Option<set<string>>,
    denyRules: Option<set<string>>,
    allowSchemeList: Option<set<string>>,
    denySchemeList: Option<set<string>>
  ) {

    /** No field is nil. */
    predicate AllPresent() {
      denyRanger.Some? && allowRanger.Some? && allowRules.Some? && denyRules.Some? &&
      allowSchemeList.Some? && denySchemeList.Some?
    }

    /** The deny trie is present and contains `ip`. */
    predicate DenyHit(ip: IP) {
      denyRanger.Some? && RangerContains(denyRanger.value, ip)
    }

    /** The scheme is in a present deny-scheme set. */
    predicate SchemeDenied(scheme: string) {
      denySchemeList.Some? && scheme in denySchemeList.value
    }

    /** The allow-scheme set is absent, or it holds the scheme. */
    predicate SchemeAllowed(scheme: string) {
      allowSchemeList.None? || scheme in allowSchemeList.value
    }

    /** Some deny rule matches the whole input string. */
    predicate PatternDenied(o: Oracles, host: string) {
      denyRules.Some? && exists p :: p in denyRules.value && o.matches(p, host)
    }

    /** The allow rules are absent, or one of them matches the whole input string. */
    predicate PatternAllowed(o: Oracles, host: string) {
      allowRules.None? || exists p :: p in allowRules.value && o.matches(p, host)
    }

    /** `ValidateAddress`: an unparsable address is refused; a denied one is
        refused whatever the allow trie holds; past that, a present allow
        trie decides, and only an absent one lets the address through. */
    function ValidateAddress(o: Oracles, s: string): (ok: bool)
      ensures o.parseIP(s).None? ==> !ok
      ensures o.parseIP(s).Some? && DenyHit(o.parseIP(s).value) ==> !ok
      ensures o.parseIP(s).Some? && !DenyHit(o.parseIP(s).value) && allowRanger.Some? ==>
        (ok <==> RangerContains(allowRanger.value, o.parseIP(s).value))
      ensures ok && allowRanger.Some? ==> RangerContains(allowRanger.value, o.parseIP(s).value)
      ensures o.parseIP(s).Some? && !DenyHit(o.parseIP(s).value) && allowRanger.None? ==> ok
    {
      match o.parseIP(s)
      case None => false
      case Some(ip) =>
        if DenyHit(ip) then false
        else if allowRanger.Some? then RangerContains(allowRanger.value, ip)
        else true
    }

    /** The decision for a string that is not decided as an IP: deny wins at
        both the scheme and the pattern level, and a present but empty allow
        set (of schemes or of rules) lets nothing through. */
    function UrlDecision(o: Oracles, host: string, scheme: string): (ok: bool)
      ensures SchemeDenied(scheme) ==> !ok
      ensures PatternDenied(o, host) ==> !ok
      ensures allowSchemeList == Some({}) ==> !ok
      ensures allowRules == Some({}) ==> !ok
      ensures ok ==> SchemeAllowed(scheme) && PatternAllowed(o, host)
      ensures (!SchemeDenied(scheme) && !PatternDenied(o, host) && PatternAllowed(o, host) &&
        SchemeAllowed(scheme)) ==> ok
      ensures allowSchemeList.None? && allowRules.None? ==>
        (ok <==> !SchemeDenied(scheme) && !PatternDenied(o, host))
    {
      !SchemeDenied(scheme) && !PatternDenied(o, host) && PatternAllowed(o, host) && SchemeAllowed(scheme)
    }

    /** What `Validate` decides. An input that parses as an IP is refused
        when denied, and decided by the allow trie alone when that is
        present; otherwise (not an IP, or an IP with no allow trie) the
        input is parsed as a URL and decided by schemes and patterns. */
    function Validation(o: Oracles, host: string): (ok: bool)
      ensures o.parseIP(host).Some? && DenyHit(o.parseIP(host).value) ==> !ok
      ensures o.parseIP(host).Some? && allowRanger.Some? ==>
        (ok <==> !DenyHit(o.parseIP(host).value) && RangerContains(allowRanger.value, o.parseIP(host).value))
      ensures o.parseIP(host).None? || (!DenyHit(o.parseIP(host).value) && allowRanger.None?) ==>
        (ok <==> o.parseURLScheme(host).Some? && UrlDecision(o, host, o.parseURLScheme(host).value))
      ensures o.parseURLScheme(host).None? && (o.parseIP(host).None? || allowRanger.None?) ==> !ok
    {
      var ip := o.parseIP(host);
      if ip.Some? && DenyHit(ip.value) then false
      else if ip.Some? && allowRanger.Some? then RangerContains(allowRanger.value, ip.value)
      else match o.parseURLScheme(host)
        case None => false
        case Some(scheme) => UrlDecision(o, host, scheme)
    }

    /** `Validate`, step by step as the Go code does it: the IP path, URL
        parsing, the two scheme flags and the two rule loops. */
    method Validate(o: Oracles, host: string) returns (ok: bool)
      ensures ok == Validation(o, host)
    {
      var ip := o.parseIP(host);
      if ip.Some? {
        if denyRanger.Some? && RangerContains(denyRanger.value, ip.value) {
          return false;
        }
        if allowRanger.Some? {
          return RangerContains(allowRanger.value, ip.value);
        }
      }

      var url := o.parseURLScheme(host);
      if url.None? {
        return false;
      }
      var scheme := url.value;

      var isSchemeInDenyList, isSchemeInAllowedList := false, false;
      if denySchemeList.Some? {
        isSchemeInDenyList := scheme in denySchemeList.value;
      }
      if allowSchemeList.Some? {
        isSchemeInAllowedList := scheme in allowSchemeList.value;
      } else {
        isSchemeInAllowedList := true;
      }

      // ranging over a nil map runs no iteration
      var isInDenyList := AnyMatch(o, if denyRules.Some? then denyRules.value else {}, host);
      var isInAllowedList;
      if allowRules.Some? {
        isInAllowedList := AnyMatch(o, allowRules.value, host);
      } else {
        isInAllowedList := true;
      }

      ok := !isSchemeInDenyList && !isInDenyList && isInAllowedList && isSchemeInAllowedList;
    }

    /** `ValidateURLWithIP`: the host must pass `Validate` and its resolved
        address must pass `ValidateAddress`. */
    method ValidateURLWithIP(o: Oracles, host: string, ip: string) returns (ok: bool)
      ensures ok == (Validation(o, host) && ValidateAddress(o, ip))
      ensures o.parseIP(ip).Some? && DenyHit(o.parseIP(ip).value) ==> !ok
    {
      ok := Validate(o, host);
      ok := ok && ValidateAddress(o, ip);
    }
  }
}
