# networkpolicy `ranger` — a Dafny model of the policy engine

This project models the outbound-connection policy engine of the Go package
`ranger` (`ranger.go`). The engine decides whether a scanner or crawler may
contact a destination.

- The rule compiler `New` turns four rule lists into a `Ranger`: two scheme
  sets, two regular-expression rule maps and two CIDR tries.
- The deciders answer the queries. `ValidateAddress` handles a raw IP,
  `Validate` a host or URL, and `ValidateURLWithIP` a host with its resolved
  address.

The model follows the code as written, with its quirks:

- Every field of a `Ranger` is an `Option`, so that nil and "present but
  empty" stay distinct. The deciders test five of the fields against nil;
  `DenyRules` is ranged over directly (ranger.go:126), and a nil map runs
  no iteration. `New` fills all six, possibly with empty values.
- Rules are classified regular expression first. Only a rule that fails to
  compile is parsed as a CIDR block. `asCidr` appends `/32` to anything that
  looks like an IP, whatever its family.
- `Validate` on an input that parses as an IP first refuses it if a present
  deny trie contains it (ranger.go:98-99). Past that, a present allow trie
  decides (ranger.go:102-103); with no allow trie the input falls through to
  the URL path.

Modules:

- `Wrappers` (`wrappers.dfy`): `Option` and `Result`.
- `Cidr` (`cidr.dfy`): addresses as bit sequences (32 or 128 bits), networks
  as a base plus a prefix length, and the trie as the set of networks
  inserted into it.
- `NetworkPolicy` (`network_policy.dfy`): `Oracles`, `Options`, rule
  classification, `Build` (what `New` computes), the method `New`, and the
  `Ranger` datatype with its deciders.
- `PolicyProperties` (`policy_properties.dfy`): lemmas that combine `New`
  with the deciders.

The foreign calls are fields of an `Oracles` value passed to every
operation. They are treated as uninterpreted functions:

- `regexp.Compile` becomes `compiles`; `MatchString` becomes `matches`.
- `net.ParseIP`, `url.Parse` (only the scheme is used), `iputil.IsIP` and
  `net.ParseCIDR` each become a function returning an `Option`.

The datatype `Options` models the configuration struct (ranger.go:20-25),
and the datatype `Ranger` models the compiled policy (ranger.go:30-37).

A rule map `map[string]*regexp.Regexp` is modelled as the set of its keys.
In every map `New` builds, each value is the regex compiled from its key
(ranger.go:58, 77), so the set carries the same information.

## Consequences of the code as written

- Rules are classified regex first (ranger.go:57, 76). Only a rule that fails to
  compile as a regex reaches `asCidr` (ranger.go:63, 81). Every text
  `net.ParseCIDR` accepts, with or without the `/32` that ranger.go:168 appends,
  is made of hex digits, `.`, `:` and `/`, and so it also compiles as a regex.
  A rule that reaches `asCidr` therefore fails to parse, and `New` returns an
  error (ranger.go:64-65, 82-83). A successful `New` puts every rule into a rule
  map, such as `127.0.0.0/8` as a string pattern, and leaves both tries empty.
- `New` always creates non-nil tries (ranger.go:54, 73, 91). `ValidateAddress`
  then answers with allow-trie membership (ranger.go:159-160), and `Validate`'s
  IP path does the same (ranger.go:102-103). So every ranger `New` returns
  refuses every address, on both paths. `CidrTextsCompileLeaveTriesEmpty`
  proves this from the parsing fact above, stated as a requirement on the
  oracles. `PatternOnlyAllowListRefusesEveryAddress` proves it without that
  fact when every allow rule compiles. For example, the deny list
  `["127.0.0.0/8"]` with an empty allow list refuses `192.168.1.1` as well as
  `127.0.0.1`.
- The lemmas that speak of trie blocks (`BuiltAddressDecision`,
  `DenyBlockRefusesCoveredAddress`) hold for any oracles. Their accepting or
  blocking cases can arise only under oracles that Go's libraries are not.
- `asCidr` appends `/32` to every string `iputil.IsIP` accepts (ranger.go:167-169),
  IPv6 literals included.
- An IP input that the deny trie does not contain, on a ranger with no allow
  trie, is not decided by the address checks alone. It goes on to URL parsing
  and the scheme and pattern checks (ranger.go:102-108).

## Model

| member | source | states |
|---|---|---|
| `Cidr.NewTrie` | ranger.go:54 | a freshly created trie contains no address |
| `Cidr.Trie.Insert` | ranger.go:68-70 | insertion succeeds exactly for a well-formed IPv4/IPv6 network; on success the trie holds the old networks plus the new one; on failure the error names the network |
| `Cidr.Trie.Contains` | ranger.go:179 | an address of neither family is an error; otherwise the answer is whether some inserted network covers the address |
| `Cidr.InsertThenContains` | ranger.go:68-70 | after an insert, the trie contains what it contained before plus exactly the addresses the new network covers |
| `NetworkPolicy.AsCidr` | ranger.go:166-176 | the text parsed is the input with `/32` appended exactly when `iputil.IsIP` accepts it, whatever the family; the call succeeds exactly when that text parses as a CIDR, returning that network, and otherwise fails with a CIDR error naming that text |
| `NetworkPolicy.Classify` | ranger.go:57-70 | a rule is a pattern exactly when it compiles as a regex; otherwise it is a trie block when `asCidr` and insertion succeed; it is rejected precisely when it neither compiles nor parses and inserts, carrying the parse error or the insert error |
| `NetworkPolicy.FirstError` | ranger.go:55-89 | no error exactly when no rule of the list is rejected; otherwise the error is that of the first rejected rule, every earlier rule being accepted |
| `NetworkPolicy.Build` | ranger.go:40-92 | fails exactly when some allow or deny rule is rejected, with the error of the first one (allow list before deny list); on success all six fields are present, the scheme sets hold exactly the supplied scheme strings, every rule that compiles is a key of its rule map and no other text is, every other rule's network is in its trie, and every trie network comes from a non-regex rule |
| `NetworkPolicy.SchemeSet` | ranger.go:41-49 | a scheme loop yields a set holding exactly the supplied scheme strings |
| `NetworkPolicy.CompileRules` | ranger.go:54-71 | a rule loop fails with the error of the list's first rejected rule; on success it yields exactly the rules that compile as the rule-map keys and the networks of the others as the trie |
| `NetworkPolicy.New` | ranger.go:40-92 | the imperative compiler (scheme loops, then the allow loop, then the deny loop, returning at the first failure) returns exactly `Build` of its inputs |
| `NetworkPolicy.RangerContains` | ranger.go:178-181 | true exactly when the address has a valid family and some network of the trie covers it; a lookup error reads as false |
| `NetworkPolicy.AnyMatch` | ranger.go:126-131 | the loop over the rule map that stops at the first match finds a match exactly when some rule matches the input, in whatever order the map is visited |
| `NetworkPolicy.Ranger.ValidateAddress` | ranger.go:150-164 | an unparsable address is refused; an address in a present deny trie is refused whatever the allow trie holds; past that, a present allow trie's membership is the answer; only an absent allow trie accepts unconditionally |
| `NetworkPolicy.Ranger.UrlDecision` | ranger.go:113-143 | a denied scheme or a matching deny rule refuses; a present but empty allow-scheme set or allow-rule set refuses everything; the input is accepted exactly when neither deny check fires and both allow checks hold (an absent allow side counts as holding) |
| `NetworkPolicy.Ranger.Validation` | ranger.go:94-144 | an IP input in the deny trie is refused; an IP input with a present allow trie gets exactly "not denied and in the allow trie", and schemes and patterns are not consulted; any other input is accepted exactly when it parses as a URL and passes the scheme and pattern decision; an unparsable URL is refused |
| `NetworkPolicy.Ranger.Validate` | ranger.go:94-144 | the step-by-step decider (IP checks, URL parsing, scheme flags, the two rule loops) returns exactly `Validation` |
| `NetworkPolicy.Ranger.ValidateURLWithIP` | ranger.go:146-148 | the answer is `Validate(host) && ValidateAddress(ip)`, so a resolved address in the deny trie is always refused |
| `NetworkPolicy.FirstErrorAppend` | ranger.go:55-89 | the first error of two lists processed in sequence is the first list's, or else the second list's |
| `PolicyProperties.RepeatedAllowRuleChangesNothing` | ranger.go:55-60 | appending a copy of an allow rule that is already listed leaves the compiled result unchanged: duplicate texts collapse |
| `PolicyProperties.RepeatedDenyRuleChangesNothing` | ranger.go:74-79 | appending a copy of a deny rule that is already listed leaves the compiled result unchanged |
| `PolicyProperties.BuiltAddressDecision` | ranger.go:150-164 | a ranger built by `New` accepts an address exactly when it parses, some allow rule that is not a regex names a network covering it, and no such deny rule does; with Go's libraries no rule reaches a trie, so the accepting side never arises (see `CidrTextsCompileLeaveTriesEmpty`) |
| `PolicyProperties.BuiltUrlDecision` | ranger.go:108-143 | on a ranger built by `New`, a non-IP input that parses as a URL is accepted exactly when its scheme is on the allow-scheme list and not on the deny-scheme list, some allow rule compiling as a regex matches it, and no deny rule compiling as a regex does |
| `PolicyProperties.CidrTextsCompileLeaveTriesEmpty` | ranger.go:55-89 | if every text the CIDR parser accepts (after `asCidr`'s `/32` suffix) also compiles as a regex, as holds for Go's libraries, then a ranger built by `New` has both tries present and empty and refuses every address |
| `PolicyProperties.PatternOnlyAllowListRefusesEveryAddress` | ranger.go:55-60 | if every allow rule compiles as a regex (an empty allow list included), the built ranger refuses every address, both in `ValidateAddress` and on `Validate`'s IP path |
| `PolicyProperties.BuiltIpInputDecidedAsAddress` | ranger.go:96-105 | on a built ranger, `Validate` of an input that parses as an IP equals `ValidateAddress` of it |
| `PolicyProperties.DenyPatternRefusesMatchingHost` | ranger.go:126-131 | a deny rule that compiles as a regex refuses every non-IP input it matches, whatever the allow side holds |
| `PolicyProperties.DenyBlockRefusesCoveredAddress` | ranger.go:155-157 | a deny rule that does not compile as a regex refuses, in both deciders, every address its network covers; with Go's libraries no deny rule reaches the trie, so only other oracles meet its requirements; on a built ranger such an address is refused anyway |
| `PolicyProperties.DeniedSchemeRefused` | ranger.go:114-116 | a non-IP URL whose scheme is on the deny-scheme list is refused, whatever the pattern rules say |

## Left out

- `init` and `DefaultOptions` (ranger.go:12-28) are left out. They build a process-global configuration from constant lists that are not part of this model. The engine's behaviour for any configuration is covered by `Build` and `New` over arbitrary `Options`.
- The internals of `regexp`, `net.ParseIP`, `net.ParseCIDR`, `url.Parse` and `iputil.IsIP` are foreign libraries. They are uninterpreted functions in `Oracles`. The model does not match regexes or parse addresses itself.
- Only the scheme of `url.Parse`'s result is modelled, because nothing else of it is read.
- `net.ParseIP` returns IPv4 addresses in 16-byte form, and the trie picks a sub-trie by whether the address converts to 4 bytes. The model gives an IPv4 address 32 bits directly, so IPv4-mapped IPv6 addresses are not distinguished.
- The `cidranger` prefix trie is a value (`Trie`), not an object updated in place. It is reachable only from its own `Ranger`, so no aliasing is lost. Insertion failure is modelled as the library's "invalid network input" case: a base of neither 32 nor 128 bits, or a prefix longer than the base.
- Errors are values (`CidrError`), not Go error messages. A CIDR parse error carries the text that was parsed, which includes the appended `/32`.
- A `Ranger` built by hand with a rule-map value that is not compiled from its key cannot be represented. `Ranger`'s fields are exported, but only maps that `New` builds are modelled, and in those each value is compiled from its key.
- Go map iteration order is random. `AnyMatch` picks rules with a nondeterministic choice, and its contract holds for every order.
- Concurrency is left out. After `New` nothing mutates, and every decider is a function of the ranger and its input.
- `examples/main.go` is HTTP client glue and is left out. It calls `ValidateHost`, which is not in ranger.go.
- `networkpolicy_test.go` is left out. It targets another package's API, and its scenarios do not hold for ranger.go (see `PatternOnlyAllowListRefusesEveryAddress`). Its benchmarks measure third-party tries.
