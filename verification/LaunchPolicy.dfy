/**
 The launch policy of src/automation-launch-policy.ts and the fallback chain of a project route.
 */
module LaunchPolicy {
  import opened Common
  import opened Text

  datatype Harness = OpenCode | Claude | Codex | Qoder | Hermes | Zcode | FastAgent | ChatGpt | Zai

  datatype Route = Route(
    harnesses: seq<Harness>, models: map<Harness, string>, fallback: Option<map<Harness, seq<string>>>, aliases: Option<seq<string>>,
    webSearch: bool, deny: bool, allowed: Option<seq<string>>, denied: Option<seq<string>>, profile: Option<string>)

  datatype Entry = Entry(project: string, route: Route)

  datatype Policy = Policy(
    allowedHarnesses: seq<Harness>, preferred: Harness, models: map<Harness, string>, fallback: Option<map<Harness, seq<string>>>,
    routes: Option<seq<Entry>>)

  // ---------------------------------------------------------------------------------------------
  // The fallback chain
  // ---------------------------------------------------------------------------------------------

  datatype Outcome = Accepted | AdmissionUnknown | Unavailable | QuotaExhausted | PreAdmissionRejected

  datatype Reason = WasAccepted | WasUnknown | NoHarnessLeft | ModelNotPermitted

  datatype Mode = CreateNew | Resume | Handoff

  datatype Resolution = Unconfigured | Exhausted(reason: Reason) | Launch(harness: Harness, model: Option<string>, mode: Mode)

  predicate MatchesEntry(model: string, entry: string) {
    var candidate, rule := Lower(Trim(model)), Lower(Trim(entry));
    rule != "" && (if rule[|rule| - 1] == '*' then rule[..|rule| - 1] <= candidate else candidate == rule)
  }

  predicate ListMatches(model: string, entries: seq<string>) {
    exists i :: 0 <= i < |entries| && MatchesEntry(model, entries[i])
  }

  function ListOf(list: Option<seq<string>>): seq<string> {
    if list.Some? then list.value else []
  }

  /** A denial wins; an empty or absent allowance restricts nothing. */
  predicate ModelPermitted(r: Route, model: string) {
    !ListMatches(model, ListOf(r.denied)) && (ListOf(r.allowed) == [] || ListMatches(model, ListOf(r.allowed)))
  }

  function ModelFor(r: Route, models: map<Harness, string>, h: Harness): Option<string> {
    if h in r.models then Some(r.models[h]) else if h in models then Some(models[h]) else None
  }

  predicate Permitted(r: Route, models: map<Harness, string>, h: Harness) {
    var m := ModelFor(r, models, h);
    m.None? || m.value == "" || ModelPermitted(r, m.value)
  }

  function Allows(r: Route, models: map<Harness, string>): Harness -> bool {
    h => Permitted(r, models, h)
  }

  /** The first harness from `i` on that was not attempted and is acceptable. */
  function Candidate(harnesses: seq<Harness>, ok: Harness -> bool, attempted: seq<Harness>, i: nat): Option<Harness>
    decreases |harnesses| - i
  {
    if i >= |harnesses| then None
    else if harnesses[i] !in attempted && ok(harnesses[i]) then Some(harnesses[i])
    else Candidate(harnesses, ok, attempted, i + 1)
  }

  /** `resolveProjectLaunch`, for the route that governs the project. */
  function Resolve(r: Route, models: map<Harness, string>, attempted: seq<Harness>, outcome: Option<Outcome>, active: Option<Harness>): Resolution {
    if r.harnesses == [] then Unconfigured
    else if outcome == Some(Accepted) then Exhausted(WasAccepted)
    else if outcome == Some(AdmissionUnknown) then Exhausted(WasUnknown)
    else
      match Candidate(r.harnesses, Allows(r, models), attempted, 0)
      case None => Exhausted(if forall i :: 0 <= i < |r.harnesses| ==> r.harnesses[i] in attempted then NoHarnessLeft else ModelNotPermitted)
      case Some(h) => Launch(h, ModelFor(r, models, h), if active.None? then CreateNew else if active.value == h then Resume else Handoff)
  }

  function Launched(resolution: Resolution): seq<Harness> {
    if resolution.Launch? then [resolution.harness] else []
  }

  type Resolver = (seq<Harness>, Option<Outcome>) -> seq<Harness>

  function ResolverOf(r: Route, models: map<Harness, string>, active: Option<Harness>): Resolver {
    (attempted, outcome) => Launched(Resolve(r, models, attempted, outcome, active))
  }

  /** The harnesses launched when a resolver is fed its own attempts and their outcomes, one after another. */
  function Chain(resolver: Resolver, outcomes: seq<Outcome>): seq<Harness> {
    if outcomes == [] then []
    else
      var n := |outcomes| - 1;
      var attempted := Chain(resolver, outcomes[..n]);
      if |attempted| < n then attempted
      else attempted + resolver(attempted, if n == 0 then None else Some(outcomes[n - 1]))
  }

  /** The acceptable ones of the first `n` harnesses, in order. */
  function Launchable(harnesses: seq<Harness>, ok: Harness -> bool, n: nat): seq<Harness>
    requires n <= |harnesses|
  {
    if n == 0 then [] else Launchable(harnesses, ok, n - 1) + if ok(harnesses[n - 1]) then [harnesses[n - 1]] else []
  }

  predicate Stops(o: Outcome) {
    o == Accepted || o == AdmissionUnknown
  }

  /** How many attempts are made before an outcome stops the chain. */
  function Attempts(outcomes: seq<Outcome>): nat {
    if outcomes == [] then 0 else if Stops(outcomes[0]) then 1 else 1 + Attempts(outcomes[1..])
  }

  ghost predicate Distinct(s: seq<Harness>) {
    forall i, j :: 0 <= i < j < |s| ==> s[i] != s[j]
  }

  lemma {:induction false} LaunchableIn(harnesses: seq<Harness>, ok: Harness -> bool, n: nat)
    requires n <= |harnesses|
    ensures forall h :: h in Launchable(harnesses, ok, n) <==> ok(h) && h in harnesses[..n]
    ensures Distinct(harnesses) ==> Distinct(Launchable(harnesses, ok, n))
  {
    if n > 0 {
      LaunchableIn(harnesses, ok, n - 1);
      assert harnesses[..n] == harnesses[..n - 1] + [harnesses[n - 1]];
    }
  }

  lemma {:induction false} LaunchablePrefix(harnesses: seq<Harness>, ok: Harness -> bool, i: nat)
    requires i <= |harnesses|
    ensures Launchable(harnesses, ok, i) <= Launchable(harnesses, ok, |harnesses|)
    decreases |harnesses| - i
  {
    if i < |harnesses| { LaunchablePrefix(harnesses, ok, i + 1); }
  }

  /** With the first `k` acceptable harnesses attempted, the next one is the (k+1)-th. */
  lemma {:induction false} CandidateIsNext(harnesses: seq<Harness>, ok: Harness -> bool, all: seq<Harness>, k: nat, i: nat)
    requires Distinct(harnesses) && i <= |harnesses| && all == Launchable(harnesses, ok, |harnesses|)
    requires k <= |all| && |Launchable(harnesses, ok, i)| <= k
    ensures Candidate(harnesses, ok, all[..k], i) == if k < |all| then Some(all[k]) else None
    decreases |harnesses| - i
  {
    LaunchablePrefix(harnesses, ok, i);
    if i < |harnesses| {
      LaunchablePrefix(harnesses, ok, i + 1);
      LaunchableIn(harnesses, ok, |harnesses|);
      var h, before := harnesses[i], Launchable(harnesses, ok, i);
      if ok(h) {
        assert all[|before|] == h;
        if |before| < k {
          assert all[..k][|before|] == h;
          CandidateIsNext(harnesses, ok, all, k, i + 1);
        } else {
          forall j | 0 <= j < k ensures all[..k][j] != h { assert all[j] != all[k]; }
        }
      } else {
        CandidateIsNext(harnesses, ok, all, k, i + 1);
      }
    }
  }

  function AttemptsSoFar(outcomes: seq<Outcome>): nat
    requires outcomes != []
  {
    var n := |outcomes| - 1;
    var before := Attempts(outcomes[..n]);
    if before < n then before else if n > 0 && Stops(outcomes[n - 1]) then n else n + 1
  }

  lemma {:induction false} AttemptsBound(outcomes: seq<Outcome>)
    ensures Attempts(outcomes) <= |outcomes|
    ensures outcomes != [] ==> Attempts(outcomes) == AttemptsSoFar(outcomes)
  {
    if |outcomes| > 1 {
      var n := |outcomes| - 1;
      assert outcomes[1..][..n - 1] == outcomes[..n][1..];
      AttemptsBound(outcomes[1..]);
      AttemptsBound(outcomes[..n]);
    }
  }

  function AllLaunchable(r: Route, models: map<Harness, string>): seq<Harness> {
    Launchable(r.harnesses, Allows(r, models), |r.harnesses|)
  }

  function Prefix(all: seq<Harness>, n: nat): seq<Harness> {
    all[..Min(|all|, n)]
  }

  /** Asked after the first `k` launches, the resolver answers with the next one, unless the outcome stops it. */
  predicate AnswersNext(resolver: Resolver, all: seq<Harness>, k: nat, outcome: Option<Outcome>)
    requires k <= |all|
  {
    resolver(all[..k], outcome) == if k < |all| && (outcome.Some? ==> !Stops(outcome.value)) then [all[k]] else []
  }

  lemma ResolveNext(r: Route, models: map<Harness, string>, active: Option<Harness>, all: seq<Harness>, k: nat, outcome: Option<Outcome>)
    requires Distinct(r.harnesses) && all == AllLaunchable(r, models) && k <= |all|
    ensures AnswersNext(ResolverOf(r, models, active), all, k, outcome)
  {
    CandidateIsNext(r.harnesses, Allows(r, models), all, k, 0);
  }

  lemma {:induction false} ChainIsPrefix(resolver: Resolver, outcomes: seq<Outcome>, all: seq<Harness>)
    requires forall k: nat, outcome :: k <= |all| ==> AnswersNext(resolver, all, k, outcome)
    ensures Chain(resolver, outcomes) == Prefix(all, Attempts(outcomes))
  {
    if outcomes != [] {
      var n := |outcomes| - 1;
      ChainIsPrefix(resolver, outcomes[..n], all);
      AttemptsBound(outcomes);
      AttemptsBound(outcomes[..n]);
      if Attempts(outcomes[..n]) == n <= |all| {
        assert AnswersNext(resolver, all, n, if n == 0 then None else Some(outcomes[n - 1]));
        if n < |all| { assert all[..n + 1] == all[..n] + [all[n]]; }
      }
    }
  }

  /** Fed its own attempts, the resolver launches the permitted harnesses in the order of the route, none twice,
      and nothing after the first accepted or unknown outcome. */
  lemma ChainFollowsRoute(r: Route, models: map<Harness, string>, active: Option<Harness>, outcomes: seq<Outcome>)
    requires Distinct(r.harnesses)
    ensures Chain(ResolverOf(r, models, active), outcomes) == Prefix(AllLaunchable(r, models), Attempts(outcomes))
    ensures Distinct(Chain(ResolverOf(r, models, active), outcomes))
  {
    var all := AllLaunchable(r, models);
    LaunchableIn(r.harnesses, Allows(r, models), |r.harnesses|);
    forall k: nat, outcome | k <= |all| ensures AnswersNext(ResolverOf(r, models, active), all, k, outcome) {
      ResolveNext(r, models, active, all, k, outcome);
    }
    ChainIsPrefix(ResolverOf(r, models, active), outcomes, all);
  }

  /** What the launched harnesses are: exactly those of the route whose model it permits. */
  lemma LaunchableIff(r: Route, models: map<Harness, string>, h: Harness)
    ensures h in AllLaunchable(r, models) <==> h in r.harnesses && Permitted(r, models, h)
  {
    LaunchableIn(r.harnesses, Allows(r, models), |r.harnesses|);
    assert r.harnesses[..|r.harnesses|] == r.harnesses;
  }
}
