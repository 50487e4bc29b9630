/**
 The validator of src/automation-launch-policy.ts and the store that replaces the whole document under a lock.

 Documents are taken as typed JSON with known harnesses; an ETag identifies exactly one document.
 */
module LaunchDocument {
  import opened Common
  import opened Text
  import opened LaunchPolicy

  const MaxModelLength: nat := 256
  const MaxPathLength: nat := 4096
  const MaxRoutes: nat := 64
  const MaxRouteHarnesses: nat := 8
  const MaxFallback: nat := 8
  const MaxAliases: nat := 16
  const MaxListed: nat := 64

  // ---------------------------------------------------------------------------------------------
  // Text and lists
  // ---------------------------------------------------------------------------------------------

  predicate Printable(s: string) {
    forall i :: 0 <= i < |s| ==> s[i] as int > 31 && s[i] as int != 127
  }

  /** Text that is not blank, not too long and without control characters, judged before it is trimmed. */
  predicate Tidy(s: string, max: nat) {
    Trim(s) != "" && |s| <= max && Printable(s)
  }

  lemma TidyTrimmed(s: string, max: nat)
    ensures Trim(Trim(s)) == Trim(s)
    ensures Tidy(s, max) ==> Tidy(Trim(s), max)
  {
    TrimTwice(s);
    TrimLeftStarts(s);
    TrimRightEnds(TrimLeft(s));
    TrimLeftPrintable(s);
  }

  lemma {:induction false} TrimLeftPrintable(s: string)
    ensures Printable(s) ==> Printable(TrimLeft(s))
  {
    if s != "" && Blank(s[0]) { TrimLeftPrintable(s[1..]); }
  }

  type Check = string -> bool
  type Normal = string -> string

  /** A list whose entries pass, trimmed, none twice up to case. */
  function UniqueList(list: seq<string>, ok: Check, norm: Normal, key: Normal): Option<seq<string>> {
    if list == [] then Some([])
    else
      match UniqueList(list[..|list| - 1], ok, norm, key)
      case None => None
      case Some(rest) =>
        var s := list[|list| - 1];
        if !ok(s) || HasKey(rest, key, key(norm(s))) then None else Some(rest + [norm(s)])
  }

  predicate HasKey(list: seq<string>, key: Normal, k: string) {
    exists i :: 0 <= i < |list| && key(list[i]) == k
  }

  /** A list of models, trimmed, where repetitions are dropped and at most eight remain. */
  function DedupedList(list: seq<string>, ok: Check, norm: Normal, key: Normal): Option<seq<string>> {
    if list == [] then Some([])
    else
      match DedupedList(list[..|list| - 1], ok, norm, key)
      case None => None
      case Some(rest) =>
        var s := norm(list[|list| - 1]);
        if !ok(s) then None
        else if HasKey(rest, key, key(s)) then Some(rest)
        else if |rest| + 1 > MaxFallback then None
        else Some(rest + [s])
  }

  ghost predicate Stable(ok: Check, norm: Normal) {
    forall s :: norm(norm(s)) == norm(s) && (ok(s) ==> ok(norm(s)))
  }

  lemma {:induction false} UniqueListAgain(list: seq<string>, ok: Check, norm: Normal, key: Normal)
    requires Stable(ok, norm) && UniqueList(list, ok, norm, key).Some?
    ensures UniqueList(UniqueList(list, ok, norm, key).value, ok, norm, key) == UniqueList(list, ok, norm, key)
    ensures |UniqueList(list, ok, norm, key).value| == |list|
  {
    if list != [] {
      var init, s := list[..|list| - 1], list[|list| - 1];
      UniqueListAgain(init, ok, norm, key);
      var rest := UniqueList(init, ok, norm, key).value;
      assert (rest + [norm(s)])[..|rest|] == rest;
    }
  }

  lemma {:induction false} DedupedListAgain(list: seq<string>, ok: Check, norm: Normal, key: Normal)
    requires Stable(ok, norm) && DedupedList(list, ok, norm, key).Some?
    ensures DedupedList(DedupedList(list, ok, norm, key).value, ok, norm, key) == DedupedList(list, ok, norm, key)
    ensures |DedupedList(list, ok, norm, key).value| <= MaxFallback
  {
    if list != [] {
      var init, s := list[..|list| - 1], list[|list| - 1];
      DedupedListAgain(init, ok, norm, key);
      var rest := DedupedList(init, ok, norm, key).value;
      assert (rest + [norm(s)])[..|rest|] == rest;
    }
  }

  // ---------------------------------------------------------------------------------------------
  // The parts of a document
  // ---------------------------------------------------------------------------------------------

  predicate ReferenceChar(c: char) {
    'a' <= c <= 'z' || 'A' <= c <= 'Z' || '0' <= c <= '9' || c == '.' || c == '_' || c == ':' || c == '-'
  }

  /** A provider and a model path, as the recovery catalogues spell them. */
  predicate IsReference(s: string) {
    var parts := Components(s);
    && 0 < |s| <= MaxModelLength && (forall i :: 0 <= i < |s| ==> s[i] as int > 32 && s[i] as int != 127 && s[i] != '\\')
    && |parts| >= 2 && parts[0] != "" && ReferenceChar(parts[0][0]) && parts[0][0] != '.' && parts[0][0] != '_' && parts[0][0] != ':'
    && parts[0][0] != '-' && (forall i :: 0 <= i < |parts[0]| ==> ReferenceChar(parts[0][i]))
    && forall i :: 1 <= i < |parts| ==> parts[i] != ""
  }

  const Trimmed: Normal := (s: string) => Trim(s)
  const Folded: Normal := (s: string) => Lower(s)
  const Compared: Normal := (s: string) => Lower(Trim(s))
  const GoodReference: Check := (s: string) => IsReference(s)

  function TidyUpTo(max: nat): Check {
    (s: string) => Tidy(s, max)
  }

  lemma ChecksAreStable(max: nat)
    ensures Stable(TidyUpTo(max), Trimmed)
  {
    forall s ensures Trim(Trim(s)) == Trim(s) && (Tidy(s, max) ==> Tidy(Trim(s), max)) { TidyTrimmed(s, max); }
  }

  /** A reference is its own trimmed form. */
  lemma ReferenceIsTrimmed(s: string)
    requires IsReference(s)
    ensures Trim(s) == s
  {
    assert !Blank(s[0]) && !Blank(s[|s| - 1]);
  }

  lemma ReferencesAreStable()
    ensures Stable(GoodReference, Trimmed)
  {
    forall s ensures Trim(Trim(s)) == Trim(s) && (IsReference(s) ==> IsReference(Trim(s))) {
      TrimTwice(s);
      if IsReference(s) { ReferenceIsTrimmed(s); }
    }
  }

  /** Normalises every value of a map, or rejects it. */
  function NormalMap<V>(m: map<Harness, V>, f: V -> Option<V>): Option<map<Harness, V>> {
    if forall h :: h in m ==> f(m[h]).Some? then Some(map h | h in m :: f(m[h]).value) else None
  }

  lemma NormalMapAgain<V>(m: map<Harness, V>, f: V -> Option<V>)
    requires NormalMap(m, f).Some? && forall v :: f(v).Some? ==> f(f(v).value) == f(v)
    ensures NormalMap(NormalMap(m, f).value, f) == NormalMap(m, f)
  {
    var g := NormalMap(m, f).value;
    forall h | h in g ensures f(g[h]) == Some(g[h]) { assert f(m[h]).Some?; }
    assert NormalMap(g, f).Some?;
    assert NormalMap(g, f).value == g;
  }

  function NormalModel(): string -> Option<string> {
    (s: string) => if Tidy(s, MaxModelLength) then Some(Trim(s)) else None
  }

  function NormalModels(models: map<Harness, string>): Option<map<Harness, string>> {
    NormalMap(models, NormalModel())
  }

  function NormalList(list: Option<seq<string>>, max: nat): Option<Option<seq<string>>> {
    if list.None? then Some(None)
    else if |list.value| > max then None
    else
      match UniqueList(list.value, TidyUpTo(MaxModelLength), Trimmed, Folded)
      case Some(l) => Some(Some(l))
      case None => None
  }

  function NormalAliases(list: Option<seq<string>>): Option<Option<seq<string>>> {
    if list.None? then Some(None)
    else if |list.value| == 0 || |list.value| > MaxAliases then None
    else
      match UniqueList(list.value, (s: string) => Trim(s) != "" && |s| <= MaxPathLength, Trimmed, Folded)
      case Some(l) => Some(Some(l))
      case None => None
  }

  function NormalReferences(max: nat): seq<string> -> Option<seq<string>> {
    (list: seq<string>) => if |list| > max then None else DedupedList(list, GoodReference, Trimmed, Folded)
  }

  predicate FallbackKeys(f: map<Harness, seq<string>>) {
    forall h :: h in f ==> h == OpenCode || h == Zcode
  }

  function NormalFallback(fallback: Option<map<Harness, seq<string>>>, max: nat): Option<Option<map<Harness, seq<string>>>> {
    if fallback.None? then Some(None)
    else if !FallbackKeys(fallback.value) then None
    else
      match NormalMap(fallback.value, NormalReferences(max))
      case Some(f) => Some(Some(f))
      case None => None
  }

  lemma NormalListAgain(list: Option<seq<string>>, max: nat)
    requires NormalList(list, max).Some?
    ensures NormalList(NormalList(list, max).value, max) == NormalList(list, max)
  {
    ChecksAreStable(MaxModelLength);
    if list.Some? { UniqueListAgain(list.value, TidyUpTo(MaxModelLength), Trimmed, Folded); }
  }

  lemma NormalAliasesAgain(list: Option<seq<string>>)
    requires NormalAliases(list).Some?
    ensures NormalAliases(NormalAliases(list).value) == NormalAliases(list)
  {
    var ok: Check := (s: string) => Trim(s) != "" && |s| <= MaxPathLength;
    forall s ensures Trim(Trim(s)) == Trim(s) && (ok(s) ==> ok(Trim(s))) { TrimTwice(s); }
    assert Stable(ok, Trimmed);
    if list.Some? { UniqueListAgain(list.value, ok, Trimmed, Folded); }
  }

  lemma ReferencesAgain(list: seq<string>, max: nat)
    requires NormalReferences(max)(list).Some? && max >= MaxFallback
    ensures NormalReferences(max)(NormalReferences(max)(list).value) == NormalReferences(max)(list)
  {
    ReferencesAreStable();
    DedupedListAgain(list, GoodReference, Trimmed, Folded);
  }

  lemma NormalFallbackAgain(fallback: Option<map<Harness, seq<string>>>, max: nat)
    requires NormalFallback(fallback, max).Some? && max >= MaxFallback
    ensures NormalFallback(NormalFallback(fallback, max).value, max) == NormalFallback(fallback, max)
  {
    if fallback.Some? {
      var f := NormalReferences(max);
      forall list | f(list).Some? ensures f(f(list).value) == f(list) { ReferencesAgain(list, max); }
      NormalMapAgain(fallback.value, f);
    }
  }

  lemma NormalModelsAgain(models: map<Harness, string>)
    requires NormalModels(models).Some?
    ensures NormalModels(NormalModels(models).value) == NormalModels(models)
  {
    var f := NormalModel();
    forall s | f(s).Some? ensures f(f(s).value) == f(s) { TidyTrimmed(s, MaxModelLength); }
    NormalMapAgain(models, f);
  }

  // ---------------------------------------------------------------------------------------------
  // Routes
  // ---------------------------------------------------------------------------------------------

  /** `canonicalProjectKey`: trailing slashes do not count. */
  function ProjectKey(s: string): string {
    if s != "" && s[|s| - 1] == '/' then ProjectKey(s[..|s| - 1]) else s
  }

  lemma {:induction false} ProjectKeyAgain(s: string)
    ensures ProjectKey(ProjectKey(s)) == ProjectKey(s)
  {
    if s != "" && s[|s| - 1] == '/' { ProjectKeyAgain(s[..|s| - 1]); }
  }

  predicate GoodKey(key: string) {
    0 < |key| <= MaxPathLength && key[0] == '/' && Printable(key)
  }

  predicate NoRepeat(hs: seq<Harness>) {
    forall i, j :: 0 <= i < j < |hs| ==> hs[i] != hs[j]
  }

  predicate GoodHarnesses(hs: seq<Harness>, allowedHarnesses: seq<Harness>) {
    0 < |hs| <= MaxRouteHarnesses && NoRepeat(hs)
    && forall i :: 0 <= i < |hs| ==> allowedHarnesses == [] || hs[i] in allowedHarnesses
  }

  predicate KeysWithin<V>(m: map<Harness, V>, hs: seq<Harness>) {
    forall h :: h in m ==> h in hs
  }

  predicate HaveModels(hs: seq<Harness>, own: map<Harness, string>, models: map<Harness, string>) {
    forall i :: 0 <= i < |hs| ==> hs[i] in own || hs[i] in models
  }

  predicate SearchFits(r: Route, models: map<Harness, string>) {
    r.webSearch ==>
      r.harnesses == [Codex] && ModelFor(r, models, Codex) == Some("gpt-6-luna") && r.aliases.Some? && "Олег и Никита" in r.aliases.value
  }

  /** The allowances that are denied as well. */
  predicate Conflicting(allowed: Option<seq<string>>, denied: Option<seq<string>>) {
    exists i :: 0 <= i < |ListOf(allowed)| && DeniesAt(ListOf(allowed), i, ListOf(denied))
  }

  predicate DeniesAt(allowed: seq<string>, i: nat, denied: seq<string>)
    requires i < |allowed|
  {
    HasKey(denied, Compared, Compared(allowed[i]))
  }

  function NormalProfile(profile: Option<string>): Option<Option<string>> {
    if profile.None? then Some(None) else if Tidy(profile.value, MaxModelLength) then Some(Some(Trim(profile.value))) else None
  }

  /** The parts of a route, each normalised. */
  function NormalParts(r: Route): Option<Route> {
    match (NormalModels(r.models), NormalFallback(r.fallback, MaxFallback), NormalAliases(r.aliases))
    case (Some(models), Some(fallback), Some(aliases)) =>
      (match (NormalList(r.allowed, MaxListed), NormalList(r.denied, MaxListed), NormalProfile(r.profile))
       case (Some(allowed), Some(denied), Some(profile)) =>
         Some(Route(r.harnesses, models, fallback, aliases, r.webSearch, r.deny, allowed, denied, profile))
       case _ => None)
    case _ => None
  }

  /** What a route has to be once its parts are normal. */
  predicate RouteFits(r: Route, allowedHarnesses: seq<Harness>, models: map<Harness, string>) {
    && GoodHarnesses(r.harnesses, allowedHarnesses) && KeysWithin(r.models, r.harnesses)
    && (r.fallback.Some? ==> KeysWithin(r.fallback.value, r.harnesses))
    && HaveModels(r.harnesses, r.models, models) && SearchFits(r, models)
    && !Conflicting(r.allowed, r.denied)
  }

  function NormalRoute(r: Route, allowedHarnesses: seq<Harness>, models: map<Harness, string>): Option<Route> {
    match NormalParts(r)
    case Some(n) => if RouteFits(n, allowedHarnesses, models) then Some(n) else None
    case None => None
  }

  lemma NormalPartsAgain(r: Route)
    requires NormalParts(r).Some?
    ensures NormalParts(NormalParts(r).value) == NormalParts(r)
  {
    NormalModelsAgain(r.models);
    NormalFallbackAgain(r.fallback, MaxFallback);
    NormalAliasesAgain(r.aliases);
    NormalListAgain(r.allowed, MaxListed);
    NormalListAgain(r.denied, MaxListed);
    if r.profile.Some? { TidyTrimmed(r.profile.value, MaxModelLength); }
  }

  type RouteCheck = Route -> Option<Route>

  function RouteNormal(allowedHarnesses: seq<Harness>, models: map<Harness, string>): RouteCheck {
    (r: Route) => NormalRoute(r, allowedHarnesses, models)
  }

  lemma RouteCheckAgain(allowedHarnesses: seq<Harness>, models: map<Harness, string>)
    ensures forall r :: RouteNormal(allowedHarnesses, models)(r).Some? ==>
              RouteNormal(allowedHarnesses, models)(RouteNormal(allowedHarnesses, models)(r).value) == RouteNormal(allowedHarnesses, models)(r)
  {
    forall r | NormalRoute(r, allowedHarnesses, models).Some?
      ensures NormalRoute(NormalRoute(r, allowedHarnesses, models).value, allowedHarnesses, models) == NormalRoute(r, allowedHarnesses, models)
    {
      NormalPartsAgain(r);
    }
  }

  function Replace(routes: seq<Entry>, e: Entry): seq<Entry> {
    if routes == [] then []
    else
      var last := routes[|routes| - 1];
      Replace(routes[..|routes| - 1], e) + [if last.project == e.project then e else last]
  }

  /** Assigns a route to a key: in place when the key is there already, else at the end. */
  function PutRoute(routes: seq<Entry>, e: Entry): seq<Entry> {
    if HasProject(routes, e.project) then Replace(routes, e) else routes + [e]
  }

  function NormalRoutes(routes: seq<Entry>, check: RouteCheck): Option<seq<Entry>> {
    if routes == [] then Some([])
    else
      match NormalRoutes(routes[..|routes| - 1], check)
      case None => None
      case Some(rest) =>
        var e := routes[|routes| - 1];
        if !GoodKey(ProjectKey(e.project)) || check(e.route).None? then None
        else Some(PutRoute(rest, Entry(ProjectKey(e.project), check(e.route).value)))
  }

  predicate HasProject(routes: seq<Entry>, project: string) {
    exists i :: 0 <= i < |routes| && routes[i].project == project
  }

  /** Keys in canonical form, none twice, and every route in normal form. */
  ghost predicate Settled(routes: seq<Entry>, check: RouteCheck) {
    && (forall i :: 0 <= i < |routes| ==> EntrySettled(routes[i], check))
    && (forall i, j :: 0 <= i < j < |routes| ==> routes[i].project != routes[j].project)
  }

  predicate EntrySettled(e: Entry, check: RouteCheck) {
    GoodKey(e.project) && ProjectKey(e.project) == e.project && check(e.route) == Some(e.route)
  }

  lemma {:induction false} ReplaceAt(routes: seq<Entry>, e: Entry)
    ensures |Replace(routes, e)| == |routes|
    ensures forall i :: 0 <= i < |routes| ==> Replace(routes, e)[i] == if routes[i].project == e.project then e else routes[i]
  {
    if routes != [] { ReplaceAt(routes[..|routes| - 1], e); }
  }

  lemma PutSettles(routes: seq<Entry>, e: Entry, check: RouteCheck)
    requires Settled(routes, check) && EntrySettled(e, check)
    ensures Settled(PutRoute(routes, e), check) && |PutRoute(routes, e)| <= |routes| + 1
  {
    if HasProject(routes, e.project) { ReplaceAt(routes, e); }
  }

  lemma {:induction false} NormalRoutesSettle(routes: seq<Entry>, check: RouteCheck)
    requires NormalRoutes(routes, check).Some? && forall r :: check(r).Some? ==> check(check(r).value) == check(r)
    ensures Settled(NormalRoutes(routes, check).value, check) && |NormalRoutes(routes, check).value| <= |routes|
  {
    if routes != [] {
      var init, e := routes[..|routes| - 1], routes[|routes| - 1];
      NormalRoutesSettle(init, check);
      ProjectKeyAgain(e.project);
      PutSettles(NormalRoutes(init, check).value, Entry(ProjectKey(e.project), check(e.route).value), check);
    }
  }

  lemma SettledLast(routes: seq<Entry>, n: nat, check: RouteCheck)
    requires Settled(routes, check) && n + 1 == |routes|
    ensures Settled(routes[..n], check) && EntrySettled(routes[n], check) && !HasProject(routes[..n], routes[n].project)
  {
    assert EntrySettled(routes[n], check);
    forall i | 0 <= i < n ensures EntrySettled(routes[..n][i], check) { assert EntrySettled(routes[i], check); }
  }

  /** Settled routes are their own normal form. */
  lemma {:induction false} SettledIsNormal(routes: seq<Entry>, check: RouteCheck)
    requires Settled(routes, check)
    ensures NormalRoutes(routes, check) == Some(routes)
  {
    if routes != [] {
      var n := |routes| - 1;
      SettledLast(routes, n, check);
      SettledIsNormal(routes[..n], check);
      assert PutRoute(routes[..n], routes[n]) == routes;
    }
  }

  // ---------------------------------------------------------------------------------------------
  // Documents
  // ---------------------------------------------------------------------------------------------

  predicate HeadFits(p: Policy, models: map<Harness, string>) {
    && NoRepeat(p.allowedHarnesses) && (p.allowedHarnesses != [] ==> p.preferred in p.allowedHarnesses)
    && forall i :: 0 <= i < |p.allowedHarnesses| ==> p.allowedHarnesses[i] in models
  }

  function NormalRoutesOf(p: Policy, models: map<Harness, string>): Option<Option<seq<Entry>>> {
    if p.routes.None? then Some(None)
    else if |p.routes.value| > MaxRoutes then None
    else
      match NormalRoutes(p.routes.value, RouteNormal(p.allowedHarnesses, models))
      case Some(routes) => Some(Some(routes))
      case None => None
  }

  /** `validateAutomationLaunchPolicy`. */
  function Validate(p: Policy): Option<Policy> {
    match (NormalModels(p.models), NormalFallback(p.fallback, 64))
    case (Some(models), Some(fallback)) =>
      if !HeadFits(p, models) then None
      else
        (match NormalRoutesOf(p, models)
         case Some(routes) => Some(Policy(p.allowedHarnesses, p.preferred, models, fallback, routes))
         case None => None)
    case _ => None
  }

  lemma RoutesAgain(p: Policy, models: map<Harness, string>)
    requires NormalRoutesOf(p, models).Some?
    ensures NormalRoutesOf(p.(routes := NormalRoutesOf(p, models).value), models) == NormalRoutesOf(p, models)
    ensures p.routes.Some? ==> Settled(NormalRoutesOf(p, models).value.value, RouteNormal(p.allowedHarnesses, models))
  {
    if p.routes.Some? {
      var check := RouteNormal(p.allowedHarnesses, models);
      RouteCheckAgain(p.allowedHarnesses, models);
      NormalRoutesSettle(p.routes.value, check);
      SettledIsNormal(NormalRoutes(p.routes.value, check).value, check);
    }
  }

  /** Validation is a fixed point on its own output. */
  lemma ValidationIsIdempotent(p: Policy)
    requires Validate(p).Some?
    ensures Validate(Validate(p).value) == Validate(p)
  {
    NormalModelsAgain(p.models);
    NormalFallbackAgain(p.fallback, 64);
    var models := NormalModels(p.models).value;
    RoutesAgain(p, models);
    var q := Validate(p).value;
    assert NormalRoutesOf(q, models) == NormalRoutesOf(p.(routes := q.routes), models);
  }

  // ---------------------------------------------------------------------------------------------
  // What a replacement preserves
  // ---------------------------------------------------------------------------------------------

  function Find(routes: seq<Entry>, project: string): Option<Route> {
    if routes == [] then None
    else if routes[|routes| - 1].project == project then Some(routes[|routes| - 1].route)
    else Find(routes[..|routes| - 1], project)
  }

  /** The guard and the lists that an older editor leaves out. */
  function PreserveRoute(older: Route, r: Route): Route {
    r.(deny := r.deny || older.deny,
       allowed := if r.allowed.None? then older.allowed else r.allowed,
       denied := if r.denied.None? then older.denied else r.denied,
       fallback := if r.fallback.None? then older.fallback else r.fallback)
  }

  function PreserveEntry(current: seq<Entry>, e: Entry): Entry {
    match Find(current, e.project)
    case Some(older) => Entry(e.project, PreserveRoute(older, e.route))
    case None => e
  }

  function PreserveRoutes(current: seq<Entry>, routes: seq<Entry>): seq<Entry> {
    if routes == [] then []
    else PreserveRoutes(current, routes[..|routes| - 1]) + [PreserveEntry(current, routes[|routes| - 1])]
  }

  function Preserve(current: Option<Policy>, p: Policy): Policy {
    if current.None? then p
    else
      var c := current.value;
      p.(fallback := if p.fallback.None? then c.fallback else p.fallback,
         routes := if c.routes.Some? && p.routes.Some? then Some(PreserveRoutes(c.routes.value, p.routes.value)) else p.routes)
  }

  /** A kept route that no longer has a harness its preserved fallback names, or whose preserved list contradicts
      the one it brings. */
  predicate Spoils(older: Route, r: Route) {
    || (r.fallback.None? && older.fallback.Some? && !KeysWithin(older.fallback.value, r.harnesses))
    || Conflicting(PreserveRoute(older, r).allowed, PreserveRoute(older, r).denied)
  }

  predicate SpoilsAt(current: seq<Entry>, e: Entry) {
    Find(current, e.project).Some? && Spoils(Find(current, e.project).value, e.route)
  }

  predicate Spoiled(current: Option<Policy>, p: Policy) {
    current.Some? && current.value.routes.Some? && p.routes.Some?
    && exists i :: 0 <= i < |p.routes.value| && SpoilsAt(current.value.routes.value, p.routes.value[i])
  }

  lemma PartsOf(r: Route)
    requires NormalParts(r) == Some(r)
    ensures NormalModels(r.models) == Some(r.models) && NormalFallback(r.fallback, MaxFallback) == Some(r.fallback)
    ensures NormalAliases(r.aliases) == Some(r.aliases) && NormalProfile(r.profile) == Some(r.profile)
    ensures NormalList(r.allowed, MaxListed) == Some(r.allowed) && NormalList(r.denied, MaxListed) == Some(r.denied)
  {
  }

  /** A preserved route is in normal form exactly if it was not spoiled. */
  lemma PreservedRouteIff(older: Route, r: Route, allowedHarnesses: seq<Harness>, models: map<Harness, string>)
    requires NormalParts(older) == Some(older) && NormalRoute(r, allowedHarnesses, models) == Some(r)
    ensures NormalRoute(PreserveRoute(older, r), allowedHarnesses, models) ==
              if Spoils(older, r) then None else Some(PreserveRoute(older, r))
  {
    PartsOf(older);
    PartsOf(r);
    var kept := PreserveRoute(older, r);
    assert NormalParts(kept) == Some(kept);
    assert SearchFits(kept, models) == SearchFits(r, models);
  }

  lemma {:induction false} FindSettled(routes: seq<Entry>, project: string, check: RouteCheck)
    requires Settled(routes, check) && Find(routes, project).Some?
    ensures check(Find(routes, project).value) == Some(Find(routes, project).value)
  {
    var n := |routes| - 1;
    SettledLast(routes, n, check);
    if routes[n].project != project { FindSettled(routes[..n], project, check); }
  }

  lemma {:induction false} PreserveRoutesAt(current: seq<Entry>, routes: seq<Entry>)
    ensures |PreserveRoutes(current, routes)| == |routes|
    ensures forall i :: 0 <= i < |routes| ==> PreserveRoutes(current, routes)[i] == PreserveEntry(current, routes[i])
  {
    if routes != [] { PreserveRoutesAt(current, routes[..|routes| - 1]); }
  }

  lemma PreservedEntryIff(current: seq<Entry>, before: RouteCheck, e: Entry, allowedHarnesses: seq<Harness>, models: map<Harness, string>)
    requires Settled(current, before) && forall r :: before(r) == Some(r) ==> NormalParts(r) == Some(r)
    requires EntrySettled(e, RouteNormal(allowedHarnesses, models))
    ensures SpoilsAt(current, e) ==> RouteNormal(allowedHarnesses, models)(PreserveEntry(current, e).route).None?
    ensures !SpoilsAt(current, e) ==> EntrySettled(PreserveEntry(current, e), RouteNormal(allowedHarnesses, models))
  {
    if Find(current, e.project).Some? {
      FindSettled(current, e.project, before);
      PreservedRouteIff(Find(current, e.project).value, e.route, allowedHarnesses, models);
    }
  }

  /** Preserved routes read back as themselves if none is spoiled, and not at all otherwise. */
  lemma PreservedRoutesIff(current: seq<Entry>, before: RouteCheck, routes: seq<Entry>, allowedHarnesses: seq<Harness>, models: map<Harness, string>)
    requires Settled(current, before) && forall r :: before(r) == Some(r) ==> NormalParts(r) == Some(r)
    requires Settled(routes, RouteNormal(allowedHarnesses, models))
    ensures NormalRoutes(PreserveRoutes(current, routes), RouteNormal(allowedHarnesses, models)) ==
              if exists i :: 0 <= i < |routes| && SpoilsAt(current, routes[i]) then None else Some(PreserveRoutes(current, routes))
  {
    var check, kept := RouteNormal(allowedHarnesses, models), PreserveRoutes(current, routes);
    PreserveRoutesAt(current, routes);
    forall i | 0 <= i < |routes|
      ensures SpoilsAt(current, routes[i]) ==> check(kept[i].route).None?
      ensures !SpoilsAt(current, routes[i]) ==> EntrySettled(kept[i], check)
    {
      assert EntrySettled(routes[i], check);
      PreservedEntryIff(current, before, routes[i], allowedHarnesses, models);
    }
    if exists i :: 0 <= i < |routes| && SpoilsAt(current, routes[i]) {
      var i :| 0 <= i < |routes| && SpoilsAt(current, routes[i]);
      NormalNeedsAll(kept, check, i);
    } else {
      SettledIsNormal(kept, check);
    }
  }

  lemma {:induction false} NormalNeedsAll(routes: seq<Entry>, check: RouteCheck, i: nat)
    requires i < |routes| && check(routes[i].route).None?
    ensures NormalRoutes(routes, check) == None
  {
    if i < |routes| - 1 { NormalNeedsAll(routes[..|routes| - 1], check, i); }
  }

  lemma ValidParts(p: Policy)
    requires Validate(p) == Some(p)
    ensures NormalModels(p.models) == Some(p.models) && NormalFallback(p.fallback, 64) == Some(p.fallback)
    ensures HeadFits(p, p.models) && NormalRoutesOf(p, p.models) == Some(p.routes)
    ensures p.routes.Some? ==> Settled(p.routes.value, RouteNormal(p.allowedHarnesses, p.models)) && |p.routes.value| <= MaxRoutes
  {
    RoutesAgain(p, p.models);
  }

  lemma CheckedHasParts(allowedHarnesses: seq<Harness>, models: map<Harness, string>)
    ensures forall r :: RouteNormal(allowedHarnesses, models)(r) == Some(r) ==> NormalParts(r) == Some(r)
  {
  }

  /** What is stored reads back as the policy that was returned, unless a kept route lost a harness its preserved
      fallback names or its preserved list contradicts the new one; then it does not read back at all. */
  lemma StoredReadsBackIff(current: Option<Policy>, p: Policy)
    requires Validate(p) == Some(p) && (current.Some? ==> Validate(current.value) == current)
    ensures Validate(Preserve(current, p)) == if Spoiled(current, p) then None else Some(Preserve(current, p))
  {
    ValidParts(p);
    if current.Some? {
      var c, q := current.value, Preserve(current, p);
      ValidParts(c);
      if c.routes.Some? && p.routes.Some? {
        CheckedHasParts(c.allowedHarnesses, c.models);
        PreservedRoutesIff(c.routes.value, RouteNormal(c.allowedHarnesses, c.models), p.routes.value, p.allowedHarnesses, p.models);
        PreserveRoutesAt(c.routes.value, p.routes.value);
      }
      assert NormalRoutesOf(q, q.models) == if Spoiled(current, p) then None else Some(q.routes);
    }
  }

  // ---------------------------------------------------------------------------------------------
  // The store
  // ---------------------------------------------------------------------------------------------

  /** A successful replacement: the document it found, the one it was based on if guarded, and what it stored. */
  datatype Write = Write(found: Option<Policy>, base: Option<Option<Policy>>, stored: Policy)

  datatype World = World(doc: Option<Policy>, log: seq<Write>)

  /** `ifMatch` is the document whose ETag the caller read. */
  datatype Replacement = Replacement(raw: Policy, ifMatch: Option<Option<Policy>>, writes: bool)

  function Load(doc: Option<Policy>): Option<Policy> {
    if doc.Some? then Validate(doc.value) else None
  }

  function Replaced(w: World, a: Replacement): World {
    match Validate(a.raw)
    case None => w
    case Some(p) =>
      if (a.ifMatch.Some? && a.ifMatch.value != w.doc) || !a.writes then w
      else
        var q := Preserve(Load(w.doc), p);
        World(Some(q), w.log + [Write(w.doc, a.ifMatch, q)])
  }

  function AfterAll(actions: seq<Replacement>): World {
    if actions == [] then World(None, []) else Replaced(AfterAll(actions[..|actions| - 1]), actions[|actions| - 1])
  }

  predicate LinkedAt(log: seq<Write>, i: nat)
    requires i < |log|
  {
    && log[i].found == (if i == 0 then None else Some(log[i - 1].stored))
    && (log[i].base.Some? ==> log[i].base.value == log[i].found)
  }

  ghost predicate Linear(w: World) {
    && w.doc == (if w.log == [] then None else Some(w.log[|w.log| - 1].stored))
    && forall i: nat :: i < |w.log| ==> LinkedAt(w.log, i)
  }

  /** Every successful replacement builds on the document stored by the one before it, and a guarded one on exactly
      the document its caller had read: no update is lost. */
  lemma {:induction false} GuardedWritesAreLinear(actions: seq<Replacement>)
    ensures Linear(AfterAll(actions))
  {
    if actions != [] {
      var w, w' := AfterAll(actions[..|actions| - 1]), AfterAll(actions);
      GuardedWritesAreLinear(actions[..|actions| - 1]);
      forall i: nat | i < |w'.log| ensures LinkedAt(w'.log, i) {
        if i < |w.log| { assert LinkedAt(w.log, i); }
      }
    }
  }

  /** An editor: it reads the document after the first `readAt` edits, and replaces what it read by `change` of it. */
  datatype Edit = Edit(change: Option<Policy> -> Policy, readAt: nat, writes: bool)

  function Seen(edits: seq<Edit>, e: Edit): Option<Policy>
    decreases |edits|, 1
  {
    Edited(if e.readAt <= |edits| then edits[..e.readAt] else edits).doc
  }

  /** Edits in the order in which they are submitted, each guarded by the document its editor had read. */
  function Edited(edits: seq<Edit>): World
    decreases |edits|, 0
  {
    if edits == [] then World(None, [])
    else
      var init, e := edits[..|edits| - 1], edits[|edits| - 1];
      Replaced(Edited(init), Replacement(e.change(Seen(init, e)), Some(Seen(init, e)), e.writes))
  }

  /** The changes of the edits that were not refused. */
  function Taken(edits: seq<Edit>): seq<Option<Policy> -> Policy> {
    if edits == [] then []
    else
      var init := edits[..|edits| - 1];
      Taken(init) + if |Edited(edits).log| > |Edited(init).log| then [edits[|edits| - 1].change] else []
  }

  /** The same changes one after another, each made on the document the one before it left. */
  function InTurn(changes: seq<Option<Policy> -> Policy>): Option<Policy> {
    if changes == [] then None
    else
      var doc := InTurn(changes[..|changes| - 1]);
      match Validate(changes[|changes| - 1](doc))
      case Some(p) => Some(Preserve(Load(doc), p))
      case None => doc
  }

  lemma TakenEdit(edits: seq<Edit>, e: Edit)
    ensures var w, w' := Edited(edits), Edited(edits + [e]);
      if |w'.log| > |w.log| then
        && Validate(e.change(w.doc)).Some? && Taken(edits + [e]) == Taken(edits) + [e.change]
        && w'.doc == Some(Preserve(Load(w.doc), Validate(e.change(w.doc)).value))
        && |w'.log| == |w.log| + 1 && w'.log[..|w.log|] == w.log && w'.doc == Some(w'.log[|w.log|].stored)
      else w' == w && Taken(edits + [e]) == Taken(edits)
  {
    assert (edits + [e])[..|edits|] == edits;
  }

  /** The documents stored so far are those of the changes made one at a time. */
  ghost predicate StoredInTurn(log: seq<Write>, changes: seq<Option<Policy> -> Policy>) {
    |log| == |changes| && forall i: nat :: i < |log| ==> Some(log[i].stored) == InTurn(changes[..i + 1])
  }

  lemma StoredNext(log: seq<Write>, changes: seq<Option<Policy> -> Policy>, write: Write, change: Option<Policy> -> Policy)
    requires StoredInTurn(log, changes) && Some(write.stored) == InTurn(changes + [change])
    ensures StoredInTurn(log + [write], changes + [change])
  {
    var log', changes' := log + [write], changes + [change];
    forall i: nat | i < |log'| ensures Some(log'[i].stored) == InTurn(changes'[..i + 1]) {
      assert changes'[..i + 1] == if i < |log| then changes[..i + 1] else changes';
    }
  }

  /** However the reads and the submissions of guarded edits interleave, the documents they store are those of the
      successful ones made one at a time. */
  lemma {:induction false} GuardedEditsAreSerial(edits: seq<Edit>)
    ensures Edited(edits).doc == InTurn(Taken(edits)) && StoredInTurn(Edited(edits).log, Taken(edits))
  {
    if edits != [] {
      var init, e := edits[..|edits| - 1], edits[|edits| - 1];
      assert edits == init + [e];
      GuardedEditsAreSerial(init);
      TakenEdit(init, e);
      var before, log := Edited(init).log, Edited(edits).log;
      if |log| > |before| {
        assert log == before + [log[|before|]];
        assert (Taken(init) + [e.change])[..|Taken(init)|] == Taken(init);
        StoredNext(before, Taken(init), log[|before|], e.change);
      }
    }
  }

  /** A loaded document is its own normal form. */
  lemma LoadedIsValid(doc: Option<Policy>)
    ensures Load(doc).Some? ==> Validate(Load(doc).value) == Load(doc)
  {
    if doc.Some? && Validate(doc.value).Some? { ValidationIsIdempotent(doc.value); }
  }

  /** Each stored document reads back as what the call returned, or not at all. */
  lemma {:induction false} StoredDocuments(actions: seq<Replacement>)
    ensures var doc := AfterAll(actions).doc; doc.Some? ==> Load(doc) == None || Load(doc) == doc
  {
    if actions != [] {
      var init, a := actions[..|actions| - 1], actions[|actions| - 1];
      StoredDocuments(init);
      var w := AfterAll(init);
      if Validate(a.raw).Some? {
        ValidationIsIdempotent(a.raw);
        LoadedIsValid(w.doc);
        StoredReadsBackIff(Load(w.doc), Validate(a.raw).value);
      }
    }
  }

  /** The document guards the project. */
  predicate Guards(doc: Option<Policy>, project: string) {
    doc.Some? && doc.value.routes.Some? && Find(doc.value.routes.value, project).Some? && Find(doc.value.routes.value, project).value.deny
  }

  predicate Names(doc: Option<Policy>, project: string) {
    doc.Some? && doc.value.routes.Some? && Find(doc.value.routes.value, project).Some?
  }

  lemma {:induction false} PreserveKeepsGuard(current: seq<Entry>, routes: seq<Entry>, project: string)
    requires Find(current, project).Some? && Find(current, project).value.deny
    ensures Find(PreserveRoutes(current, routes), project).Some? <==> Find(routes, project).Some?
    ensures Find(routes, project).Some? ==> Find(PreserveRoutes(current, routes), project).value.deny
  {
    if routes != [] {
      var n := |routes| - 1;
      PreserveKeepsGuard(current, routes[..n], project);
      PreserveRoutesAt(current, routes);
      PreserveRoutesAt(current, routes[..n]);
      assert PreserveRoutes(current, routes)[..n] == PreserveRoutes(current, routes[..n]);
    }
  }

  lemma ReplaceKeepsGuard(w: World, a: Replacement, project: string)
    requires Guards(w.doc, project) && Load(w.doc) == w.doc && Names(Replaced(w, a).doc, project)
    ensures Guards(Replaced(w, a).doc, project)
  {
    var w' := Replaced(w, a);
    if w' != w && Validate(a.raw).value.routes.Some? {
      PreserveKeepsGuard(w.doc.value.routes.value, Validate(a.raw).value.routes.value, project);
    }
  }

  /** While every document reads back and keeps the key, a guard once set stays. */
  lemma {:induction false} GuardSurvives(actions: seq<Replacement>, i: nat, project: string)
    requires i <= |actions| && Guards(AfterAll(actions[..i]).doc, project)
    requires forall k :: i <= k <= |actions| ==> StillThere(actions, k, project)
    ensures Guards(AfterAll(actions).doc, project)
  {
    if i == |actions| {
      assert actions[..i] == actions;
    } else {
      var init := actions[..|actions| - 1];
      assert init[..i] == actions[..i];
      forall k | i <= k <= |init| ensures StillThere(init, k, project) {
        assert init[..k] == actions[..k] && StillThere(actions, k, project);
      }
      GuardSurvives(init, i, project);
      assert init[..|init|] == init && StillThere(init, |init|, project);
      assert actions[..|actions|] == actions && StillThere(actions, |actions|, project);
      StoredDocuments(init);
      ReplaceKeepsGuard(AfterAll(init), actions[|actions| - 1], project);
    }
  }

  predicate StillThere(actions: seq<Replacement>, k: nat, project: string)
    requires k <= |actions|
  {
    var doc := AfterAll(actions[..k]).doc;
    Load(doc).Some? && Names(doc, project)
  }

  /** The exact condition for one replacement of a guarded document that still names the project: the guard
      stays exactly if nothing is written, the document reads back, or the new one brings the guard itself. */
  lemma GuardKeptIff(actions: seq<Replacement>, a: Replacement, project: string)
    requires Guards(AfterAll(actions).doc, project) && Names(Replaced(AfterAll(actions), a).doc, project)
    ensures var w := AfterAll(actions);
      Guards(Replaced(w, a).doc, project)
      <==> Replaced(w, a) == w || Load(w.doc).Some? || Guards(Validate(a.raw), project)
  {
    StoredDocuments(actions);
    var w := AfterAll(actions);
    if Replaced(w, a) != w {
      if Load(w.doc).Some? { ReplaceKeepsGuard(w, a, project); } else { assert Replaced(w, a).doc == Validate(a.raw); }
    }
  }

  // ---------------------------------------------------------------------------------------------
  // Documents that do not load again
  // ---------------------------------------------------------------------------------------------

  /** A document with one route. */
  function OneRoute(project: string, r: Route, models: map<Harness, string>): Policy {
    Policy([], Codex, models, None, Some([Entry(project, r)]))
  }

  lemma OneRouteIsValid(project: string, r: Route, models: map<Harness, string>)
    requires GoodKey(project) && ProjectKey(project) == project
    requires NormalModels(models) == Some(models) && NormalRoute(r, [], models) == Some(r)
    ensures Validate(OneRoute(project, r, models)) == Some(OneRoute(project, r, models))
  {
    var routes := [Entry(project, r)];
    assert EntrySettled(routes[0], RouteNormal([], models));
    SettledIsNormal(routes, RouteNormal([], models));
  }

  function PlainRoute(harnesses: seq<Harness>): Route {
    Route(harnesses, map[], None, None, false, false, None, None, None)
  }

  function TwoModels(model: string): map<Harness, string> {
    map[Codex := model, OpenCode := model]
  }

  predicate GoodModel(model: string) {
    Tidy(model, MaxModelLength) && Trim(model) == model
  }

  lemma TwoModelsAreNormal(model: string)
    requires GoodModel(model)
    ensures NormalModels(TwoModels(model)) == Some(TwoModels(model))
  {
    var m, f := TwoModels(model), NormalModel();
    assert forall h :: h in m ==> f(m[h]) == Some(model);
    assert NormalMap(m, f).value == m;
  }

  lemma NoModelsAreNormal()
    ensures NormalModels(map[]) == Some(map[])
  {
    var none: map<Harness, string> := map[];
    assert NormalMap(none, NormalModel()).value == none;
  }

  /** A guarded route that falls back on OpenCode, and the same one without that harness. */
  function WithFallback(reference: string): Route {
    PlainRoute([Codex, OpenCode]).(deny := true, fallback := Some(map[OpenCode := [reference]]))
  }

  lemma ListOfOne(s: string, ok: Check, norm: Normal, key: Normal)
    requires ok(s) && norm(s) == s
    ensures UniqueList([s], ok, norm, key) == Some([s]) && DedupedList([s], ok, norm, key) == Some([s])
  {
    var list := [s];
    assert list[..|list| - 1] == [] && list[|list| - 1] == s;
    assert UniqueList([], ok, norm, key) == Some([]) && DedupedList([], ok, norm, key) == Some([]);
    assert [] + [s] == [s];
  }

  lemma OneReference(reference: string)
    requires IsReference(reference)
    ensures NormalFallback(Some(map[OpenCode := [reference]]), MaxFallback) == Some(Some(map[OpenCode := [reference]]))
  {
    ReferenceIsTrimmed(reference);
    var list := [reference];
    ListOfOne(reference, GoodReference, Trimmed, Folded);
    var m: map<Harness, seq<string>> := map[OpenCode := list];
    assert NormalMap(m, NormalReferences(MaxFallback)).value == m;
  }

  lemma FallbackRouteIsNormal(reference: string, model: string)
    requires IsReference(reference) && GoodModel(model)
    ensures NormalRoute(WithFallback(reference), [], TwoModels(model)) == Some(WithFallback(reference))
  {
    NoModelsAreNormal();
    OneReference(reference);
    var r := WithFallback(reference);
    assert NormalParts(r) == Some(r);
    assert ListOf(r.allowed) == [];
  }

  lemma PlainRouteIsNormal(model: string)
    requires GoodModel(model)
    ensures NormalRoute(PlainRoute([Codex]), [], TwoModels(model)) == Some(PlainRoute([Codex]))
  {
    NoModelsAreNormal();
    var r := PlainRoute([Codex]);
    assert NormalParts(r) == Some(r);
    assert ListOf(r.allowed) == [];
  }

  lemma OneModelListed(model: string)
    requires GoodModel(model)
    ensures NormalList(Some([model]), MaxListed) == Some(Some([model]))
  {
    ListOfOne(model, TidyUpTo(MaxModelLength), Trimmed, Folded);
  }

  lemma ListedRouteIsNormal(model: string, deny: bool, allowed: Option<seq<string>>, denied: Option<seq<string>>)
    requires GoodModel(model) && (allowed == None || denied == None)
    requires allowed == None || allowed == Some([model])
    requires denied == None || denied == Some([model])
    ensures var r := PlainRoute([Codex]).(deny := deny, allowed := allowed, denied := denied);
      NormalRoute(r, [], TwoModels(model)) == Some(r)
  {
    NoModelsAreNormal();
    OneModelListed(model);
    var r := PlainRoute([Codex]).(deny := deny, allowed := allowed, denied := denied);
    assert NormalParts(r) == Some(r);
    assert ListOf(allowed) == [] || ListOf(denied) == [];
  }

  /** Dropping a harness that the preserved fallback names: both documents are valid, what is stored is not. */
  lemma DroppedHarnessSpoils(project: string, model: string, reference: string)
    requires GoodKey(project) && ProjectKey(project) == project && GoodModel(model) && IsReference(reference)
    ensures var current, p := OneRoute(project, WithFallback(reference), TwoModels(model)), OneRoute(project, PlainRoute([Codex]), TwoModels(model));
      && Validate(current) == Some(current) && Validate(p) == Some(p) && Spoiled(Some(current), p)
      && Validate(Preserve(Some(current), p)) == None
  {
    var current, p := OneRoute(project, WithFallback(reference), TwoModels(model)), OneRoute(project, PlainRoute([Codex]), TwoModels(model));
    TwoModelsAreNormal(model);
    FallbackRouteIsNormal(reference, model);
    PlainRouteIsNormal(model);
    OneRouteIsValid(project, WithFallback(reference), TwoModels(model));
    OneRouteIsValid(project, PlainRoute([Codex]), TwoModels(model));
    assert OpenCode in WithFallback(reference).fallback.value && OpenCode !in PlainRoute([Codex]).harnesses;
    assert SpoilsAt(current.routes.value, p.routes.value[0]);
    StoredReadsBackIff(Some(current), p);
  }

  /** Denying a model that the preserved list allows. */
  lemma ContradictedListSpoils(project: string, model: string)
    requires GoodKey(project) && ProjectKey(project) == project && GoodModel(model)
    ensures var older, newer := PlainRoute([Codex]).(deny := true, allowed := Some([model])), PlainRoute([Codex]).(denied := Some([model]));
      var current, p := OneRoute(project, older, TwoModels(model)), OneRoute(project, newer, TwoModels(model));
      && Validate(current) == Some(current) && Validate(p) == Some(p) && Spoiled(Some(current), p)
      && Validate(Preserve(Some(current), p)) == None
  {
    var older, newer := PlainRoute([Codex]).(deny := true, allowed := Some([model])), PlainRoute([Codex]).(denied := Some([model]));
    var current, p := OneRoute(project, older, TwoModels(model)), OneRoute(project, newer, TwoModels(model));
    TwoModelsAreNormal(model);
    ListedRouteIsNormal(model, true, Some([model]), None);
    ListedRouteIsNormal(model, false, None, Some([model]));
    OneRouteIsValid(project, older, TwoModels(model));
    OneRouteIsValid(project, newer, TwoModels(model));
    ContradictionSpoils(older, newer, model);
    assert SpoilsAt(current.routes.value, p.routes.value[0]);
    StoredReadsBackIff(Some(current), p);
  }

  lemma HasItsFirst(list: seq<string>, key: Normal)
    requires list != []
    ensures HasKey(list, key, key(list[0]))
  {
  }

  lemma FirstIsDenied(list: seq<string>)
    requires list != []
    ensures DeniesAt(list, 0, list)
  {
    HasItsFirst(list, Compared);
  }

  lemma SameListsConflict(list: seq<string>)
    requires list != []
    ensures Conflicting(Some(list), Some(list))
  {
    FirstIsDenied(list);
    assert ListOf(Some(list)) == list;
  }

  lemma ContradictionSpoils(older: Route, newer: Route, model: string)
    requires older.allowed == Some([model]) && newer.allowed == None && newer.denied == Some([model])
    ensures Spoils(older, newer)
  {
    SameListsConflict([model]);
  }

  lemma OneComponent(s: string)
    requires |s| == 1 && s[0] != '/'
    ensures Components(s) == [s]
  {
    var rest := Components(s[1..]);
    assert rest == [""] && rest[1..] == [] && [s[0]] + rest[0] == s;
  }

  /** There are such projects, models and references. */
  lemma ArgumentsExist()
    ensures GoodKey("/p") && ProjectKey("/p") == "/p" && GoodModel("m") && IsReference("a/b")
  {
    var m := "m";
    assert !Blank(m[0]) && Trim(m) == m;
    ComponentsOfSlash("a", "b");
    OneComponent("a");
    OneComponent("b");
    assert "a" + "/" + "b" == "a/b";
    assert Components("a/b") == ["a", "b"];
  }

  lemma AfterSnoc(actions: seq<Replacement>, a: Replacement)
    ensures AfterAll(actions + [a]) == Replaced(AfterAll(actions), a)
  {
    assert (actions + [a])[..|actions|] == actions;
  }

  /** A plain replacement with a valid policy. */
  lemma PlainReplacement(actions: seq<Replacement>, p: Policy)
    requires Validate(p) == Some(p)
    ensures AfterAll(actions + [Replacement(p, None, true)]).doc == Some(Preserve(Load(AfterAll(actions).doc), p))
  {
    AfterSnoc(actions, Replacement(p, None, true));
  }

  lemma RouteOfOne(project: string, r: Route, models: map<Harness, string>)
    ensures Names(Some(OneRoute(project, r, models)), project)
    ensures Guards(Some(OneRoute(project, r, models)), project) <==> r.deny
  {
    var routes := [Entry(project, r)];
    assert Find(routes, project) == Some(r);
  }

  /** The first replacement guards the project. */
  lemma FirstReplacementGuards(project: string, p: Policy, r: Route, models: map<Harness, string>)
    requires p == OneRoute(project, r, models) && Validate(p) == Some(p) && r.deny
    ensures AfterAll([Replacement(p, None, true)]).doc == Some(p) && Guards(Some(p), project) && Load(Some(p)) == Some(p)
  {
    PlainReplacement([], p);
    assert [] + [Replacement(p, None, true)] == [Replacement(p, None, true)];
    RouteOfOne(project, r, models);
  }

  /** The second one keeps the guard in a document that does not load. */
  lemma SecondReplacementSpoils(project: string, current: Policy, p: Policy)
    requires current.routes.Some? && p.routes.Some? && Names(Some(p), project)
    requires Guards(Some(current), project) && Validate(Preserve(Some(current), p)) == None
    ensures Guards(Some(Preserve(Some(current), p)), project) && Load(Some(Preserve(Some(current), p))) == None
  {
    PreserveKeepsGuard(current.routes.value, p.routes.value, project);
  }

  /** Three plain replacements, each valid by itself: the first guards the project, the second leaves a document
      that does not load, and the third, the same again, loses the guard. */
  lemma GuardCanBeLost(project: string, model: string, reference: string) returns (one: seq<Replacement>, two: seq<Replacement>, three: seq<Replacement>)
    requires GoodKey(project) && ProjectKey(project) == project && GoodModel(model) && IsReference(reference)
    ensures |one| == 1 && one < two < three && |three| == 3
    ensures Guards(AfterAll(one).doc, project) && Guards(AfterAll(two).doc, project) && Load(AfterAll(two).doc) == None
    ensures Names(AfterAll(three).doc, project) && !Guards(AfterAll(three).doc, project)
  {
    var models := TwoModels(model);
    var current, p := OneRoute(project, WithFallback(reference), models), OneRoute(project, PlainRoute([Codex]), models);
    DroppedHarnessSpoils(project, model, reference);
    one := [Replacement(current, None, true)];
    two := one + [Replacement(p, None, true)];
    three := two + [Replacement(p, None, true)];
    FirstReplacementGuards(project, current, WithFallback(reference), models);
    RouteOfOne(project, PlainRoute([Codex]), models);
    PlainReplacement(one, p);
    SecondReplacementSpoils(project, current, p);
    PlainReplacement(two, p);
  }

  // ---------------------------------------------------------------------------------------------
  // Loops, and the store in place
  // ---------------------------------------------------------------------------------------------

  /** The loop of `validateFallbackModels` over one list. */
  method CollectModels(list: seq<string>, ok: Check, norm: Normal, key: Normal) returns (models: Option<seq<string>>)
    ensures models == DedupedList(list, ok, norm, key)
  {
    var seen: set<string>, kept: seq<string>, i := {}, [], 0;
    while i < |list|
      invariant i <= |list| && DedupedList(list[..i], ok, norm, key) == Some(kept)
      invariant forall k :: k in seen <==> HasKey(kept, key, k)
    {
      assert list[..i + 1][..i] == list[..i];
      var s := norm(list[i]);
      if !ok(s) { DedupedStops(list, ok, norm, key, i); return None; }
      if key(s) !in seen {
        if |kept| + 1 > MaxFallback { DedupedStops(list, ok, norm, key, i); return None; }
        KeysGrow(kept, key, s);
        seen := seen + {key(s)};
        kept := kept + [s];
      }
      i := i + 1;
    }
    assert list[..i] == list;
    models := Some(kept);
  }

  lemma KeysGrow(list: seq<string>, key: Normal, s: string)
    ensures forall k :: HasKey(list + [s], key, k) <==> HasKey(list, key, k) || k == key(s)
  {
    var all := list + [s];
    assert all[|list|] == s;
    forall k | HasKey(list, key, k) ensures HasKey(all, key, k) {
      var i :| 0 <= i < |list| && key(list[i]) == k;
      assert key(all[i]) == k;
    }
  }

  lemma {:induction false} DedupedStops(list: seq<string>, ok: Check, norm: Normal, key: Normal, i: nat)
    requires i < |list| && DedupedList(list[..i + 1], ok, norm, key) == None
    ensures DedupedList(list, ok, norm, key) == None
  {
    if i + 1 == |list| {
      assert list[..i + 1] == list;
    } else {
      var init := list[..|list| - 1];
      assert init[..i + 1] == list[..i + 1];
      DedupedStops(init, ok, norm, key, i);
    }
  }

  class AutomationLaunchPolicyStore {
    var doc: Option<Policy>
    ghost var log: seq<Write>

    constructor ()
      ensures View() == World(None, [])
    {
      doc, log := None, [];
    }

    ghost function View(): World
      reads this
    {
      World(doc, log)
    }

    /** The loop over the routes that keeps what an older editor left out. */
    method KeepRoutes(current: seq<Entry>, routes: seq<Entry>) returns (kept: seq<Entry>)
      ensures kept == PreserveRoutes(current, routes)
    {
      kept := [];
      var i := 0;
      while i < |routes|
        invariant i <= |routes| && kept == PreserveRoutes(current, routes[..i])
      {
        assert routes[..i + 1][..i] == routes[..i];
        var e := routes[i];
        var older := Find(current, e.project);
        if older.Some? {
          var r := e.route;
          if older.value.deny { r := r.(deny := true); }
          if r.allowed.None? { r := r.(allowed := older.value.allowed); }
          if r.denied.None? { r := r.(denied := older.value.denied); }
          if r.fallback.None? { r := r.(fallback := older.value.fallback); }
          e := Entry(e.project, r);
        }
        kept := kept + [e];
        i := i + 1;
      }
      assert routes[..i] == routes;
    }

    /** `replace`: the stored policy, or nothing when it is invalid, conflicts or cannot be written. */
    method Replace(raw: Policy, ifMatch: Option<Option<Policy>>, writes: bool) returns (stored: Option<Policy>)
      modifies this
      ensures View() == Replaced(old(View()), Replacement(raw, ifMatch, writes))
      ensures stored.Some? ==> doc == stored
      ensures stored.Some? <==> Validate(raw).Some? && writes && (ifMatch.Some? ==> ifMatch.value == old(doc))
    {
      var valid := Validate(raw);
      if valid.None? || (ifMatch.Some? && ifMatch.value != doc) { return None; }
      var policy := valid.value;
      var current := Load(doc);
      if policy.fallback.None? && current.Some? && current.value.fallback.Some? {
        policy := policy.(fallback := current.value.fallback);
      }
      if current.Some? && current.value.routes.Some? && policy.routes.Some? {
        var kept := KeepRoutes(current.value.routes.value, policy.routes.value);
        policy := policy.(routes := Some(kept));
      }
      if !writes { return None; }
      log := log + [Write(doc, ifMatch, policy)];
      doc := Some(policy);
      stored := doc;
    }
  }
}
