/** The sliding-window budget of src/coordination-delivery-budget.ts for automatic exchanges. */
module DeliveryBudget {
  // A send settles at some later time, with a receipt that may refund it.  Digests stand for the messages,
  // and the clock never goes back.

  import opened Common

  const Window: nat := 60_000
  const Day: nat := 86_400_000
  const PairLimit: nat := 6
  const TargetLimit: nat := 12
  const MaxAttempts: nat := 4096

  datatype Input = Input(target: string, sender: string, inputId: string, digest: string)

  datatype Scope = PairScope(pair: string) | TargetScope(target: string)

  /** `serial` stands for the promise of the result. */
  datatype Attempt = Attempt(fingerprint: string, at: int, serial: nat)

  type Windows = map<Scope, seq<int>>

  datatype Budget = Budget(attempts: map<string, Attempt>, windows: Windows)

  datatype Outcome =
    | Sent(serial: nat)
    | Previous(serial: nat)
    | InputIdConflict
    | RateLimited(retryAfter: int)
    | Capacity

  function Pair(q: Input): string {
    (if q.sender == "" then "unknown" else q.sender) + ">" + q.target
  }

  function KeyOf(q: Input): string {
    Pair(q) + ":" + (if q.inputId == "" then q.digest else q.inputId)
  }

  function Limit(s: Scope): nat {
    if s.PairScope? then PairLimit else TargetLimit
  }

  function Times(windows: Windows, s: Scope): seq<int> {
    if s in windows then windows[s] else []
  }

  /** The instants still inside the window. */
  function Recent(times: seq<int>, now: int): seq<int> {
    if times == [] then []
    else
      var rest := Recent(times[..|times| - 1], now);
      if now - times[|times| - 1] < Window then rest + [times[|times| - 1]] else rest
  }

  function Prune(b: Budget, now: int): Budget {
    Budget(map k | k in b.attempts && now - b.attempts[k].at <= Day :: b.attempts[k],
           map s | s in b.windows && Recent(b.windows[s], now) != [] :: Recent(b.windows[s], now))
  }

  function RetryAfter(times: seq<int>, now: int): int
    requires times != []
  {
    Max(1, Window - (now - times[0]))
  }

  function Charge(windows: Windows, q: Input, now: int): Windows {
    var p, t := PairScope(Pair(q)), TargetScope(q.target);
    windows[p := Times(windows, p) + [now]][t := Times(windows, t) + [now]]
  }

  /** `run` up to the send itself, on a pruned budget. */
  function Decide(b: Budget, q: Input, now: int, serial: nat): (Budget, Outcome) {
    var key := KeyOf(q);
    if key in b.attempts then
      (b, if b.attempts[key].fingerprint == q.digest then Previous(b.attempts[key].serial) else InputIdConflict)
    else
      var p, t := Times(b.windows, PairScope(Pair(q))), Times(b.windows, TargetScope(q.target));
      if |p| >= PairLimit then (b, RateLimited(RetryAfter(p, now)))
      else if |t| >= TargetLimit then (b, RateLimited(RetryAfter(t, now)))
      else if |b.attempts| >= MaxAttempts then (b, Capacity)
      else (Budget(b.attempts[key := Attempt(q.digest, now, serial)], Charge(b.windows, q, now)), Sent(serial))
  }

  function RemoveFirst(times: seq<int>, at: int): seq<int> {
    if times == [] then []
    else if times[0] == at then times[1..]
    else [times[0]] + RemoveFirst(times[1..], at)
  }

  function Uncharge(windows: Windows, s: Scope, at: int): Windows {
    if s in windows then windows[s := RemoveFirst(windows[s], at)] else windows
  }

  /** What a receipt that shows nothing was sent takes back. */
  function Refund(b: Budget, q: Input, at: int): Budget {
    Budget(b.attempts - {KeyOf(q)}, Uncharge(Uncharge(b.windows, PairScope(Pair(q)), at), TargetScope(q.target), at))
  }

  // ---------------------------------------------------------------------------------------------
  // Runs
  // ---------------------------------------------------------------------------------------------

  datatype Fate = Pending | Counted | Refunded

  datatype Send = Send(input: Input, at: int, fate: Fate)

  /** All sends so far, by serial; `pruned` is the time of the last call. */
  datatype World = World(budget: Budget, sends: seq<Send>, pruned: int, clock: int)

  datatype Action =
    | Run(input: Input, now: int)
    | Settle(serial: nat, refund: bool, now: int)

  function Step(w: World, a: Action): World {
    if a.now < w.clock then w
    else
      match a
      case Run(q, now) =>
        var (b, outcome) := Decide(Prune(w.budget, now), q, now, |w.sends|);
        World(b, if outcome.Sent? then w.sends + [Send(q, now, Pending)] else w.sends, now, now)
      case Settle(serial, refund, now) =>
        if serial < |w.sends| && w.sends[serial].fate == Pending then
          var s := w.sends[serial];
          World(if refund then Refund(w.budget, s.input, s.at) else w.budget,
                w.sends[serial := s.(fate := if refund then Refunded else Counted)], w.pruned, now)
        else w
  }

  function AfterAll(start: int, actions: seq<Action>): World {
    if actions == [] then World(Budget(map[], map[]), [], start, start)
    else Step(AfterAll(start, actions[..|actions| - 1]), actions[|actions| - 1])
  }

  predicate InScope(q: Input, s: Scope) {
    s == PairScope(Pair(q)) || s == TargetScope(q.target)
  }

  predicate Live(s: Send, scope: Scope, since: int) {
    InScope(s.input, scope) && s.fate != Refunded && s.at > since
  }

  /** The instants of the sends of a scope after `since` that were not refunded. */
  function LiveTimes(sends: seq<Send>, scope: Scope, since: int): seq<int> {
    if sends == [] then []
    else
      var rest := LiveTimes(sends[..|sends| - 1], scope, since);
      if Live(sends[|sends| - 1], scope, since) then rest + [sends[|sends| - 1].at] else rest
  }

  // ---------------------------------------------------------------------------------------------
  // Live times under a growing clock, another send and a refund
  // ---------------------------------------------------------------------------------------------

  ghost predicate InOrder(sends: seq<Send>, last: int) {
    forall i, j :: 0 <= i <= j < |sends| ==> sends[i].at <= sends[j].at <= last
  }

  ghost predicate Ascending(times: seq<int>) {
    forall i, j :: 0 <= i <= j < |times| ==> times[i] <= times[j]
  }

  lemma {:induction false} LiveAscends(sends: seq<Send>, scope: Scope, since: int, last: int)
    requires InOrder(sends, last)
    ensures Ascending(LiveTimes(sends, scope, since))
    ensures forall i :: 0 <= i < |LiveTimes(sends, scope, since)| ==> since < LiveTimes(sends, scope, since)[i] <= last
    ensures sends != [] ==> forall i :: 0 <= i < |LiveTimes(sends, scope, since)| ==>
              LiveTimes(sends, scope, since)[i] <= sends[|sends| - 1].at
  {
    if sends != [] {
      var init := sends[..|sends| - 1];
      LiveAscends(init, scope, since, last);
      if init != [] { assert init[|init| - 1].at <= sends[|sends| - 1].at; }
    }
  }

  lemma {:induction false} RecentIsLive(sends: seq<Send>, scope: Scope, since: int, now: int)
    requires since <= now - Window
    ensures Recent(LiveTimes(sends, scope, since), now) == LiveTimes(sends, scope, now - Window)
  {
    if sends != [] {
      var init := sends[..|sends| - 1];
      RecentIsLive(init, scope, since, now);
      if Live(sends[|sends| - 1], scope, since) {
        assert LiveTimes(sends, scope, since)[..|LiveTimes(init, scope, since)|] == LiveTimes(init, scope, since);
      }
    }
  }

  lemma {:induction false} RemoveAbsent(times: seq<int>, at: int)
    requires at !in times
    ensures RemoveFirst(times, at) == times
  {
    if times != [] {
      assert times == [times[0]] + times[1..];
      RemoveAbsent(times[1..], at);
    }
  }

  /** What the search for an instant finds is the one that is removed. */
  lemma {:induction false} FirstAt(times: seq<int>, i: nat, at: int)
    requires i <= |times| && at !in times[..i] && (i < |times| ==> times[i] == at)
    ensures RemoveFirst(times, at) == if i < |times| then times[..i] + times[i + 1..] else times
  {
    if i > 0 {
      assert times[0] in times[..i];
      assert times == [times[0]] + times[1..] && times[..i] == [times[0]] + times[1..][..i - 1];
      FirstAt(times[1..], i - 1, at);
    }
  }

  lemma {:induction false} RemoveBefore(times: seq<int>, at: int, last: int)
    requires at in times
    ensures RemoveFirst(times + [last], at) == RemoveFirst(times, at) + [last]
  {
    assert (times + [last])[1..] == times[1..] + [last];
    if times[0] != at { RemoveBefore(times[1..], at, last); }
  }

  /** Of equal instants at the end of a list it does not matter which one is removed. */
  lemma {:induction false} RemoveLast(times: seq<int>, at: int)
    requires Ascending(times + [at])
    ensures RemoveFirst(times + [at], at) == times
  {
    if times != [] {
      var all := times + [at];
      assert all[1..] == times[1..] + [at];
      assert times == [times[0]] + times[1..];
      if times[0] != at {
        assert Ascending(times[1..] + [at]) by {
          forall i, j | 0 <= i <= j < |times| ensures all[1..][i] <= all[1..][j] { assert all[i + 1] <= all[j + 1]; }
        }
        RemoveLast(times[1..], at);
      } else {
        forall i | 0 <= i < |times| ensures times[i] == at && all[1..][i] == at {
          assert all[0] <= all[i] <= all[|times|];
          assert all[0] <= all[i + 1] <= all[|times|];
        }
      }
    }
  }

  lemma {:induction false} LiveIn(sends: seq<Send>, i: nat, scope: Scope, since: int)
    requires i < |sends| && Live(sends[i], scope, since)
    ensures sends[i].at in LiveTimes(sends, scope, since)
  {
    if i < |sends| - 1 { LiveIn(sends[..|sends| - 1], i, scope, since); }
  }

  /** A later live send stays behind whatever is removed before it. */
  lemma RemoveEarlier(sends: seq<Send>, i: nat, scope: Scope, since: int, last: int)
    requires i < |sends| - 1 && InOrder(sends, last) && sends[i].fate != Refunded && InScope(sends[i].input, scope)
    requires Live(sends[|sends| - 1], scope, since)
    ensures RemoveFirst(LiveTimes(sends, scope, since), sends[i].at) ==
              RemoveFirst(LiveTimes(sends[..|sends| - 1], scope, since), sends[i].at) + [sends[|sends| - 1].at]
  {
    var n, at := |sends| - 1, sends[i].at;
    var init := sends[..n];
    if at > since {
      LiveIn(init, i, scope, since);
      RemoveBefore(LiveTimes(init, scope, since), at, sends[n].at);
    } else {
      LiveAscends(sends, scope, since, last);
      LiveAscends(init, scope, since, last);
      RemoveAbsent(LiveTimes(sends, scope, since), at);
      RemoveAbsent(LiveTimes(init, scope, since), at);
    }
  }

  lemma RefundLast(sends: seq<Send>, scope: Scope, since: int, last: int)
    requires sends != [] && InOrder(sends, last) && sends[|sends| - 1].fate != Refunded && InScope(sends[|sends| - 1].input, scope)
    ensures RemoveFirst(LiveTimes(sends, scope, since), sends[|sends| - 1].at) == LiveTimes(sends[..|sends| - 1], scope, since)
  {
    var n := |sends| - 1;
    LiveAscends(sends, scope, since, last);
    if Live(sends[n], scope, since) { RemoveLast(LiveTimes(sends[..n], scope, since), sends[n].at); }
    else { RemoveAbsent(LiveTimes(sends, scope, since), sends[n].at); }
  }

  /** Refunding a send takes its instant out of the live ones. */
  lemma {:induction false} RefundLive(sends: seq<Send>, i: nat, scope: Scope, since: int, last: int)
    requires i < |sends| && InOrder(sends, last) && sends[i].fate != Refunded
    ensures LiveTimes(sends[i := sends[i].(fate := Refunded)], scope, since) ==
              if InScope(sends[i].input, scope) then RemoveFirst(LiveTimes(sends, scope, since), sends[i].at)
              else LiveTimes(sends, scope, since)
  {
    var n, sends' := |sends| - 1, sends[i := sends[i].(fate := Refunded)];
    if i == n {
      assert sends'[..n] == sends[..n];
      if InScope(sends[n].input, scope) { RefundLast(sends, scope, since, last); }
    } else {
      assert sends'[..n] == sends[..n][i := sends[i].(fate := Refunded)];
      RefundLive(sends[..n], i, scope, since, last);
      if Live(sends[n], scope, since) && InScope(sends[i].input, scope) { RemoveEarlier(sends, i, scope, since, last); }
    }
  }

  lemma {:induction false} CountedLive(sends: seq<Send>, i: nat, scope: Scope, since: int)
    requires i < |sends| && sends[i].fate == Pending
    ensures LiveTimes(sends[i := sends[i].(fate := Counted)], scope, since) == LiveTimes(sends, scope, since)
  {
    var n, sends' := |sends| - 1, sends[i := sends[i].(fate := Counted)];
    if i == n {
      assert sends'[..n] == sends[..n];
    } else {
      assert sends'[..n] == sends[..n][i := sends[i].(fate := Counted)];
      CountedLive(sends[..n], i, scope, since);
    }
  }

  // ---------------------------------------------------------------------------------------------
  // Invariant
  // ---------------------------------------------------------------------------------------------

  /** The stored instants of a scope are those of its live sends within the window of the last call. */
  predicate WindowFits(windows: Windows, sends: seq<Send>, pruned: int, scope: Scope) {
    Times(windows, scope) == LiveTimes(sends, scope, pruned - Window)
  }

  ghost predicate WindowsFit(windows: Windows, sends: seq<Send>, pruned: int) {
    forall scope :: WindowFits(windows, sends, pruned, scope)
  }

  /** When the send was made, it was within the limit of the scope. */
  predicate WithinLimit(sends: seq<Send>, k: nat, scope: Scope)
    requires k < |sends|
  {
    InScope(sends[k].input, scope) && sends[k].fate != Refunded ==>
      |LiveTimes(sends[..k + 1], scope, sends[k].at - Window)| <= Limit(scope)
  }

  ghost predicate AllWithinLimits(sends: seq<Send>) {
    forall k: nat, scope :: k < |sends| ==> WithinLimit(sends, k, scope)
  }

  predicate AttemptFits(key: string, a: Attempt, sends: seq<Send>) {
    && a.serial < |sends| && sends[a.serial].fate != Refunded
    && KeyOf(sends[a.serial].input) == key && sends[a.serial].at == a.at && sends[a.serial].input.digest == a.fingerprint
  }

  ghost predicate AttemptsFit(attempts: map<string, Attempt>, sends: seq<Send>) {
    && |attempts| <= MaxAttempts
    && forall key :: key in attempts ==> AttemptFits(key, attempts[key], sends)
  }

  ghost predicate Inv(w: World) {
    && w.pruned <= w.clock && InOrder(w.sends, w.pruned)
    && WindowsFit(w.budget.windows, w.sends, w.pruned)
    && AllWithinLimits(w.sends)
    && AttemptsFit(w.budget.attempts, w.sends)
  }

  lemma PruneFits(b: Budget, sends: seq<Send>, pruned: int, now: int)
    requires WindowsFit(b.windows, sends, pruned) && AttemptsFit(b.attempts, sends) && pruned <= now
    ensures WindowsFit(Prune(b, now).windows, sends, now) && AttemptsFit(Prune(b, now).attempts, sends)
  {
    forall scope ensures WindowFits(Prune(b, now).windows, sends, now, scope) {
      assert WindowFits(b.windows, sends, pruned, scope);
      RecentIsLive(sends, scope, pruned - Window, now);
      assert Times(Prune(b, now).windows, scope) == Recent(Times(b.windows, scope), now);
    }
    var kept := Prune(b, now).attempts;
    assert kept.Keys <= b.attempts.Keys;
    SubsetSize(kept.Keys, b.attempts.Keys);
  }

  lemma LiveAppend(sends: seq<Send>, s: Send, scope: Scope, since: int)
    ensures LiveTimes(sends + [s], scope, since) == LiveTimes(sends, scope, since) + if Live(s, scope, since) then [s.at] else []
  {
    assert (sends + [s])[..|sends|] == sends;
  }

  lemma ChargeFits(windows: Windows, q: Input, now: int, sends: seq<Send>)
    requires WindowsFit(windows, sends, now)
    ensures WindowsFit(Charge(windows, q, now), sends + [Send(q, now, Pending)], now)
  {
    forall scope ensures WindowFits(Charge(windows, q, now), sends + [Send(q, now, Pending)], now, scope) {
      assert WindowFits(windows, sends, now, scope);
      LiveAppend(sends, Send(q, now, Pending), scope, now - Window);
    }
  }

  lemma SendWithinLimits(windows: Windows, q: Input, now: int, sends: seq<Send>)
    requires WindowsFit(windows, sends, now) && AllWithinLimits(sends)
    requires forall scope :: InScope(q, scope) ==> |Times(windows, scope)| < Limit(scope)
    ensures AllWithinLimits(sends + [Send(q, now, Pending)])
  {
    var sends' := sends + [Send(q, now, Pending)];
    forall k: nat, scope | k < |sends'| ensures WithinLimit(sends', k, scope) {
      if k < |sends| {
        assert WithinLimit(sends, k, scope);
        assert sends'[..k + 1] == sends[..k + 1];
      } else {
        assert sends'[..k + 1] == sends';
        assert WindowFits(windows, sends, now, scope);
        LiveAppend(sends, Send(q, now, Pending), scope, now - Window);
      }
    }
  }

  lemma AttemptFitsLater(attempts: map<string, Attempt>, sends: seq<Send>, s: Send)
    requires AttemptsFit(attempts, sends)
    ensures AttemptsFit(attempts, sends + [s])
  {
    forall key | key in attempts ensures AttemptFits(key, attempts[key], sends + [s]) {
      assert AttemptFits(key, attempts[key], sends);
    }
  }

  lemma SendFits(b: Budget, q: Input, now: int, sends: seq<Send>)
    requires WindowsFit(b.windows, sends, now) && AttemptsFit(b.attempts, sends) && AllWithinLimits(sends)
    requires Decide(b, q, now, |sends|).1.Sent?
    ensures var after := Decide(b, q, now, |sends|).0; var sends' := sends + [Send(q, now, Pending)];
            WindowsFit(after.windows, sends', now) && AttemptsFit(after.attempts, sends') && AllWithinLimits(sends')
  {
    ChargeFits(b.windows, q, now, sends);
    SendWithinLimits(b.windows, q, now, sends);
    AttemptFitsLater(b.attempts, sends, Send(q, now, Pending));
  }

  lemma {:induction false} RemoveShortens(times: seq<int>, at: int)
    ensures |RemoveFirst(times, at)| <= |times|
  {
    if times != [] && times[0] != at { RemoveShortens(times[1..], at); }
  }

  function Settled(sends: seq<Send>, serial: nat, refund: bool): seq<Send>
    requires serial < |sends|
  {
    sends[serial := sends[serial].(fate := if refund then Refunded else Counted)]
  }

  lemma WindowsAfterSettle(windows: Windows, sends: seq<Send>, pruned: int, serial: nat, refund: bool)
    requires WindowsFit(windows, sends, pruned) && InOrder(sends, pruned) && serial < |sends| && sends[serial].fate == Pending
    ensures var q, at := sends[serial].input, sends[serial].at;
            WindowsFit(if refund then Uncharge(Uncharge(windows, PairScope(Pair(q)), at), TargetScope(q.target), at) else windows,
                       Settled(sends, serial, refund), pruned)
  {
    var p, t, at := PairScope(Pair(sends[serial].input)), TargetScope(sends[serial].input.target), sends[serial].at;
    var windows' := if refund then Uncharge(Uncharge(windows, p, at), t, at) else windows;
    forall scope ensures WindowFits(windows', Settled(sends, serial, refund), pruned, scope) {
      assert WindowFits(windows, sends, pruned, scope);
      if refund {
        RefundLive(sends, serial, scope, pruned - Window, pruned);
        assert Times(windows', scope) == if scope == p || scope == t then RemoveFirst(Times(windows, scope), at) else Times(windows, scope);
      } else {
        CountedLive(sends, serial, scope, pruned - Window);
      }
    }
  }

  /** The call settles a pending send. */
  predicate Settles(w: World, a: Action) {
    a.Settle? && a.serial < |w.sends| && w.sends[a.serial].fate == Pending && w.clock <= a.now
  }

  lemma SettleStep(w: World, a: Action)
    requires Settles(w, a)
    ensures var q, at := w.sends[a.serial].input, w.sends[a.serial].at;
            Step(w, a) == World(Budget(if a.refund then w.budget.attempts - {KeyOf(q)} else w.budget.attempts,
                                       if a.refund then Uncharge(Uncharge(w.budget.windows, PairScope(Pair(q)), at), TargetScope(q.target), at) else w.budget.windows),
                                Settled(w.sends, a.serial, a.refund), w.pruned, a.now)
  {
  }

  lemma OrderAfterSettle(sends: seq<Send>, serial: nat, refund: bool, last: int)
    requires InOrder(sends, last) && serial < |sends|
    ensures InOrder(Settled(sends, serial, refund), last)
  {
    var sends' := Settled(sends, serial, refund);
    forall i, j | 0 <= i <= j < |sends'| ensures sends'[i].at <= sends'[j].at <= last {
      assert sends[i].at <= sends[j].at <= last;
    }
  }

  lemma SettleFits(w: World, serial: nat, refund: bool, now: int)
    requires Inv(w) && w.clock <= now
    ensures Inv(Step(w, Settle(serial, refund, now)))
  {
    if serial < |w.sends| && w.sends[serial].fate == Pending {
      SettleStep(w, Settle(serial, refund, now));
      OrderAfterSettle(w.sends, serial, refund, w.pruned);
      WindowsAfterSettle(w.budget.windows, w.sends, w.pruned, serial, refund);
      LimitsAfterSettle(w.sends, serial, refund, w.pruned);
      AttemptsAfterSettle(w.budget.attempts, w.sends, serial, refund);
    }
  }

  lemma LimitsAfterSettle(sends: seq<Send>, serial: nat, refund: bool, last: int)
    requires AllWithinLimits(sends) && InOrder(sends, last) && serial < |sends| && sends[serial].fate == Pending
    ensures AllWithinLimits(Settled(sends, serial, refund))
  {
    forall k: nat, scope | k < |sends| ensures WithinLimit(Settled(sends, serial, refund), k, scope) {
      assert WithinLimit(sends, k, scope);
      SettledWithin(sends, serial, refund, k, scope, last);
    }
  }

  lemma SettledWithin(sends: seq<Send>, serial: nat, refund: bool, k: nat, scope: Scope, last: int)
    requires InOrder(sends, last) && serial < |sends| && k < |sends| && sends[serial].fate == Pending && WithinLimit(sends, k, scope)
    ensures WithinLimit(Settled(sends, serial, refund), k, scope)
  {
    var sends' := Settled(sends, serial, refund);
    var prefix, since := sends[..k + 1], sends[k].at - Window;
    if serial <= k {
      assert sends'[..k + 1] == Settled(prefix, serial, refund);
      if refund {
        RefundLive(prefix, serial, scope, since, last);
        RemoveShortens(LiveTimes(prefix, scope, since), sends[serial].at);
      } else {
        CountedLive(prefix, serial, scope, since);
      }
    } else {
      assert sends'[..k + 1] == prefix;
    }
  }

  lemma AttemptsAfterSettle(attempts: map<string, Attempt>, sends: seq<Send>, serial: nat, refund: bool)
    requires AttemptsFit(attempts, sends) && serial < |sends| && sends[serial].fate == Pending
    ensures AttemptsFit(if refund then attempts - {KeyOf(sends[serial].input)} else attempts, Settled(sends, serial, refund))
  {
    if refund {
      var left := attempts - {KeyOf(sends[serial].input)};
      SubsetSize(left.Keys, attempts.Keys);
      forall k | k in left ensures AttemptFits(k, left[k], Settled(sends, serial, true)) {
        AttemptAfterSettle(k, attempts[k], sends, serial, true);
      }
    } else {
      forall k | k in attempts ensures AttemptFits(k, attempts[k], Settled(sends, serial, false)) {
        AttemptAfterSettle(k, attempts[k], sends, serial, false);
      }
    }
  }

  lemma AttemptAfterSettle(key: string, a: Attempt, sends: seq<Send>, serial: nat, refund: bool)
    requires AttemptFits(key, a, sends) && serial < |sends| && sends[serial].fate == Pending
    requires refund ==> key != KeyOf(sends[serial].input)
    ensures AttemptFits(key, a, Settled(sends, serial, refund))
  {
    assert Settled(sends, serial, refund)[a.serial].input == sends[a.serial].input;
  }

  lemma RunFits(b: Budget, q: Input, now: int, sends: seq<Send>)
    requires WindowsFit(b.windows, sends, now) && AttemptsFit(b.attempts, sends) && AllWithinLimits(sends) && InOrder(sends, now)
    ensures var (after, outcome) := Decide(b, q, now, |sends|);
            Inv(World(after, if outcome.Sent? then sends + [Send(q, now, Pending)] else sends, now, now))
  {
    OrderAfterSend(q, now, sends);
    if Decide(b, q, now, |sends|).1.Sent? { SendFits(b, q, now, sends); } else { RefusedKeeps(b, q, now, |sends|); }
  }

  lemma OrderAfterSend(q: Input, now: int, sends: seq<Send>)
    requires InOrder(sends, now)
    ensures InOrder(sends + [Send(q, now, Pending)], now)
  {
  }

  lemma RefusedKeeps(b: Budget, q: Input, now: int, serial: nat)
    ensures !Decide(b, q, now, serial).1.Sent? ==> Decide(b, q, now, serial).0 == b
  {
  }

  lemma StepKeepsInv(w: World, a: Action)
    requires Inv(w)
    ensures Inv(Step(w, a))
  {
    if w.clock <= a.now {
      match a
      case Run(q, now) =>
        PruneFits(w.budget, w.sends, w.pruned, now);
        RunFits(Prune(w.budget, now), q, now, w.sends);
      case Settle(serial, refund, now) => SettleFits(w, serial, refund, now);
    }
  }

  lemma {:induction false} RunKeepsInv(start: int, actions: seq<Action>)
    ensures Inv(AfterAll(start, actions))
  {
    if actions != [] {
      RunKeepsInv(start, actions[..|actions| - 1]);
      StepKeepsInv(AfterAll(start, actions[..|actions| - 1]), actions[|actions| - 1]);
    }
  }

  // ---------------------------------------------------------------------------------------------
  // The window bound
  // ---------------------------------------------------------------------------------------------

  /** How many sends of a scope that were not refunded fall into the window that ends at `to`. */
  function CountIn(sends: seq<Send>, scope: Scope, to: int): nat {
    if sends == [] then 0
    else
      var s := sends[|sends| - 1];
      CountIn(sends[..|sends| - 1], scope, to) + if Live(s, scope, to - Window) && s.at <= to then 1 else 0
  }

  lemma {:induction false} CountIsLive(sends: seq<Send>, scope: Scope, to: int, since: int)
    requires since <= to - Window
    ensures CountIn(sends, scope, to) <= |LiveTimes(sends, scope, since)|
  {
    if sends != [] { CountIsLive(sends[..|sends| - 1], scope, to, since); }
  }

  lemma {:induction false} CountWithinLimit(sends: seq<Send>, scope: Scope, to: int)
    requires AllWithinLimits(sends)
    ensures CountIn(sends, scope, to) <= Limit(scope)
  {
    if sends != [] {
      var n := |sends| - 1;
      var init := sends[..n];
      forall k: nat, scope' | k < n ensures WithinLimit(init, k, scope') {
        assert WithinLimit(sends, k, scope');
        assert init[..k + 1] == sends[..k + 1];
      }
      CountWithinLimit(init, scope, to);
      if Live(sends[n], scope, to - Window) && sends[n].at <= to {
        assert WithinLimit(sends, n, scope);
        assert sends[..n + 1] == sends;
        CountIsLive(sends, scope, to, sends[n].at - Window);
      }
    }
  }

  /** Any 60 000 ms hold at most 6 sends of a sender to a target, and at most 12 to a target, that were not
      refunded; and the table never exceeds 4096 attempts. */
  lemma WindowsAreBounded(start: int, actions: seq<Action>, sender: string, target: string, to: int)
    ensures CountIn(AfterAll(start, actions).sends, PairScope(Pair(Input(target, sender, "", ""))), to) <= 6
    ensures CountIn(AfterAll(start, actions).sends, TargetScope(target), to) <= 12
    ensures |AfterAll(start, actions).budget.attempts| <= 4096
  {
    RunKeepsInv(start, actions);
    CountWithinLimit(AfterAll(start, actions).sends, PairScope(Pair(Input(target, sender, "", ""))), to);
    CountWithinLimit(AfterAll(start, actions).sends, TargetScope(target), to);
  }

  // ---------------------------------------------------------------------------------------------
  // One send per key
  // ---------------------------------------------------------------------------------------------

  /** An unrefunded send is remembered for a day. */
  predicate Remembered(w: World, i: nat)
    requires i < |w.sends|
  {
    w.sends[i].fate != Refunded && w.pruned - w.sends[i].at <= Day ==>
      var key := KeyOf(w.sends[i].input); key in w.budget.attempts && w.budget.attempts[key].serial == i
  }

  predicate Apart(sends: seq<Send>, i: nat, j: nat)
    requires i < j < |sends|
  {
    KeyOf(sends[i].input) == KeyOf(sends[j].input) ==> sends[i].fate == Refunded || sends[j].at - sends[i].at > Day
  }

  ghost predicate KeysOnce(w: World) {
    && (forall i: nat :: i < |w.sends| ==> Remembered(w, i))
    && (forall i: nat, j: nat :: i < j < |w.sends| ==> Apart(w.sends, i, j))
  }

  lemma PruneRemembers(w: World, now: int)
    requires Inv(w) && KeysOnce(w) && w.pruned <= now
    ensures forall i: nat :: i < |w.sends| ==> Remembered(World(Prune(w.budget, now), w.sends, now, now), i)
  {
    var w' := World(Prune(w.budget, now), w.sends, now, now);
    forall i: nat | i < |w.sends| ensures Remembered(w', i) {
      assert Remembered(w, i);
      var key := KeyOf(w.sends[i].input);
      if key in w.budget.attempts { assert AttemptFits(key, w.budget.attempts[key], w.sends); }
    }
  }

  lemma SendKeepsKeysOnce(w: World, q: Input)
    requires KeysOnce(w) && w.pruned == w.clock && Decide(w.budget, q, w.pruned, |w.sends|).1.Sent?
    ensures KeysOnce(World(Decide(w.budget, q, w.pruned, |w.sends|).0, w.sends + [Send(q, w.pruned, Pending)], w.pruned, w.clock))
  {
    var w' := World(Decide(w.budget, q, w.pruned, |w.sends|).0, w.sends + [Send(q, w.pruned, Pending)], w.pruned, w.clock);
    assert KeyOf(q) !in w.budget.attempts;
    forall i: nat | i < |w'.sends| ensures Remembered(w', i) {
      if i < |w.sends| { assert Remembered(w, i); }
    }
    forall i: nat, j: nat | i < j < |w'.sends| ensures Apart(w'.sends, i, j) {
      if j < |w.sends| { assert Apart(w.sends, i, j); } else { assert Remembered(w, i); }
    }
  }

  lemma RunKeepsKeysOnce(w: World, q: Input, now: int)
    requires Inv(w) && KeysOnce(w) && w.clock <= now
    ensures KeysOnce(Step(w, Run(q, now)))
  {
    PruneRemembers(w, now);
    var pruned := World(Prune(w.budget, now), w.sends, now, now);
    assert forall i: nat, j: nat :: i < j < |w.sends| ==> Apart(w.sends, i, j);
    if Decide(pruned.budget, q, now, |w.sends|).1.Sent? { SendKeepsKeysOnce(pruned, q); }
  }

  /** The refund takes away the attempt of another send of the key that is still remembered. */
  predicate Harmful(w: World, a: Action) {
    Settles(w, a) && a.refund &&
      var key := KeyOf(w.sends[a.serial].input);
      key in w.budget.attempts && w.budget.attempts[key].serial != a.serial && w.pruned - w.budget.attempts[key].at <= Day
  }

  lemma HarmlessRemembers(w: World, a: Action, i: nat)
    requires Inv(w) && Settles(w, a) && !Harmful(w, a) && i < |w.sends| && Remembered(w, i)
    ensures i < |Step(w, a).sends| && Remembered(Step(w, a), i)
  {
    SettleStep(w, a);
    var key := KeyOf(w.sends[a.serial].input);
    if key in w.budget.attempts { assert AttemptFits(key, w.budget.attempts[key], w.sends); }
  }

  lemma HarmlessKeepsKeysOnce(w: World, a: Action)
    requires Inv(w) && KeysOnce(w) && Settles(w, a) && !Harmful(w, a)
    ensures KeysOnce(Step(w, a))
  {
    SettleStep(w, a);
    var w' := Step(w, a);
    forall i: nat | i < |w'.sends| ensures Remembered(w', i) {
      assert Remembered(w, i);
      HarmlessRemembers(w, a, i);
    }
    forall i: nat, j: nat | i < j < |w'.sends| ensures Apart(w'.sends, i, j) { assert Apart(w.sends, i, j); }
  }

  /** The exact condition for a settled send to leave every key sent once and remembered. */
  lemma SettleKeepsKeysOnceIff(w: World, a: Action)
    requires Inv(w) && KeysOnce(w) && Settles(w, a)
    ensures KeysOnce(Step(w, a)) <==> !Harmful(w, a)
  {
    if Harmful(w, a) {
      var key := KeyOf(w.sends[a.serial].input);
      assert AttemptFits(key, w.budget.attempts[key], w.sends);
      assert !Remembered(Step(w, a), w.budget.attempts[key].serial);
    } else {
      HarmlessKeepsKeysOnce(w, a);
    }
  }

  predicate HasRoom(b: Budget, q: Input) {
    |Times(b.windows, PairScope(Pair(q)))| < PairLimit && |Times(b.windows, TargetScope(q.target))| < TargetLimit
  }

  /** What a harmful refund costs: while the send it forgot is less than a day old, any call with its key that
      the windows have room for sends again. */
  lemma HarmfulRefundResends(w: World, a: Action, q: Input, now: int)
    requires Inv(w) && Harmful(w, a) && KeyOf(q) == KeyOf(w.sends[a.serial].input)
    requires a.now <= now <= w.budget.attempts[KeyOf(q)].at + Day
    requires HasRoom(Prune(Step(w, a).budget, now), q)
    ensures var sends, i := Step(Step(w, a), Run(q, now)).sends, w.budget.attempts[KeyOf(q)].serial;
      && i < |w.sends| && sends == Step(w, a).sends + [Send(q, now, Pending)]
      && !Apart(sends, i, |w.sends|)
  {
    var key := KeyOf(q);
    assert AttemptFits(key, w.budget.attempts[key], w.sends);
    var left := Prune(Step(w, a).budget, now).attempts;
    assert left.Keys <= w.budget.attempts.Keys - {key};
    SubsetSize(left.Keys, w.budget.attempts.Keys - {key});
  }

  /** No refund of the run takes away a newer attempt. */
  ghost predicate AllHarmless(start: int, actions: seq<Action>) {
    actions != [] ==>
      AllHarmless(start, actions[..|actions| - 1]) && !Harmful(AfterAll(start, actions[..|actions| - 1]), actions[|actions| - 1])
  }

  lemma {:induction false} HarmlessRunKeepsKeysOnce(start: int, actions: seq<Action>)
    requires AllHarmless(start, actions)
    ensures KeysOnce(AfterAll(start, actions))
  {
    if actions != [] {
      var init, a := actions[..|actions| - 1], actions[|actions| - 1];
      var w := AfterAll(start, init);
      RunKeepsInv(start, init);
      HarmlessRunKeepsKeysOnce(start, init);
      if Settles(w, a) { HarmlessKeepsKeysOnce(w, a); }
      else if a.Run? && w.clock <= a.now { RunKeepsKeysOnce(w, a.input, a.now); }
    }
  }

  /** When no refund takes away a newer attempt, a key is sent again only after its earlier send was refunded
      or is more than a day old. */
  lemma KeySentOnce(start: int, actions: seq<Action>, i: nat, j: nat)
    requires AllHarmless(start, actions) && i < j < |AfterAll(start, actions).sends|
    requires KeyOf(AfterAll(start, actions).sends[i].input) == KeyOf(AfterAll(start, actions).sends[j].input)
    ensures AfterAll(start, actions).sends[i].fate == Refunded
            || AfterAll(start, actions).sends[j].at - AfterAll(start, actions).sends[i].at > 24 * 60 * 60 * 1000
  {
    HarmlessRunKeepsKeysOnce(start, actions);
    assert Apart(AfterAll(start, actions).sends, i, j);
  }

  /** A refund within a day of its send is harmless. */
  lemma PromptIsHarmless(start: int, actions: seq<Action>, a: Action)
    requires AllHarmless(start, actions) && Settles(AfterAll(start, actions), a)
    requires a.now - AfterAll(start, actions).sends[a.serial].at <= Day
    ensures AllHarmless(start, actions + [a])
  {
    HarmlessRunKeepsKeysOnce(start, actions);
    RunKeepsInv(start, actions);
    assert Remembered(AfterAll(start, actions), a.serial);
    assert (actions + [a])[..|actions|] == actions;
  }

  /** A repeated call within the day gets the one earlier send of its key, with the same text. */
  lemma PreviousIsTheSend(start: int, actions: seq<Action>, q: Input, now: int)
    ensures var w := AfterAll(start, actions); var outcome := Decide(Prune(w.budget, now), q, now, |w.sends|).1;
            outcome.Previous? ==>
              && outcome.serial < |w.sends| && w.sends[outcome.serial].fate != Refunded
              && KeyOf(w.sends[outcome.serial].input) == KeyOf(q) && w.sends[outcome.serial].input.digest == q.digest
              && now - w.sends[outcome.serial].at <= Day
  {
    RunKeepsInv(start, actions);
    var w := AfterAll(start, actions);
    PreviousIsStored(w.budget, q, now, |w.sends|);
    if KeyOf(q) in w.budget.attempts { assert AttemptFits(KeyOf(q), w.budget.attempts[KeyOf(q)], w.sends); }
  }

  lemma PreviousIsStored(b: Budget, q: Input, now: int, serial: nat)
    ensures var key, outcome := KeyOf(q), Decide(Prune(b, now), q, now, serial).1;
            outcome.Previous? ==>
              key in b.attempts && b.attempts[key] == Attempt(q.digest, b.attempts[key].at, outcome.serial) && now - b.attempts[key].at <= Day
  {
  }

  /** The budget after a single send. */
  function Single(q: Input, at: int, serial: nat): Budget {
    Budget(map[KeyOf(q) := Attempt(q.digest, at, serial)], Charge(map[], q, at))
  }

  lemma SendOnEmpty(w: World, q: Input, now: int)
    requires w.clock <= now && Prune(w.budget, now) == Budget(map[], map[])
    ensures Step(w, Run(q, now)) == World(Single(q, now, |w.sends|), w.sends + [Send(q, now, Pending)], now, now)
  {
  }

  lemma SingleExpires(q: Input, at: int, serial: nat, now: int)
    requires now > at + Day
    ensures Prune(Single(q, at, serial), now) == Budget(map[], map[])
  {
    var b := Single(q, at, serial);
    assert Recent([at], now) == [];
    assert forall s :: s in b.windows ==> b.windows[s] == [at];
    assert Prune(b, now).windows == map[] && Prune(b, now).attempts == map[];
  }

  lemma LateRefundForgets(q: Input, at: int, early: int, serial: nat)
    requires early != at
    ensures Refund(Single(q, at, serial), q, early) == Budget(map[], Charge(map[], q, at))
  {
    RemoveAbsent([at], early);
    var windows := Charge(map[], q, at);
    assert forall s :: s in windows ==> windows[s] == [at];
    assert Uncharge(windows, PairScope(Pair(q)), early) == windows && Uncharge(windows, TargetScope(q.target), early) == windows;
    var attempts: map<string, Attempt> := map[KeyOf(q) := Attempt(q.digest, at, serial)];
    assert attempts - {KeyOf(q)} == map[];
  }

  lemma SendAfterForgetting(w: World, q: Input)
    requires w.budget == Budget(map[], Charge(map[], q, w.clock))
    ensures Step(w, Run(q, w.clock)).sends == w.sends + [Send(q, w.clock, Pending)]
  {
    var windows := w.budget.windows;
    assert forall s :: s in windows ==> windows[s] == [w.clock];
    forall s ensures |Times(Prune(w.budget, w.clock).windows, s)| <= 1 {
      if s in windows { assert |Recent([w.clock], w.clock)| <= 1; }
    }
  }

  /** Otherwise a late refund takes away a newer attempt of the same key, and a third send follows at once. */
  lemma LateRefundAllowsResend(q: Input)
    ensures var actions := [Run(q, 0), Run(q, Day + 1), Settle(0, true, Day + 1), Run(q, Day + 1)];
            var sends := AfterAll(0, actions).sends;
            |sends| == 3 && sends[1] == sends[2] == Send(q, Day + 1, Pending)
  {
    var a0, a1, a2, a3 := Run(q, 0), Run(q, Day + 1), Settle(0, true, Day + 1), Run(q, Day + 1);
    AfterSnoc(0, [], a0);
    AfterSnoc(0, [a0], a1);
    AfterSnoc(0, [a0, a1], a2);
    AfterSnoc(0, [a0, a1, a2], a3);
    assert [] + [a0] == [a0] && [a0] + [a1] == [a0, a1] && [a0, a1] + [a2] == [a0, a1, a2] && [a0, a1, a2] + [a3] == [a0, a1, a2, a3];
    FourSteps(AfterAll(0, []), q);
  }

  lemma FourSteps(w: World, q: Input)
    requires w == World(Budget(map[], map[]), [], 0, 0)
    ensures Step(Step(Step(Step(w, Run(q, 0)), Run(q, Day + 1)), Settle(0, true, Day + 1)), Run(q, Day + 1)).sends ==
              [Send(q, 0, Refunded), Send(q, Day + 1, Pending), Send(q, Day + 1, Pending)]
  {
    TwoSends(w, q);
    LateSettle(q);
    SendAfterForgetting(World(Budget(map[], Charge(map[], q, Day + 1)), [Send(q, 0, Refunded), Send(q, Day + 1, Pending)], Day + 1, Day + 1), q);
  }

  lemma TwoSends(w: World, q: Input)
    requires w == World(Budget(map[], map[]), [], 0, 0)
    ensures Step(Step(w, Run(q, 0)), Run(q, Day + 1)) ==
              World(Single(q, Day + 1, 1), [Send(q, 0, Pending), Send(q, Day + 1, Pending)], Day + 1, Day + 1)
  {
    SendOnEmpty(w, q, 0);
    SingleExpires(q, 0, 0, Day + 1);
    SendOnEmpty(World(Single(q, 0, 0), [Send(q, 0, Pending)], 0, 0), q, Day + 1);
  }

  lemma LateSettle(q: Input)
    ensures Step(World(Single(q, Day + 1, 1), [Send(q, 0, Pending), Send(q, Day + 1, Pending)], Day + 1, Day + 1), Settle(0, true, Day + 1)) ==
              World(Budget(map[], Charge(map[], q, Day + 1)), [Send(q, 0, Refunded), Send(q, Day + 1, Pending)], Day + 1, Day + 1)
  {
    LateRefundForgets(q, Day + 1, 0, 1);
  }

  lemma AfterSnoc(start: int, actions: seq<Action>, a: Action)
    ensures AfterAll(start, actions + [a]) == Step(AfterAll(start, actions), a)
  {
    assert (actions + [a])[..|actions|] == actions;
  }

  // ---------------------------------------------------------------------------------------------
  // The advice to retry
  // ---------------------------------------------------------------------------------------------

  /** After waiting as long as a refusal says, with no other call in between, the scope has room again. */
  lemma RetryAfterIsEnough(start: int, actions: seq<Action>, scope: Scope, now: int, later: int)
    requires AfterAll(start, actions).pruned <= now
    requires var times := Times(Prune(AfterAll(start, actions).budget, now).windows, scope);
             |times| >= Limit(scope) && later >= now + RetryAfter(times, now)
    ensures |Times(Prune(Prune(AfterAll(start, actions).budget, now), later).windows, scope)| < Limit(scope)
  {
    RunKeepsInv(start, actions);
    var w := AfterAll(start, actions);
    var b := Prune(w.budget, now);
    PruneFits(w.budget, w.sends, w.pruned, now);
    assert WindowFits(b.windows, w.sends, now, scope);
    var times := Times(b.windows, scope);
    LiveCountedFits(w.sends, scope, now);
    LiveAscends(w.sends, scope, now - Window, w.pruned);
    assert |times| <= Limit(scope);
    RecentDrops(times, later);
    assert Times(Prune(b, later).windows, scope) == Recent(times, later);
  }

  lemma {:induction false} LiveCountedFits(sends: seq<Send>, scope: Scope, now: int)
    requires AllWithinLimits(sends) && InOrder(sends, now)
    ensures |LiveTimes(sends, scope, now - Window)| <= Limit(scope)
  {
    CountWithinLimit(sends, scope, now);
    LiveIsCount(sends, scope, now);
  }

  lemma {:induction false} LiveIsCount(sends: seq<Send>, scope: Scope, now: int)
    requires InOrder(sends, now)
    ensures |LiveTimes(sends, scope, now - Window)| == CountIn(sends, scope, now)
  {
    if sends != [] { LiveIsCount(sends[..|sends| - 1], scope, now); }
  }

  lemma {:induction false} RecentDrops(times: seq<int>, later: int)
    requires times != [] && later - times[0] >= Window
    ensures |Recent(times, later)| < |times|
  {
    if |times| > 1 { RecentDrops(times[..|times| - 1], later); }
  }

  // ---------------------------------------------------------------------------------------------
  // The budget, in place
  // ---------------------------------------------------------------------------------------------

  class CoordinationDeliveryBudget {
    var attempts: map<string, Attempt>
    var windows: Windows

    function View(): Budget
      reads this
    {
      Budget(attempts, windows)
    }

    constructor ()
      ensures View() == Budget(map[], map[])
    {
      attempts, windows := map[], map[];
    }

    /** The first loop of `run`: attempts older than a day go. */
    method DropOldAttempts(now: int)
      modifies this`attempts
      ensures attempts == Prune(old(View()), now).attempts
    {
      ghost var before := attempts;
      var todo := attempts.Keys;
      while todo != {}
        invariant todo <= before.Keys
        invariant attempts == map k | k in before && (k in todo || now - before[k].at <= Day) :: before[k]
      {
        var key :| key in todo;
        if now - attempts[key].at > Day { attempts := attempts - {key}; }
        todo := todo - {key};
      }
    }

    /** The second loop: every scope keeps its recent instants, and none without. */
    method FilterWindows(now: int)
      modifies this`windows
      ensures windows == Prune(old(View()), now).windows
    {
      ghost var before := windows;
      var todo := windows.Keys;
      while todo != {}
        invariant todo <= before.Keys
        invariant windows == map s | s in before && (s in todo || Recent(before[s], now) != []) ::
                               if s in todo then before[s] else Recent(before[s], now)
      {
        var scope :| scope in todo;
        var recent := FilterTimes(windows[scope], now);
        if |recent| > 0 { windows := windows[scope := recent]; } else { windows := windows - {scope}; }
        todo := todo - {scope};
      }
    }

    method FilterTimes(times: seq<int>, now: int) returns (recent: seq<int>)
      ensures recent == Recent(times, now)
    {
      recent := [];
      var i := 0;
      while i < |times|
        invariant i <= |times| && recent == Recent(times[..i], now)
      {
        assert times[..i + 1][..i] == times[..i];
        if now - times[i] < Window { recent := recent + [times[i]]; }
        i := i + 1;
      }
      assert times[..i] == times;
    }

    /** `run`, up to the send. */
    method Run(q: Input, now: int, serial: nat) returns (outcome: Outcome)
      modifies this
      ensures (View(), outcome) == Decide(Prune(old(View()), now), q, now, serial)
    {
      DropOldAttempts(now);
      FilterWindows(now);
      var key := KeyOf(q);
      if key in attempts {
        return if attempts[key].fingerprint == q.digest then Previous(attempts[key].serial) else InputIdConflict;
      }
      var limits := [(PairScope(Pair(q)), PairLimit), (TargetScope(q.target), TargetLimit)];
      var i := 0;
      while i < 2
        invariant i <= 2 && forall j :: 0 <= j < i ==> |Times(windows, limits[j].0)| < limits[j].1
      {
        var times := Times(windows, limits[i].0);
        if |times| >= limits[i].1 { return RateLimited(RetryAfter(times, now)); }
        i := i + 1;
      }
      assert |Times(windows, limits[0].0)| < PairLimit && |Times(windows, limits[1].0)| < TargetLimit;
      if |attempts| >= MaxAttempts { return Capacity; }
      Append(PairScope(Pair(q)), now);
      Append(TargetScope(q.target), now);
      attempts := attempts[key := Attempt(q.digest, now, serial)];
      outcome := Sent(serial);
    }

    method Append(scope: Scope, now: int)
      modifies this`windows
      ensures windows == old(windows)[scope := Times(old(windows), scope) + [now]]
    {
      windows := windows[scope := Times(windows, scope) + [now]];
    }

    /** The settled result of a send whose receipt shows that nothing was sent. */
    method TakeBack(q: Input, at: int)
      modifies this
      ensures View() == Refund(old(View()), q, at)
    {
      attempts := attempts - {KeyOf(q)};
      Splice(PairScope(Pair(q)), at);
      Splice(TargetScope(q.target), at);
    }

    /** `indexOf` and `splice` on the instants of a scope. */
    method Splice(scope: Scope, at: int)
      modifies this`windows
      ensures windows == Uncharge(old(windows), scope, at)
    {
      if scope in windows {
        var times, i := windows[scope], 0;
        while i < |times| && times[i] != at
          invariant i <= |times| && at !in times[..i]
        {
          i := i + 1;
        }
        FirstAt(times, i, at);
        if i < |times| { windows := windows[scope := times[..i] + times[i + 1..]]; }
      }
    }
  }
}
