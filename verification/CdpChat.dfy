/**
 The page client of src/cdp-chat.ts: opaque references, the one disposable fixture chat, and one-shot gates.

 Between any two awaits other calls may run; the driver answers as it likes.  Random references are fresh, and the
 clock never goes back.
 */
module CdpChat {
  import opened Common

  type Identity = string

  /** What a reference was made from. */
  datatype Made = OfChat(chat: string) | OfMessage(chat: string, message: string) | OfMedia(chat: string, message: string, media: string)

  datatype Binding = Binding(made: Made, identity: Identity, fixture: bool)

  datatype Kind = Chats | Messages | Medias

  /** A key of one of the three reference tables. */
  datatype Name = Name(kind: Kind, key: string)

  datatype Fixture = Fixture(identity: Identity, rawChat: string, chatRef: nat)

  datatype Gate = Gate(fingerprint: string, createdAt: int)

  datatype Grant = Grant(key: string, at: int)

  /** A mutation or download that reached the page. */
  datatype PageCall = PageCall(identity: Identity, made: Made)

  datatype Asked = Asked(ref: nat, made: Made)

  /** `asked`, `grants` and `calls` remember what happened. */
  datatype World = World(
    refs: map<nat, Binding>, names: map<Name, nat>, nextRef: nat, bound: Option<Identity>, fixture: Option<Fixture>,
    inFlight: bool, gates: map<string, Gate>, clock: int, asked: seq<Asked>, grants: seq<Grant>, calls: seq<PageCall>)

  function NameOf(identity: Identity, m: Made): Name {
    match m
    case OfChat(c) => Name(Chats, identity + "|chat|" + c)
    case OfMessage(c, i) => Name(Messages, identity + "|message|" + (c + "|" + i))
    case OfMedia(c, i, d) => Name(Medias, identity + "|media|" + (c + "|" + (i + "|" + d)))
  }

  predicate IsFixture(fixture: Option<Fixture>, chat: string, identity: Identity) {
    fixture.Some? && fixture.value.rawChat == chat && fixture.value.identity == identity
  }

  /** `rememberChat`, `rememberMessage` and `rememberMedia`. */
  function Remember(w: World, identity: Identity, m: Made): (World, nat) {
    var name := NameOf(identity, m);
    if name in w.names then (w.(asked := w.asked + [Asked(w.names[name], m)]), w.names[name])
    else
      (w.(refs := w.refs[w.nextRef := Binding(m, identity, IsFixture(w.fixture, m.chat, identity))],
          names := w.names[name := w.nextRef], nextRef := w.nextRef + 1, asked := w.asked + [Asked(w.nextRef, m)]), w.nextRef)
  }

  function RememberAll(w: World, identity: Identity, ms: seq<Made>): World {
    if ms == [] then w else Remember(RememberAll(w, identity, ms[..|ms| - 1]), identity, ms[|ms| - 1]).0
  }

  function ResolveChat(w: World, ref: nat, identity: Identity): Option<string> {
    if ref in w.refs && w.refs[ref].made.OfChat? && w.refs[ref].identity == identity && w.refs[ref].fixture
       && w.fixture.Some? && w.fixture.value.identity == identity && w.fixture.value.chatRef == ref
    then Some(w.refs[ref].made.chat) else None
  }

  function ResolveMessage(w: World, ref: nat, identity: Identity, chat: string): Option<string> {
    if ref in w.refs && w.refs[ref].made.OfMessage? && w.refs[ref].made.chat == chat && w.refs[ref].fixture && w.refs[ref].identity == identity
    then Some(w.refs[ref].made.message) else None
  }

  function ResolveMedia(w: World, ref: nat, identity: Identity, chat: string, message: string): Option<string> {
    if ref in w.refs && w.refs[ref].made.OfMedia? && w.refs[ref].made.chat == chat && w.refs[ref].made.message == message
       && w.refs[ref].fixture && w.refs[ref].identity == identity
    then Some(w.refs[ref].made.media) else None
  }

  datatype GateResult = Granted | GateExpired | GateConflict | GateUsed

  /** `consumeGate`. */
  function ConsumeGate(gates: map<string, Gate>, ttl: nat, key: string, fingerprint: string, now: int): (map<string, Gate>, GateResult) {
    if key !in gates then (gates[key := Gate(fingerprint, now)], Granted)
    else if now - gates[key].createdAt > ttl then (gates - {key}, GateExpired)
    else if gates[key].fingerprint != fingerprint then (gates, GateConflict)
    else (gates, GateUsed)
  }

  datatype Action =
    | Consume(key: string, fingerprint: string, now: int)
    | Enter(identity: Identity)
    | BeginNew
    | FinishNew(identity: Identity, raw: string, created: bool)
    | Show(identity: Identity, shown: seq<Made>)
    | Send(identity: Identity, chatRef: nat)
    | Edit(identity: Identity, chatRef: nat, messageRef: nat)
    | Download(identity: Identity, chatRef: nat, messageRef: nat, mediaRef: nat)

  /** A page of another owner is refused at the door. */
  function Admit(w: World, identity: Identity): Option<World> {
    if w.bound.Some? && w.bound.value != identity then None else Some(w.(bound := Some(identity)))
  }

  /** The last part of `newChat`, once the page has created the chat. */
  function BindFixture(w: World, identity: Identity, raw: string): World {
    var (after, ref) := Remember(w, identity, OfChat(raw));
    after.(fixture := Some(Fixture(identity, raw, ref)),
           refs := if ref in after.refs then after.refs[ref := after.refs[ref].(fixture := true)] else after.refs)
  }

  function Call(w: World, identity: Identity, m: Made): World {
    w.(calls := w.calls + [PageCall(identity, m)])
  }

  function Step(ttl: nat, w: World, a: Action): World {
    match a
    case Consume(key, fingerprint, now) =>
      if now < w.clock then w
      else
        var (gates, result) := ConsumeGate(w.gates, ttl, key, fingerprint, now);
        w.(gates := gates, clock := now, grants := if result.Granted? then w.grants + [Grant(key, now)] else w.grants)
    case Enter(identity) => (match Admit(w, identity) case Some(w') => w' case None => w)
    case BeginNew => if w.fixture.None? && !w.inFlight then w.(inFlight := true) else w
    case FinishNew(identity, raw, created) =>
      if !w.inFlight then w
      else
        (match Admit(w, identity)
         case Some(w') => if created && raw != "" then BindFixture(w'.(inFlight := false), identity, raw) else w'.(inFlight := false)
         case None => w.(inFlight := false))
    case Show(identity, shown) => (match Admit(w, identity) case Some(w') => RememberAll(w', identity, shown) case None => w)
    case Send(identity, chatRef) =>
      (match Admit(w, identity)
       case Some(w') =>
         (match ResolveChat(w', chatRef, identity)
          case Some(chat) => Call(w', identity, OfChat(chat))
          case None => w')
       case None => w)
    case Edit(identity, chatRef, messageRef) =>
      (match Admit(w, identity)
       case Some(w') =>
         var chat := ResolveChat(w', chatRef, identity);
         var message := if chat.Some? then ResolveMessage(w', messageRef, identity, chat.value) else None;
         if message.Some? then Call(w', identity, OfMessage(chat.value, message.value)) else w'
       case None => w)
    case Download(identity, chatRef, messageRef, mediaRef) =>
      (match Admit(w, identity)
       case Some(w') =>
         var chat := ResolveChat(w', chatRef, identity);
         var message := if chat.Some? then ResolveMessage(w', messageRef, identity, chat.value) else None;
         var media := if message.Some? then ResolveMedia(w', mediaRef, identity, chat.value, message.value) else None;
         if media.Some? then Call(w', identity, OfMedia(chat.value, message.value, media.value)) else w'
       case None => w)
  }

  function AfterAll(ttl: nat, start: int, actions: seq<Action>): World {
    if actions == [] then World(map[], map[], 0, None, None, false, map[], start, [], [], [])
    else Step(ttl, AfterAll(ttl, start, actions[..|actions| - 1]), actions[|actions| - 1])
  }

  // ---------------------------------------------------------------------------------------------
  // Keys without bars
  // ---------------------------------------------------------------------------------------------

  predicate NoBar(s: string) {
    '|' !in s
  }

  predicate Plain(m: Made) {
    match m
    case OfChat(_) => true
    case OfMessage(c, i) => NoBar(c) && NoBar(i)
    case OfMedia(c, i, d) => NoBar(c) && NoBar(i) && NoBar(d)
  }

  lemma SamePrefix(p: string, a: string, b: string)
    requires p + a == p + b
    ensures a == b
  {
    assert a == (p + a)[|p|..];
    assert b == (p + b)[|p|..];
  }

  /** The first bar ends the first part, when that part has none. */
  lemma {:induction false} FirstBar(c: string, i: string, c': string, i': string)
    requires NoBar(c) && c + "|" + i == c' + "|" + i'
    ensures c <= c' && (c == c' ==> i == i') && (c != c' ==> '|' in i)
  {
    var s := c + "|" + i;
    if c == "" {
      assert s[0] == '|' && s[1..] == i;
      if c' == "" { assert s == c' + "|" + i' && (c' + "|" + i')[1..] == i'; }
      else {
        assert s == c' + ("|" + i');
        assert i == c'[1..] + ("|" + i');
        assert i[|c'| - 1] == '|';
      }
    } else {
      assert s[0] == c[0] && c[0] in c;
      assert s[0] == if c' == "" then '|' else c'[0];
      assert s == c' + "|" + i' && c'[0] == c[0];
      assert c[1..] + "|" + i == s[1..] == c'[1..] + "|" + i';
      FirstBar(c[1..], i, c'[1..], i');
      assert c == [c[0]] + c[1..] && c' == [c'[0]] + c'[1..];
    }
  }

  lemma BarsSplit(c: string, i: string, c': string, i': string)
    requires NoBar(c) && NoBar(i) && c + "|" + i == c' + "|" + i'
    ensures c == c' && i == i'
  {
    FirstBar(c, i, c', i');
  }

  /** Two things with the same key are the same, when the ids of one have no bars. */
  lemma PlainNames(identity: Identity, m: Made, n: Made)
    requires NameOf(identity, m) == NameOf(identity, n) && Plain(m)
    ensures m == n
  {
    match m
    case OfChat(c) => SamePrefix(identity + "|chat|", c, n.chat);
    case OfMessage(c, i) =>
      SamePrefix(identity + "|message|", c + "|" + i, n.chat + "|" + n.message);
      BarsSplit(c, i, n.chat, n.message);
    case OfMedia(c, i, d) =>
      var (c', i', d') := (n.chat, n.message, n.media);
      SamePrefix(identity + "|media|", c + "|" + (i + "|" + d), c' + "|" + (i' + "|" + d'));
      MediaSplit(c, i, d, c', i', d');
  }

  lemma MediaSplit(c: string, i: string, d: string, c': string, i': string, d': string)
    requires NoBar(c) && NoBar(i) && NoBar(d) && c + "|" + (i + "|" + d) == c' + "|" + (i' + "|" + d')
    ensures c == c' && i == i' && d == d'
  {
    FirstBar(c, i + "|" + d, c', i' + "|" + d');
    if c == c' {
      BarsSplit(i, d, i', d');
    } else {
      TooManyBars(c, i, d, c', i', d');
    }
  }

  function Bars(s: string): nat {
    if s == "" then 0 else Bars(s[1..]) + if s[0] == '|' then 1 else 0
  }

  lemma {:induction false} BarsJoin(a: string, b: string)
    ensures Bars(a + b) == Bars(a) + Bars(b)
  {
    if a == "" {
      assert a + b == b;
    } else {
      assert (a + b)[1..] == a[1..] + b;
      BarsJoin(a[1..], b);
    }
  }

  lemma {:induction false} NoBarCounts(s: string)
    ensures NoBar(s) <==> Bars(s) == 0
  {
    if s != "" {
      assert s == [s[0]] + s[1..];
      NoBarCounts(s[1..]);
    }
  }

  lemma TooManyBars(c: string, i: string, d: string, c': string, i': string, d': string)
    requires NoBar(c) && NoBar(i) && NoBar(d) && c + "|" + (i + "|" + d) == c' + "|" + (i' + "|" + d')
    ensures c == c'
  {
    BarsOfMedia(c, i, d);
    BarsOfMedia(c', i', d');
    NoBarCounts(c);
    NoBarCounts(i);
    NoBarCounts(d);
    NoBarCounts(c');
    FirstBar(c, i + "|" + d, c', i' + "|" + d');
    FirstBar(c', i' + "|" + d', c, i + "|" + d);
  }

  lemma BarsOfMedia(c: string, i: string, d: string)
    ensures Bars(c + "|" + (i + "|" + d)) == Bars(c) + Bars(i) + Bars(d) + 2
  {
    BarsJoin(c + "|", i + "|" + d);
    BarsJoin(c, "|");
    BarsJoin(i + "|", d);
    BarsJoin(i, "|");
    assert Bars("|") == 1;
  }

  /** Around any bar a string splits into two. */
  lemma SplitAtBar(s: string) returns (a: string, b: string)
    requires !NoBar(s)
    ensures s == a + "|" + b
  {
    var k :| 0 <= k < |s| && s[k] == '|';
    a, b := s[..k], s[k + 1..];
  }

  /** Where an id has a bar, moving the boundary of the parts to it gives another thing with the same key. */
  lemma Twin(identity: Identity, m: Made) returns (n: Made)
    requires !Plain(m)
    ensures n != m && NameOf(identity, n) == NameOf(identity, m)
  {
    match m
    case OfMessage(c, i) =>
      if !NoBar(c) {
        var a, b := SplitAtBar(c);
        n := OfMessage(a, b + "|" + i);
        assert a + "|" + (b + "|" + i) == c + "|" + i;
      } else {
        var a, b := SplitAtBar(i);
        n := OfMessage(c + "|" + a, b);
        assert c + "|" + a + "|" + b == c + "|" + i;
      }
    case OfMedia(_, _, _) => n := MediaTwin(identity, m);
  }

  lemma MediaTwin(identity: Identity, m: Made) returns (n: Made)
    requires !Plain(m) && m.OfMedia?
    ensures n != m && NameOf(identity, n) == NameOf(identity, m)
  {
    var c, i, d := m.chat, m.message, m.media;
    if !NoBar(c) {
      var a, b := SplitAtBar(c);
      n := OfMedia(a, b, i + "|" + d);
      assert a + "|" + (b + "|" + (i + "|" + d)) == c + "|" + (i + "|" + d);
    } else if !NoBar(i) {
      var a, b := SplitAtBar(i);
      n := OfMedia(c, a, b + "|" + d);
      assert a + "|" + (b + "|" + d) == i + "|" + d;
    } else {
      var a, b := SplitAtBar(d);
      n := OfMedia(c, i + "|" + a, b);
      assert i + "|" + a + "|" + b == i + "|" + d;
    }
  }

  /** The exact condition for a key to name one thing: no message or media id, nor the chat id beside it, has a bar. */
  lemma NamesOneThingIff(identity: Identity, m: Made)
    ensures Plain(m) <==> forall n :: NameOf(identity, m) == NameOf(identity, n) ==> m == n
  {
    if Plain(m) {
      forall n | NameOf(identity, m) == NameOf(identity, n) ensures m == n { PlainNames(identity, m, n); }
    } else {
      var n := Twin(identity, m);
    }
  }

  // ---------------------------------------------------------------------------------------------
  // Invariant
  // ---------------------------------------------------------------------------------------------

  /** A binding belongs to the one page; it is marked only if it is of the fixture chat. */
  predicate RefFits(b: Binding, bound: Option<Identity>, fixture: Option<Fixture>) {
    bound == Some(b.identity) && (b.fixture ==> IsFixture(fixture, b.made.chat, b.identity))
  }

  ghost predicate RefsFit(refs: map<nat, Binding>, nextRef: nat, bound: Option<Identity>, fixture: Option<Fixture>) {
    forall ref :: ref in refs ==> ref < nextRef && RefFits(refs[ref], bound, fixture)
  }

  predicate NameFits(name: Name, ref: nat, refs: map<nat, Binding>) {
    ref in refs && NameOf(refs[ref].identity, refs[ref].made) == name
  }

  ghost predicate NamesFit(names: map<Name, nat>, refs: map<nat, Binding>) {
    forall name :: name in names ==> NameFits(name, names[name], refs)
  }

  predicate FixtureFits(fixture: Option<Fixture>, refs: map<nat, Binding>, bound: Option<Identity>) {
    fixture.Some? ==>
      bound == Some(fixture.value.identity) && fixture.value.chatRef in refs && refs[fixture.value.chatRef].made == OfChat(fixture.value.rawChat)
  }

  /** Every call of the page went to the fixture chat, on the one page. */
  predicate Confined(c: PageCall, fixture: Option<Fixture>) {
    IsFixture(fixture, c.made.chat, c.identity)
  }

  ghost predicate AllConfined(calls: seq<PageCall>, fixture: Option<Fixture>) {
    (fixture.None? ==> calls == []) && forall k :: 0 <= k < |calls| ==> Confined(calls[k], fixture)
  }

  /** A reference still stands for something with the key it was asked for. */
  predicate AskedFits(a: Asked, refs: map<nat, Binding>) {
    a.ref in refs && NameOf(refs[a.ref].identity, refs[a.ref].made) == NameOf(refs[a.ref].identity, a.made)
  }

  ghost predicate AllAskedFit(asked: seq<Asked>, refs: map<nat, Binding>) {
    forall k :: 0 <= k < |asked| ==> AskedFits(asked[k], refs)
  }

  ghost predicate Inv(w: World) {
    && RefsFit(w.refs, w.nextRef, w.bound, w.fixture) && NamesFit(w.names, w.refs) && FixtureFits(w.fixture, w.refs, w.bound)
    && AllConfined(w.calls, w.fixture) && AllAskedFit(w.asked, w.refs) && (w.inFlight ==> w.fixture.None?)
  }

  lemma RememberKeepsInv(w: World, identity: Identity, m: Made)
    requires Inv(w) && w.bound == Some(identity)
    ensures var (w', ref) := Remember(w, identity, m);
            && Inv(w') && ref in w'.refs && w'.fixture == w.fixture && w'.bound == w.bound && w'.inFlight == w.inFlight
            && NameOf(identity, w'.refs[ref].made) == NameOf(identity, m) && w'.calls == w.calls
  {
    var (w', ref) := Remember(w, identity, m);
    var name := NameOf(identity, m);
    if name in w.names {
      assert NameFits(name, w.names[name], w.refs);
      assert RefFits(w.refs[ref], w.bound, w.fixture);
    }
    forall n | n in w'.names ensures NameFits(n, w'.names[n], w'.refs) {
      if n in w.names { assert NameFits(n, w.names[n], w.refs); }
    }
    forall k | 0 <= k < |w'.asked| ensures AskedFits(w'.asked[k], w'.refs) {
      if k < |w.asked| { assert AskedFits(w.asked[k], w.refs); }
    }
  }

  lemma {:induction false} RememberAllKeepsInv(w: World, identity: Identity, ms: seq<Made>)
    requires Inv(w) && w.bound == Some(identity)
    ensures Inv(RememberAll(w, identity, ms)) && RememberAll(w, identity, ms).bound == w.bound
    ensures RememberAll(w, identity, ms).fixture == w.fixture
  {
    if ms != [] {
      RememberAllKeepsInv(w, identity, ms[..|ms| - 1]);
      RememberKeepsInv(RememberAll(w, identity, ms[..|ms| - 1]), identity, ms[|ms| - 1]);
    }
  }

  lemma AdmitKeepsInv(w: World, identity: Identity)
    requires Inv(w) && Admit(w, identity).Some?
    ensures Inv(Admit(w, identity).value)
  {
    forall ref | ref in w.refs ensures RefFits(w.refs[ref], Some(identity), w.fixture) {
      assert RefFits(w.refs[ref], w.bound, w.fixture);
    }
  }

  /** Before there is a fixture, nothing is marked and nothing was called. */
  lemma BindKeepsInv(w: World, identity: Identity, raw: string)
    requires Inv(w) && w.bound == Some(identity) && w.fixture.None? && !w.inFlight
    ensures Inv(BindFixture(w, identity, raw))
  {
    RememberKeepsInv(w, identity, OfChat(raw));
    var (after, ref) := Remember(w, identity, OfChat(raw));
    PlainNames(identity, OfChat(raw), after.refs[ref].made);
    var w' := BindFixture(w, identity, raw);
    forall r | r in w'.refs ensures r < w'.nextRef && RefFits(w'.refs[r], w'.bound, w'.fixture) {
      assert RefFits(after.refs[r], after.bound, after.fixture);
    }
    forall n | n in w'.names ensures NameFits(n, w'.names[n], w'.refs) { assert NameFits(n, after.names[n], after.refs); }
    forall k | 0 <= k < |w'.asked| ensures AskedFits(w'.asked[k], w'.refs) { assert AskedFits(after.asked[k], after.refs); }
    assert w'.calls == [];
  }

  lemma ResolvedIsFixture(w: World, ref: nat, identity: Identity)
    requires Inv(w) && ResolveChat(w, ref, identity).Some?
    ensures IsFixture(w.fixture, ResolveChat(w, ref, identity).value, identity)
  {
    assert RefFits(w.refs[ref], w.bound, w.fixture);
  }

  lemma CallKeepsInv(w: World, identity: Identity, chatRef: nat, m: Made)
    requires Inv(w) && ResolveChat(w, chatRef, identity) == Some(m.chat)
    ensures Inv(Call(w, identity, m))
  {
    ResolvedIsFixture(w, chatRef, identity);
    var w' := Call(w, identity, m);
    forall k | 0 <= k < |w'.calls| ensures Confined(w'.calls[k], w'.fixture) {
      if k < |w.calls| { assert Confined(w.calls[k], w.fixture); }
    }
  }

  lemma FinishNewKeepsInv(ttl: nat, w: World, identity: Identity, raw: string, created: bool)
    requires Inv(w)
    ensures Inv(Step(ttl, w, FinishNew(identity, raw, created)))
  {
    if w.inFlight && Admit(w, identity).Some? {
      AdmitKeepsInv(w, identity);
      BindKeepsInv(Admit(w, identity).value.(inFlight := false), identity, raw);
    }
  }

  lemma StepKeepsInv(ttl: nat, w: World, a: Action)
    requires Inv(w)
    ensures Inv(Step(ttl, w, a))
  {
    match a
    case Consume(_, _, _) =>
    case Enter(identity) => if Admit(w, identity).Some? { AdmitKeepsInv(w, identity); }
    case BeginNew =>
    case FinishNew(identity, raw, created) => FinishNewKeepsInv(ttl, w, identity, raw, created);
    case Show(identity, shown) =>
      if Admit(w, identity).Some? {
        AdmitKeepsInv(w, identity);
        RememberAllKeepsInv(Admit(w, identity).value, identity, shown);
      }
    case Send(identity, chatRef) =>
      if Admit(w, identity).Some? {
        AdmitKeepsInv(w, identity);
        var w' := Admit(w, identity).value;
        if ResolveChat(w', chatRef, identity).Some? { CallKeepsInv(w', identity, chatRef, OfChat(ResolveChat(w', chatRef, identity).value)); }
      }
    case Edit(_, _, _) => EditKeepsInv(ttl, w, a);
    case Download(_, _, _, _) => DownloadKeepsInv(ttl, w, a);
  }

  lemma EditKeepsInv(ttl: nat, w: World, a: Action)
    requires Inv(w) && a.Edit?
    ensures Inv(Step(ttl, w, a))
  {
    if Admit(w, a.identity).Some? {
      AdmitKeepsInv(w, a.identity);
      var w' := Admit(w, a.identity).value;
      var chat := ResolveChat(w', a.chatRef, a.identity);
      if chat.Some? && ResolveMessage(w', a.messageRef, a.identity, chat.value).Some? {
        CallKeepsInv(w', a.identity, a.chatRef, OfMessage(chat.value, ResolveMessage(w', a.messageRef, a.identity, chat.value).value));
      }
    }
  }

  lemma DownloadKeepsInv(ttl: nat, w: World, a: Action)
    requires Inv(w) && a.Download?
    ensures Inv(Step(ttl, w, a))
  {
    if Admit(w, a.identity).Some? {
      AdmitKeepsInv(w, a.identity);
      var w' := Admit(w, a.identity).value;
      var chat := ResolveChat(w', a.chatRef, a.identity);
      var message := if chat.Some? then ResolveMessage(w', a.messageRef, a.identity, chat.value) else None;
      if message.Some? && ResolveMedia(w', a.mediaRef, a.identity, chat.value, message.value).Some? {
        CallKeepsInv(w', a.identity, a.chatRef, OfMedia(chat.value, message.value, ResolveMedia(w', a.mediaRef, a.identity, chat.value, message.value).value));
      }
    }
  }

  lemma {:induction false} RunKeepsInv(ttl: nat, start: int, actions: seq<Action>)
    ensures Inv(AfterAll(ttl, start, actions))
  {
    if actions != [] {
      RunKeepsInv(ttl, start, actions[..|actions| - 1]);
      StepKeepsInv(ttl, AfterAll(ttl, start, actions[..|actions| - 1]), actions[|actions| - 1]);
    }
  }

  /** In every run, each message, edit and download that reaches the page carries the raw id of the one chat that
      was created as the fixture, on the page identity the client was bound to. */
  lemma CallsStayOnFixture(ttl: nat, start: int, actions: seq<Action>, k: nat)
    requires k < |AfterAll(ttl, start, actions).calls|
    ensures var w := AfterAll(ttl, start, actions); var c := w.calls[k];
            w.fixture.Some? && c.made.chat == w.fixture.value.rawChat && Some(c.identity) == w.bound
  {
    RunKeepsInv(ttl, start, actions);
    assert Confined(AfterAll(ttl, start, actions).calls[k], AfterAll(ttl, start, actions).fixture);
  }

  lemma {:induction false} RememberAllOnlyAdds(w: World, identity: Identity, ms: seq<Made>)
    ensures RememberAll(w, identity, ms).fixture == w.fixture && RememberAll(w, identity, ms).bound == w.bound
    ensures RememberAll(w, identity, ms).calls == w.calls
  {
    if ms != [] { RememberAllOnlyAdds(w, identity, ms[..|ms| - 1]); }
  }

  /** The fixture and the page identity are bound once. */
  lemma StepKeepsBinding(ttl: nat, w: World, a: Action)
    requires Inv(w)
    ensures w.fixture.Some? ==> Step(ttl, w, a).fixture == w.fixture
    ensures w.bound.Some? ==> Step(ttl, w, a).bound == w.bound
    ensures w.calls <= Step(ttl, w, a).calls
  {
    if a.Show? && Admit(w, a.identity).Some? { RememberAllOnlyAdds(Admit(w, a.identity).value, a.identity, a.shown); }
  }

  lemma {:induction false} BoundOnce(ttl: nat, start: int, actions: seq<Action>, i: nat)
    requires i <= |actions|
    ensures var w, w' := AfterAll(ttl, start, actions[..i]), AfterAll(ttl, start, actions);
            (w.fixture.Some? ==> w'.fixture == w.fixture) && (w.bound.Some? ==> w'.bound == w.bound) && w.calls <= w'.calls
  {
    if i == |actions| {
      assert actions[..i] == actions;
    } else {
      var init := actions[..|actions| - 1];
      assert init[..i] == actions[..i];
      BoundOnce(ttl, start, init, i);
      RunKeepsInv(ttl, start, init);
      StepKeepsBinding(ttl, AfterAll(ttl, start, init), actions[|actions| - 1]);
    }
  }

  /** A reference made from ids without bars resolves to exactly those ids, if it resolves at all. */
  lemma ReferencesAreFaithful(ttl: nat, start: int, actions: seq<Action>, k: nat, identity: Identity, chat: string, message: string)
    requires k < |AfterAll(ttl, start, actions).asked| && Plain(AfterAll(ttl, start, actions).asked[k].made)
    ensures var w := AfterAll(ttl, start, actions); var a := w.asked[k];
            && a.ref in w.refs && w.refs[a.ref].made == a.made
            && (ResolveChat(w, a.ref, identity).Some? ==> a.made == OfChat(ResolveChat(w, a.ref, identity).value))
            && (ResolveMessage(w, a.ref, identity, chat).Some? ==> a.made == OfMessage(chat, ResolveMessage(w, a.ref, identity, chat).value))
            && (ResolveMedia(w, a.ref, identity, chat, message).Some? ==>
                  a.made == OfMedia(chat, message, ResolveMedia(w, a.ref, identity, chat, message).value))
  {
    RunKeepsInv(ttl, start, actions);
    var w := AfterAll(ttl, start, actions);
    assert AskedFits(w.asked[k], w.refs);
    PlainNames(w.refs[w.asked[k].ref].identity, w.asked[k].made, w.refs[w.asked[k].ref].made);
  }

  /** In this run whatever was asked for `m` stands for `m`. */
  ghost predicate FaithfulTo(w: World, m: Made) {
    forall k :: 0 <= k < |w.asked| && w.asked[k].made == m ==> w.asked[k].ref in w.refs && w.refs[w.asked[k].ref].made == m
  }

  lemma AfterSnoc(ttl: nat, start: int, actions: seq<Action>, a: Action)
    ensures AfterAll(ttl, start, actions + [a]) == Step(ttl, AfterAll(ttl, start, actions), a)
  {
    assert (actions + [a])[..|actions|] == actions;
  }

  lemma RememberTwo(w: World, identity: Identity, m: Made, n: Made)
    ensures RememberAll(w, identity, [m]) == Remember(w, identity, m).0
    ensures RememberAll(w, identity, [m, n]) == Remember(Remember(w, identity, m).0, identity, n).0
  {
    assert [m][..0] == [] && [m, n][..1] == [m];
  }

  /** A page that shows the twin first, and then `m`. */
  lemma TwinMisleads(ttl: nat, start: int, identity: Identity, n: Made, m: Made)
    requires n != m && NameOf(identity, n) == NameOf(identity, m)
    ensures !FaithfulTo(AfterAll(ttl, start, [Show(identity, [n, m])]), m)
  {
    AfterSnoc(ttl, start, [], Show(identity, [n, m]));
    assert [] + [Show(identity, [n, m])] == [Show(identity, [n, m])];
    var w := Admit(AfterAll(ttl, start, []), identity).value;
    RememberTwo(w, identity, n, m);
    var w' := RememberAll(w, identity, [n, m]);
    assert w'.asked == [Asked(0, n), Asked(0, m)];
    assert w'.asked[1].made == m && w'.refs[0].made == n;
  }

  /** The exact condition for references: what is asked for a thing stands for it in every run, exactly when the
      ids it was made from have no bars. */
  lemma ReferencesAreFaithfulIff(ttl: nat, start: int, identity: Identity, m: Made)
    ensures Plain(m) <==> forall actions :: FaithfulTo(AfterAll(ttl, start, actions), m)
  {
    if Plain(m) {
      forall actions ensures FaithfulTo(AfterAll(ttl, start, actions), m) {
        forall k | 0 <= k < |AfterAll(ttl, start, actions).asked| && AfterAll(ttl, start, actions).asked[k].made == m
          ensures AfterAll(ttl, start, actions).asked[k].ref in AfterAll(ttl, start, actions).refs
               && AfterAll(ttl, start, actions).refs[AfterAll(ttl, start, actions).asked[k].ref].made == m
        {
          ReferencesAreFaithful(ttl, start, actions, k, identity, "", "");
        }
      }
    } else {
      var n := Twin(identity, m);
      TwinMisleads(ttl, start, identity, n, m);
    }
  }

  function ShownMedia(): seq<Made> {
    [OfMessage("a", "b"), OfMedia("a", "b", "c|d"), OfMedia("a", "b|c", "d")]
  }

  lemma ShownMediaKeys(identity: Identity)
    ensures NameOf(identity, ShownMedia()[1]) == NameOf(identity, ShownMedia()[2])
  {
    assert "b" + "|" + "c|d" == "b|c" + "|" + "d";
  }

  lemma MediaShown(w: World, identity: Identity)
    requires w.nextRef == 1 && w.names.Keys == {Name(Chats, identity + "|chat|" + "a")} && IsFixture(w.fixture, "a", identity)
    ensures var w' := RememberAll(w, identity, ShownMedia());
      && w'.asked == w.asked + [Asked(1, ShownMedia()[0]), Asked(2, ShownMedia()[1]), Asked(2, ShownMedia()[2])]
      && w'.refs == w.refs[1 := Binding(ShownMedia()[0], identity, true)][2 := Binding(ShownMedia()[1], identity, true)]
      && w'.fixture == w.fixture && w'.bound == w.bound && w'.calls == w.calls
  {
    var ms := ShownMedia();
    ShownMediaKeys(identity);
    RememberTwo(w, identity, ms[0], ms[1]);
    assert ms[..2] == [ms[0], ms[1]] && ms[..|ms| - 1] == ms[..2];
    var w2 := RememberAll(w, identity, ms[..2]);
    assert w2.asked == w.asked + [Asked(1, ms[0]), Asked(2, ms[1])];
    assert RememberAll(w, identity, ms) == Remember(w2, identity, ms[2]).0;
  }

  lemma FixtureBound(ttl: nat, start: int, identity: Identity)
    ensures var w := AfterAll(ttl, start, [BeginNew, FinishNew(identity, "a", true)]);
      && w.refs == map[0 := Binding(OfChat("a"), identity, true)] && w.nextRef == 1 && w.asked == [Asked(0, OfChat("a"))]
      && w.names.Keys == {Name(Chats, identity + "|chat|" + "a")} && w.bound == Some(identity)
      && w.fixture == Some(Fixture(identity, "a", 0)) && w.calls == []
  {
    var a0, a1 := BeginNew, FinishNew(identity, "a", true);
    AfterSnoc(ttl, start, [], a0);
    AfterSnoc(ttl, start, [a0], a1);
    assert [] + [a0] == [a0] && [a0] + [a1] == [a0, a1];
  }

  lemma DownloadResolves(ttl: nat, w: World, identity: Identity)
    requires w.bound == Some(identity) && w.fixture == Some(Fixture(identity, "a", 0)) && w.calls == []
    requires 0 in w.refs && 1 in w.refs && 2 in w.refs
    requires w.refs[0] == Binding(OfChat("a"), identity, true) && w.refs[1] == Binding(ShownMedia()[0], identity, true)
    requires w.refs[2] == Binding(ShownMedia()[1], identity, true)
    ensures Step(ttl, w, Download(identity, 0, 1, 2)) == Call(w, identity, OfMedia("a", "b", "c|d"))
  {
  }

  /** A download that was asked for one media and gets another: its reference is that of its twin. */
  lemma DownloadCanMislead(ttl: nat, start: int, identity: Identity)
    ensures var w := AfterAll(ttl, start, [BeginNew, FinishNew(identity, "a", true)] + [Show(identity, ShownMedia())] + [Download(identity, 0, 1, 2)]);
      && |w.asked| == 4 && w.asked[3] == Asked(2, OfMedia("a", "b|c", "d"))
      && w.calls == [PageCall(identity, OfMedia("a", "b", "c|d"))]
  {
    var bound := [BeginNew, FinishNew(identity, "a", true)];
    FixtureBound(ttl, start, identity);
    AfterSnoc(ttl, start, bound, Show(identity, ShownMedia()));
    AfterSnoc(ttl, start, bound + [Show(identity, ShownMedia())], Download(identity, 0, 1, 2));
    var w := AfterAll(ttl, start, bound);
    MediaShown(w, identity);
    var shown := RememberAll(w, identity, ShownMedia());
    assert Step(ttl, w, Show(identity, ShownMedia())) == shown;
    DownloadResolves(ttl, shown, identity);
  }

  // ---------------------------------------------------------------------------------------------
  // Gates
  // ---------------------------------------------------------------------------------------------

  /** A grant is still in its gate, or older than the bound. */
  predicate GrantFits(g: Grant, gates: map<string, Gate>, ttl: nat, clock: int) {
    g.at <= clock && (clock - g.at > ttl || (g.key in gates && gates[g.key].createdAt == g.at))
  }

  predicate GrantsApart(grants: seq<Grant>, ttl: nat, i: nat, j: nat)
    requires i < j < |grants|
  {
    grants[i].key == grants[j].key ==> grants[j].at - grants[i].at > ttl
  }

  ghost predicate GatesFit(w: World, ttl: nat) {
    && (forall k :: 0 <= k < |w.grants| ==> GrantFits(w.grants[k], w.gates, ttl, w.clock))
    && (forall i: nat, j: nat :: i < j < |w.grants| ==> GrantsApart(w.grants, ttl, i, j))
  }

  lemma ConsumeKeepsGates(ttl: nat, w: World, a: Action)
    requires GatesFit(w, ttl) && a.Consume?
    ensures GatesFit(Step(ttl, w, a), ttl)
  {
    var w' := Step(ttl, w, a);
    forall k | 0 <= k < |w'.grants| ensures GrantFits(w'.grants[k], w'.gates, ttl, w'.clock) {
      if k < |w.grants| { assert GrantFits(w.grants[k], w.gates, ttl, w.clock); }
    }
    forall i: nat, j: nat | i < j < |w'.grants| ensures GrantsApart(w'.grants, ttl, i, j) {
      if j < |w.grants| { assert GrantsApart(w.grants, ttl, i, j); } else { assert GrantFits(w.grants[i], w.gates, ttl, w.clock); }
    }
  }

  lemma {:induction false} RememberAllKeepsGates(w: World, identity: Identity, ms: seq<Made>)
    ensures RememberAll(w, identity, ms).gates == w.gates && RememberAll(w, identity, ms).grants == w.grants
    ensures RememberAll(w, identity, ms).clock == w.clock
  {
    if ms != [] { RememberAllKeepsGates(w, identity, ms[..|ms| - 1]); }
  }

  lemma OthersKeepGates(ttl: nat, w: World, a: Action)
    requires !a.Consume?
    ensures var w' := Step(ttl, w, a); w'.gates == w.gates && w'.grants == w.grants && w'.clock == w.clock
  {
    if a.Show? && Admit(w, a.identity).Some? { RememberAllKeepsGates(Admit(w, a.identity).value, a.identity, a.shown); }
  }

  lemma {:induction false} RunKeepsGates(ttl: nat, start: int, actions: seq<Action>)
    ensures GatesFit(AfterAll(ttl, start, actions), ttl)
  {
    if actions != [] {
      var w, a := AfterAll(ttl, start, actions[..|actions| - 1]), actions[|actions| - 1];
      RunKeepsGates(ttl, start, actions[..|actions| - 1]);
      if a.Consume? {
        ConsumeKeepsGates(ttl, w, a);
      } else {
        OthersKeepGates(ttl, w, a);
        SameGates(w, AfterAll(ttl, start, actions), ttl);
      }
    }
  }

  lemma SameGates(w: World, w': World, ttl: nat)
    requires GatesFit(w, ttl) && w'.gates == w.gates && w'.grants == w.grants && w'.clock == w.clock
    ensures GatesFit(w', ttl)
  {
    forall i: nat, j: nat | i < j < |w'.grants| ensures GrantsApart(w'.grants, ttl, i, j) { assert GrantsApart(w.grants, ttl, i, j); }
  }

  /** Two successful uses of one gate key are more than its time to live apart. */
  lemma GateUsesAreApart(ttl: nat, start: int, actions: seq<Action>, i: nat, j: nat)
    requires i < j < |AfterAll(ttl, start, actions).grants|
    requires AfterAll(ttl, start, actions).grants[i].key == AfterAll(ttl, start, actions).grants[j].key
    ensures AfterAll(ttl, start, actions).grants[j].at - AfterAll(ttl, start, actions).grants[i].at > ttl
  {
    RunKeepsGates(ttl, start, actions);
    assert GrantsApart(AfterAll(ttl, start, actions).grants, ttl, i, j);
  }

  // ---------------------------------------------------------------------------------------------
  // The client, in place
  // ---------------------------------------------------------------------------------------------

  class CdpChatClient {
    const ttl: nat
    var refs: map<nat, Binding>
    var names: map<Name, nat>
    var nextRef: nat
    var boundIdentity: Option<Identity>
    var fixture: Option<Fixture>
    var newChatInFlight: bool
    var gates: map<string, Gate>
    ghost var clock: int
    ghost var asked: seq<Asked>
    ghost var grants: seq<Grant>
    ghost var calls: seq<PageCall>

    ghost function View(): World
      reads this
    {
      World(refs, names, nextRef, boundIdentity, fixture, newChatInFlight, gates, clock, asked, grants, calls)
    }

    constructor (ttl: nat, start: int)
      ensures View() == AfterAll(ttl, start, []) && this.ttl == ttl
    {
      this.ttl := ttl;
      refs, names, nextRef, boundIdentity, fixture, newChatInFlight, gates := map[], map[], 0, None, None, false, map[];
      clock, asked, grants, calls := start, [], [], [];
    }

    /** `consumeGate`, at a time not before the last one. */
    method Consume(key: string, fingerprint: string, now: int) returns (result: GateResult)
      requires clock <= now
      modifies this
      ensures View() == Step(ttl, old(View()), Action.Consume(key, fingerprint, now))
      ensures result == ConsumeGate(old(gates), ttl, key, fingerprint, now).1
    {
      clock := now;
      if key in gates {
        var existing := gates[key];
        if now - existing.createdAt > ttl {
          gates := gates - {key};
          return GateExpired;
        }
        return if existing.fingerprint != fingerprint then GateConflict else GateUsed;
      }
      gates := gates[key := Gate(fingerprint, now)];
      grants := grants + [Grant(key, now)];
      result := Granted;
    }

    /** The start of `withPage`. */
    method EnterPage(identity: Identity) returns (ok: bool)
      modifies this`boundIdentity
      ensures ok <==> Admit(old(View()), identity).Some?
      ensures View() == if ok then Admit(old(View()), identity).value else old(View())
    {
      if boundIdentity.Some? && boundIdentity.value != identity { return false; }
      if boundIdentity.None? { boundIdentity := Some(identity); }
      ok := true;
    }

    /** `rememberChat`, `rememberMessage` and `rememberMedia`. */
    method RememberRaw(identity: Identity, m: Made) returns (ref: nat)
      modifies this
      ensures (View(), ref) == Remember(old(View()), identity, m)
    {
      var name := NameOf(identity, m);
      if name in names {
        ref := names[name];
      } else {
        ref := nextRef;
        names := names[name := ref];
        refs := refs[ref := Binding(m, identity, IsFixture(fixture, m.chat, identity))];
        nextRef := nextRef + 1;
      }
      asked := asked + [Asked(ref, m)];
    }

    /** The references handed out for what a page shows. */
    method ShowAll(identity: Identity, shown: seq<Made>) returns (given: seq<nat>)
      modifies this
      ensures View() == RememberAll(old(View()), identity, shown) && |given| == |shown|
      ensures forall k :: 0 <= k < |shown| ==> NameOf(identity, shown[k]) in names && given[k] == names[NameOf(identity, shown[k])]
    {
      given := [];
      ghost var w := View();
      var i := 0;
      while i < |shown|
        invariant i <= |shown| && |given| == i && View() == RememberAll(w, identity, shown[..i])
        invariant forall k :: 0 <= k < i ==> NameOf(identity, shown[k]) in names && given[k] == names[NameOf(identity, shown[k])]
      {
        assert shown[..i + 1][..i] == shown[..i];
        var ref := RememberRaw(identity, shown[i]);
        given := given + [ref];
        i := i + 1;
      }
      assert shown[..i] == shown;
    }

    /** The last part of `newChat`, once the page has created the chat and shows it. */
    method FinishNewChat(identity: Identity, raw: string, created: bool) returns (chatRef: Option<nat>)
      requires newChatInFlight
      modifies this
      ensures View() == Step(ttl, old(View()), FinishNew(identity, raw, created))
      ensures chatRef.Some? <==> created && raw != "" && Admit(old(View()), identity).Some?
      ensures chatRef.Some? ==>
                fixture == Some(Fixture(identity, raw, chatRef.value)) && NameOf(identity, OfChat(raw)) in names
                && names[NameOf(identity, OfChat(raw))] == chatRef.value
    {
      newChatInFlight := false;
      chatRef := None;
      var ok := EnterPage(identity);
      if !ok || !created || raw == "" { return; }
      var ref := RememberRaw(identity, OfChat(raw));
      fixture := Some(Fixture(identity, raw, ref));
      if ref in refs { refs := refs[ref := refs[ref].(fixture := true)]; }
      chatRef := Some(ref);
    }

    /** `sendMessage`, behind its gate: the chat it goes to, if the reference is good. */
    method SendMessage(identity: Identity, chatRef: nat) returns (sent: Option<string>)
      modifies this
      ensures View() == Step(ttl, old(View()), Send(identity, chatRef))
      ensures calls == if sent.Some? then old(calls) + [PageCall(identity, OfChat(sent.value))] else old(calls)
    {
      sent := None;
      var ok := EnterPage(identity);
      if !ok || chatRef !in refs || fixture.None? { return; }
      var b := refs[chatRef];
      if !b.made.OfChat? || b.identity != identity { return; }
      if !b.fixture || fixture.value.identity != identity || fixture.value.chatRef != chatRef { return; }
      calls := calls + [PageCall(identity, OfChat(b.made.chat))];
      sent := Some(b.made.chat);
    }
  }
}
