/** The durable inbox of src/deferred-messages.ts. */
module DeferredMessages {
  // The inbox holds regular parked messages, and exact-turn records that are offered to one turn at most once.
  // The store runs its sections one after another; between any two of them, and after any write, the process
  // may stop.  SHA-256 is injective, so a digest is the text it was made of; ids are fresh.

  import opened Common

  const ActiveTtl: nat := 300_000
  const Day: nat := 86_400_000
  const MaxActive: nat := 512
  const MaxPending: nat := 64
  const MaxBytes: nat := 32_768

  type Id = nat

  datatype TurnState = Pending | Offered | HookReturned | Expired

  datatype Turn = Turn(
    harness: string, identity: string, inputId: string, digest: string, expiresAt: int, state: TurnState, deferredIds: seq<Id>)

  datatype Message = Message(id: Id, session: string, text: string, createdAt: int, active: Option<Turn>)

  // ---------------------------------------------------------------------------------------------
  // One message at a time
  // ---------------------------------------------------------------------------------------------

  /** What a section does to each message: keeps it, changes it, or takes it out. */
  type Change = Message -> Option<Message>

  function Update(ms: seq<Message>, f: Change): seq<Message> {
    if ms == [] then []
    else
      var rest := Update(ms[..|ms| - 1], f);
      match f(ms[|ms| - 1])
      case Some(m) => rest + [m]
      case None => rest
  }

  predicate IsPending(m: Message) {
    m.active.Some? && m.active.value.state == Pending
  }

  function WithState(m: Message, s: TurnState): Message
    requires m.active.Some?
  {
    m.(active := Some(m.active.value.(state := s)))
  }

  /** Expired records also lose their text. */
  function Expire(m: Message): Message
    requires m.active.Some?
  {
    WithState(m, TurnState.Expired).(text := "")
  }

  predicate Old(m: Message, now: int) {
    m.active.Some? && m.createdAt <= now - Day
  }

  predicate Due(m: Message, now: int) {
    IsPending(m) && m.active.value.expiresAt <= now
  }

  /** `expireActive`. */
  function Expiring(now: int): Change {
    (m: Message) => if Old(m, now) then None else if Due(m, now) then Some(Expire(m)) else Some(m)
  }

  predicate Addressed(m: Message, harness: string, session: string) {
    m.session == session && m.active.Some? && m.active.value.harness == harness
  }

  /** Records of another turn expire, those of this one are offered. */
  function MarkOffered(harness: string, session: string, identity: string): Change {
    (m: Message) =>
      if !Addressed(m, harness, session) || !IsPending(m) then Some(m)
      else if m.active.value.identity != identity then Some(Expire(m))
      else Some(WithState(m, Offered))
  }

  function DropRegular(session: string, ids: set<Id>): Change {
    (m: Message) => if m.active.None? && m.session == session && m.id in ids then None else Some(m)
  }

  function Discard(harness: string, session: string): Change {
    (m: Message) => if Addressed(m, harness, session) && IsPending(m) then Some(Expire(m)) else Some(m)
  }

  function Acknowledge(session: string, ids: set<Id>): Change {
    (m: Message) => if m.session == session && m.id in ids && m.active.Some? && m.active.value.state == Offered then Some(WithState(m, HookReturned)) else Some(m)
  }

  function TakeRegular(session: string): Change {
    (m: Message) => if m.active.None? && m.session == session then None else Some(m)
  }

  function RemoveRegular(ids: set<Id>): Change {
    (m: Message) => if m.active.None? && m.id in ids then None else Some(m)
  }

  // ---------------------------------------------------------------------------------------------
  // The sections
  // ---------------------------------------------------------------------------------------------

  predicate Awaiting(m: Message, harness: string, session: string, identity: string) {
    Addressed(m, harness, session) && IsPending(m) && m.active.value.identity == identity
  }

  /** The records an offer returns. */
  function Offer(ms: seq<Message>, harness: string, session: string, identity: string): seq<Message> {
    if ms == [] then []
    else
      var rest := Offer(ms[..|ms| - 1], harness, session, identity);
      if Awaiting(ms[|ms| - 1], harness, session, identity) then rest + [WithState(ms[|ms| - 1], Offered)] else rest
  }

  function DeferredIds(offered: seq<Message>): set<Id> {
    if offered == [] then {}
    else
      var last := offered[|offered| - 1];
      DeferredIds(offered[..|offered| - 1]) + if last.active.Some? then (set id | id in last.active.value.deferredIds) else {}
  }

  predicate SameText(m: Message, session: string, text: string) {
    m.active.None? && m.session == session && m.text == text
  }

  predicate HasText(ms: seq<Message>, session: string, text: string) {
    ms != [] && (SameText(ms[|ms| - 1], session, text) || HasText(ms[..|ms| - 1], session, text))
  }

  predicate SameKey(m: Message, harness: string, session: string, inputId: string) {
    Addressed(m, harness, session) && m.active.value.inputId == inputId
  }

  predicate HasKey(ms: seq<Message>, harness: string, session: string, inputId: string) {
    ms != [] && (SameKey(ms[|ms| - 1], harness, session, inputId) || HasKey(ms[..|ms| - 1], harness, session, inputId))
  }

  function CountActive(ms: seq<Message>): nat {
    if ms == [] then 0 else CountActive(ms[..|ms| - 1]) + if ms[|ms| - 1].active.Some? then 1 else 0
  }

  function CountPending(ms: seq<Message>, session: string): nat {
    if ms == [] then 0
    else CountPending(ms[..|ms| - 1], session) + if IsPending(ms[|ms| - 1]) && ms[|ms| - 1].session == session then 1 else 0
  }

  // ---------------------------------------------------------------------------------------------
  // Runs
  // ---------------------------------------------------------------------------------------------

  datatype Offering = Offering(message: Message, harness: string, session: string, identity: string)

  /** `born` remembers every message as it was created, `offers` what offers returned, `removed` the regular
      messages that left the store. */
  datatype World = World(messages: seq<Message>, nextId: Id, born: map<Id, Message>, offers: seq<Offering>, removed: seq<Id>)

  /** A write fails, or succeeds and the process stops before the call returns, or the call returns. */
  datatype Write = Fails | Lost | Done

  datatype Action =
    | Add(session: string, text: string, now: int, write: Write)
    | Take(session: string, write: Write)
    | Remove(ids: set<Id>, write: Write)
    | AddActive(harness: string, session: string, identity: string, inputId: string, text: string, bytes: nat,
                deferredIds: seq<Id>, now: int, write: Write)
    | OfferActive(harness: string, session: string, identity: string, now: int, allowed: bool, later: int, write: Write)
    | DiscardActive(harness: string, session: string, now: int, write: Write)
    | AcknowledgeActive(session: string, ids: set<Id>, write: Write)

  function RemovedBy(ms: seq<Message>, f: Change): seq<Id> {
    if ms == [] then []
    else
      var rest := RemovedBy(ms[..|ms| - 1], f);
      var last := ms[|ms| - 1];
      if last.active.None? && f(last).None? then rest + [last.id] else rest
  }

  function Apply(w: World, f: Change): World {
    w.(messages := Update(w.messages, f), removed := w.removed + RemovedBy(w.messages, f))
  }

  function Push(w: World, m: Message): World {
    w.(messages := w.messages + [m], nextId := w.nextId + 1, born := w.born[m.id := m])
  }

  /** `addActive` refuses what is unidentified, too long, or over the bounds. */
  predicate Refused(ms: seq<Message>, session: string, identity: string, inputId: string, bytes: nat) {
    identity == "" || inputId == "" || bytes > MaxBytes || CountActive(ms) >= MaxActive || CountPending(ms, session) >= MaxPending
  }

  datatype AddOutcome = Added | Prior | Conflict | OverBudget

  /** The digest under a key, if there is a record. */
  function DigestOf(ms: seq<Message>, harness: string, session: string, inputId: string): Option<string> {
    if ms == [] then None
    else
      var before := DigestOf(ms[..|ms| - 1], harness, session, inputId);
      if before.Some? then before
      else if SameKey(ms[|ms| - 1], harness, session, inputId) then Some(ms[|ms| - 1].active.value.digest)
      else None
  }

  function NewActive(id: Id, a: Action): Message
    requires a.AddActive?
  {
    Message(id, a.session, a.text, a.now,
            Some(Turn(a.harness, a.identity, a.inputId, a.text, a.now + ActiveTtl, Pending, a.deferredIds)))
  }

  function Tag(offered: seq<Message>, harness: string, session: string, identity: string): seq<Offering> {
    seq(|offered|, i requires 0 <= i < |offered| => Offering(offered[i], harness, session, identity))
  }

  /** What is old leaves and what is due expires. */
  function AfterExpiry(w: World, now: int): World {
    Apply(w, Expiring(now))
  }

  function Discarded(w: World, harness: string, session: string): World {
    Apply(w, Discard(harness, session))
  }

  /** The second section of `offerActive`, once what is due has expired. */
  function Delivered(w: World, harness: string, session: string, identity: string, delivers: bool): World {
    var offered := Offer(w.messages, harness, session, identity);
    var after := Apply(Apply(w, MarkOffered(harness, session, identity)), DropRegular(session, DeferredIds(offered)));
    if delivers then after.(offers := w.offers + Tag(offered, harness, session, identity)) else after
  }

  function Step(w: World, a: Action): World {
    if a.write == Fails then w
    else
      match a
      case Add(session, text, now, _) =>
        if HasText(w.messages, session, text) then w else Push(w, Message(w.nextId, session, text, now, None))
      case Take(session, _) => Apply(w, TakeRegular(session))
      case Remove(ids, _) => Apply(w, RemoveRegular(ids))
      case AddActive(harness, session, identity, inputId, _, bytes, _, now, _) =>
        var expired := AfterExpiry(w, now);
        if HasKey(expired.messages, harness, session, inputId) || Refused(expired.messages, session, identity, inputId, bytes) then w
        else Push(expired, NewActive(w.nextId, a))
      case OfferActive(harness, session, identity, now, allowed, later, write) =>
        if identity == "" then w
        else
          var expired := AfterExpiry(w, now);
          if !allowed then expired
          else Delivered(AfterExpiry(expired, later), harness, session, identity, write == Done)
      case DiscardActive(harness, session, now, _) => Discarded(AfterExpiry(w, now), harness, session)
      case AcknowledgeActive(session, ids, _) => Apply(w, Acknowledge(session, ids))
  }

  function AfterAll(actions: seq<Action>): World {
    if actions == [] then World([], 0, map[], [], [])
    else Step(AfterAll(actions[..|actions| - 1]), actions[|actions| - 1])
  }

  // ---------------------------------------------------------------------------------------------
  // Changes in general
  // ---------------------------------------------------------------------------------------------

  /** A record's state only moves from pending to offered to returned, or from pending to expired. */
  predicate Moves(from: TurnState, to: TurnState) {
    from == to || (from == Pending && (to == Offered || to == Expired)) || (from == Offered && to == HookReturned)
  }

  /** Everything but state and text stays; regular messages stay as they are. */
  predicate SameRecord(m: Message, n: Message) {
    && m.id == n.id && m.session == n.session && m.createdAt == n.createdAt && m.active.Some? == n.active.Some?
    && (m.active.None? ==> m == n)
    && (m.active.Some? ==>
          Moves(m.active.value.state, n.active.value.state) && n.active.value == m.active.value.(state := n.active.value.state))
  }

  predicate Allowed(m: Message, r: Option<Message>) {
    r.Some? ==> SameRecord(m, r.value)
  }

  ghost predicate Tame(f: Change) {
    forall m :: Allowed(m, f(m))
  }

  lemma ChangesAreTame(now: int, harness: string, session: string, identity: string, ids: set<Id>)
    ensures Tame(Expiring(now)) && Tame(MarkOffered(harness, session, identity)) && Tame(DropRegular(session, ids))
    ensures Tame(Discard(harness, session)) && Tame(Acknowledge(session, ids))
    ensures Tame(TakeRegular(session)) && Tame(RemoveRegular(ids))
  {
  }

  predicate HasId(ms: seq<Message>, id: Id) {
    ms != [] && (ms[|ms| - 1].id == id || HasId(ms[..|ms| - 1], id))
  }

  predicate UniqueIds(ms: seq<Message>) {
    ms != [] ==> UniqueIds(ms[..|ms| - 1]) && !HasId(ms[..|ms| - 1], ms[|ms| - 1].id)
  }

  predicate UniqueKeys(ms: seq<Message>) {
    ms != [] ==>
      var m := ms[|ms| - 1];
      UniqueKeys(ms[..|ms| - 1])
      && (m.active.Some? ==> !HasKey(ms[..|ms| - 1], m.active.value.harness, m.session, m.active.value.inputId))
  }

  function Find(ms: seq<Message>, id: Id): Option<Message> {
    if ms == [] then None
    else if ms[|ms| - 1].id == id then Some(ms[|ms| - 1])
    else Find(ms[..|ms| - 1], id)
  }

  lemma {:induction false} UpdateKeepsIds(ms: seq<Message>, f: Change, id: Id)
    requires Tame(f) && UniqueIds(ms)
    ensures UniqueIds(Update(ms, f))
    ensures HasId(Update(ms, f), id) ==> HasId(ms, id)
    ensures Find(Update(ms, f), id) == match Find(ms, id) case Some(m) => f(m) case None => None
  {
    if ms != [] {
      var init, m := ms[..|ms| - 1], ms[|ms| - 1];
      assert Allowed(m, f(m));
      UpdateKeepsIds(init, f, id);
      UpdateKeepsIds(init, f, m.id);
      AbsentIsNone(Update(init, f), m.id);
      if f(m).Some? { SnocFacts(Update(init, f), f(m).value); }
      AbsentIsNone(init, m.id);
    }
  }

  lemma {:induction false} AbsentIsNone(ms: seq<Message>, id: Id)
    ensures HasId(ms, id) <==> Find(ms, id).Some?
  {
    if ms != [] { AbsentIsNone(ms[..|ms| - 1], id); }
  }

  lemma SnocFacts(ms: seq<Message>, m: Message)
    ensures (ms + [m])[..|ms + [m]| - 1] == ms && (ms + [m])[|ms + [m]| - 1] == m
  {
  }

  lemma {:induction false} UpdateKeepsKeys(ms: seq<Message>, f: Change)
    requires Tame(f) && UniqueKeys(ms)
    ensures UniqueKeys(Update(ms, f))
    ensures forall h, s, i :: HasKey(Update(ms, f), h, s, i) ==> HasKey(ms, h, s, i)
  {
    if ms != [] {
      var init, m := ms[..|ms| - 1], ms[|ms| - 1];
      assert Allowed(m, f(m));
      UpdateKeepsKeys(init, f);
      if f(m).Some? { SnocFacts(Update(init, f), f(m).value); }
    }
  }

  lemma {:induction false} UpdateKeepsCounts(ms: seq<Message>, f: Change, session: string)
    requires Tame(f)
    ensures CountActive(Update(ms, f)) <= CountActive(ms) && CountPending(Update(ms, f), session) <= CountPending(ms, session)
  {
    if ms != [] {
      var init, m := ms[..|ms| - 1], ms[|ms| - 1];
      assert Allowed(m, f(m));
      UpdateKeepsCounts(init, f, session);
      if f(m).Some? { SnocFacts(Update(init, f), f(m).value); }
    }
  }

  function RegularIds(ms: seq<Message>): seq<Id> {
    if ms == [] then []
    else RegularIds(ms[..|ms| - 1]) + if ms[|ms| - 1].active.None? then [ms[|ms| - 1].id] else []
  }

  lemma {:induction false} UpdateConserves(ms: seq<Message>, f: Change)
    requires Tame(f)
    ensures multiset(RegularIds(ms)) == multiset(RegularIds(Update(ms, f))) + multiset(RemovedBy(ms, f))
  {
    if ms != [] {
      var init, m := ms[..|ms| - 1], ms[|ms| - 1];
      assert Allowed(m, f(m));
      UpdateConserves(init, f);
      if f(m).Some? { SnocFacts(Update(init, f), f(m).value); }
    }
  }

  // ---------------------------------------------------------------------------------------------
  // Invariant
  // ---------------------------------------------------------------------------------------------

  function CountOffers(offers: seq<Offering>, id: Id): nat {
    if offers == [] then 0
    else CountOffers(offers[..|offers| - 1], id) + if offers[|offers| - 1].message.id == id then 1 else 0
  }

  /** The stored message is the one that was created, in a later state. */
  predicate BornAs(ms: seq<Message>, born: map<Id, Message>, nextId: Id, id: Id) {
    && (id in born ==> id < nextId)
    && (Find(ms, id).Some? ==>
          var m := Find(ms, id).value;
          && id in born && born[id].id == id && m.session == born[id].session && m.active.Some? == born[id].active.Some?
          && (m.active.None? ==> m == born[id])
          && (m.active.Some? ==> m.active.value == born[id].active.value.(state := m.active.value.state)))
  }

  ghost predicate AllBorn(ms: seq<Message>, born: map<Id, Message>, nextId: Id) {
    forall id :: BornAs(ms, born, nextId, id)
  }

  predicate OfferedOnceAt(offers: seq<Offering>, ms: seq<Message>, id: Id) {
    CountOffers(offers, id) <= 1 && (CountOffers(offers, id) == 1 ==> !(Find(ms, id).Some? && IsPending(Find(ms, id).value)))
  }

  ghost predicate OfferedOnce(offers: seq<Offering>, ms: seq<Message>) {
    forall id :: OfferedOnceAt(offers, ms, id)
  }

  /** The offer went to the turn that the record was created for. */
  predicate ToItsTurn(o: Offering, born: map<Id, Message>) {
    && o.message.id in born && Addressed(born[o.message.id], o.harness, o.session)
    && born[o.message.id].active.value.identity == o.identity && o.identity != ""
  }

  ghost predicate AllToTheirTurn(offers: seq<Offering>, born: map<Id, Message>) {
    forall k :: 0 <= k < |offers| ==> ToItsTurn(offers[k], born)
  }

  ghost function RegularBorn(born: map<Id, Message>): set<Id> {
    set id | id in born && born[id].active.None?
  }

  ghost predicate Conserved(ms: seq<Message>, born: map<Id, Message>, removed: seq<Id>) {
    multiset(RegularIds(ms)) + multiset(removed) == multiset(RegularBorn(born))
  }

  ghost predicate Bounded(ms: seq<Message>) {
    CountActive(ms) <= MaxActive && forall session :: CountPending(ms, session) <= MaxPending
  }

  ghost predicate Inv(w: World) {
    && UniqueIds(w.messages) && UniqueKeys(w.messages) && Bounded(w.messages)
    && AllBorn(w.messages, w.born, w.nextId)
    && OfferedOnce(w.offers, w.messages) && AllToTheirTurn(w.offers, w.born)
    && Conserved(w.messages, w.born, w.removed)
  }

  lemma UpdateKeepsBorn(ms: seq<Message>, born: map<Id, Message>, nextId: Id, f: Change)
    requires UniqueIds(ms) && Tame(f) && AllBorn(ms, born, nextId)
    ensures AllBorn(Update(ms, f), born, nextId)
  {
    forall id ensures BornAs(Update(ms, f), born, nextId, id) {
      assert BornAs(ms, born, nextId, id);
      UpdateKeepsIds(ms, f, id);
      if Find(ms, id).Some? { assert Allowed(Find(ms, id).value, f(Find(ms, id).value)); }
    }
  }

  lemma UpdateKeepsOffers(ms: seq<Message>, offers: seq<Offering>, f: Change)
    requires UniqueIds(ms) && Tame(f) && OfferedOnce(offers, ms)
    ensures OfferedOnce(offers, Update(ms, f))
  {
    forall id ensures OfferedOnceAt(offers, Update(ms, f), id) {
      assert OfferedOnceAt(offers, ms, id);
      UpdateKeepsIds(ms, f, id);
      if Find(ms, id).Some? { assert Allowed(Find(ms, id).value, f(Find(ms, id).value)); }
    }
  }

  lemma UpdateKeepsBounds(ms: seq<Message>, f: Change)
    requires Tame(f) && Bounded(ms)
    ensures Bounded(Update(ms, f))
  {
    UpdateKeepsCounts(ms, f, "");
    forall session ensures CountActive(Update(ms, f)) <= MaxActive && CountPending(Update(ms, f), session) <= MaxPending {
      UpdateKeepsCounts(ms, f, session);
    }
  }

  lemma ApplyKeepsInv(w: World, f: Change)
    requires Inv(w) && Tame(f)
    ensures Inv(Apply(w, f))
  {
    UpdateKeepsIds(w.messages, f, 0);
    UpdateKeepsKeys(w.messages, f);
    UpdateKeepsBounds(w.messages, f);
    UpdateKeepsBorn(w.messages, w.born, w.nextId, f);
    UpdateKeepsOffers(w.messages, w.offers, f);
    UpdateConserves(w.messages, f);
  }

  // ---------------------------------------------------------------------------------------------
  // A new message
  // ---------------------------------------------------------------------------------------------

  lemma PushKeepsFound(ms: seq<Message>, m: Message, id: Id)
    ensures Find(ms + [m], id) == if id == m.id then Some(m) else Find(ms, id)
    ensures HasId(ms + [m], id) <==> id == m.id || HasId(ms, id)
  {
    SnocFacts(ms, m);
  }

  lemma PushKeepsBornAndOffers(w: World, m: Message)
    requires Inv(w) && m.id == w.nextId
    ensures AllBorn(w.messages + [m], w.born[m.id := m], w.nextId + 1)
    ensures OfferedOnce(w.offers, w.messages + [m]) && AllToTheirTurn(w.offers, w.born[m.id := m])
    ensures !HasId(w.messages, m.id)
  {
    assert BornAs(w.messages, w.born, w.nextId, m.id);
    AbsentIsNone(w.messages, m.id);
    CountZero(w.offers, w.born, m.id);
    var ms, born, next := w.messages + [m], w.born[m.id := m], w.nextId + 1;
    forall id ensures BornAs(ms, born, next, id) && OfferedOnceAt(w.offers, ms, id) {
      assert BornAs(w.messages, w.born, w.nextId, id) && OfferedOnceAt(w.offers, w.messages, id);
      PushKeepsFound(w.messages, m, id);
    }
    forall k | 0 <= k < |w.offers| ensures ToItsTurn(w.offers[k], w.born[m.id := m]) { assert ToItsTurn(w.offers[k], w.born); }
  }

  lemma {:induction false} CountZero(offers: seq<Offering>, born: map<Id, Message>, id: Id)
    requires AllToTheirTurn(offers, born) && id !in born
    ensures CountOffers(offers, id) == 0
  {
    if offers != [] {
      assert ToItsTurn(offers[|offers| - 1], born);
      CountZero(offers[..|offers| - 1], born, id);
    }
  }

  lemma AddToSet(ids: set<Id>, id: Id)
    requires id !in ids
    ensures multiset(ids + {id}) == multiset(ids) + multiset{id}
  {
  }

  lemma PushConserves(w: World, m: Message)
    requires Inv(w) && m.id == w.nextId
    ensures Conserved(w.messages + [m], w.born[m.id := m], w.removed)
  {
    assert BornAs(w.messages, w.born, w.nextId, m.id);
    RegularPush(w.messages, w.born, w.removed, m);
  }

  lemma RegularPush(ms: seq<Message>, born: map<Id, Message>, removed: seq<Id>, m: Message)
    requires m.id !in born && Conserved(ms, born, removed)
    ensures Conserved(ms + [m], born[m.id := m], removed)
  {
    SnocFacts(ms, m);
    var before, after := RegularBorn(born), RegularBorn(born[m.id := m]);
    if m.active.None? {
      AddToSet(before, m.id);
      assert after == before + {m.id};
      assert RegularIds(ms + [m]) == RegularIds(ms) + [m.id];
    } else {
      assert after == before;
      assert RegularIds(ms + [m]) == RegularIds(ms);
    }
  }

  lemma PushKeepsInv(w: World, m: Message)
    requires Inv(w) && m.id == w.nextId
    requires m.active.Some? ==>
               && !HasKey(w.messages, m.active.value.harness, m.session, m.active.value.inputId)
               && CountActive(w.messages) < MaxActive && CountPending(w.messages, m.session) < MaxPending
    ensures Inv(Push(w, m))
  {
    PushKeepsBornAndOffers(w, m);
    PushConserves(w, m);
    SnocFacts(w.messages, m);
    forall session ensures CountPending(w.messages + [m], session) <= MaxPending {
      assert CountPending(w.messages, session) <= MaxPending;
    }
  }

  // ---------------------------------------------------------------------------------------------
  // An offer
  // ---------------------------------------------------------------------------------------------

  function CountIds(ms: seq<Message>, id: Id): nat {
    if ms == [] then 0 else CountIds(ms[..|ms| - 1], id) + if ms[|ms| - 1].id == id then 1 else 0
  }

  lemma {:induction false} OfferHasOnce(ms: seq<Message>, harness: string, session: string, identity: string, id: Id)
    requires UniqueIds(ms)
    ensures CountIds(Offer(ms, harness, session, identity), id) ==
              match Find(ms, id)
              case Some(m) => (if Awaiting(m, harness, session, identity) then 1 else 0)
              case None => 0
  {
    if ms != [] {
      var init, m := ms[..|ms| - 1], ms[|ms| - 1];
      OfferHasOnce(init, harness, session, identity, id);
      AbsentIsNone(init, m.id);
      if Awaiting(m, harness, session, identity) { SnocFacts(Offer(init, harness, session, identity), WithState(m, Offered)); }
    }
  }

  lemma {:induction false} OfferIsAwaiting(ms: seq<Message>, harness: string, session: string, identity: string, k: nat)
    requires UniqueIds(ms) && k < |Offer(ms, harness, session, identity)|
    ensures var o := Offer(ms, harness, session, identity)[k];
            Find(ms, o.id).Some? && Awaiting(Find(ms, o.id).value, harness, session, identity)
  {
    var init, m := ms[..|ms| - 1], ms[|ms| - 1];
    if k < |Offer(init, harness, session, identity)| {
      OfferIsAwaiting(init, harness, session, identity, k);
      AbsentIsNone(init, Offer(init, harness, session, identity)[k].id);
    }
  }

  lemma {:induction false} CountTagged(offers: seq<Offering>, ms: seq<Message>, harness: string, session: string, identity: string, id: Id)
    ensures CountOffers(offers + Tag(ms, harness, session, identity), id) == CountOffers(offers, id) + CountIds(ms, id)
  {
    if ms == [] {
      assert offers + Tag(ms, harness, session, identity) == offers;
    } else {
      var init := ms[..|ms| - 1];
      CountTagged(offers, init, harness, session, identity, id);
      var all := offers + Tag(ms, harness, session, identity);
      assert all[..|all| - 1] == offers + Tag(init, harness, session, identity);
    }
  }

  /** After an offer none of its records is pending, and none of them had been offered before. */
  lemma OfferCountsOnce(w: World, harness: string, session: string, identity: string, after: seq<Message>)
    requires Inv(w)
    requires forall id :: SettledAfter(w.messages, after, harness, session, identity, id)
    ensures OfferedOnce(w.offers + Tag(Offer(w.messages, harness, session, identity), harness, session, identity), after)
  {
    var offered := Offer(w.messages, harness, session, identity);
    forall id ensures OfferedOnceAt(w.offers + Tag(offered, harness, session, identity), after, id) {
      assert OfferedOnceAt(w.offers, w.messages, id) && SettledAfter(w.messages, after, harness, session, identity, id);
      OfferHasOnce(w.messages, harness, session, identity, id);
      CountTagged(w.offers, offered, harness, session, identity, id);
    }
  }

  /** A record that was not pending, or is offered now, is not pending afterwards. */
  predicate SettledAfter(ms: seq<Message>, after: seq<Message>, harness: string, session: string, identity: string, id: Id) {
    var m, n := Find(ms, id), Find(after, id);
    (m.None? || !IsPending(m.value) || Awaiting(m.value, harness, session, identity)) ==> !(n.Some? && IsPending(n.value))
  }

  lemma FindDelivered(ms: seq<Message>, harness: string, session: string, identity: string, ids: set<Id>, id: Id)
    requires UniqueIds(ms)
    ensures var marked := Update(ms, MarkOffered(harness, session, identity));
      && (Find(marked, id) == match Find(ms, id) case Some(m) => MarkOffered(harness, session, identity)(m) case None => None)
      && (Find(Update(marked, DropRegular(session, ids)), id)
          == match Find(marked, id) case Some(m) => DropRegular(session, ids)(m) case None => None)
  {
    ChangesAreTame(0, harness, session, identity, ids);
    UpdateKeepsIds(ms, MarkOffered(harness, session, identity), id);
    UpdateKeepsIds(Update(ms, MarkOffered(harness, session, identity)), DropRegular(session, ids), id);
  }

  lemma DeliveredSettles(ms: seq<Message>, harness: string, session: string, identity: string, ids: set<Id>, id: Id)
    requires UniqueIds(ms)
    ensures SettledAfter(ms, Update(Update(ms, MarkOffered(harness, session, identity)), DropRegular(session, ids)), harness, session, identity, id)
  {
    FindDelivered(ms, harness, session, identity, ids, id);
  }

  lemma OffersGoToTheirTurn(w: World, harness: string, session: string, identity: string)
    requires Inv(w) && identity != ""
    ensures AllToTheirTurn(w.offers + Tag(Offer(w.messages, harness, session, identity), harness, session, identity), w.born)
  {
    var offered := Offer(w.messages, harness, session, identity);
    var all := w.offers + Tag(offered, harness, session, identity);
    forall k | 0 <= k < |all| ensures ToItsTurn(all[k], w.born) {
      if k < |w.offers| {
        assert ToItsTurn(w.offers[k], w.born);
      } else {
        var o := offered[k - |w.offers|];
        OfferIsAwaiting(w.messages, harness, session, identity, k - |w.offers|);
        assert BornAs(w.messages, w.born, w.nextId, o.id);
      }
    }
  }

  lemma DeliveredKeepsInv(w: World, harness: string, session: string, identity: string, delivers: bool)
    requires Inv(w) && identity != ""
    ensures Inv(Delivered(w, harness, session, identity, delivers))
  {
    var ids := DeferredIds(Offer(w.messages, harness, session, identity));
    ChangesAreTame(0, harness, session, identity, ids);
    ApplyKeepsInv(w, MarkOffered(harness, session, identity));
    ApplyKeepsInv(Apply(w, MarkOffered(harness, session, identity)), DropRegular(session, ids));
    if delivers {
      var after := Delivered(w, harness, session, identity, true);
      forall id ensures SettledAfter(w.messages, after.messages, harness, session, identity, id) {
        DeliveredSettles(w.messages, harness, session, identity, ids, id);
      }
      OfferCountsOnce(w, harness, session, identity, after.messages);
      OffersGoToTheirTurn(w, harness, session, identity);
    }
  }

  // ---------------------------------------------------------------------------------------------
  // Every run
  // ---------------------------------------------------------------------------------------------

  lemma ExpiryKeepsInv(w: World, now: int)
    requires Inv(w)
    ensures Inv(AfterExpiry(w, now)) && AfterExpiry(w, now).nextId == w.nextId
  {
    ChangesAreTame(now, "", "", "", {});
    ApplyKeepsInv(w, Expiring(now));
  }

  /** Whether the record is taken, once what is due has expired. */
  predicate Accepts(expired: World, a: Action)
    requires a.AddActive?
  {
    !HasKey(expired.messages, a.harness, a.session, a.inputId)
    && !Refused(expired.messages, a.session, a.identity, a.inputId, a.bytes)
  }

  lemma AddActiveStep(w: World, a: Action)
    requires a.AddActive?
    ensures var expired := AfterExpiry(w, a.now);
      Step(w, a) == if a.write != Fails && Accepts(expired, a) then Push(expired, NewActive(w.nextId, a)) else w
  {
  }

  lemma AddActiveKeepsInv(w: World, a: Action)
    requires Inv(w) && a.AddActive?
    ensures Inv(Step(w, a))
  {
    ExpiryKeepsInv(w, a.now);
    AddActiveStep(w, a);
    if a.write != Fails && Accepts(AfterExpiry(w, a.now), a) { PushKeepsInv(AfterExpiry(w, a.now), NewActive(w.nextId, a)); }
  }

  /** The part of an offer that follows the check of its identity. */
  lemma AllowedOfferKeepsInv(w: World, a: Action)
    requires Inv(w) && a.OfferActive? && a.identity != ""
    ensures Inv(AfterExpiry(w, a.now))
    ensures Inv(Delivered(AfterExpiry(AfterExpiry(w, a.now), a.later), a.harness, a.session, a.identity, a.write == Done))
  {
    ExpiryKeepsInv(w, a.now);
    ExpiryKeepsInv(AfterExpiry(w, a.now), a.later);
    DeliveredKeepsInv(AfterExpiry(AfterExpiry(w, a.now), a.later), a.harness, a.session, a.identity, a.write == Done);
  }

  lemma OfferStep(w: World, a: Action)
    requires a.OfferActive?
    ensures Step(w, a) ==
              if a.write == Fails || a.identity == "" then w
              else if !a.allowed then AfterExpiry(w, a.now)
              else Delivered(AfterExpiry(AfterExpiry(w, a.now), a.later), a.harness, a.session, a.identity, a.write == Done)
  {
  }

  lemma OfferActiveKeepsInv(w: World, a: Action)
    requires Inv(w) && a.OfferActive?
    ensures Inv(Step(w, a))
  {
    OfferStep(w, a);
    if a.identity != "" { AllowedOfferKeepsInv(w, a); }
  }

  lemma DiscardKeepsInv(w: World, harness: string, session: string)
    requires Inv(w)
    ensures Inv(Discarded(w, harness, session))
  {
    ChangesAreTame(0, harness, session, "", {});
    ApplyKeepsInv(w, Discard(harness, session));
  }

  lemma DiscardStep(w: World, a: Action)
    requires a.DiscardActive?
    ensures Step(w, a) == if a.write == Fails then w else Discarded(AfterExpiry(w, a.now), a.harness, a.session)
  {
  }

  lemma DiscardActiveKeepsInv(w: World, a: Action)
    requires Inv(w) && a.DiscardActive?
    ensures Inv(Step(w, a))
  {
    ExpiryKeepsInv(w, a.now);
    DiscardKeepsInv(AfterExpiry(w, a.now), a.harness, a.session);
    DiscardStep(w, a);
  }

  /** The calls that only change messages that are there. */
  lemma ChangeKeepsInv(w: World, a: Action)
    requires Inv(w) && (a.Take? || a.Remove? || a.AcknowledgeActive?)
    ensures Inv(Step(w, a))
  {
    match a
    case Take(session, _) => ChangesAreTame(0, "", session, "", {}); ApplyKeepsInv(w, TakeRegular(session));
    case Remove(ids, _) => ChangesAreTame(0, "", "", "", ids); ApplyKeepsInv(w, RemoveRegular(ids));
    case AcknowledgeActive(session, ids, _) => ChangesAreTame(0, "", session, "", ids); ApplyKeepsInv(w, Acknowledge(session, ids));
  }

  lemma StepKeepsInv(w: World, a: Action)
    requires Inv(w)
    ensures Inv(Step(w, a))
  {
    match a
    case Add(session, text, now, write) =>
      if write != Fails && !HasText(w.messages, session, text) { PushKeepsInv(w, Message(w.nextId, session, text, now, None)); }
    case AddActive(_, _, _, _, _, _, _, _, _) => AddActiveKeepsInv(w, a);
    case OfferActive(_, _, _, _, _, _, _) => OfferActiveKeepsInv(w, a);
    case DiscardActive(_, _, _, _) => DiscardActiveKeepsInv(w, a);
    case _ => ChangeKeepsInv(w, a);
  }

  lemma {:induction false} RunKeepsInv(actions: seq<Action>)
    ensures Inv(AfterAll(actions))
  {
    if actions != [] {
      RunKeepsInv(actions[..|actions| - 1]);
      StepKeepsInv(AfterAll(actions[..|actions| - 1]), actions[|actions| - 1]);
    }
  }

  /** Each exact-turn record is returned by at most one offer, over all interleavings, failed writes and
      crashes, and only to the harness, session and turn it was added for. */
  lemma OfferedToItsTurnOnce(actions: seq<Action>, id: Id, k: nat)
    ensures CountOffers(AfterAll(actions).offers, id) <= 1
    ensures var w := AfterAll(actions);
            k < |w.offers| ==> ToItsTurn(w.offers[k], w.born)
  {
    RunKeepsInv(actions);
    assert OfferedOnceAt(AfterAll(actions).offers, AfterAll(actions).messages, id);
  }

  /** Every regular message that was ever parked is in the store, unchanged, or was removed, and never both,
      twice, or by two calls; and the bounds of the exact-turn records hold. */
  lemma RegularMessagesAreConserved(actions: seq<Action>, id: Id)
    ensures var w := AfterAll(actions);
            && multiset(RegularIds(w.messages)) + multiset(w.removed) == multiset(RegularBorn(w.born))
            && (id in w.born && w.born[id].active.None? && Find(w.messages, id).Some? ==> Find(w.messages, id).value == w.born[id])
            && CountActive(w.messages) <= 512 && forall session :: CountPending(w.messages, session) <= 64
  {
    RunKeepsInv(actions);
    assert BornAs(AfterAll(actions).messages, AfterAll(actions).born, AfterAll(actions).nextId, id);
  }

  // ---------------------------------------------------------------------------------------------
  // How the state of a record moves
  // ---------------------------------------------------------------------------------------------

  function StateOf(ms: seq<Message>, id: Id): Option<TurnState> {
    match Find(ms, id)
    case Some(m) => if m.active.Some? then Some(m.active.value.state) else None
    case None => None
  }

  /** Pending, then offered, then returned; or pending, then expired; and nothing follows once a record is gone. */
  predicate Forward(from: Option<TurnState>, to: Option<TurnState>) {
    to == None || (from.Some? && (from == to || from.value == Pending || (from.value == Offered && to.value == HookReturned)))
  }

  lemma ApplyForward(w: World, f: Change, id: Id)
    requires UniqueIds(w.messages) && Tame(f)
    ensures Forward(StateOf(w.messages, id), StateOf(Apply(w, f).messages, id))
  {
    UpdateKeepsIds(w.messages, f, id);
    if Find(w.messages, id).Some? { assert Allowed(Find(w.messages, id).value, f(Find(w.messages, id).value)); }
  }

  lemma PushForward(w: World, m: Message, id: Id)
    requires id != m.id
    ensures StateOf(Push(w, m).messages, id) == StateOf(w.messages, id)
  {
    PushKeepsFound(w.messages, m, id);
  }

  lemma AddForward(w: World, a: Action, id: Id)
    requires Inv(w) && id < w.nextId && (a.Add? || a.AddActive?)
    ensures Forward(StateOf(w.messages, id), StateOf(Step(w, a).messages, id)) && w.nextId <= Step(w, a).nextId
  {
    match a
    case Add(session, text, now, write) => PushForward(w, Message(w.nextId, session, text, now, None), id);
    case AddActive(_, _, _, _, _, _, _, now, _) =>
      ExpiryForward(w, now, id);
      PushForward(AfterExpiry(w, now), NewActive(w.nextId, a), id);
  }

  lemma DiscardForward(w: World, a: Action, id: Id)
    requires Inv(w) && a.DiscardActive?
    ensures Forward(StateOf(w.messages, id), StateOf(Step(w, a).messages, id)) && w.nextId <= Step(w, a).nextId
  {
    if a.write != Fails {
      var w1 := AfterExpiry(w, a.now);
      ExpiryForward(w, a.now, id);
      ChangesAreTame(0, a.harness, a.session, "", {});
      ApplyForward(w1, Discard(a.harness, a.session), id);
      DiscardStep(w, a);
      ForwardTwice(StateOf(w.messages, id), StateOf(w1.messages, id), StateOf(Step(w, a).messages, id));
    }
  }

  lemma StepForward(w: World, a: Action, id: Id)
    requires Inv(w) && id < w.nextId
    ensures Forward(StateOf(w.messages, id), StateOf(Step(w, a).messages, id)) && w.nextId <= Step(w, a).nextId
  {
    match a
    case Take(session, _) => ChangesAreTame(0, "", session, "", {}); ApplyForward(w, TakeRegular(session), id);
    case Remove(ids, _) => ChangesAreTame(0, "", "", "", ids); ApplyForward(w, RemoveRegular(ids), id);
    case AcknowledgeActive(session, ids, _) => ChangesAreTame(0, "", session, "", ids); ApplyForward(w, Acknowledge(session, ids), id);
    case OfferActive(_, _, _, _, _, _, _) => OfferForward(w, a, id);
    case DiscardActive(_, _, _, _) => DiscardForward(w, a, id);
    case _ => AddForward(w, a, id);
  }

  lemma DeliveredForward(w: World, harness: string, session: string, identity: string, delivers: bool, id: Id)
    requires Inv(w)
    ensures Forward(StateOf(w.messages, id), StateOf(Delivered(w, harness, session, identity, delivers).messages, id))
  {
    var mark, ids := MarkOffered(harness, session, identity), DeferredIds(Offer(w.messages, harness, session, identity));
    ChangesAreTame(0, harness, session, identity, ids);
    ApplyKeepsInv(w, mark);
    ApplyForward(w, mark, id);
    ApplyForward(Apply(w, mark), DropRegular(session, ids), id);
  }

  lemma ForwardTwice(a: Option<TurnState>, b: Option<TurnState>, c: Option<TurnState>)
    requires Forward(a, b) && Forward(b, c)
    ensures Forward(a, c)
  {
  }

  lemma ExpiryForward(w: World, now: int, id: Id)
    requires Inv(w)
    ensures Inv(AfterExpiry(w, now)) && Forward(StateOf(w.messages, id), StateOf(AfterExpiry(w, now).messages, id))
  {
    ChangesAreTame(now, "", "", "", {});
    ApplyKeepsInv(w, Expiring(now));
    ApplyForward(w, Expiring(now), id);
  }

  lemma OfferForward(w: World, a: Action, id: Id)
    requires Inv(w) && a.OfferActive?
    ensures Forward(StateOf(w.messages, id), StateOf(Step(w, a).messages, id)) && w.nextId <= Step(w, a).nextId
  {
    var w1 := AfterExpiry(w, a.now);
    ExpiryForward(w, a.now, id);
    if a.write != Fails && a.identity != "" && a.allowed {
      var w2 := AfterExpiry(w1, a.later);
      var w3 := Delivered(w2, a.harness, a.session, a.identity, a.write == Done);
      ExpiryForward(w1, a.later, id);
      DeliveredForward(w2, a.harness, a.session, a.identity, a.write == Done, id);
      ForwardTwice(StateOf(w.messages, id), StateOf(w1.messages, id), StateOf(w2.messages, id));
      ForwardTwice(StateOf(w.messages, id), StateOf(w2.messages, id), StateOf(w3.messages, id));
    }
  }

  /** Between any two moments of a run a record only moves forward; a record that is gone never comes back. */
  lemma {:induction false} RecordsMoveForward(actions: seq<Action>, i: nat, id: Id)
    requires i <= |actions| && id < AfterAll(actions[..i]).nextId
    ensures Forward(StateOf(AfterAll(actions[..i]).messages, id), StateOf(AfterAll(actions).messages, id))
    ensures id < AfterAll(actions).nextId
  {
    if i == |actions| {
      assert actions[..i] == actions;
    } else {
      var init := actions[..|actions| - 1];
      assert init[..i] == actions[..i];
      RecordsMoveForward(init, i, id);
      RunKeepsInv(init);
      StepForward(AfterAll(init), actions[|actions| - 1], id);
    }
  }

  // ---------------------------------------------------------------------------------------------
  // The store, in place
  // ---------------------------------------------------------------------------------------------

  lemma UpdateStep(ms: seq<Message>, f: Change, i: nat)
    requires i < |ms|
    ensures Update(ms[..i + 1], f) == Update(ms[..i], f) + match f(ms[i]) case Some(m) => [m] case None => []
  {
    assert ms[..i + 1][..i] == ms[..i];
  }

  /** Changing a list first and filtering it then is one change. */
  lemma {:induction false} UpdateTwice(ms: seq<Message>, ns: seq<Message>, f: Change, g: Change)
    requires |ms| == |ns| && forall i :: 0 <= i < |ms| ==> f(ms[i]) == g(ns[i])
    ensures Update(ms, f) == Update(ns, g)
  {
    if ms != [] { UpdateTwice(ms[..|ms| - 1], ns[..|ns| - 1], f, g); }
  }

  lemma {:induction false} UpdateCompose(ms: seq<Message>, f: Change, g: Change, h: Change)
    requires forall m :: f(m).Some? && g(f(m).value) == h(m)
    ensures Update(Update(ms, f), g) == Update(ms, h)
  {
    if ms != [] {
      var init := ms[..|ms| - 1];
      UpdateCompose(init, f, g, h);
      SnocFacts(Update(init, f), f(ms[|ms| - 1]).value);
    }
  }

  /** Records of another turn that are still pending. */
  function ExpireOthers(harness: string, session: string, identity: string): Change {
    (m: Message) =>
      if Addressed(m, harness, session) && IsPending(m) && m.active.value.identity != identity then Some(Expire(m)) else Some(m)
  }

  function MarkAwaiting(harness: string, session: string, identity: string): Change {
    (m: Message) => if Awaiting(m, harness, session, identity) then Some(WithState(m, Offered)) else Some(m)
  }

  lemma {:induction false} OfferAfterOthers(ms: seq<Message>, harness: string, session: string, identity: string)
    ensures Offer(Update(ms, ExpireOthers(harness, session, identity)), harness, session, identity) == Offer(ms, harness, session, identity)
  {
    if ms != [] {
      var init, f := ms[..|ms| - 1], ExpireOthers(harness, session, identity);
      OfferAfterOthers(init, harness, session, identity);
      SnocFacts(Update(init, f), f(ms[|ms| - 1]).value);
    }
  }

  /** What an offer that is allowed leaves in the file, and what it returns. */
  lemma OfferedStep(w: World, a: Action)
    requires a.OfferActive? && a.write != Fails && a.identity != "" && a.allowed
    ensures var ms := Update(Update(w.messages, Expiring(a.now)), Expiring(a.later));
            var offered := Offer(ms, a.harness, a.session, a.identity);
            && Step(w, a).messages == Update(Update(ms, MarkOffered(a.harness, a.session, a.identity)), DropRegular(a.session, DeferredIds(offered)))
            && Step(w, a).nextId == w.nextId
            && Step(w, a).offers == if a.write == Done then w.offers + Tag(offered, a.harness, a.session, a.identity) else w.offers
  {
  }

  lemma NothingOffered(w: World, a: Action)
    requires a.OfferActive? && (a.write != Done || a.identity == "" || !a.allowed)
    ensures Step(w, a).offers == w.offers && w.offers + Tag([], a.harness, a.session, a.identity) == w.offers
    ensures a.write == Fails || a.identity == "" ==> Step(w, a) == w
    ensures a.write != Fails && a.identity != "" && !a.allowed ==>
              Step(w, a).messages == Update(w.messages, Expiring(a.now)) && Step(w, a).nextId == w.nextId
  {
  }

  /** The messages as one section of the store read them, changed in place. */
  class Section {
    var messages: seq<Message>

    constructor (read: seq<Message>)
      ensures messages == read
    {
      messages := read;
    }

    /** A loop over the messages that may change each in place. */
    method Each(f: Change)
      requires forall m :: f(m).Some?
      modifies this
      ensures messages == Update(old(messages), f)
    {
      ghost var before := messages;
      var i := 0;
      while i < |messages|
        invariant i <= |messages| == |before| && messages[..i] == Update(before[..i], f) && messages[i..] == before[i..]
      {
        UpdateStep(before, f, i);
        assert messages[i] == messages[i..][0] == before[i];
        messages := messages[i := f(messages[i]).value];
        i := i + 1;
      }
      assert before[..i] == before && messages[..i] == messages;
    }

    /** Keeps the messages that the change keeps. */
    method Filter(f: Change)
      requires forall m :: f(m).None? || f(m) == Some(m)
      modifies this
      ensures messages == Update(old(messages), f)
    {
      var kept: seq<Message>, i := [], 0;
      while i < |messages|
        invariant i <= |messages| && kept == Update(messages[..i], f) && messages == old(messages)
      {
        UpdateStep(messages, f, i);
        if f(messages[i]).Some? { kept := kept + [messages[i]]; }
        i := i + 1;
      }
      assert messages[..i] == messages;
      messages := kept;
    }

    /** `expireActive`: what is due expires, then old records go. */
    method ExpireActive(now: int)
      modifies this
      ensures messages == Update(old(messages), Expiring(now))
    {
      ghost var before := messages;
      var due: Change := (m: Message) => if Due(m, now) then Some(Expire(m)) else Some(m);
      var young: Change := (m: Message) => if Old(m, now) then None else Some(m);
      Each(due);
      Filter(young);
      ComposeFilter(before, due, young, Expiring(now));
    }

    lemma ComposeFilter(ms: seq<Message>, f: Change, g: Change, h: Change)
      requires forall m :: f(m).Some? && g(f(m).value).Some? == h(m).Some? && (h(m).Some? ==> g(f(m).value) == h(m))
      ensures Update(Update(ms, f), g) == Update(ms, h)
    {
      forall m ensures f(m).Some? && g(f(m).value) == h(m) {}
      UpdateCompose(ms, f, g, h);
    }

    /** The messages an offer is about, as they will be returned. */
    method Collect(harness: string, session: string, identity: string) returns (offered: seq<Message>, ids: set<Id>)
      ensures offered == Offer(messages, harness, session, identity) && ids == DeferredIds(offered)
    {
      offered, ids := [], {};
      var i := 0;
      while i < |messages|
        invariant i <= |messages| && offered == Offer(messages[..i], harness, session, identity) && ids == DeferredIds(offered)
      {
        assert messages[..i + 1][..i] == messages[..i];
        if Awaiting(messages[i], harness, session, identity) {
          var m := WithState(messages[i], Offered);
          SnocFacts(offered, m);
          offered := offered + [m];
          ids := ids + set id | id in m.active.value.deferredIds;
        }
        i := i + 1;
      }
      assert messages[..i] == messages;
    }

    /** The record under a key, and the counts that `addActive` checks. */
    method Count(harness: string, session: string, inputId: string) returns (active: nat, pending: nat, prior: Option<string>)
      ensures active == CountActive(messages) && pending == CountPending(messages, session)
      ensures prior == DigestOf(messages, harness, session, inputId)
      ensures prior.Some? <==> HasKey(messages, harness, session, inputId)
    {
      active, pending, prior := 0, 0, None;
      var i := 0;
      while i < |messages|
        invariant i <= |messages|
        invariant active == CountActive(messages[..i]) && pending == CountPending(messages[..i], session)
        invariant prior == DigestOf(messages[..i], harness, session, inputId)
        invariant prior.Some? <==> HasKey(messages[..i], harness, session, inputId)
      {
        assert messages[..i + 1][..i] == messages[..i];
        if messages[i].active.Some? { active := active + 1; }
        if IsPending(messages[i]) && messages[i].session == session { pending := pending + 1; }
        if prior.None? && SameKey(messages[i], harness, session, inputId) { prior := Some(messages[i].active.value.digest); }
        i := i + 1;
      }
      assert messages[..i] == messages;
    }

    /** The second section of `offerActive`, from the expiry of other turns' records on. */
    method MakeOffer(harness: string, session: string, identity: string) returns (offered: seq<Message>)
      modifies this
      ensures offered == Offer(old(messages), harness, session, identity)
      ensures messages == Update(Update(old(messages), MarkOffered(harness, session, identity)), DropRegular(session, DeferredIds(offered)))
    {
      ghost var before := messages;
      Each(ExpireOthers(harness, session, identity));
      OfferAfterOthers(before, harness, session, identity);
      var ids;
      offered, ids := Collect(harness, session, identity);
      Each(MarkAwaiting(harness, session, identity));
      UpdateCompose(before, ExpireOthers(harness, session, identity), MarkAwaiting(harness, session, identity), MarkOffered(harness, session, identity));
      Filter(DropRegular(session, ids));
    }
  }

  class DeferredMessageStore {
    var file: seq<Message>
    var nextId: Id

    constructor ()
      ensures file == [] && nextId == 0
    {
      file, nextId := [], 0;
    }

    /** The store as it stands among what has happened so far. */
    ghost predicate Shows(w: World)
      reads this
    {
      file == w.messages && nextId == w.nextId
    }

    method Add(session: string, text: string, now: int, write: Write, ghost w: World)
      requires Shows(w)
      modifies this
      ensures Shows(Step(w, Action.Add(session, text, now, write)))
    {
      var i := 0;
      while i < |file|
        invariant i <= |file| && file == old(file) && nextId == old(nextId) && !HasText(file[..i], session, text)
      {
        assert file[..i + 1][..i] == file[..i];
        if SameText(file[i], session, text) {
          HasTextAt(file, session, text, i);
          return;
        }
        i := i + 1;
      }
      assert file[..i] == file;
      if write != Fails {
        file := file + [Message(nextId, session, text, now, None)];
        nextId := nextId + 1;
      }
    }

    method Take(session: string, write: Write, ghost w: World)
      requires Shows(w)
      modifies this
      ensures Shows(Step(w, Action.Take(session, write)))
    {
      var s := new Section(file);
      s.Filter(TakeRegular(session));
      if write != Fails { file := s.messages; }
    }

    method Remove(ids: set<Id>, write: Write, ghost w: World)
      requires Shows(w)
      modifies this
      ensures Shows(Step(w, Action.Remove(ids, write)))
    {
      var s := new Section(file);
      s.Filter(RemoveRegular(ids));
      if write != Fails { file := s.messages; }
    }

    /** The first section of `offerActive`: whether asking the harness is worth it. */
    method HasPending(harness: string, session: string, now: int) returns (pending: bool)
      ensures pending <==> exists i :: 0 <= i < |Update(file, Expiring(now))| && Addressed(Update(file, Expiring(now))[i], harness, session)
                             && IsPending(Update(file, Expiring(now))[i])
    {
      var s := new Section(file);
      s.ExpireActive(now);
      var i := 0;
      while i < |s.messages|
        invariant i <= |s.messages|
        invariant forall j :: 0 <= j < i ==> !(Addressed(s.messages[j], harness, session) && IsPending(s.messages[j]))
      {
        if Addressed(s.messages[i], harness, session) && IsPending(s.messages[i]) { return true; }
        i := i + 1;
      }
      pending := false;
    }

    /** The second section, with the file read again. */
    method OfferActive(
        harness: string, session: string, identity: string, now: int, allowed: bool, later: int, write: Write, ghost w: World)
      returns (offered: seq<Message>)
      requires Shows(w)
      modifies this
      ensures Shows(Step(w, Action.OfferActive(harness, session, identity, now, allowed, later, write)))
      ensures Step(w, Action.OfferActive(harness, session, identity, now, allowed, later, write)).offers ==
                w.offers + Tag(offered, harness, session, identity)
    {
      offered := [];
      ghost var a := Action.OfferActive(harness, session, identity, now, allowed, later, write);
      if write != Done || identity == "" || !allowed { NothingOffered(w, a); }
      if write != Fails && identity != "" && allowed { OfferedStep(w, a); }
      if identity == "" { return; }
      var s := new Section(file);
      s.ExpireActive(now);
      if !allowed {
        if write != Fails { file := s.messages; }
        return;
      }
      s.ExpireActive(later);
      offered := s.MakeOffer(harness, session, identity);
      if write != Fails { file := s.messages; }
      if write != Done { offered := []; }
    }

    method DiscardActive(harness: string, session: string, now: int, write: Write, ghost w: World)
      requires Shows(w)
      modifies this
      ensures Shows(Step(w, Action.DiscardActive(harness, session, now, write)))
    {
      var s := new Section(file);
      s.ExpireActive(now);
      s.Each(Discard(harness, session));
      if write != Fails { file := s.messages; }
    }

    method AcknowledgeActive(session: string, ids: set<Id>, write: Write, ghost w: World)
      requires Shows(w)
      modifies this
      ensures Shows(Step(w, Action.AcknowledgeActive(session, ids, write)))
    {
      var s := new Section(file);
      s.Each(Acknowledge(session, ids));
      if write != Fails { file := s.messages; }
    }

    /** `addActive`; the counts are taken over what is left after expiry. */
    method AddActive(
        harness: string, session: string, identity: string, inputId: string, text: string, bytes: nat, deferredIds: seq<Id>,
        now: int, write: Write, ghost w: World)
      returns (outcome: AddOutcome)
      requires Shows(w)
      modifies this
      ensures var ms := Update(w.messages, Expiring(now)); var prior := DigestOf(ms, harness, session, inputId);
              outcome == if prior == Some(text) then Prior else if prior.Some? then Conflict
                         else if Refused(ms, session, identity, inputId, bytes) then OverBudget else Added
      ensures Shows(Step(w, Action.AddActive(harness, session, identity, inputId, text, bytes, deferredIds, now, write)))
    {
      var s := new Section(file);
      s.ExpireActive(now);
      var active, pending, prior := s.Count(harness, session, inputId);
      if prior.Some? { return if prior.value == text then Prior else Conflict; }
      if identity == "" || inputId == "" || bytes > MaxBytes || active >= MaxActive || pending >= MaxPending { return OverBudget; }
      outcome := Added;
      if write != Fails {
        file := s.messages + [Message(nextId, session, text, now,
                                      Some(Turn(harness, identity, inputId, text, now + ActiveTtl, Pending, deferredIds)))];
        nextId := nextId + 1;
      }
    }
  }

  lemma {:induction false} HasTextAt(ms: seq<Message>, session: string, text: string, i: nat)
    requires i < |ms| && SameText(ms[i], session, text)
    ensures HasText(ms, session, text)
  {
    if i < |ms| - 1 { HasTextAt(ms[..|ms| - 1], session, text, i); }
  }
}
