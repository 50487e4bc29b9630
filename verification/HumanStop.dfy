/** The durable fence for human interruptions of src/human-stop-store.ts. */
module HumanStop {
  // The file maps a session to its record; every call normalises its arguments, reads the file under the
  // lock, changes it and writes it back, or runs inside the section that `withSourcesUnheld` keeps locked.
  // SHA-256 is injective, so a generated prompt is kept as its text; instants are milliseconds.

  import opened Common
  import opened KeyedRows
  import opened Text

  const MaxIdLength: nat := 512
  const MaxTitleLength: nat := 500
  const MaxReasonLength: nat := 1000
  const MaxIgnoredStopIds: nat := 128
  const MaxGeneratedPrompts: nat := 128
  const GeneratedPromptTtl: nat := 300_000
  const MaxPromptTextLength: nat := 100_000

  datatype Key = Key(harness: string, session: string)

  datatype Target = Target(harness: string, session: string, cwd: Option<string>, title: Option<string>)

  /** Evidence as given; `at` is the parsed instant, if it parses. */
  datatype RawStop = RawStop(rawId: string, rawAt: Option<int>, rawReason: string, rawTurn: Option<string>)

  datatype Stop = Stop(id: string, at: int, reason: string, turnId: Option<string>)

  datatype RawPrompt = RawPrompt(
    rawId: string, rawAt: Option<int>, rawTurn: Option<string>, origin: Option<string>, kind: Option<string>,
    inputId: Option<string>, automated: bool, synthetic: bool, rawText: Option<string>)

  datatype Prompt = Prompt(id: string, at: int, turnId: Option<string>, text: Option<string>)

  datatype Clearing = ExplicitResume | NewUserPrompt

  datatype Record = Record(
    key: Key, active: bool, stop: Stop, ignored: seq<string>,
    clearedAt: Option<int>, clearedBy: Option<Clearing>, cwd: Option<string>, title: Option<string>)

  datatype Generated = Generated(key: Key, digest: string, turnId: Option<string>, expiresAt: int)

  datatype File = File(sessions: map<Key, Record>, generated: seq<Generated>)

  // ---------------------------------------------------------------------------------------------
  // Normalising
  // ---------------------------------------------------------------------------------------------

  /** `bounded`: the trimmed text, unless it is blank or too long. */
  function Bounded(s: string, max: nat): Option<string> {
    if Trim(s) == "" || |s| > max then None else Some(Trim(s))
  }

  /** Text that normalising leaves as it is. */
  predicate Clean(s: string, max: nat) {
    Bounded(s, max) == Some(s)
  }

  predicate KnownHarness(s: string) {
    s == "opencode" || s == "claude" || s == "codex" || s == "qoder" || s == "hermes" || s == "zcode" || s == "fast-agent"
    || s == "chatgpt" || s == "zai" || s == "browser-chat" || s == "minimax-code"
  }

  /** `normalizeHarness` and the session id. */
  function NormalKey(harness: string, session: string): Option<Key> {
    match (Bounded(harness, MaxIdLength), Bounded(session, MaxIdLength))
    case (Some(h), Some(s)) => if KnownHarness(h) then Some(Key(h, s)) else None
    case _ => None
  }

  /** The key of the calls that only bound the harness. */
  function LooseKey(harness: string, session: string): Option<Key> {
    match (Bounded(harness, MaxIdLength), Bounded(session, MaxIdLength))
    case (Some(h), Some(s)) => Some(Key(h, s))
    case _ => None
  }

  /** Absent or empty text stays absent; other text has to be acceptable. */
  function NormalText(s: Option<string>, max: nat): Option<Option<string>> {
    if s == None || s.value == "" then Some(None)
    else
      match Bounded(s.value, max)
      case Some(text) => Some(Some(text))
      case None => None
  }

  function NormalTarget(t: Target): Option<Target> {
    match (NormalKey(t.harness, t.session), NormalText(t.title, MaxTitleLength))
    case (Some(k), Some(title)) => Some(Target(k.harness, k.session, t.cwd, title))
    case _ => None
  }

  function NormalStop(e: RawStop): Option<Stop> {
    match (Bounded(e.rawId, MaxIdLength), e.rawAt, Bounded(e.rawReason, MaxReasonLength), NormalText(e.rawTurn, MaxIdLength))
    case (Some(id), Some(at), Some(reason), Some(turn)) => Some(Stop(id, at, reason, turn))
    case _ => None
  }

  predicate GeneratedId(s: Option<string>) {
    s.Some? && "agent-herder:auto:" <= s.value
  }

  predicate RealUser(p: RawPrompt, id: string, turn: Option<string>) {
    && (p.origin.Some? ==> Lower(Trim(p.origin.value)) in ["real_user", "human", "user"])
    && (p.kind.Some? ==> Lower(Trim(p.kind.value)) == "user_prompt")
    && !p.automated && !p.synthetic
    && !GeneratedId(Some(id)) && !GeneratedId(turn) && !GeneratedId(p.inputId)
  }

  /** A prompt that a real user typed, or nothing. */
  function NormalPrompt(p: RawPrompt): Option<Prompt> {
    match (Bounded(p.rawId, MaxIdLength), p.rawAt, NormalText(p.rawTurn, MaxIdLength))
    case (Some(id), Some(at), Some(turn)) =>
      if RealUser(p, id, turn) then
        Some(Prompt(id, at, turn, if p.rawText.Some? && |p.rawText.value| <= MaxPromptTextLength then p.rawText else None))
      else None
    case _ => None
  }

  function MaybeStop(e: Option<RawStop>): Option<Stop> {
    if e.Some? then NormalStop(e.value) else None
  }

  function MaybePrompt(p: Option<RawPrompt>): Option<Prompt> {
    if p.Some? then NormalPrompt(p.value) else None
  }

  // ---------------------------------------------------------------------------------------------
  // Reading a file back
  // ---------------------------------------------------------------------------------------------

  function Dedupe(ids: seq<string>): seq<string> {
    if ids == [] then []
    else
      var last := ids[|ids| - 1];
      var rest := Dedupe(ids[..|ids| - 1]);
      if last in rest then rest else rest + [last]
  }

  function BoundIds(ids: seq<string>): seq<string> {
    Last(MaxIgnoredStopIds, Dedupe(ids))
  }

  function ParseStop(e: Stop): Option<Stop> {
    NormalStop(RawStop(e.id, Some(e.at), e.reason, e.turnId))
  }

  /** `parseRecord`. */
  function ParseRecord(r: Record): Option<Record> {
    match (NormalKey(r.key.harness, r.key.session), ParseStop(r.stop), if r.title.Some? then Bounded(r.title.value, MaxTitleLength) else Some(""))
    case (Some(key), Some(stop), Some(title)) =>
      var ids := Dedupe(r.ignored);
      if r.active && stop.id in ids then None
      else Some(Record(key, r.active, stop, ids, r.clearedAt, r.clearedBy, r.cwd, if r.title.Some? then Some(title) else None))
    case _ => None
  }

  function Reparsed(r: Record): Record {
    if ParseRecord(r).Some? then ParseRecord(r).value else r
  }

  predicate Readable(file: File) {
    forall k :: k in file.sessions ==> ParseRecord(file.sessions[k]).Some?
  }

  /** `readUnsafe`: nothing when the file cannot be parsed. */
  function Read(file: File): Option<File> {
    if Readable(file) then
      Some(File(map k | k in file.sessions :: Reparsed(file.sessions[k]), Last(MaxGeneratedPrompts, file.generated)))
    else None
  }

  // ---------------------------------------------------------------------------------------------
  // The calls
  // ---------------------------------------------------------------------------------------------

  predicate Held(file: File, k: Key) {
    k in file.sessions && file.sessions[k].active
  }

  /** `isStaleClearedStop`. */
  predicate Stale(r: Record, e: Stop) {
    !r.active && r.clearedAt.Some?
    && ((r.stop.turnId.Some? && e.turnId == r.stop.turnId) || e.at <= r.clearedAt.value)
  }

  /** `isStrictlyNewerPrompt`, of a prompt known to be a real user's. */
  predicate Newer(p: Prompt, e: Stop) {
    p.id != e.id && !(p.turnId.Some? && p.turnId == e.turnId) && p.at > e.at
  }

  predicate Matches(g: Generated, k: Key, p: Prompt, now: int) {
    && g.key == k && g.expiresAt > now
    && (if g.turnId.Some? && p.turnId.Some? then p.turnId == g.turnId else p.text.Some? && p.text.value == g.digest)
  }

  predicate MatchesAt(gs: seq<Generated>, i: nat, k: Key, p: Prompt, now: int)
    requires i < |gs|
  {
    Matches(gs[i], k, p, now)
  }

  predicate IsGenerated(gs: seq<Generated>, k: Key, p: Prompt, now: int) {
    exists i: nat :: i < |gs| && MatchesAt(gs, i, k, p, now)
  }

  function Put(file: File, r: Record): File {
    file.(sessions := file.sessions[r.key := r])
  }

  function MergeTarget(r: Record, t: Target): Record {
    r.(cwd := if t.cwd.Some? then t.cwd else r.cwd, title := if t.title.Some? then t.title else r.title)
  }

  /** The record a stop leaves for a session that has one. */
  function HeldRecord(r: Record, t: Target, e: Stop): Record {
    if e.id in r.ignored then r
    else if Stale(r, e) then r.(ignored := BoundIds(r.ignored + [e.id]))
    else if r.active && r.stop.id == e.id then
      MergeTarget(r, t).(stop := if r.stop.turnId.None? && e.turnId.Some? then r.stop.(turnId := e.turnId) else r.stop)
    else
      MergeTarget(r, t).(active := true, stop := e,
                         ignored := BoundIds(r.ignored + if r.stop.id != e.id then [r.stop.id] else []))
  }

  function TargetKey(t: Target): Key {
    Key(t.harness, t.session)
  }

  /** `hold`. */
  function AfterHold(file: File, t: Target, e: Stop): File {
    var k := TargetKey(t);
    if k in file.sessions then file.(sessions := file.sessions[k := HeldRecord(file.sessions[k], t, e)])
    else file.(sessions := file.sessions[k := Record(k, true, e, [], None, None, t.cwd, t.title)])
  }

  function Cleared(r: Record, p: Option<Prompt>, now: int): Record {
    r.(active := false, ignored := BoundIds(r.ignored + [r.stop.id]),
       clearedAt := Some(if p.Some? then p.value.at else now),
       clearedBy := Some(if p.Some? then NewUserPrompt else ExplicitResume))
  }

  /** Whether a clearing prompt, or a promptless resume, applies to the session as it is recorded. */
  predicate MayClear(file: File, k: Key, p: Option<Prompt>, now: int) {
    && Held(file, k)
    && (p.Some? ==> !IsGenerated(file.generated, k, p.value, now) && Newer(p.value, file.sessions[k].stop))
  }

  /** `release`. */
  function AfterRelease(file: File, k: Key, p: Option<Prompt>, now: int): File {
    if MayClear(file, k, p, now) then file.(sessions := file.sessions[k := Cleared(file.sessions[k], p, now)]) else file
  }

  /** `observe`: the stop first, then the prompt. */
  function AfterObserve(file: File, t: Target, e: Option<Stop>, p: Option<Prompt>, now: int): File {
    var stopped := if e.Some? then AfterHold(file, t, e.value) else file;
    if p.Some? then AfterRelease(stopped, TargetKey(t), p, now) else stopped
  }

  /** `ignoreNativeStop`. */
  function Ignore(file: File, k: Key, e: Stop): File {
    if k !in file.sessions then file.(sessions := file.sessions[k := Record(k, false, e, [e.id], None, None, None, None)])
    else
      var r := file.sessions[k];
      if r.stop.id == e.id || e.id in r.ignored then file
      else file.(sessions := file.sessions[k := r.(ignored := BoundIds(r.ignored + [e.id]))])
  }

  /** `checkpointOwnedZcodeShutdown` of a zcode session, given the encoded identities of the proof and its context. */
  function Checkpoint(file: File, k: Key, context: Option<string>, e: Stop): File {
    var ids := (if context.Some? then [context.value] else []) + [e.id];
    if k !in file.sessions then file.(sessions := file.sessions[k := Record(k, false, e, BoundIds(ids), None, None, None, None)])
    else
      var r := file.sessions[k];
      if r.active then file else file.(sessions := file.sessions[k := r.(ignored := BoundIds(r.ignored + ids))])
  }

  /** An older entry that a newly remembered one makes superfluous. */
  predicate Superseded(older: Generated, g: Generated, now: int) {
    || older.expiresAt <= now
    || (older.key == g.key && older.digest == g.digest && (g.turnId.Some? ==> older.turnId.None? || older.turnId == g.turnId))
  }

  function Retained(gs: seq<Generated>, g: Generated, now: int): seq<Generated> {
    if gs == [] then []
    else
      var rest := Retained(gs[..|gs| - 1], g, now);
      if Superseded(gs[|gs| - 1], g, now) then rest else rest + [gs[|gs| - 1]]
  }

  /** `rememberGeneratedPrompt`. */
  function Remember(file: File, g: Generated, now: int): File {
    file.(generated := Last(MaxGeneratedPrompts, Retained(file.generated, g, now) + [g]))
  }

  // ---------------------------------------------------------------------------------------------
  // Calls with raw arguments
  // ---------------------------------------------------------------------------------------------

  datatype Op =
    | OpHold(target: Target, stop: RawStop)
    | OpObserve(target: Target, seen: Option<RawStop>, prompt: Option<RawPrompt>, now: int)
    | OpRelease(harness: string, session: string, prompt: Option<RawPrompt>, now: int)
    | OpIgnore(harness: string, session: string, stop: RawStop)
    | OpCheckpoint(session: string, context: Option<string>, proof: Stop)
    | OpRemember(harness: string, session: string, text: string, turn: Option<string>, now: int)

  /** A call on a readable file; rejected arguments leave it alone. */
  function Apply(file: File, op: Op): File {
    match op
    case OpHold(target, stop) =>
      (match (NormalTarget(target), NormalStop(stop))
       case (Some(t), Some(e)) => AfterHold(file, t, e)
       case _ => file)
    case OpObserve(target, seen, prompt, now) =>
      (match NormalTarget(target)
       case Some(t) => AfterObserve(file, t, MaybeStop(seen), MaybePrompt(prompt), now)
       case None => file)
    case OpRelease(harness, session, prompt, now) =>
      (match LooseKey(harness, session)
       case Some(k) => if prompt.Some? && MaybePrompt(prompt).None? then file else AfterRelease(file, k, MaybePrompt(prompt), now)
       case None => file)
    case OpIgnore(harness, session, stop) =>
      (match (LooseKey(harness, session), NormalStop(stop))
       case (Some(k), Some(e)) => Ignore(file, k, e)
       case _ => file)
    case OpCheckpoint(session, context, proof) =>
      (match Bounded(session, MaxIdLength)
       case Some(id) => if ProofAccepted(context, proof) then Checkpoint(file, ZcodeKey(id), context, proof) else file
       case None => file)
    case OpRemember(harness, session, text, turn, now) =>
      (match (NormalKey(harness, session), NormalText(turn, MaxIdLength))
       case (Some(k), Some(t)) =>
         if Trim(text) == "" || |text| > MaxPromptTextLength then file
         else Remember(file, Generated(k, text, t, now + GeneratedPromptTtl), now)
       case _ => file)
  }

  function ZcodeKey(session: string): Key {
    Key("zcode", session)
  }

  /** A proof names its turn, but the turn is not trimmed or bounded as other evidence is. */
  predicate ProofAccepted(context: Option<string>, proof: Stop) {
    && Clean(proof.id, MaxIdLength) && (context.Some? ==> Clean(context.value, MaxIdLength))
    && proof.turnId.Some? && 0 < |proof.turnId.value| <= MaxIdLength
    && proof.reason == "Owned Herder runtime shutdown"
  }

  // ---------------------------------------------------------------------------------------------
  // Normalising is idempotent
  // ---------------------------------------------------------------------------------------------

  lemma BoundedIsClean(s: string, max: nat)
    ensures Bounded(s, max).Some? ==> Clean(Bounded(s, max).value, max)
  {
    TrimTwice(s);
  }

  predicate KeyFits(k: Key) {
    Clean(k.harness, MaxIdLength) && Clean(k.session, MaxIdLength)
  }

  lemma KeyIsClean(harness: string, session: string)
    ensures LooseKey(harness, session).Some? ==> KeyFits(LooseKey(harness, session).value)
    ensures NormalKey(harness, session).Some? <==>
              LooseKey(harness, session).Some? && KnownHarness(LooseKey(harness, session).value.harness)
    ensures NormalKey(harness, session).Some? ==> NormalKey(harness, session) == LooseKey(harness, session)
  {
    BoundedIsClean(harness, MaxIdLength);
    BoundedIsClean(session, MaxIdLength);
  }

  predicate TextFits(s: Option<string>, max: nat) {
    s.Some? ==> Clean(s.value, max)
  }

  lemma TextIsClean(s: Option<string>, max: nat)
    ensures NormalText(s, max).Some? ==> TextFits(NormalText(s, max).value, max)
    ensures TextFits(s, max) ==> NormalText(s, max) == Some(s)
  {
    if s.Some? { BoundedIsClean(s.value, max); }
  }

  /** A turn id as it may stand in a file: not empty, but not trimmed when it came with a shutdown proof. */
  predicate StopFits(e: Stop) {
    && Clean(e.id, MaxIdLength) && Clean(e.reason, MaxReasonLength)
    && (e.turnId.Some? ==> 0 < |e.turnId.value| <= MaxIdLength)
  }

  lemma StopIsClean(e: RawStop)
    ensures NormalStop(e).Some? ==>
              StopFits(NormalStop(e).value) && TextFits(NormalStop(e).value.turnId, MaxIdLength)
  {
    BoundedIsClean(e.rawId, MaxIdLength);
    BoundedIsClean(e.rawReason, MaxReasonLength);
    TextIsClean(e.rawTurn, MaxIdLength);
  }

  // ---------------------------------------------------------------------------------------------
  // The shape of every file, and when it can be read back
  // ---------------------------------------------------------------------------------------------

  ghost predicate Distinct(ids: seq<string>) {
    forall i, j :: 0 <= i < |ids| && 0 <= j < |ids| && ids[i] == ids[j] ==> i == j
  }

  lemma {:induction false} DedupeFits(ids: seq<string>)
    ensures Distinct(Dedupe(ids))
    ensures forall id :: id in Dedupe(ids) <==> id in ids
    ensures Distinct(ids) ==> Dedupe(ids) == ids
  {
    if ids != [] {
      var init := ids[..|ids| - 1];
      DedupeFits(init);
      assert ids == init + [ids[|ids| - 1]];
    }
  }

  lemma BoundIdsFit(ids: seq<string>)
    ensures Distinct(BoundIds(ids)) && |BoundIds(ids)| <= MaxIgnoredStopIds
    ensures forall id :: id in BoundIds(ids) ==> id in ids
  {
    DedupeFits(ids);
  }

  /** One record per session under its own key; an active stop is not an ignored one; at most 128 distinct
      ignored ids; clean text but for the turn. */
  ghost predicate RecordFits(k: Key, r: Record) {
    && r.key == k && TextsFit(k, r.stop, r.title)
    && IdsFit(r.active, r.stop.id, r.ignored)
  }

  ghost predicate TextsFit(k: Key, e: Stop, title: Option<string>) {
    KeyFits(k) && StopFits(e) && TextFits(title, MaxTitleLength)
  }

  ghost predicate IdsFit(active: bool, stopId: string, ignored: seq<string>) {
    Distinct(ignored) && |ignored| <= MaxIgnoredStopIds && (active ==> stopId !in ignored)
  }

  ghost predicate FileFits(file: File) {
    && (forall k :: k in file.sessions ==> RecordFits(k, file.sessions[k]))
    && |file.generated| <= MaxGeneratedPrompts
  }

  /** What makes a record unreadable. */
  predicate RecordReadable(r: Record) {
    KnownHarness(r.key.harness) && (r.stop.turnId.Some? ==> Trim(r.stop.turnId.value) != "")
  }

  /** Reading a record back changes nothing but the blanks around a turn id. */
  lemma ParseFits(k: Key, r: Record)
    requires RecordFits(k, r)
    ensures ParseRecord(r).Some? <==> RecordReadable(r)
    ensures ParseRecord(r).Some? ==>
              && ParseRecord(r).value == r.(stop := r.stop.(turnId := ParseRecord(r).value.stop.turnId))
              && NormalText(r.stop.turnId, MaxIdLength) == Some(ParseRecord(r).value.stop.turnId)
              && RecordFits(k, ParseRecord(r).value)
    ensures TextFits(r.stop.turnId, MaxIdLength) && KnownHarness(k.harness) ==> ParseRecord(r) == Some(r)
  {
    DedupeFits(r.ignored);
    TextIsClean(r.stop.turnId, MaxIdLength);
    if r.stop.turnId.Some? { TrimTwice(r.stop.turnId.value); }
  }

  lemma ReadFits(file: File)
    requires FileFits(file)
    ensures Read(file).Some? <==> forall k :: k in file.sessions ==> RecordReadable(file.sessions[k])
    ensures Read(file).Some? ==> FileFits(Read(file).value) && forall k :: Held(file, k) <==> Held(Read(file).value, k)
  {
    forall k | k in file.sessions
      ensures ParseRecord(file.sessions[k]).Some? <==> RecordReadable(file.sessions[k])
      ensures ParseRecord(file.sessions[k]).Some? ==>
                RecordFits(k, Reparsed(file.sessions[k])) && Reparsed(file.sessions[k]).active == file.sessions[k].active
    {
      ParseFits(k, file.sessions[k]);
    }
  }

  lemma HeldRecordFits(k: Key, r: Record, t: Target, e: Stop)
    requires RecordFits(k, r) && TextFits(t.title, MaxTitleLength) && StopFits(e)
    ensures RecordFits(k, HeldRecord(r, t, e))
    ensures HeldRecord(r, t, e).active <==> r.active || (e.id !in r.ignored && !Stale(r, e))
  {
    BoundIdsFit(r.ignored + [e.id]);
    BoundIdsFit(r.ignored + if r.stop.id != e.id then [r.stop.id] else []);
  }

  lemma HoldFits(file: File, t: Target, e: Stop)
    requires FileFits(file) && KeyFits(TargetKey(t)) && TextFits(t.title, MaxTitleLength) && StopFits(e)
    ensures FileFits(AfterHold(file, t, e))
  {
    var k := TargetKey(t);
    if k in file.sessions { HeldRecordFits(k, file.sessions[k], t, e); }
  }

  lemma ReleaseFits(file: File, k: Key, p: Option<Prompt>, now: int)
    requires FileFits(file)
    ensures FileFits(AfterRelease(file, k, p, now))
  {
    if k in file.sessions { BoundIdsFit(file.sessions[k].ignored + [file.sessions[k].stop.id]); }
  }

  lemma MoreIgnoredFits(k: Key, r: Record, ids: seq<string>)
    requires RecordFits(k, r) && (r.active ==> r.stop.id !in ids)
    ensures RecordFits(k, r.(ignored := BoundIds(r.ignored + ids)))
  {
    BoundIdsFit(r.ignored + ids);
  }

  lemma IgnoreFits(file: File, k: Key, e: Stop)
    requires FileFits(file) && KeyFits(k) && StopFits(e)
    ensures FileFits(Ignore(file, k, e))
  {
    if k in file.sessions && file.sessions[k].stop.id != e.id { MoreIgnoredFits(k, file.sessions[k], [e.id]); }
  }

  lemma CheckpointFits(file: File, k: Key, context: Option<string>, e: Stop)
    requires FileFits(file) && KeyFits(k) && StopFits(e)
    ensures FileFits(Checkpoint(file, k, context, e))
  {
    var ids := (if context.Some? then [context.value] else []) + [e.id];
    if k !in file.sessions {
      BoundIdsFit(ids);
    } else if !file.sessions[k].active {
      MoreIgnoredFits(k, file.sessions[k], ids);
    }
  }

  lemma ZcodeIsClean()
    ensures Clean("zcode", MaxIdLength) && Clean("Owned Herder runtime shutdown", MaxReasonLength)
  {
    var z, r := "zcode", "Owned Herder runtime shutdown";
    assert !Blank(z[0]) && !Blank(z[|z| - 1]) && !Blank(r[0]) && !Blank(r[|r| - 1]);
  }

  lemma TargetIsClean(t: Target)
    ensures NormalTarget(t).Some? ==>
              var n := NormalTarget(t).value; KeyFits(TargetKey(n)) && KnownHarness(n.harness) && TextFits(n.title, MaxTitleLength)
  {
    KeyIsClean(t.harness, t.session);
    TextIsClean(t.title, MaxTitleLength);
  }

  /** Every call keeps the shape of the file, whatever its arguments. */
  lemma ApplyFits(file: File, op: Op)
    requires FileFits(file)
    ensures FileFits(Apply(file, op))
  {
    match op
    case OpHold(target, stop) =>
      TargetIsClean(target);
      StopIsClean(stop);
      if NormalTarget(target).Some? && NormalStop(stop).Some? { HoldFits(file, NormalTarget(target).value, NormalStop(stop).value); }
    case OpObserve(target, seen, prompt, now) =>
      TargetIsClean(target);
      if NormalTarget(target).Some? {
        var t := NormalTarget(target).value;
        if MaybeStop(seen).Some? {
          StopIsClean(seen.value);
          HoldFits(file, t, MaybeStop(seen).value);
        }
        var stopped := if MaybeStop(seen).Some? then AfterHold(file, t, MaybeStop(seen).value) else file;
        ReleaseFits(stopped, TargetKey(t), MaybePrompt(prompt), now);
      }
    case OpRelease(harness, session, prompt, now) =>
      if LooseKey(harness, session).Some? { ReleaseFits(file, LooseKey(harness, session).value, MaybePrompt(prompt), now); }
    case OpIgnore(harness, session, stop) =>
      KeyIsClean(harness, session);
      StopIsClean(stop);
      if LooseKey(harness, session).Some? && NormalStop(stop).Some? {
        IgnoreFits(file, LooseKey(harness, session).value, NormalStop(stop).value);
      }
    case OpCheckpoint(session, context, proof) =>
      BoundedIsClean(session, MaxIdLength);
      ZcodeIsClean();
      if Bounded(session, MaxIdLength).Some? && ProofAccepted(context, proof) {
        CheckpointFits(file, ZcodeKey(Bounded(session, MaxIdLength).value), context, proof);
      }
    case OpRemember(_, _, _, _, _) =>
  }

  // ---------------------------------------------------------------------------------------------
  // When a file cannot be read back
  // ---------------------------------------------------------------------------------------------

  /** A native stop ignored for a session without a record under an unknown harness, or a shutdown proof for
      one with a blank turn. */
  predicate Spoils(file: File, op: Op) {
    match op
    case OpIgnore(harness, session, stop) =>
      LooseKey(harness, session).Some? && NormalStop(stop).Some? && NormalKey(harness, session).None?
      && LooseKey(harness, session).value !in file.sessions
    case OpCheckpoint(session, context, proof) =>
      Bounded(session, MaxIdLength).Some? && ProofAccepted(context, proof) && Trim(proof.turnId.value) == ""
      && ZcodeKey(Bounded(session, MaxIdLength).value) !in file.sessions
    case _ => false
  }

  /** The only record a call can change. */
  function Touched(op: Op): Option<Key> {
    match op
    case OpHold(target, _) => LooseKey(target.harness, target.session)
    case OpObserve(target, _, _, _) => LooseKey(target.harness, target.session)
    case OpRelease(harness, session, _, _) => LooseKey(harness, session)
    case OpIgnore(harness, session, _) => LooseKey(harness, session)
    case OpCheckpoint(session, _, _) => if Bounded(session, MaxIdLength).Some? then Some(ZcodeKey(Bounded(session, MaxIdLength).value)) else None
    case OpRemember(_, _, _, _, _) => None
  }

  lemma OnlyTouched(file: File, op: Op, k: Key)
    requires Touched(op) != Some(k)
    ensures k in Apply(file, op).sessions <==> k in file.sessions
    ensures k in file.sessions ==> Apply(file, op).sessions[k] == file.sessions[k]
  {
    match op
    case OpHold(target, _) => KeyIsClean(target.harness, target.session);
    case OpObserve(target, _, _, _) => KeyIsClean(target.harness, target.session);
    case OpRelease(_, _, _, _) =>
    case OpIgnore(_, _, _) =>
    case OpCheckpoint(_, _, _) =>
    case OpRemember(_, _, _, _, _) =>
  }

  lemma HeldRecordReads(r: Record, t: Target, e: Stop)
    requires RecordReadable(r) && TextFits(e.turnId, MaxIdLength)
    ensures RecordReadable(HeldRecord(r, t, e))
  {
  }

  lemma NewRecordReads(t: Target, e: Stop)
    requires KnownHarness(t.harness) && TextFits(e.turnId, MaxIdLength)
    ensures RecordReadable(Record(TargetKey(t), true, e, [], None, None, t.cwd, t.title))
  {
  }

  lemma HoldReads(file: File, t: Target, e: Stop)
    requires KnownHarness(t.harness) && TextFits(e.turnId, MaxIdLength)
    requires TargetKey(t) in file.sessions ==> RecordReadable(file.sessions[TargetKey(t)])
    ensures RecordReadable(AfterHold(file, t, e).sessions[TargetKey(t)])
  {
    if TargetKey(t) in file.sessions { HeldRecordReads(file.sessions[TargetKey(t)], t, e); } else { NewRecordReads(t, e); }
  }

  lemma IgnoreReads(file: File, k: Key, e: Stop)
    requires FileFits(file) && TextFits(e.turnId, MaxIdLength)
    requires k in file.sessions ==> RecordReadable(file.sessions[k])
    ensures RecordReadable(Ignore(file, k, e).sessions[k]) <==> k in file.sessions || KnownHarness(k.harness)
  {
  }

  lemma CheckpointReads(file: File, k: Key, context: Option<string>, e: Stop)
    requires FileFits(file) && e.turnId.Some? && KnownHarness(k.harness)
    requires k in file.sessions ==> RecordReadable(file.sessions[k])
    ensures RecordReadable(Checkpoint(file, k, context, e).sessions[k]) <==> k in file.sessions || Trim(e.turnId.value) != ""
  {
  }

  lemma HoldCallReads(file: File, op: Op, k: Key)
    requires op.OpHold? && Touched(op) == Some(k)
    requires k in file.sessions ==> RecordReadable(file.sessions[k])
    ensures k in Apply(file, op).sessions ==> RecordReadable(Apply(file, op).sessions[k])
  {
    TargetIsClean(op.target);
    KeyIsClean(op.target.harness, op.target.session);
    StopIsClean(op.stop);
    if NormalTarget(op.target).Some? && NormalStop(op.stop).Some? {
      HoldApplies(file, op, NormalTarget(op.target).value, NormalStop(op.stop).value);
      HoldReads(file, NormalTarget(op.target).value, NormalStop(op.stop).value);
    }
  }

  /** Clearing changes no text. */
  lemma ReleaseReads(file: File, k: Key, p: Option<Prompt>, now: int)
    requires k in file.sessions ==> RecordReadable(file.sessions[k])
    ensures k in AfterRelease(file, k, p, now).sessions ==> RecordReadable(AfterRelease(file, k, p, now).sessions[k])
  {
  }

  lemma ObserveApplies(file: File, op: Op, t: Target)
    requires op.OpObserve? && NormalTarget(op.target) == Some(t)
    ensures Apply(file, op) == AfterObserve(file, t, MaybeStop(op.seen), MaybePrompt(op.prompt), op.now)
  {
  }

  lemma ObserveCallReads(file: File, op: Op, k: Key)
    requires op.OpObserve? && Touched(op) == Some(k)
    requires k in file.sessions ==> RecordReadable(file.sessions[k])
    ensures k in Apply(file, op).sessions ==> RecordReadable(Apply(file, op).sessions[k])
  {
    TargetIsClean(op.target);
    KeyIsClean(op.target.harness, op.target.session);
    if NormalTarget(op.target).Some? {
      var t := NormalTarget(op.target).value;
      ObserveApplies(file, op, t);
      if MaybeStop(op.seen).Some? {
        StopIsClean(op.seen.value);
        HoldReads(file, t, MaybeStop(op.seen).value);
        ReleaseReads(AfterHold(file, t, MaybeStop(op.seen).value), k, MaybePrompt(op.prompt), op.now);
      } else {
        ReleaseReads(file, k, MaybePrompt(op.prompt), op.now);
      }
    }
  }

  lemma TouchedIgnoreReads(file: File, op: Op, k: Key)
    requires FileFits(file) && op.OpIgnore? && Touched(op) == Some(k)
    requires k in file.sessions ==> RecordReadable(file.sessions[k])
    ensures k in Apply(file, op).sessions ==> (RecordReadable(Apply(file, op).sessions[k]) <==> !Spoils(file, op))
    ensures k !in Apply(file, op).sessions ==> !Spoils(file, op)
  {
    KeyIsClean(op.harness, op.session);
    StopIsClean(op.stop);
    if NormalStop(op.stop).Some? { IgnoreReads(file, k, NormalStop(op.stop).value); }
  }

  lemma TouchedCheckpointReads(file: File, op: Op, k: Key)
    requires FileFits(file) && op.OpCheckpoint? && Touched(op) == Some(k)
    requires k in file.sessions ==> RecordReadable(file.sessions[k])
    ensures k in Apply(file, op).sessions ==> (RecordReadable(Apply(file, op).sessions[k]) <==> !Spoils(file, op))
    ensures k !in Apply(file, op).sessions ==> !Spoils(file, op)
  {
    if ProofAccepted(op.context, op.proof) { CheckpointReads(file, k, op.context, op.proof); }
  }

  /** The record a call touches can be read back unless the call is one that spoils it. */
  lemma TouchedReads(file: File, op: Op, k: Key)
    requires FileFits(file) && Touched(op) == Some(k) && (k in file.sessions ==> RecordReadable(file.sessions[k]))
    ensures k in Apply(file, op).sessions ==> (RecordReadable(Apply(file, op).sessions[k]) <==> !Spoils(file, op))
    ensures k !in Apply(file, op).sessions ==> !Spoils(file, op)
  {
    match op
    case OpHold(_, _) => HoldCallReads(file, op, k);
    case OpObserve(_, _, _, _) => ObserveCallReads(file, op, k);
    case OpRelease(_, _, _, _) =>
    case OpIgnore(_, _, _) => TouchedIgnoreReads(file, op, k);
    case OpCheckpoint(_, _, _) => TouchedCheckpointReads(file, op, k);
    case OpRemember(_, _, _, _, _) =>
  }

  /** From a readable file, a call leads to an unreadable one exactly when it is one of the two that spoil it. */
  lemma UnreadableIff(file: File, op: Op)
    requires FileFits(file) && Read(file).Some?
    ensures Read(Apply(file, op)).None? <==> Spoils(file, op)
  {
    var after := Apply(file, op);
    ReadFits(file);
    ApplyFits(file, op);
    ReadFits(after);
    if Touched(op).Some? { TouchedReads(file, op, Touched(op).value); }
    forall k | k in after.sessions && Touched(op) != Some(k) ensures RecordReadable(after.sessions[k]) {
      OnlyTouched(file, op, k);
    }
    if Spoils(file, op) {
      assert Touched(op).value in after.sessions;
    }
  }

  // ---------------------------------------------------------------------------------------------
  // When a session becomes held and unheld
  // ---------------------------------------------------------------------------------------------

  /** A call that may clear the session: a promptless release, or a real prompt that is not generated and
      strictly newer than the stop then recorded. */
  predicate Clears(file: File, op: Op, k: Key) {
    match op
    case OpRelease(harness, session, prompt, now) =>
      LooseKey(harness, session) == Some(k) && (prompt.Some? ==> MaybePrompt(prompt).Some?)
      && MayClear(file, k, MaybePrompt(prompt), now)
    case OpObserve(target, seen, prompt, now) =>
      NormalTarget(target).Some? && TargetKey(NormalTarget(target).value) == k && MaybePrompt(prompt).Some?
      && MayClear(AfterObserve(file, NormalTarget(target).value, MaybeStop(seen), None, now), k, MaybePrompt(prompt), now)
    case _ => false
  }

  /** A call that records a new stop for an unheld session. */
  predicate Raises(file: File, op: Op, k: Key) {
    match op
    case OpHold(target, stop) =>
      NormalTarget(target).Some? && TargetKey(NormalTarget(target).value) == k && NormalStop(stop).Some?
      && Fresh(file, k, NormalStop(stop).value)
    case OpObserve(target, seen, _, _) =>
      NormalTarget(target).Some? && TargetKey(NormalTarget(target).value) == k && MaybeStop(seen).Some?
      && Fresh(file, k, MaybeStop(seen).value)
    case _ => false
  }

  /** A stop that was not ignored, and not cleared before. */
  predicate Fresh(file: File, k: Key, e: Stop) {
    k !in file.sessions || (e.id !in file.sessions[k].ignored && !Stale(file.sessions[k], e))
  }

  lemma HoldHolds(file: File, t: Target, e: Stop)
    requires FileFits(file)
    ensures Held(AfterHold(file, t, e), TargetKey(t)) <==> Held(file, TargetKey(t)) || Fresh(file, TargetKey(t), e)
  {
  }

  lemma ObserveHeldIff(file: File, t: Target, e: Option<Stop>, p: Option<Prompt>, now: int)
    requires FileFits(file)
    ensures var k := TargetKey(t);
            Held(AfterObserve(file, t, e, p, now), k) <==>
              (Held(file, k) || (e.Some? && Fresh(file, k, e.value)))
              && !(p.Some? && MayClear(AfterObserve(file, t, e, None, now), k, p, now))
  {
    if e.Some? { HoldHolds(file, t, e.value); }
  }

  lemma HoldCallHeldIff(file: File, op: Op, k: Key)
    requires FileFits(file) && op.OpHold? && Touched(op) == Some(k)
    ensures Held(Apply(file, op), k) <==> (Held(file, k) || Raises(file, op, k)) && !Clears(file, op, k)
  {
    KeyIsClean(op.target.harness, op.target.session);
    if NormalTarget(op.target).Some? && NormalStop(op.stop).Some? {
      HoldApplies(file, op, NormalTarget(op.target).value, NormalStop(op.stop).value);
      HoldHolds(file, NormalTarget(op.target).value, NormalStop(op.stop).value);
    }
  }

  lemma ObserveCallHeldIff(file: File, op: Op, k: Key)
    requires FileFits(file) && op.OpObserve? && Touched(op) == Some(k)
    ensures Held(Apply(file, op), k) <==> (Held(file, k) || Raises(file, op, k)) && !Clears(file, op, k)
  {
    KeyIsClean(op.target.harness, op.target.session);
    if NormalTarget(op.target).Some? {
      ObserveApplies(file, op, NormalTarget(op.target).value);
      ObserveHeldIff(file, NormalTarget(op.target).value, MaybeStop(op.seen), MaybePrompt(op.prompt), op.now);
    }
  }

  lemma UntouchedHeldIff(file: File, op: Op, k: Key)
    requires Touched(op) != Some(k)
    ensures !Raises(file, op, k) && !Clears(file, op, k) && (Held(Apply(file, op), k) <==> Held(file, k))
  {
    OnlyTouched(file, op, k);
    if op.OpHold? { KeyIsClean(op.target.harness, op.target.session); }
    if op.OpObserve? { KeyIsClean(op.target.harness, op.target.session); }
  }

  /** Exactly which calls change whether a session is held. */
  lemma HeldIff(file: File, op: Op, k: Key)
    requires FileFits(file)
    ensures Held(Apply(file, op), k) <==> (Held(file, k) || Raises(file, op, k)) && !Clears(file, op, k)
  {
    if Touched(op) != Some(k) {
      UntouchedHeldIff(file, op, k);
    } else if op.OpHold? {
      HoldCallHeldIff(file, op, k);
    } else if op.OpObserve? {
      ObserveCallHeldIff(file, op, k);
    }
  }

  // ---------------------------------------------------------------------------------------------
  // Runs
  // ---------------------------------------------------------------------------------------------

  /** The locked section of `withSourcesUnheld`: the file as read, changed by the calls inside. */
  datatype Section = Section(file: File, dirty: bool, sources: set<Key>)

  datatype World = World(disk: File, section: Option<Section>)

  datatype Action =
    | Do(op: Op, writes: bool)
    | Begin(wanted: set<Key>)
    | Inner(op: Op)
    | End(writes: bool)
    | Crash

  /** A call that found nothing to change writes nothing. */
  function Next(disk: File, read: File, op: Op, writes: bool): File {
    if writes && Apply(read, op) != read then Apply(read, op) else disk
  }

  function Step(w: World, a: Action): World {
    match a
    case Do(op, writes) =>
      if w.section.None? && Read(w.disk).Some? then w.(disk := Next(w.disk, Read(w.disk).value, op, writes)) else w
    case Begin(wanted) =>
      if w.section.None? && Read(w.disk).Some? && 0 < |wanted| <= 32
         && forall k :: k in wanted ==> !Held(Read(w.disk).value, k)
      then w.(section := Some(Section(Read(w.disk).value, false, wanted)))
      else w
    case Inner(op) =>
      if w.section.Some? then
        var s := w.section.value;
        w.(section := Some(s.(file := Apply(s.file, op), dirty := s.dirty || Apply(s.file, op) != s.file)))
      else w
    case End(writes) =>
      if w.section.Some? && w.section.value.dirty && writes then World(w.section.value.file, None) else w.(section := None)
    case Crash => w.(section := None)
  }

  predicate StepAt(actions: seq<Action>, run: seq<World>, k: nat)
    requires |run| == |actions| + 1 && k < |actions|
  {
    run[k + 1] == Step(run[k], actions[k])
  }

  ghost predicate IsRun(actions: seq<Action>, run: seq<World>) {
    && |run| == |actions| + 1
    && run[0] == World(File(map[], []), None)
    && forall k: nat :: k < |actions| ==> StepAt(actions, run, k)
  }

  ghost predicate Inv(w: World) {
    && FileFits(w.disk)
    && (w.section.Some? ==> FileFits(w.section.value.file) && forall k :: k in w.section.value.sources ==> !Held(w.disk, k))
  }

  lemma NextFits(disk: File, op: Op, writes: bool)
    requires FileFits(disk) && Read(disk).Some?
    ensures FileFits(Next(disk, Read(disk).value, op, writes))
  {
    ReadFits(disk);
    ApplyFits(Read(disk).value, op);
  }

  lemma BeginKeepsInv(w: World, wanted: set<Key>)
    requires Inv(w)
    ensures Inv(Step(w, Begin(wanted)))
  {
    ReadFits(w.disk);
  }

  lemma InnerKeepsInv(w: World, op: Op)
    requires Inv(w)
    ensures Inv(Step(w, Inner(op)))
  {
    if w.section.Some? { ApplyFits(w.section.value.file, op); }
  }

  lemma DoStep(w: World, op: Op, writes: bool)
    ensures Step(w, Do(op, writes)) ==
              if w.section.None? && Read(w.disk).Some? then w.(disk := Next(w.disk, Read(w.disk).value, op, writes)) else w
  {
  }

  lemma DoKeepsInv(w: World, op: Op, writes: bool)
    requires Inv(w)
    ensures Inv(Step(w, Do(op, writes)))
  {
    DoStep(w, op, writes);
    if Read(w.disk).Some? { NextFits(w.disk, op, writes); }
  }

  lemma StepKeepsInv(w: World, a: Action)
    requires Inv(w)
    ensures Inv(Step(w, a))
  {
    match a
    case Do(op, writes) => DoKeepsInv(w, op, writes);
    case Begin(wanted) => BeginKeepsInv(w, wanted);
    case Inner(op) => InnerKeepsInv(w, op);
    case End(_) =>
    case Crash =>
  }

  lemma NextKeepsInv(actions: seq<Action>, run: seq<World>, k: nat)
    requires IsRun(actions, run) && k < |actions| && Inv(run[k])
    ensures Inv(run[k + 1])
  {
    StepKeepsInv(run[k], actions[k]);
    assert StepAt(actions, run, k);
  }

  /** Every reachable file has one record per session, at most 128 distinct ignored ids in each, and no
      active stop among them; and while an admission is in progress its sources stay unheld on disk. */
  lemma {:induction false} RunKeepsInv(actions: seq<Action>, run: seq<World>, k: nat)
    requires IsRun(actions, run) && k < |run|
    ensures Inv(run[k])
  {
    if k > 0 {
      RunKeepsInv(actions, run, k - 1);
      NextKeepsInv(actions, run, k - 1);
    }
  }

  // ---------------------------------------------------------------------------------------------
  // A held session stays held
  // ---------------------------------------------------------------------------------------------

  /** The action is a call that clears the session in the file it works on. */
  predicate ClearsIn(w: World, a: Action, k: Key) {
    match a
    case Do(op, _) => w.section.None? && Read(w.disk).Some? && Clears(Read(w.disk).value, op, k)
    case Inner(op) => w.section.Some? && Clears(w.section.value.file, op, k)
    case _ => false
  }

  predicate HeldThroughout(w: World, k: Key) {
    Held(w.disk, k) && (w.section.Some? ==> Held(w.section.value.file, k))
  }

  lemma NextKeepsHeld(disk: File, op: Op, writes: bool, k: Key)
    requires FileFits(disk) && Read(disk).Some? && Held(disk, k) && !Clears(Read(disk).value, op, k)
    ensures Held(Next(disk, Read(disk).value, op, writes), k)
  {
    ReadFits(disk);
    HeldIff(Read(disk).value, op, k);
  }

  lemma ApplyKeepsHeld(file: File, op: Op, k: Key)
    requires FileFits(file) && Held(file, k) && !Clears(file, op, k)
    ensures Held(Apply(file, op), k)
  {
    HeldIff(file, op, k);
  }

  lemma StepKeepsHeld(w: World, a: Action, k: Key)
    requires Inv(w) && HeldThroughout(w, k) && !ClearsIn(w, a, k)
    ensures HeldThroughout(Step(w, a), k)
  {
    match a
    case Do(op, writes) => if w.section.None? && Read(w.disk).Some? { NextKeepsHeld(w.disk, op, writes, k); }
    case Begin(_) => if Read(w.disk).Some? { ReadFits(w.disk); }
    case Inner(op) => if w.section.Some? { ApplyKeepsHeld(w.section.value.file, op, k); }
    case End(_) =>
    case Crash =>
  }

  lemma {:induction false} HeldUntilCleared(actions: seq<Action>, run: seq<World>, i: nat, k: nat, key: Key)
    requires IsRun(actions, run) && i <= k < |run| && HeldThroughout(run[i], key)
    requires forall j :: i <= j < k ==> !ClearsIn(run[j], actions[j], key)
    ensures HeldThroughout(run[k], key)
  {
    if i < k {
      HeldUntilCleared(actions, run, i, k - 1, key);
      RunKeepsInv(actions, run, k - 1);
      StepKeepsHeld(run[k - 1], actions[k - 1], key);
      assert StepAt(actions, run, k - 1);
    }
  }

  /** Over every run, with failed writes and crashes: a session that was held and is not held any more was
      cleared in between, by a promptless release or by a real, non-generated prompt with another id and
      turn, strictly newer than the stop then recorded. */
  lemma FenceIsSafe(actions: seq<Action>, run: seq<World>, i: nat, k: nat, key: Key)
    requires IsRun(actions, run) && i <= k < |run| && run[i].section.None?
    requires Held(run[i].disk, key) && !Held(run[k].disk, key)
    ensures exists j :: i <= j < k && ClearsIn(run[j], actions[j], key)
  {
    if forall j :: i <= j < k ==> !ClearsIn(run[j], actions[j], key) {
      HeldUntilCleared(actions, run, i, k, key);
    }
  }

  /** The prompt alone does not clear the session, but after the stop it does. */
  predicate HoldOpens(file: File, hold: Op, release: Op, k: Key) {
    Held(Apply(file, release), k) && !Held(Apply(Apply(file, hold), release), k)
  }

  /** The stop is taken as the new one of the record. */
  predicate Replaces(r: Record, e: Stop) {
    e.id !in r.ignored && e.id != r.stop.id && !Stale(r, e)
  }

  lemma HoldApplies(file: File, hold: Op, t: Target, e: Stop)
    requires hold.OpHold? && NormalTarget(hold.target) == Some(t) && NormalStop(hold.stop) == Some(e)
    ensures Apply(file, hold) == AfterHold(file, t, e)
  {
  }

  lemma ReleaseApplies(file: File, release: Op, k: Key, p: Prompt)
    requires release.OpRelease? && LooseKey(release.harness, release.session) == Some(k)
    requires release.prompt.Some? && NormalPrompt(release.prompt.value) == Some(p)
    ensures Apply(file, release) == AfterRelease(file, k, Some(p), release.now)
  {
  }

  /** The same of the normalised arguments. */
  lemma StopOpensIff(file: File, t: Target, e: Stop, p: Prompt, now: int)
    requires Held(file, TargetKey(t))
    ensures var k := TargetKey(t); var r := file.sessions[k];
            Held(AfterRelease(file, k, Some(p), now), k) && !Held(AfterRelease(AfterHold(file, t, e), k, Some(p), now), k)
            <==> !IsGenerated(file.generated, k, p, now) && !Newer(p, r.stop) && Newer(p, e) && Replaces(r, e)
  {
    var k := TargetKey(t);
    var after := AfterHold(file, t, e);
    assert after.generated == file.generated && Held(after, k) && after.sessions[k] == HeldRecord(file.sessions[k], t, e);
    assert Held(AfterRelease(after, k, Some(p), now), k) <==> !MayClear(after, k, Some(p), now);
    assert Held(AfterRelease(file, k, Some(p), now), k) <==> !MayClear(file, k, Some(p), now);
  }

  /** An older stop lowers the fence.  Exactly when: a hold opens a held session to a prompt that could not clear
      it, if and only if the prompt is not generated, not newer than the recorded stop but newer than the given
      one, and that one is neither recorded nor ignored already. */
  lemma HoldOpensIff(file: File, hold: Op, release: Op, t: Target, e: Stop, p: Prompt)
    requires hold.OpHold? && NormalTarget(hold.target) == Some(t) && NormalStop(hold.stop) == Some(e)
    requires release.OpRelease? && LooseKey(release.harness, release.session) == Some(TargetKey(t))
    requires release.prompt.Some? && NormalPrompt(release.prompt.value) == Some(p) && Held(file, TargetKey(t))
    ensures var k := TargetKey(t); var r := file.sessions[k];
            HoldOpens(file, hold, release, k) <==>
              && !IsGenerated(file.generated, k, p, release.now)
              && !Newer(p, r.stop) && Newer(p, e) && Replaces(r, e)
  {
    HoldApplies(file, hold, t, e);
    ReleaseApplies(file, release, TargetKey(t), p);
    ReleaseApplies(AfterHold(file, t, e), release, TargetKey(t), p);
    StopOpensIff(file, t, e, p, release.now);
  }

  // ---------------------------------------------------------------------------------------------
  // A cleared stop stays cleared
  // ---------------------------------------------------------------------------------------------

  /** The session was cleared at `c`; `turn` is the turn of the cleared stop. */
  predicate ClearedAs(file: File, k: Key, c: int, turn: Option<string>) {
    && k in file.sessions && !file.sessions[k].active && file.sessions[k].clearedAt == Some(c)
    && NormalText(file.sessions[k].stop.turnId, MaxIdLength) == Some(turn)
  }

  /** Stop evidence for the session that is at or before the clearing, or of the cleared turn. */
  predicate OldEvidence(op: Op, k: Key, c: int, turn: Option<string>) {
    (op.OpHold? || op.OpObserve?) && Touched(op) == Some(k) ==>
      var e := if op.OpHold? then NormalStop(op.stop) else MaybeStop(op.seen);
      e.Some? ==> e.value.at <= c || (turn.Some? && e.value.turnId == turn)
  }

  lemma HoldKeepsCleared(file: File, t: Target, e: Stop, c: int, turn: Option<string>)
    requires FileFits(file) && ClearedAs(file, TargetKey(t), c, turn)
    requires e.at <= c || (turn.Some? && file.sessions[TargetKey(t)].stop.turnId == turn && e.turnId == turn)
    ensures ClearedAs(AfterHold(file, t, e), TargetKey(t), c, turn)
    ensures AfterHold(file, t, e).sessions[TargetKey(t)].stop == file.sessions[TargetKey(t)].stop
  {
  }

  lemma ApplyKeepsCleared(file: File, op: Op, k: Key, c: int, turn: Option<string>)
    requires FileFits(file) && ClearedAs(file, k, c, turn) && OldEvidence(op, k, c, turn)
    requires file.sessions[k].stop.turnId == turn
    ensures ClearedAs(Apply(file, op), k, c, turn) && Apply(file, op).sessions[k].stop.turnId == turn
  {
    if Touched(op) != Some(k) {
      OnlyTouched(file, op, k);
    } else if op.OpHold? || op.OpObserve? {
      HoldsKeepCleared(file, op, k, c, turn);
    } else {
      OthersKeepCleared(file, op, k, c, turn);
    }
  }

  lemma OthersKeepCleared(file: File, op: Op, k: Key, c: int, turn: Option<string>)
    requires ClearedAs(file, k, c, turn) && file.sessions[k].stop.turnId == turn && !op.OpHold? && !op.OpObserve?
    ensures ClearedAs(Apply(file, op), k, c, turn) && Apply(file, op).sessions[k].stop.turnId == turn
  {
    var r, r' := file.sessions[k], Apply(file, op).sessions[k];
    assert r' == r.(ignored := r'.ignored);
  }

  lemma HoldsKeepCleared(file: File, op: Op, k: Key, c: int, turn: Option<string>)
    requires FileFits(file) && ClearedAs(file, k, c, turn) && OldEvidence(op, k, c, turn)
    requires file.sessions[k].stop.turnId == turn && Touched(op) == Some(k) && (op.OpHold? || op.OpObserve?)
    ensures ClearedAs(Apply(file, op), k, c, turn) && Apply(file, op).sessions[k].stop.turnId == turn
  {
    var e := if op.OpHold? then NormalStop(op.stop) else MaybeStop(op.seen);
    KeyIsClean(op.target.harness, op.target.session);
    if NormalTarget(op.target).Some? && e.Some? {
      var t := NormalTarget(op.target).value;
      HoldKeepsCleared(file, t, e.value, c, turn);
      assert !Held(AfterHold(file, t, e.value), k);
    }
  }

  predicate ClearedThroughout(w: World, k: Key, c: int, turn: Option<string>) {
    && ClearedAs(w.disk, k, c, turn)
    && (w.section.Some? ==> ClearedAs(w.section.value.file, k, c, turn) && w.section.value.file.sessions[k].stop.turnId == turn)
  }

  lemma ReadKeepsCleared(file: File, k: Key, c: int, turn: Option<string>)
    requires FileFits(file) && ClearedAs(file, k, c, turn) && Read(file).Some?
    ensures ClearedAs(Read(file).value, k, c, turn) && Read(file).value.sessions[k].stop.turnId == turn
  {
    assert RecordFits(k, file.sessions[k]);
    ParseFits(k, file.sessions[k]);
    TextIsClean(file.sessions[k].stop.turnId, MaxIdLength);
    TextIsClean(turn, MaxIdLength);
  }

  lemma NextKeepsCleared(disk: File, op: Op, writes: bool, k: Key, c: int, turn: Option<string>)
    requires FileFits(disk) && ClearedAs(disk, k, c, turn) && OldEvidence(op, k, c, turn) && Read(disk).Some?
    ensures ClearedAs(Next(disk, Read(disk).value, op, writes), k, c, turn)
  {
    ReadFits(disk);
    ReadKeepsCleared(disk, k, c, turn);
    ApplyKeepsCleared(Read(disk).value, op, k, c, turn);
  }

  lemma StepKeepsCleared(w: World, a: Action, k: Key, c: int, turn: Option<string>)
    requires Inv(w) && ClearedThroughout(w, k, c, turn)
    requires a.Do? || a.Inner? ==> OldEvidence(a.op, k, c, turn)
    ensures ClearedThroughout(Step(w, a), k, c, turn)
  {
    match a
    case Do(op, writes) => if Read(w.disk).Some? { NextKeepsCleared(w.disk, op, writes, k, c, turn); }
    case Begin(_) => if Read(w.disk).Some? { ReadKeepsCleared(w.disk, k, c, turn); }
    case Inner(op) => if w.section.Some? { ApplyKeepsCleared(w.section.value.file, op, k, c, turn); }
    case End(_) =>
    case Crash =>
  }

  /** After a clearing at `c`, no sequence of calls whose stop evidence for the session is at or before `c`, or
      of the cleared stop's turn, holds it again, however many ids have been evicted meanwhile. */
  lemma {:induction false} ClearedStaysCleared(
      actions: seq<Action>, run: seq<World>, i: nat, k: nat, key: Key, c: int, turn: Option<string>)
    requires IsRun(actions, run) && i <= k < |run| && run[i].section.None? && ClearedAs(run[i].disk, key, c, turn)
    requires forall j :: i <= j < k && (actions[j].Do? || actions[j].Inner?) ==> OldEvidence(actions[j].op, key, c, turn)
    ensures ClearedThroughout(run[k], key, c, turn) && !Held(run[k].disk, key)
  {
    if i < k {
      ClearedStaysCleared(actions, run, i, k - 1, key, c, turn);
      RunKeepsInv(actions, run, k - 1);
      StepKeepsCleared(run[k - 1], actions[k - 1], key, c, turn);
      assert StepAt(actions, run, k - 1);
    }
  }

  // ---------------------------------------------------------------------------------------------
  // Every file reads back, unless it was spoiled
  // ---------------------------------------------------------------------------------------------

  /** The arguments alone rule out that the call spoils any file. */
  predicate SafeArguments(op: Op) {
    && (op.OpIgnore? && LooseKey(op.harness, op.session).Some? ==> KnownHarness(LooseKey(op.harness, op.session).value.harness))
    && (op.OpCheckpoint? && op.proof.turnId.Some? ==> Trim(op.proof.turnId.value) != "")
  }

  predicate ReadsBack(w: World) {
    Read(w.disk).Some? && (w.section.Some? ==> Read(w.section.value.file).Some?)
  }

  lemma StepReadsBack(w: World, a: Action)
    requires Inv(w) && ReadsBack(w) && (a.Do? || a.Inner? ==> SafeArguments(a.op))
    ensures ReadsBack(Step(w, a))
  {
    ReadFits(w.disk);
    match a
    case Do(op, _) =>
      if op.OpIgnore? { KeyIsClean(op.harness, op.session); }
      RereadIsReadable(w.disk);
      UnreadableIff(Read(w.disk).value, op);
    case Begin(_) => RereadIsReadable(w.disk);
    case Inner(op) =>
      if op.OpIgnore? { KeyIsClean(op.harness, op.session); }
      if w.section.Some? { UnreadableIff(w.section.value.file, op); }
    case End(_) =>
    case Crash =>
  }

  /** Reading is idempotent. */
  lemma RereadIsReadable(file: File)
    requires FileFits(file) && Read(file).Some?
    ensures Read(Read(file).value) == Read(file)
  {
    var again := Read(file).value;
    ReadFits(file);
    forall k | k in again.sessions ensures ParseRecord(again.sessions[k]) == Some(again.sessions[k]) {
      assert RecordFits(k, file.sessions[k]);
      ParseFits(k, file.sessions[k]);
      TextIsClean(file.sessions[k].stop.turnId, MaxIdLength);
      assert KnownHarness(k.harness) by { ReadFits(file); }
      ParseFits(k, again.sessions[k]);
    }
    assert Readable(again);
    assert Read(again).value.sessions == again.sessions;
  }

  /** Every reachable file can be read back, as long as ignored native stops name a known harness and shutdown
      proofs a turn that is not blank. */
  lemma {:induction false} FilesReadBack(actions: seq<Action>, run: seq<World>, k: nat)
    requires IsRun(actions, run) && k < |run|
    requires forall j :: 0 <= j < k && (actions[j].Do? || actions[j].Inner?) ==> SafeArguments(actions[j].op)
    ensures ReadsBack(run[k])
  {
    if k > 0 {
      FilesReadBack(actions, run, k - 1);
      RunKeepsInv(actions, run, k - 1);
      StepReadsBack(run[k - 1], actions[k - 1]);
      assert StepAt(actions, run, k - 1);
    }
  }

  lemma UnreadableStep(w: World, a: Action)
    requires w.section.None? && Read(w.disk).None?
    ensures Step(w, a) == w
  {
  }

  /** A file that cannot be read back is never changed again. */
  lemma {:induction false} UnreadableStays(actions: seq<Action>, run: seq<World>, i: nat, k: nat)
    requires IsRun(actions, run) && i <= k < |run| && run[i].section.None? && Read(run[i].disk).None?
    ensures run[k] == run[i]
  {
    if i < k {
      UnreadableStays(actions, run, i, k - 1);
      UnreadableStep(run[k - 1], actions[k - 1]);
      assert StepAt(actions, run, k - 1);
    }
  }

  // ---------------------------------------------------------------------------------------------
  // Runs that break a promise
  // ---------------------------------------------------------------------------------------------

  lemma OneLetterIsClean(s: string)
    requires |s| == 1 && !Blank(s[0])
    ensures Clean(s, MaxIdLength) && Clean(s, MaxReasonLength)
  {
  }

  function NativeStop(id: string, at: int): RawStop {
    RawStop(id, Some(at), "r", None)
  }

  lemma NativeStopIsNormal(id: string, at: int)
    requires |id| == 1 && !Blank(id[0])
    ensures NormalStop(NativeStop(id, at)) == Some(Stop(id, at, "r", None))
  {
    OneLetterIsClean(id);
    OneLetterIsClean("r");
  }

  const FreshFile := File(map[], [])

  /** A native stop ignored under a harness that is not known. */
  const UnknownHarness := OpIgnore("x", "s", RawStop("i", Some(0), "r", None))

  /** A shutdown proof whose turn is one blank. */
  const BlankTurn := OpCheckpoint("s", None, Stop("i", 0, "Owned Herder runtime shutdown", Some(" ")))

  lemma BothSpoil()
    ensures Spoils(FreshFile, UnknownHarness) && Spoils(FreshFile, BlankTurn)
  {
    OneLetterIsClean("x");
    OneLetterIsClean("s");
    OneLetterIsClean("i");
    NativeStopIsNormal("i", 0);
    var blank := " ";
    assert Blank(blank[0]) && blank[1..] == "";
    assert Trim(blank) == "";
  }

  /** Either call, made first, leaves a file that no later call can read. */
  lemma FirstCallCanSpoil(op: Op)
    requires op == UnknownHarness || op == BlankTurn
    ensures IsRun([Do(op, true)], [World(FreshFile, None), World(Apply(FreshFile, op), None)])
    ensures Read(FreshFile).Some? && Read(Apply(FreshFile, op)).None?
  {
    var run := [World(FreshFile, None), World(Apply(FreshFile, op), None)];
    BothSpoil();
    assert Read(FreshFile).Some? && Read(FreshFile).value == FreshFile;
    UnreadableIff(FreshFile, op);
    assert StepAt([Do(op, true)], run, 0);
  }

  predicate CleanRecord(r: Record) {
    KnownHarness(r.key.harness) && TextFits(r.stop.turnId, MaxIdLength)
  }

  predicate AllClean(file: File) {
    forall k :: k in file.sessions ==> CleanRecord(file.sessions[k])
  }

  /** A file with clean turns under known harnesses reads back as itself. */
  lemma CleanFileReads(file: File)
    requires FileFits(file) && AllClean(file)
    ensures Read(file) == Some(file)
  {
    forall k | k in file.sessions ensures ParseRecord(file.sessions[k]) == Some(file.sessions[k]) {
      assert RecordFits(k, file.sessions[k]) && CleanRecord(file.sessions[k]);
      ParseFits(k, file.sessions[k]);
    }
    assert Readable(file);
    assert Read(file).value.sessions == file.sessions;
  }

  lemma HoldKeepsClean(file: File, t: Target, e: Stop)
    requires FileFits(file) && AllClean(file) && KnownHarness(t.harness) && TextFits(e.turnId, MaxIdLength)
    ensures AllClean(AfterHold(file, t, e))
  {
    var k := TargetKey(t);
    if k in file.sessions {
      assert RecordFits(k, file.sessions[k]) && CleanRecord(file.sessions[k]);
      assert CleanRecord(HeldRecord(file.sessions[k], t, e));
    }
  }

  /** The arguments of the run: two stops and a prompt between them, for one session. */
  predicate LateStop(hold: Op, late: Op, release: Op, t: Target, n: Stop, o: Stop, p: Prompt) {
    && hold.OpHold? && late.OpHold? && release.OpRelease? && release.prompt.Some?
    && NormalTarget(hold.target) == Some(t) && NormalTarget(late.target) == Some(t)
    && LooseKey(release.harness, release.session) == Some(TargetKey(t))
    && NormalStop(hold.stop) == Some(n) && NormalStop(late.stop) == Some(o) && NormalPrompt(release.prompt.value) == Some(p)
    && n.id != o.id && p.id != o.id && p.turnId == None && o.at < p.at <= n.at
  }

  lemma HoldReadsBack(file: File, hold: Op, t: Target, e: Stop)
    requires FileFits(file) && AllClean(file)
    requires hold.OpHold? && NormalTarget(hold.target) == Some(t) && NormalStop(hold.stop) == Some(e)
    ensures Apply(file, hold) == AfterHold(file, t, e)
    ensures FileFits(Apply(file, hold)) && AllClean(Apply(file, hold)) && Read(Apply(file, hold)) == Some(Apply(file, hold))
  {
    TargetIsClean(hold.target);
    StopIsClean(hold.stop);
    HoldFits(file, t, e);
    HoldKeepsClean(file, t, e);
    CleanFileReads(AfterHold(file, t, e));
  }

  lemma DoApplies(file: File, op: Op)
    requires Read(file) == Some(file)
    ensures Step(World(file, None), Do(op, true)) == World(Apply(file, op), None)
  {
  }

  /** Four calls on files that read back as themselves, the second of which changes nothing. */
  lemma FourCalls(f: File, g: File, h: File, a: Op, b: Op, c: Op) returns (actions: seq<Action>, run: seq<World>)
    requires Read(FreshFile) == Some(FreshFile) && Read(f) == Some(f) && Read(g) == Some(g)
    requires Apply(FreshFile, a) == f && Apply(f, b) == f && Apply(f, c) == g && Apply(g, b) == h
    ensures actions == [Do(a, true), Do(b, true), Do(c, true), Do(b, true)]
    ensures run == [World(FreshFile, None), World(f, None), World(f, None), World(g, None), World(h, None)]
    ensures IsRun(actions, run)
  {
    actions := [Do(a, true), Do(b, true), Do(c, true), Do(b, true)];
    run := [World(FreshFile, None), World(f, None), World(f, None), World(g, None), World(h, None)];
    DoApplies(FreshFile, a);
    DoApplies(f, b);
    DoApplies(f, c);
    DoApplies(g, b);
    forall k: nat | k < |actions| ensures StepAt(actions, run, k) {
      assert k == 0 || k == 1 || k == 2 || k == 3;
    }
  }

  lemma HeldByBoth(hold: Op, late: Op, t: Target, n: Stop, o: Stop)
    requires hold.OpHold? && late.OpHold? && NormalTarget(hold.target) == Some(t) && NormalTarget(late.target) == Some(t)
    requires NormalStop(hold.stop) == Some(n) && NormalStop(late.stop) == Some(o)
    ensures Read(FreshFile) == Some(FreshFile)
    ensures Apply(FreshFile, hold) == AfterHold(FreshFile, t, n) && FileFits(Apply(FreshFile, hold))
    ensures Read(Apply(FreshFile, hold)) == Some(Apply(FreshFile, hold))
    ensures Read(Apply(Apply(FreshFile, hold), late)) == Some(Apply(Apply(FreshFile, hold), late))
  {
    assert AllClean(FreshFile);
    CleanFileReads(FreshFile);
    HoldReadsBack(FreshFile, hold, t, n);
    HoldReadsBack(Apply(FreshFile, hold), late, t, o);
  }

  lemma LateStopOpens(held: File, hold: Op, late: Op, release: Op, t: Target, n: Stop, o: Stop, p: Prompt)
    requires LateStop(hold, late, release, t, n, o, p) && FileFits(held) && held == AfterHold(FreshFile, t, n)
    ensures Held(held, TargetKey(t)) && Apply(held, release) == held
    ensures !Held(Apply(Apply(held, late), release), TargetKey(t))
  {
    HoldOpensIff(held, late, release, t, o, p);
    assert HoldOpens(held, late, release, TargetKey(t));
  }

  /** A stop is recorded, and a prompt typed before it rightly does not clear it.  Then an earlier stop is
      reported late, and the same prompt, seen again, clears the session. */
  lemma LateStopLowersFence(hold: Op, late: Op, release: Op, t: Target, n: Stop, o: Stop, p: Prompt)
    returns (actions: seq<Action>, run: seq<World>)
    requires LateStop(hold, late, release, t, n, o, p)
    ensures IsRun(actions, run) && |actions| == 4
    ensures actions[0] == Do(hold, true) && actions[1] == Do(release, true)
    ensures actions[2] == Do(late, true) && actions[3] == Do(release, true)
    ensures Held(run[2].disk, TargetKey(t)) && !Held(run[4].disk, TargetKey(t))
  {
    HeldByBoth(hold, late, t, n, o);
    var held := Apply(FreshFile, hold);
    LateStopOpens(held, hold, late, release, t, n, o, p);
    actions, run := FourCalls(held, Apply(held, late), Apply(Apply(held, late), release), hold, release, late);
  }

  /** Such arguments exist. */
  lemma LateStopExists()
    ensures LateStop(OpHold(Target("codex", "s", None, None), NativeStop("n", 10)),
                     OpHold(Target("codex", "s", None, None), NativeStop("o", 5)),
                     OpRelease("codex", "s", Some(RawPrompt("p", Some(7), None, None, None, None, false, false, None)), 7),
                     Target("codex", "s", None, None), Stop("n", 10, "r", None), Stop("o", 5, "r", None), Prompt("p", 7, None, None))
  {
    OneLetterIsClean("s");
    OneLetterIsClean("p");
    NativeStopIsNormal("n", 10);
    NativeStopIsNormal("o", 5);
    var c := "codex";
    assert !Blank(c[0]) && !Blank(c[|c| - 1]);
    assert Clean("codex", MaxIdLength);
  }

  // ---------------------------------------------------------------------------------------------
  // Generated prompts
  // ---------------------------------------------------------------------------------------------

  /** One of the newest `depth` entries recalls the prompt of the session at least until then. */
  ghost predicate Recalled(gs: seq<Generated>, k: Key, p: Prompt, until: int, depth: nat) {
    exists i: nat :: i < |gs| && |gs| - i <= depth && Recalls(gs[i], k, p, until)
  }

  predicate SameTurn(turn: Option<string>, p: Prompt) {
    p.turnId.None? || turn.None? || turn == p.turnId
  }

  predicate Recalls(g: Generated, k: Key, p: Prompt, until: int) {
    g.key == k && p.text == Some(g.digest) && g.expiresAt >= until && SameTurn(g.turnId, p)
  }

  lemma {:induction false} RetainedKeeps(gs: seq<Generated>, g: Generated, now: int, i: nat) returns (at: nat)
    requires i < |gs| && !Superseded(gs[i], g, now)
    ensures var r := Retained(gs, g, now); at < |r| && r[at] == gs[i] && |r| - at <= |gs| - i
  {
    var init := gs[..|gs| - 1];
    if i < |gs| - 1 { at := RetainedKeeps(init, g, now, i); } else { at := |Retained(init, g, now)|; }
  }

  lemma RememberKeepsRecalled(file: File, g: Generated, now: int, k: Key, p: Prompt, until: int, depth: nat)
    requires Recalled(file.generated, k, p, until, depth) && depth < MaxGeneratedPrompts
    requires now < until <= g.expiresAt
    requires g.key == k && p.text == Some(g.digest) ==> SameTurn(g.turnId, p)
    ensures Recalled(Remember(file, g, now).generated, k, p, until, depth + 1)
  {
    var i: nat :| i < |file.generated| && |file.generated| - i <= depth && Recalls(file.generated[i], k, p, until);
    var kept := Retained(file.generated, g, now) + [g];
    var last := Remember(file, g, now).generated;
    if Superseded(file.generated[i], g, now) {
      assert Recalls(last[|last| - 1], k, p, until);
    } else {
      var at := RetainedKeeps(file.generated, g, now, i);
      assert Recalls(last[at - (|kept| - |last|)], k, p, until);
    }
  }

  /** The call does not remember, or remembers in time; and not the same text for another turn. */
  predicate Timely(op: Op, k: Key, p: Prompt, until: int) {
    op.OpRemember? ==>
      && op.now < until <= op.now + GeneratedPromptTtl
      && (NormalKey(op.harness, op.session) == Some(k) && p.text == Some(op.text) && NormalText(op.turn, MaxIdLength).Some?
          ==> SameTurn(NormalText(op.turn, MaxIdLength).value, p))
  }

  function Weight(op: Op): nat {
    if op.OpRemember? then 1 else 0
  }

  lemma OthersKeepGenerated(file: File, op: Op)
    requires !op.OpRemember?
    ensures Apply(file, op).generated == file.generated
  {
  }

  lemma ApplyKeepsRecalled(file: File, op: Op, k: Key, p: Prompt, until: int, depth: nat)
    requires Recalled(file.generated, k, p, until, depth) && Timely(op, k, p, until) && depth + Weight(op) <= MaxGeneratedPrompts
    ensures Recalled(Apply(file, op).generated, k, p, until, depth + Weight(op))
  {
    if op.OpRemember? {
      if Apply(file, op) == file {
        var i: nat :| i < |file.generated| && |file.generated| - i <= depth && Recalls(file.generated[i], k, p, until);
      } else {
        var g := Generated(NormalKey(op.harness, op.session).value, op.text, NormalText(op.turn, MaxIdLength).value, op.now + GeneratedPromptTtl);
        RememberKeepsRecalled(file, g, op.now, k, p, until, depth);
      }
    } else {
      OthersKeepGenerated(file, op);
    }
  }

  /** How many of the actions remember a text. */
  function Remembers(actions: seq<Action>): nat {
    if actions == [] then 0
    else
      var a := actions[|actions| - 1];
      Remembers(actions[..|actions| - 1]) + if a.Do? || a.Inner? then Weight(a.op) else 0
  }

  ghost predicate RecalledThroughout(w: World, k: Key, p: Prompt, until: int, depth: nat) {
    Recalled(w.disk.generated, k, p, until, depth)
    && (w.section.Some? ==> Recalled(w.section.value.file.generated, k, p, until, depth))
  }

  lemma RecalledDeeper(gs: seq<Generated>, k: Key, p: Prompt, until: int, depth: nat, more: nat)
    requires Recalled(gs, k, p, until, depth) && depth <= more
    ensures Recalled(gs, k, p, until, more)
  {
    var i: nat :| i < |gs| && |gs| - i <= depth && Recalls(gs[i], k, p, until);
    assert |gs| - i <= more && Recalls(gs[i], k, p, until);
  }

  lemma StepKeepsRecalled(w: World, a: Action, k: Key, p: Prompt, until: int, depth: nat)
    requires Inv(w) && RecalledThroughout(w, k, p, until, depth)
    requires a.Do? || a.Inner? ==> Timely(a.op, k, p, until)
    requires depth + (if a.Do? || a.Inner? then Weight(a.op) else 0) <= MaxGeneratedPrompts
    ensures RecalledThroughout(Step(w, a), k, p, until, depth + if a.Do? || a.Inner? then Weight(a.op) else 0)
  {
    match a
    case Do(op, _) =>
      RecalledDeeper(w.disk.generated, k, p, until, depth, depth + Weight(op));
      if w.section.Some? { RecalledDeeper(w.section.value.file.generated, k, p, until, depth, depth + Weight(op)); }
      if Read(w.disk).Some? { ApplyKeepsRecalled(Read(w.disk).value, op, k, p, until, depth); }
    case Begin(_) =>
    case Inner(op) =>
      RecalledDeeper(w.disk.generated, k, p, until, depth, depth + Weight(op));
      if w.section.Some? { ApplyKeepsRecalled(w.section.value.file, op, k, p, until, depth); }
    case End(_) =>
    case Crash =>
  }

  lemma RememberedAtOnce(w: World, op: Op, k: Key, p: Prompt)
    requires Inv(w) && w.section.None? && Read(w.disk).Some?
    requires op.OpRemember? && NormalKey(op.harness, op.session) == Some(k) && Trim(op.text) != "" && |op.text| <= MaxPromptTextLength
    requires NormalText(op.turn, MaxIdLength).Some? && SameTurn(NormalText(op.turn, MaxIdLength).value, p) && p.text == Some(op.text)
    ensures RecalledThroughout(Step(w, Do(op, true)), k, p, op.now + GeneratedPromptTtl, 1)
  {
    var gs := Apply(Read(w.disk).value, op).generated;
    assert Recalls(gs[|gs| - 1], k, p, op.now + GeneratedPromptTtl);
    assert Step(w, Do(op, true)).disk.generated == gs;
  }

  lemma {:induction false} RunRecalls(actions: seq<Action>, run: seq<World>, i: nat, j: nat, k: Key, p: Prompt, until: int)
    requires IsRun(actions, run) && i <= j < |run| && RecalledThroughout(run[i], k, p, until, 1)
    requires forall n :: i <= n < j && (actions[n].Do? || actions[n].Inner?) ==> Timely(actions[n].op, k, p, until)
    requires Remembers(actions[i..j]) < MaxGeneratedPrompts
    ensures RecalledThroughout(run[j], k, p, until, 1 + Remembers(actions[i..j]))
  {
    if i == j {
      assert actions[i..j] == [];
    } else {
      assert actions[i..j][..j - 1 - i] == actions[i..j - 1];
      RunRecalls(actions, run, i, j - 1, k, p, until);
      RunKeepsInv(actions, run, j - 1);
      StepKeepsRecalled(run[j - 1], actions[j - 1], k, p, until, 1 + Remembers(actions[i..j - 1]));
      assert StepAt(actions, run, j - 1);
    }
  }

  lemma RecalledIsGenerated(gs: seq<Generated>, k: Key, p: Prompt, until: int, depth: nat, now: int)
    requires Recalled(gs, k, p, until, depth) && now < until
    ensures IsGenerated(gs, k, p, now)
  {
    var n: nat :| n < |gs| && |gs| - n <= depth && Recalls(gs[n], k, p, until);
    assert MatchesAt(gs, n, k, p, now);
  }

  /** A text that was remembered is recognised in every prompt with it until it expires, whatever calls, failed
      writes, admissions and crashes follow, as long as fewer than 128 of them remember a text and none the same
      one for another turn; so the prompt cannot clear a hold. */
  lemma GeneratedPromptCannotClear(actions: seq<Action>, run: seq<World>, i: nat, j: nat, k: Key, p: Prompt, now: int)
    requires IsRun(actions, run) && i < j < |run| && run[i].section.None? && Read(run[i].disk).Some?
    requires actions[i].Do? && actions[i].writes && actions[i].op.OpRemember?
    requires var op := actions[i].op;
      && NormalKey(op.harness, op.session) == Some(k) && Trim(op.text) != "" && |op.text| <= MaxPromptTextLength
      && NormalText(op.turn, MaxIdLength).Some? && SameTurn(NormalText(op.turn, MaxIdLength).value, p)
      && p.text == Some(op.text) && now < op.now + GeneratedPromptTtl
      && forall n :: i < n < j && (actions[n].Do? || actions[n].Inner?) ==> Timely(actions[n].op, k, p, op.now + GeneratedPromptTtl)
    requires Remembers(actions[i + 1..j]) < MaxGeneratedPrompts
    ensures IsGenerated(run[j].disk.generated, k, p, now)
    ensures AfterRelease(run[j].disk, k, Some(p), now) == run[j].disk
  {
    var op := actions[i].op;
    var until := op.now + GeneratedPromptTtl;
    RunKeepsInv(actions, run, i);
    RememberedAtOnce(run[i], op, k, p);
    assert StepAt(actions, run, i);
    RunRecalls(actions, run, i + 1, j, k, p, until);
    RecalledIsGenerated(run[j].disk.generated, k, p, until, 1 + Remembers(actions[i + 1..j]), now);
  }

  // ---------------------------------------------------------------------------------------------
  // The opened file, changed in place
  // ---------------------------------------------------------------------------------------------

  function KeyOf(r: Record): Key { r.key }

  lemma BoundIdsGrow(ids: seq<string>, id: string)
    requires Distinct(ids) && id !in ids
    ensures BoundIds(ids + [id]) == Last(MaxIgnoredStopIds, ids + [id]) && BoundIds(ids + [id]) != ids
  {
    DedupeFits(ids);
    DedupeFits(ids + [id]);
    assert Distinct(ids + [id]);
  }

  class HumanStopFile {
    var sessions: seq<Record>
    var generatedInputs: seq<Generated>

    ghost predicate Valid()
      reads this
    {
      DistinctKeys(KeyOf, sessions)
    }

    ghost function View(): File
      reads this
    {
      File(AsMap(KeyOf, sessions), generatedInputs)
    }

    constructor ()
      ensures Valid() && View() == File(map[], [])
    {
      sessions := [];
      generatedInputs := [];
    }

    method FindIndex(k: Key) returns (index: nat)
      requires Valid()
      ensures index <= |sessions|
      ensures index < |sessions| ==> sessions[index].key == k && k in View().sessions && View().sessions[k] == sessions[index]
      ensures index == |sessions| ==> k !in View().sessions
    {
      index := 0;
      while index < |sessions| && sessions[index].key != k
        invariant index <= |sessions|
        invariant forall j :: 0 <= j < index ==> KeyOf(sessions[j]) != k
      {
        index := index + 1;
      }
      if index < |sessions| { AsMapHas(KeyOf, sessions, index); } else { AsMapLacks(KeyOf, sessions, k); }
    }

    /** Overwrites the entry that was found, or pushes a new one. */
    method Set(index: nat, record: Record)
      requires Valid() && index <= |sessions|
      requires if index < |sessions| then sessions[index].key == record.key else record.key !in View().sessions
      modifies this`sessions
      ensures Valid() && View() == Put(old(View()), record)
      ensures index < |sessions| && sessions[index] == record
    {
      if index < |sessions| {
        AsMapUpdate(KeyOf, sessions, index, record);
        sessions := sessions[index := record];
      } else {
        AsMapAppend(KeyOf, sessions, record);
        sessions := sessions + [record];
      }
    }

    /** `hold`; the caller writes the file only if it changed. */
    method Hold(target: Target, stop: Stop) returns (changed: bool)
      requires Valid() && FileFits(View())
      modifies this`sessions
      ensures Valid() && View() == AfterHold(old(View()), target, stop)
      ensures changed <==> View() != old(View())
    {
      var k := TargetKey(target);
      var index := FindIndex(k);
      if index == |sessions| {
        Set(index, Record(k, true, stop, [], None, None, target.cwd, target.title));
        return true;
      }
      var existing := sessions[index];
      assert RecordFits(k, existing);
      if stop.id in existing.ignored {
        assert View().sessions[k := existing] == View().sessions;
        return false;
      }
      if Stale(existing, stop) {
        BoundIdsGrow(existing.ignored, stop.id);
        Set(index, existing.(ignored := BoundIds(existing.ignored + [stop.id])));
        return true;
      }
      if existing.active && existing.stop.id == stop.id {
        var merged := MergeTarget(existing, target);
        var enriched := if existing.stop.turnId.None? && stop.turnId.Some? then merged.(stop := existing.stop.(turnId := stop.turnId)) else merged;
        changed := enriched.cwd != existing.cwd || enriched.title != existing.title || enriched.stop.turnId != existing.stop.turnId;
        assert !changed ==> enriched == existing;
        Set(index, enriched);
        return changed;
      }
      var ignored := BoundIds(existing.ignored + if existing.stop.id != stop.id then [existing.stop.id] else []);
      Set(index, MergeTarget(existing, target).(active := true, stop := stop, ignored := ignored));
      changed := true;
    }

    /** The stop part of `observe`, which finds a stale stop before it looks for an ignored one. */
    method ObserveStop(target: Target, stop: Stop) returns (changed: bool)
      requires Valid() && FileFits(View())
      modifies this`sessions
      ensures Valid() && View() == AfterHold(old(View()), target, stop)
      ensures changed <==> View() != old(View())
    {
      var k := TargetKey(target);
      var index := FindIndex(k);
      if index == |sessions| {
        Set(index, Record(k, true, stop, [], None, None, target.cwd, target.title));
        return true;
      }
      var record := sessions[index];
      assert RecordFits(k, record);
      assert View().sessions[k := record] == View().sessions;
      if Stale(record, stop) {
        if stop.id in record.ignored { return false; }
        BoundIdsGrow(record.ignored, stop.id);
        Set(index, record.(ignored := BoundIds(record.ignored + [stop.id])));
        return true;
      }
      if stop.id !in record.ignored && !(record.active && record.stop.id == stop.id) {
        var ignored := BoundIds(record.ignored + if record.stop.id != stop.id then [record.stop.id] else []);
        Set(index, MergeTarget(record, target).(active := true, stop := stop, ignored := ignored));
        return true;
      }
      if record.active && record.stop.id == stop.id {
        var merged := MergeTarget(record, target);
        var enriched := if record.stop.turnId.None? && stop.turnId.Some? then merged.(stop := record.stop.(turnId := stop.turnId)) else merged;
        if enriched.cwd == record.cwd && enriched.title == record.title && enriched.stop.turnId == record.stop.turnId {
          assert enriched == record;
          return false;
        }
        Set(index, enriched);
        return true;
      }
      changed := false;
    }

    /** `observe`: native stop and prompt metadata, seen together. */
    method Observe(target: Target, stop: Option<Stop>, prompt: Option<Prompt>, now: int) returns (held: bool, changed: bool)
      requires Valid() && FileFits(View())
      modifies this`sessions
      ensures Valid() && View() == AfterObserve(old(View()), target, stop, prompt, now)
      ensures held <==> Held(View(), TargetKey(target))
      ensures !changed ==> View() == old(View())
    {
      changed := false;
      if stop.Some? {
        changed := ObserveStop(target, stop.value);
      }
      var index := FindIndex(TargetKey(target));
      if prompt.Some? && index < |sessions| && sessions[index].active
         && !IsGenerated(generatedInputs, TargetKey(target), prompt.value, now) && Newer(prompt.value, sessions[index].stop)
      {
        Set(index, Cleared(sessions[index], prompt, now));
        changed := true;
      }
      held := index < |sessions| && sessions[index].active;
    }

    /** `release`. */
    method Release(k: Key, prompt: Option<Prompt>, now: int) returns (changed: bool)
      requires Valid()
      modifies this`sessions
      ensures Valid() && View() == AfterRelease(old(View()), k, prompt, now)
      ensures changed <==> MayClear(old(View()), k, prompt, now)
    {
      var index := FindIndex(k);
      if index == |sessions| || !sessions[index].active { return false; }
      if prompt.Some? && IsGenerated(generatedInputs, k, prompt.value, now) { return false; }
      if prompt.Some? && !Newer(prompt.value, sessions[index].stop) { return false; }
      Set(index, Cleared(sessions[index], prompt, now));
      changed := true;
    }

    /** `ignoreNativeStop`. */
    method IgnoreNativeStop(k: Key, stop: Stop) returns (changed: bool)
      requires Valid() && FileFits(View())
      modifies this`sessions
      ensures Valid() && View() == Ignore(old(View()), k, stop)
      ensures changed <==> View() != old(View())
    {
      var index := FindIndex(k);
      if index == |sessions| {
        Set(index, Record(k, false, stop, [stop.id], None, None, None, None));
        return true;
      }
      var existing := sessions[index];
      assert RecordFits(k, existing);
      if existing.stop.id == stop.id || stop.id in existing.ignored { return false; }
      BoundIdsGrow(existing.ignored, stop.id);
      Set(index, existing.(ignored := BoundIds(existing.ignored + [stop.id])));
      changed := true;
    }

    /** `checkpointOwnedZcodeShutdown`: never touches a held session. */
    method CheckpointShutdown(k: Key, context: Option<string>, proof: Stop) returns (changed: bool)
      requires Valid()
      modifies this`sessions
      ensures Valid() && View() == Checkpoint(old(View()), k, context, proof)
      ensures changed <==> !Held(old(View()), k)
    {
      var ids := (if context.Some? then [context.value] else []) + [proof.id];
      var index := FindIndex(k);
      if index == |sessions| {
        Set(index, Record(k, false, proof, BoundIds(ids), None, None, None, None));
        return true;
      }
      var existing := sessions[index];
      if existing.active { return false; }
      Set(index, existing.(ignored := BoundIds(existing.ignored + ids)));
      changed := true;
    }

    /** `rememberGeneratedPrompt`. */
    method RememberGenerated(g: Generated, now: int)
      requires Valid()
      modifies this`generatedInputs
      ensures Valid() && View() == Remember(old(View()), g, now)
    {
      var entries, retained, i := generatedInputs, [], 0;
      while i < |entries|
        invariant i <= |entries| && retained == Retained(entries[..i], g, now)
      {
        assert entries[..i + 1][..i] == entries[..i];
        if !Superseded(entries[i], g, now) { retained := retained + [entries[i]]; }
        i := i + 1;
      }
      assert entries[..i] == entries;
      generatedInputs := Last(MaxGeneratedPrompts, retained + [g]);
    }
  }
}
