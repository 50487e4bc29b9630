/** The resumable archive of src/chatgpt-history-archive.ts. */
module HistoryArchive {
  // A chat is captured view by view while the browser scrolls back, over several calls, restarts and
  // reopenings, and local captures are reconciled by route.  A view stands for what its digest is made of.
  // Writes replace whole files; one export runs at a time.

  import opened Common

  const MaxScanned: nat := 500

  /** An archive, named after the id of a chat or of a route. */
  type Id = string

  /** `owner` is the chat whose page showed the view. */
  datatype View = View(owner: Id, route: Option<string>, content: string)

  datatype Entry = Entry(file: nat, view: View)

  /** The directory of one archive: its manifest, and the numbered files. */
  datatype Archive = Archive(entries: seq<Entry>, complete: bool, files: map<nat, View>)

  type Disk = map<Id, Archive>

  function At(disk: Disk, id: Id): Archive {
    if id in disk then disk[id] else Archive([], false, map[])
  }

  // ---------------------------------------------------------------------------------------------
  // Appending a view
  // ---------------------------------------------------------------------------------------------

  predicate Has(entries: seq<Entry>, view: View) {
    exists i :: 0 <= i < |entries| && entries[i].view == view
  }

  /** `appendSegment`: the file first, then the entry in the manifest held in memory. */
  function Append(a: Archive, view: View): Archive {
    if Has(a.entries, view) then a
    else
      var file := |a.entries| + 1;
      Archive(a.entries + [Entry(file, view)], a.complete, a.files[file := view])
  }

  function AppendAll(a: Archive, views: seq<View>): Archive {
    if views == [] then a else Append(AppendAll(a, views[..|views| - 1]), views[|views| - 1])
  }

  predicate EntryFits(entries: seq<Entry>, files: map<nat, View>, k: nat)
    requires k < |entries|
  {
    entries[k].file == k + 1 && k + 1 in files && files[k + 1] == entries[k].view
  }

  predicate Apart(entries: seq<Entry>, i: nat, j: nat)
    requires i < j < |entries|
  {
    entries[i].view != entries[j].view
  }

  /** Digests are pairwise distinct, and entry k names file k, which holds the view. */
  ghost predicate Fits(entries: seq<Entry>, files: map<nat, View>) {
    && (forall k: nat :: k < |entries| ==> EntryFits(entries, files, k))
    && (forall i: nat, j: nat :: i < j < |entries| ==> Apart(entries, i, j))
  }

  lemma AppendFits(a: Archive, view: View)
    requires Fits(a.entries, a.files)
    ensures Fits(Append(a, view).entries, Append(a, view).files)
    ensures Has(Append(a, view).entries, view) && a.entries <= Append(a, view).entries
  {
    var b := Append(a, view);
    if !Has(a.entries, view) {
      assert b.entries[|a.entries|].view == view;
      forall k: nat | k < |b.entries| ensures EntryFits(b.entries, b.files, k) {
        if k < |a.entries| { assert EntryFits(a.entries, a.files, k); }
      }
      forall i: nat, j: nat | i < j < |b.entries| ensures Apart(b.entries, i, j) {
        if j < |a.entries| { assert Apart(a.entries, i, j); }
      }
    }
  }

  // ---------------------------------------------------------------------------------------------
  // One export, step by step
  // ---------------------------------------------------------------------------------------------

  datatype Phase = Opening | Holding(view: View) | Saving | Finishing | Scrolling

  /** `archive` is the manifest in memory with the files on disk. */
  datatype Call = Call(chat: Id, max: nat, archive: Archive, added: nat, scanned: nat, atStart: bool, phase: Phase)

  /** `page` is the chat the browser shows; `claimed` remembers the archives whose export reported a start, and
      `tops` the chats whose start was really shown. */
  datatype World = World(
    disk: Disk, page: Option<Id>, cursor: Option<Id>, call: Option<Call>, claimed: set<Id>, tops: set<Id>)

  datatype Action =
    | Start(chat: Id, max: nat)
    | Open(shown: View)
    | OpenFails(left: Option<Id>)
    | StoreFile
    | StoreManifest
    | Finish
    | Scroll(shown: View, top: bool)
    | Throw
    | Crash

  function StartCall(w: World, chat: Id, max: nat): World {
    var a := At(w.disk, chat);
    if a.complete then w
    else w.(call := Some(Call(chat, max, a, 0, 0, false, if w.cursor == Some(chat) then Scrolling else Opening)))
  }

  /** Writes the file of a new view; the manifest on disk does not know it yet. */
  function StoreView(w: World, c: Call, view: View): World {
    var a := Append(c.archive, view);
    var c' := c.(archive := a, phase := Saving, added := c.added + if a == c.archive then 0 else 1);
    w.(disk := w.disk[c.chat := At(w.disk, c.chat).(files := a.files)], call := Some(c'))
  }

  function SaveManifest(w: World, c: Call): World {
    var saved := w.(disk := w.disk[c.chat := c.archive]);
    var c' := c.(scanned := c.scanned + 1);
    if c.atStart then saved.(call := Some(c'.(phase := Finishing)))
    else if c'.added >= c.max || c'.scanned >= MaxScanned then saved.(cursor := Some(c.chat), call := None)
    else saved.(call := Some(c'.(phase := Scrolling)))
  }

  function FinishCall(w: World, c: Call): World {
    w.(disk := w.disk[c.chat := c.archive.(complete := true)], call := None, cursor := if w.cursor == Some(c.chat) then None else w.cursor)
  }

  function Step(w: World, a: Action): World {
    match a
    case Start(chat, max) => if w.call.None? && 1 <= max <= 100 then StartCall(w, chat, max) else w
    case Open(view) =>
      if w.call.Some? && w.call.value.phase.Opening? then
        w.(page := Some(w.call.value.chat), call := Some(w.call.value.(phase := Holding(view))))
      else w
    case OpenFails(left) => if w.call.Some? && w.call.value.phase.Opening? then w.(page := left, call := None) else w
    case StoreFile =>
      if w.call.Some? && w.call.value.phase.Holding? then StoreView(w, w.call.value, w.call.value.phase.view) else w
    case StoreManifest => if w.call.Some? && w.call.value.phase.Saving? then SaveManifest(w, w.call.value) else w
    case Finish => if w.call.Some? && w.call.value.phase.Finishing? then FinishCall(w, w.call.value) else w
    case Scroll(view, top) =>
      if w.call.Some? && w.call.value.phase.Scrolling? then
        w.(call := Some(w.call.value.(phase := Holding(view), atStart := top)),
           claimed := if top then w.claimed + {w.call.value.chat} else w.claimed,
           tops := if top then w.tops + {view.owner} else w.tops)
      else w
    case Throw => w.(call := None)
    case Crash => w.(call := None, cursor := None, page := None)
  }

  function RunFrom(w: World, actions: seq<Action>): World {
    if actions == [] then w else Step(RunFrom(w, actions[..|actions| - 1]), actions[|actions| - 1])
  }

  const Empty: World := World(map[], None, None, None, {}, {})

  // ---------------------------------------------------------------------------------------------
  // Every archive is sound
  // ---------------------------------------------------------------------------------------------

  ghost predicate DiskFits(disk: Disk) {
    forall id :: id in disk ==> Fits(disk[id].entries, disk[id].files)
  }

  ghost predicate CompleteSeen(disk: Disk, seen: set<Id>) {
    forall id :: id in disk && disk[id].complete ==> id in seen
  }

  /** The call's manifest extends the one on disk and fits the files, and its counts stay within the bounds. */
  ghost predicate CallFits(c: Call, disk: Disk, claimed: set<Id>) {
    && Fits(c.archive.entries, c.archive.files) && c.archive.files == At(disk, c.chat).files
    && At(disk, c.chat).entries <= c.archive.entries && !c.archive.complete && !At(disk, c.chat).complete
    && c.scanned <= MaxScanned && c.added <= c.max
    && (c.phase.Scrolling? || c.phase.Opening? || c.phase.Holding? ==> c.scanned < MaxScanned && c.added < c.max)
    && (c.phase.Saving? ==> c.scanned < MaxScanned)
    && (c.atStart ==> c.chat in claimed)
    && (c.phase.Finishing? ==> c.atStart)
  }

  ghost predicate Inv(w: World) {
    && DiskFits(w.disk) && CompleteSeen(w.disk, w.claimed)
    && (w.call.Some? ==> CallFits(w.call.value, w.disk, w.claimed))
  }

  /** A further file does not disturb a manifest that does not name it. */
  lemma MoreFilesFit(entries: seq<Entry>, files: map<nat, View>, n: nat, view: View)
    requires Fits(entries, files) && n > |entries|
    ensures Fits(entries, files[n := view])
  {
    var more := files[n := view];
    forall k: nat | k < |entries| ensures EntryFits(entries, more, k) { assert EntryFits(entries, files, k); }
  }

  lemma StoreKeepsInv(w: World, c: Call, view: View)
    requires Inv(w) && w.call == Some(c) && c.phase == Holding(view)
    ensures Inv(StoreView(w, c, view))
  {
    AppendFits(c.archive, view);
    if !Has(c.archive.entries, view) {
      if c.chat in w.disk { MoreFilesFit(w.disk[c.chat].entries, w.disk[c.chat].files, |c.archive.entries| + 1, view); }
      assert Append(c.archive, view) != c.archive;
    }
  }

  lemma StepKeepsInv(w: World, a: Action)
    requires Inv(w)
    ensures Inv(Step(w, a))
  {
    match a
    case StoreFile => if w.call.Some? && w.call.value.phase.Holding? { StoreKeepsInv(w, w.call.value, w.call.value.phase.view); }
    case _ =>
  }

  /** Over any checkpoints, failures, crashes and reopenings: the digests of a manifest are pairwise distinct, its
      k-th entry names file k and that file holds the view, one call scans at most 500 views and adds at most
      what was asked for, and an archive is complete only after its export reported a start. */
  lemma {:induction false} ArchivesAreSound(actions: seq<Action>)
    ensures Inv(RunFrom(Empty, actions))
  {
    if actions != [] {
      ArchivesAreSound(actions[..|actions| - 1]);
      StepKeepsInv(RunFrom(Empty, actions[..|actions| - 1]), actions[|actions| - 1]);
    }
  }

  // ---------------------------------------------------------------------------------------------
  // Whose views an archive holds
  // ---------------------------------------------------------------------------------------------

  /** The browser shows the chat it was asked to open, and scrolling shows the chat of the page. */
  predicate Truthful(w: World, a: Action) {
    && (a.Open? && w.call.Some? ==> a.shown.owner == w.call.value.chat)
    && (a.Scroll? ==> w.page == Some(a.shown.owner))
  }

  /** The checkpoint to resume is where the page is, and a call works on its own page. */
  predicate PageFits(w: World) {
    if w.call.Some? && !w.call.value.phase.Opening? then w.page == Some(w.call.value.chat)
    else w.cursor.Some? ==> w.page == w.cursor
  }

  /** A call that left its mark on the page ends without a checkpoint, while the checkpoint of another chat
      is still to be resumed. */
  predicate Strands(w: World, a: Action) {
    w.call.Some? && w.cursor.Some? &&
    (if w.call.value.phase.Opening? then a.OpenFails? && a.left != w.cursor
     else w.cursor != Some(w.call.value.chat) && (a.Throw? || (a.Finish? && w.call.value.phase.Finishing?)))
  }

  /** Exactly the stranding steps lose the page of a checkpoint. */
  lemma StrandedIff(w: World, a: Action)
    requires Inv(w) && PageFits(w) && Truthful(w, a)
    ensures PageFits(Step(w, a)) <==> !Strands(w, a)
  {
  }

  predicate Owned(files: map<nat, View>, id: Id) {
    forall n :: n in files ==> files[n].owner == id
  }

  ghost predicate Pure(w: World) {
    && (forall id :: id in w.disk ==> Owned(w.disk[id].files, id))
    && (w.call.Some? && w.call.value.phase.Holding? ==> w.call.value.phase.view.owner == w.call.value.chat)
    && (w.call.Some? && w.call.value.atStart ==> w.call.value.chat in w.tops)
    && CompleteSeen(w.disk, w.tops)
  }

  lemma StepKeepsPure(w: World, a: Action)
    requires Inv(w) && Pure(w) && PageFits(w) && Truthful(w, a)
    ensures Pure(Step(w, a))
  {
    match a
    case StoreFile =>
      if w.call.Some? && w.call.value.phase.Holding? {
        var c := w.call.value;
        assert Owned(At(w.disk, c.chat).files, c.chat);
        assert Owned(Append(c.archive, c.phase.view).files, c.chat);
      }
    case StoreManifest =>
      if w.call.Some? && w.call.value.phase.Saving? { assert Owned(At(w.disk, w.call.value.chat).files, w.call.value.chat); }
    case Finish =>
      if w.call.Some? && w.call.value.phase.Finishing? { assert Owned(At(w.disk, w.call.value.chat).files, w.call.value.chat); }
    case _ =>
  }

  ghost predicate Orderly(actions: seq<Action>) {
    actions != [] ==>
      var w, a := RunFrom(Empty, actions[..|actions| - 1]), actions[|actions| - 1];
      Orderly(actions[..|actions| - 1]) && Truthful(w, a) && !Strands(w, a)
  }

  lemma {:induction false} OrderlyKeepsPure(actions: seq<Action>)
    requires Orderly(actions)
    ensures Pure(RunFrom(Empty, actions)) && PageFits(RunFrom(Empty, actions))
  {
    if actions != [] {
      var w, a := RunFrom(Empty, actions[..|actions| - 1]), actions[|actions| - 1];
      OrderlyKeepsPure(actions[..|actions| - 1]);
      ArchivesAreSound(actions[..|actions| - 1]);
      StepKeepsPure(w, a);
      StrandedIff(w, a);
    }
  }

  /** As long as no checkpoint is stranded, an archive holds views of its own chat only, and is complete only
      after the start of that chat was really shown. */
  lemma OrderlyArchivesArePure(actions: seq<Action>, id: Id)
    requires Orderly(actions) && id in RunFrom(Empty, actions).disk
    ensures forall k :: 0 <= k < |RunFrom(Empty, actions).disk[id].entries| ==> RunFrom(Empty, actions).disk[id].entries[k].view.owner == id
    ensures RunFrom(Empty, actions).disk[id].complete ==> id in RunFrom(Empty, actions).tops
  {
    OrderlyKeepsPure(actions);
    ArchivesAreSound(actions);
    var a := RunFrom(Empty, actions).disk[id];
    forall k | 0 <= k < |a.entries| ensures a.entries[k].view.owner == id {
      assert EntryFits(a.entries, a.files, k);
    }
  }

  lemma RunSnoc(w: World, actions: seq<Action>, a: Action)
    ensures RunFrom(w, actions + [a]) == Step(RunFrom(w, actions), a)
  {
    assert (actions + [a])[..|actions|] == actions;
  }

  /** Every answer of the browser on the way was true. */
  predicate HonestFrom(w: World, actions: seq<Action>) {
    actions == []
    || (HonestFrom(w, actions[..|actions| - 1]) && Truthful(RunFrom(w, actions[..|actions| - 1]), actions[|actions| - 1]))
  }

  lemma {:induction false} RunJoin(w: World, first: seq<Action>, second: seq<Action>)
    ensures RunFrom(w, first + second) == RunFrom(RunFrom(w, first), second)
    ensures HonestFrom(w, first + second) <==> HonestFrom(w, first) && HonestFrom(RunFrom(w, first), second)
  {
    if second == [] {
      assert first + second == first;
    } else {
      var n := |second| - 1;
      RunJoin(w, first, second[..n]);
      assert (first + second)[..|first + second| - 1] == first + second[..n];
    }
  }

  lemma RunCons(w: World, a: Action, rest: seq<Action>)
    ensures RunFrom(w, [a] + rest) == RunFrom(Step(w, a), rest)
    ensures HonestFrom(w, [a] + rest) <==> Truthful(w, a) && HonestFrom(Step(w, a), rest)
  {
    RunJoin(w, [a], rest);
    assert [a][..0] == [] && [a][..|[a]| - 1] == [];
  }

  /** The end of an export that holds the view of a reported start. */
  const Ending: seq<Action> := [StoreFile] + ([StoreManifest] + ([Finish] + []))

  lemma EndsComplete(w: World, c: Call, view: View)
    requires w.call == Some(c) && c.phase == Holding(view) && c.atStart && !c.archive.complete
    ensures var w' := RunFrom(w, Ending);
            && w'.disk == w.disk[c.chat := Append(c.archive, view).(complete := true)] && w'.call == None
            && w'.cursor == (if w.cursor == Some(c.chat) then None else w.cursor) && w'.page == w.page && w'.tops == w.tops
    ensures HonestFrom(w, Ending)
  {
    RunCons(w, StoreFile, [StoreManifest] + ([Finish] + []));
    var w1 := StoreView(w, c, view);
    RunCons(w1, StoreManifest, [Finish] + []);
    var w2 := SaveManifest(w1, w1.call.value);
    RunCons(w2, Finish, []);
  }

  /** The beginning of an export that stores one view of its chat. */
  function Beginning(chat: Id, max: nat, view: View): seq<Action> {
    [Start(chat, max)] + ([Open(view)] + ([StoreFile] + ([StoreManifest] + [])))
  }

  lemma Begins(w: World, chat: Id, max: nat, view: View)
    requires w.call.None? && At(w.disk, chat) == Archive([], false, map[]) && w.cursor != Some(chat) && 1 <= max <= 100
    requires view.owner == chat
    ensures HonestFrom(w, Beginning(chat, max, view))
    ensures var a := Archive([Entry(1, view)], false, map[1 := view]);
            RunFrom(w, Beginning(chat, max, view)) ==
              w.(disk := w.disk[chat := a], page := Some(chat), cursor := if max == 1 then Some(chat) else w.cursor,
                 call := if max == 1 then None else Some(Call(chat, max, a, 1, 1, false, Scrolling)))
  {
    RunCons(w, Start(chat, max), [Open(view)] + ([StoreFile] + ([StoreManifest] + [])));
    var c := Call(chat, max, Archive([], false, map[]), 0, 0, false, Opening);
    var w1 := w.(call := Some(c));
    RunCons(w1, Open(view), [StoreFile] + ([StoreManifest] + []));
    var w2 := w.(page := Some(chat), call := Some(c.(phase := Holding(view))));
    StoresFirst(w2, c.(phase := Holding(view)), view);
  }

  lemma StoresFirst(w: World, c: Call, view: View)
    requires w.call == Some(c) && c.phase == Holding(view) && c.archive == Archive([], false, map[]) == At(w.disk, c.chat)
    requires c.added == c.scanned == 0 && !c.atStart && w.cursor != Some(c.chat) && c.max > 0
    ensures var a := Archive([Entry(1, view)], false, map[1 := view]);
            RunFrom(w, [StoreFile] + ([StoreManifest] + [])) ==
              w.(disk := w.disk[c.chat := a], cursor := if c.max == 1 then Some(c.chat) else w.cursor,
                 call := if c.max == 1 then None else Some(Call(c.chat, c.max, a, 1, 1, false, Scrolling)))
    ensures HonestFrom(w, [StoreFile] + ([StoreManifest] + []))
  {
    var a := Archive([Entry(1, view)], false, map[1 := view]);
    assert Append(c.archive, view) == a;
    RunCons(w, StoreFile, [StoreManifest] + []);
    var c1 := Call(c.chat, c.max, a, 1, 0, false, Saving);
    var stored := w.disk[c.chat := At(w.disk, c.chat).(files := a.files)];
    assert StoreView(w, c, view) == w.(disk := stored, call := Some(c1));
    SavesFirst(w.(disk := stored, call := Some(c1)), c1);
    assert stored[c.chat := a] == w.disk[c.chat := a];
  }

  lemma SavesFirst(w: World, c: Call)
    requires w.call == Some(c) && c.phase == Saving && c.added == 1 && c.scanned == 0 && !c.atStart && c.max > 0
    ensures RunFrom(w, [StoreManifest] + []) ==
              w.(disk := w.disk[c.chat := c.archive], cursor := if c.max == 1 then Some(c.chat) else w.cursor,
                 call := if c.max == 1 then None else Some(Call(c.chat, c.max, c.archive, 1, 1, false, Scrolling)))
    ensures HonestFrom(w, [StoreManifest] + [])
  {
    RunCons(w, StoreManifest, []);
    var next := c.(scanned := 1, phase := Scrolling);
    assert SaveManifest(w, c) == w.(disk := w.disk[c.chat := c.archive], cursor := if c.max == 1 then Some(c.chat) else w.cursor,
                                    call := if c.max == 1 then None else Some(next));
  }

  /** One chat is left at a checkpoint, then another is read to its start. */
  function OtherPage(a: Id, b: Id, first: View, bottom: View, top: View): seq<Action> {
    Beginning(a, 1, first) + (Beginning(b, 100, bottom) + ([Scroll(top, true)] + Ending))
  }

  /** After that the page shows the second chat, but an export of the first resumes on it: its archive ends up
      complete with a view of the second, though its own start was never shown and every answer was true. */
  lemma WrongChatIsCompleted(a: Id, b: Id, first: View, bottom: View, top: View)
    requires a != b && first.owner == a && bottom.owner == b && top.owner == b && bottom != top
    ensures RunFrom(Empty, OtherPage(a, b, first, bottom, top)).page == Some(top.owner)
    ensures var w := RunFrom(Empty, OtherPage(a, b, first, bottom, top) + ([Start(a, 100)] + ([Scroll(top, true)] + Ending)));
            a in w.disk && w.disk[a].complete && a !in w.tops && w.disk[a].entries == [Entry(1, first), Entry(2, top)]
    ensures HonestFrom(Empty, OtherPage(a, b, first, bottom, top) + ([Start(a, 100)] + ([Scroll(top, true)] + Ending)))
  {
    var mine := Archive([Entry(1, first)], false, map[1 := first]);
    OtherPageRun(a, b, first, bottom, top);
    var w := RunFrom(Empty, OtherPage(a, b, first, bottom, top));
    RunJoin(Empty, OtherPage(a, b, first, bottom, top), [Start(a, 100)] + ([Scroll(top, true)] + Ending));
    ResumeCompletes(w, a, mine, top);
    assert Append(mine, top).entries == [Entry(1, first), Entry(2, top)];
  }

  lemma OtherPageRun(a: Id, b: Id, first: View, bottom: View, top: View)
    requires a != b && first.owner == a && bottom.owner == b && top.owner == b && bottom != top
    ensures var w := RunFrom(Empty, OtherPage(a, b, first, bottom, top));
            && w.page == Some(b) && w.cursor == Some(a) && w.call == None && w.tops == {b}
            && a in w.disk && w.disk[a] == Archive([Entry(1, first)], false, map[1 := first])
    ensures HonestFrom(Empty, OtherPage(a, b, first, bottom, top))
  {
    RunJoin(Empty, Beginning(a, 1, first), Beginning(b, 100, bottom) + ([Scroll(top, true)] + Ending));
    Begins(Empty, a, 1, first);
    var w1 := World(map[a := Archive([Entry(1, first)], false, map[1 := first])], Some(a), Some(a), None, {}, {});
    var w := OtherCompletes(w1, a, b, bottom, top);
  }

  lemma ResumeCompletes(w: World, a: Id, mine: Archive, top: View)
    requires w.cursor == Some(a) && w.call.None? && a in w.disk && w.disk[a] == mine && !mine.complete
    requires w.page == Some(top.owner)
    ensures HonestFrom(w, [Start(a, 100)] + ([Scroll(top, true)] + Ending))
    ensures var w' := RunFrom(w, [Start(a, 100)] + ([Scroll(top, true)] + Ending));
            w'.disk == w.disk[a := Append(mine, top).(complete := true)] && w'.tops == w.tops + {top.owner}
  {
    RunCons(w, Start(a, 100), [Scroll(top, true)] + Ending);
    var w1 := w.(call := Some(Call(a, 100, mine, 0, 0, false, Scrolling)));
    RunCons(w1, Scroll(top, true), Ending);
    EndsComplete(Step(w1, Scroll(top, true)), Call(a, 100, mine, 0, 0, true, Holding(top)), top);
  }

  /** The second chat completes without touching the checkpoint of the first. */
  lemma OtherCompletes(w: World, a: Id, b: Id, bottom: View, top: View) returns (w': World)
    requires a in w.disk && b !in w.disk && w.cursor == Some(a) && w.call.None? && w.tops == {}
    requires a != b && bottom.owner == b && top.owner == b && bottom != top
    ensures HonestFrom(w, Beginning(b, 100, bottom) + ([Scroll(top, true)] + Ending))
    ensures w' == RunFrom(w, Beginning(b, 100, bottom) + ([Scroll(top, true)] + Ending))
    ensures w'.cursor == Some(a) && w'.page == Some(b) && w'.call == None && w'.tops == {b}
    ensures a in w'.disk && w'.disk[a] == w.disk[a]
  {
    var second := [Scroll(top, true)] + Ending;
    RunJoin(w, Beginning(b, 100, bottom), second);
    Begins(w, b, 100, bottom);
    var other := Archive([Entry(1, bottom)], false, map[1 := bottom]);
    var w2 := w.(disk := w.disk[b := other], page := Some(b), call := Some(Call(b, 100, other, 1, 1, false, Scrolling)));
    RunCons(w2, Scroll(top, true), Ending);
    EndsComplete(Step(w2, Scroll(top, true)), Call(b, 100, other, 1, 1, true, Holding(top)), top);
    w' := RunFrom(w2, second);
  }

  // ---------------------------------------------------------------------------------------------
  // Reconciling by route
  // ---------------------------------------------------------------------------------------------

  datatype Source = Source(id: Id, route: string, views: seq<View>)

  predicate Stored(disk: Disk, id: Id, n: nat, view: View) {
    id in disk && n in disk[id].files && disk[id].files[n] == view
  }

  predicate Listed(plan: seq<Source>, route: string, view: View) {
    exists k :: 0 <= k < |plan| && plan[k].route == route && view in plan[k].views
  }

  /** `indexRouteSegments`: every stored view with a route is listed under it, and nothing else is listed. */
  ghost predicate Indexes(plan: seq<Source>, disk: Disk) {
    && (forall id, n, view :: Stored(disk, id, n, view) && view.route.Some? ==> Listed(plan, view.route.value, view))
    && (forall k, view :: 0 <= k < |plan| && view in plan[k].views ==> view.route == Some(plan[k].route))
  }

  /** One archive per route, named after it. */
  ghost predicate Named(plan: seq<Source>, name: string -> Id) {
    forall k :: 0 <= k < |plan| ==> plan[k].id == name(plan[k].route)
  }

  /** `reconcileKnownRoutes`. */
  function Reconcile(disk: Disk, plan: seq<Source>): Disk {
    if plan == [] then disk
    else
      var before := Reconcile(disk, plan[..|plan| - 1]);
      var last := plan[|plan| - 1];
      before[last.id := AppendAll(At(before, last.id), last.views)]
  }

  lemma {:induction false} AppendAllFits(a: Archive, views: seq<View>)
    requires Fits(a.entries, a.files)
    ensures var b := AppendAll(a, views);
            && Fits(b.entries, b.files) && a.entries <= b.entries && (forall v :: v in views ==> Has(b.entries, v))
            && (forall n :: n in b.files ==> b.files[n] in views || (n in a.files && a.files[n] == b.files[n]))
  {
    if views != [] {
      var init, last := views[..|views| - 1], views[|views| - 1];
      AppendAllFits(a, init);
      AppendFits(AppendAll(a, init), last);
      assert views == init + [last];
      var mid, b := AppendAll(a, init), AppendAll(a, views);
      forall v | v in views ensures Has(b.entries, v) {
        if v in init {
          var i :| 0 <= i < |mid.entries| && mid.entries[i].view == v;
          assert b.entries[i].view == v;
        }
      }
    }
  }

  lemma {:induction false} AppendKnown(a: Archive, views: seq<View>)
    requires forall v :: v in views ==> Has(a.entries, v)
    ensures AppendAll(a, views) == a
  {
    if views != [] {
      var init, last := views[..|views| - 1], views[|views| - 1];
      assert views == init + [last];
      AppendKnown(a, init);
    }
  }

  /** The archive of a route knows the view. */
  predicate Knows(disk: Disk, id: Id, view: View) {
    id in disk && Has(disk[id].entries, view)
  }

  lemma {:induction false} ReconcileKnows(disk: Disk, plan: seq<Source>)
    requires DiskFits(disk)
    ensures DiskFits(Reconcile(disk, plan))
    ensures forall k, v :: 0 <= k < |plan| && v in plan[k].views ==> Knows(Reconcile(disk, plan), plan[k].id, v)
    ensures forall id, n, v :: Stored(Reconcile(disk, plan), id, n, v) ==>
              Stored(disk, id, n, v) || exists k :: 0 <= k < |plan| && v in plan[k].views
  {
    if plan != [] {
      var init, last := plan[..|plan| - 1], plan[|plan| - 1];
      ReconcileKnows(disk, init);
      var before, after := Reconcile(disk, init), Reconcile(disk, plan);
      AppendAllFits(At(before, last.id), last.views);
      forall k, v | 0 <= k < |plan| && v in plan[k].views ensures Knows(after, plan[k].id, v) {
        if k < |init| { KnowsMore(before, after, last, init[k].id, v); }
      }
      forall id, n, v | Stored(after, id, n, v)
        ensures Stored(disk, id, n, v) || exists k :: 0 <= k < |plan| && v in plan[k].views
      {
        if id == last.id && v in last.views {
          assert v in plan[|init|].views;
        } else {
          assert Stored(before, id, n, v);
          if !Stored(disk, id, n, v) {
            var k :| 0 <= k < |init| && v in init[k].views;
            assert v in plan[k].views;
          }
        }
      }
    }
  }

  lemma KnowsMore(before: Disk, after: Disk, last: Source, id: Id, v: View)
    requires after == before[last.id := AppendAll(At(before, last.id), last.views)] && Knows(before, id, v)
    requires At(before, last.id).entries <= AppendAll(At(before, last.id), last.views).entries
    ensures Knows(after, id, v)
  {
    var i :| 0 <= i < |before[id].entries| && before[id].entries[i].view == v;
    assert after[id].entries[i].view == v;
  }

  lemma {:induction false} ReconcileKnown(disk: Disk, plan: seq<Source>)
    requires forall k :: 0 <= k < |plan| ==> plan[k].id in disk
    requires forall k, v :: 0 <= k < |plan| && v in plan[k].views ==> Knows(disk, plan[k].id, v)
    ensures Reconcile(disk, plan) == disk
  {
    if plan != [] {
      var init, last := plan[..|plan| - 1], plan[|plan| - 1];
      forall k, v | 0 <= k < |init| && v in init[k].views ensures Knows(disk, init[k].id, v) { assert v in plan[k].views; }
      ReconcileKnown(disk, init);
      forall v | v in last.views ensures Has(disk[last.id].entries, v) { assert Knows(disk, plan[|init|].id, v); }
      AppendKnown(disk[last.id], last.views);
    }
  }

  /** A second reconciliation in a row adds nothing to any archive, though it also finds what the first one wrote. */
  lemma ReconcileTwice(disk: Disk, plan: seq<Source>, again: seq<Source>, name: string -> Id)
    requires DiskFits(disk) && Indexes(plan, disk) && Indexes(again, Reconcile(disk, plan))
    requires Named(plan, name) && Named(again, name)
    requires forall k :: 0 <= k < |again| ==> again[k].views != [] && FromDisk(again[k].views, Reconcile(disk, plan))
    ensures Reconcile(Reconcile(disk, plan), again) == Reconcile(disk, plan)
  {
    var once := Reconcile(disk, plan);
    ReconcileKnows(disk, plan);
    forall k, v | 0 <= k < |again| && v in again[k].views ensures Knows(once, again[k].id, v) {
      var id, n :| Stored(once, id, n, v);
      ListedInPlan(disk, plan, once, id, n, v);
      var j :| 0 <= j < |plan| && plan[j].route == v.route.value && v in plan[j].views;
      assert Knows(once, plan[j].id, v);
      assert plan[j].id == again[k].id;
    }
    forall k | 0 <= k < |again| ensures again[k].id in once {
      assert again[k].views[0] in again[k].views;
      assert Knows(once, again[k].id, again[k].views[0]);
    }
    ReconcileKnown(once, again);
  }

  /** Every listed view is a stored one. */
  ghost predicate FromDisk(views: seq<View>, disk: Disk) {
    forall v :: v in views ==> exists id, n :: Stored(disk, id, n, v)
  }

  lemma ListedInPlan(disk: Disk, plan: seq<Source>, once: Disk, id: Id, n: nat, v: View)
    requires Indexes(plan, disk) && v.route.Some? && Stored(once, id, n, v)
    requires Stored(disk, id, n, v) || exists k :: 0 <= k < |plan| && v in plan[k].views
    ensures Listed(plan, v.route.value, v)
  {
    if !Stored(disk, id, n, v) {
      var k :| 0 <= k < |plan| && v in plan[k].views;
      assert plan[k].route == v.route.value;
    }
  }

  // ---------------------------------------------------------------------------------------------
  // The export, in place
  // ---------------------------------------------------------------------------------------------

  /** What the browser answers to scrolling; a call that runs out of answers has failed. */
  datatype Reply = Reply(view: View, top: bool)

  /** The answers to scrolling that the actions used, in order. */
  function Scrolls(actions: seq<Action>): seq<Reply> {
    if actions == [] then []
    else
      var a := actions[|actions| - 1];
      Scrolls(actions[..|actions| - 1]) + if a.Scroll? then [Reply(a.shown, a.top)] else []
  }

  /** The call was not given up, nor the process stopped. */
  predicate Steady(actions: seq<Action>) {
    actions != [] ==> Steady(actions[..|actions| - 1]) && !actions[|actions| - 1].Throw? && !actions[|actions| - 1].Crash?
  }

  lemma SnocSteady(actions: seq<Action>, a: Action)
    requires Steady(actions) && !a.Throw? && !a.Crash?
    ensures Steady(actions + [a]) && Scrolls(actions + [a]) == Scrolls(actions) + if a.Scroll? then [Reply(a.shown, a.top)] else []
  {
    assert (actions + [a])[..|actions|] == actions;
  }

  /** The actions lead to this world without giving up. */
  ghost predicate Reaches(w0: World, actions: seq<Action>, w: World) {
    RunFrom(w0, actions) == w && Inv(w) && Steady(actions)
  }

  lemma ReachesSnoc(w0: World, actions: seq<Action>, w: World, a: Action)
    requires Reaches(w0, actions, w) && !a.Throw? && !a.Crash?
    ensures Reaches(w0, actions + [a], Step(w, a))
    ensures Scrolls(actions + [a]) == Scrolls(actions) + if a.Scroll? then [Reply(a.shown, a.top)] else []
  {
    RunSnoc(w0, actions, a);
    SnocSteady(actions, a);
    StepKeepsInv(w, a);
  }

  lemma StartLeaves(w: World, chat: Id, max: nat)
    requires w.call.None? && 1 <= max <= 100 && !At(w.disk, chat).complete
    ensures Step(w, Start(chat, max))
         == w.(call := Some(Call(chat, max, At(w.disk, chat), 0, 0, false, if w.cursor == Some(chat) then Scrolling else Opening)))
  {
  }

  lemma OpenFailsLeaves(w: World, c: Call, left: Option<Id>)
    requires w.call == Some(c) && c.phase == Opening
    ensures Step(w, OpenFails(left)) == w.(page := left, call := None)
  {
  }

  lemma OpenLeaves(w: World, c: Call, view: View)
    requires w.call == Some(c) && c.phase == Opening
    ensures Step(w, Open(view)) == w.(page := Some(c.chat), call := Some(c.(phase := Holding(view))))
  {
  }

  lemma StoreLeaves(w: World, c: Call, view: View)
    requires w.call == Some(c) && c.phase == Holding(view)
    ensures Step(w, StoreFile) == StoreView(w, c, view)
  {
  }

  lemma ManifestLeaves(w: World, c: Call)
    requires w.call == Some(c) && c.phase == Saving
    ensures var saved := w.disk[c.chat := c.archive]; var c' := c.(scanned := c.scanned + 1);
      Step(w, StoreManifest) ==
        if c.atStart then w.(disk := saved, call := Some(c'.(phase := Finishing)))
        else if c.added >= c.max || c.scanned + 1 >= MaxScanned then w.(disk := saved, cursor := Some(c.chat), call := None)
        else w.(disk := saved, call := Some(c'.(phase := Scrolling)))
  {
  }

  lemma FinishLeaves(w: World, c: Call)
    requires w.call == Some(c) && c.phase == Finishing
    ensures Step(w, Finish) == w.(disk := w.disk[c.chat := c.archive.(complete := true)], call := None,
                                  cursor := if w.cursor == Some(c.chat) then None else w.cursor)
  {
  }

  lemma ScrollLeaves(w: World, c: Call, view: View, top: bool)
    requires w.call == Some(c) && c.phase == Scrolling
    ensures Step(w, Scroll(view, top)) ==
              w.(call := Some(c.(phase := Holding(view), atStart := top)),
                 claimed := if top then w.claimed + {c.chat} else w.claimed, tops := if top then w.tops + {view.owner} else w.tops)
  {
  }

  /** How an export begins: it resumes the page of a checkpoint, or opens the chat. */
  function Head(chat: Id, max: nat, cursor: Option<Id>, page: Option<Id>, opening: Option<View>): seq<Action> {
    [Start(chat, max)] + (if cursor == Some(chat) then [] else if opening.None? then [OpenFails(page)] else [Open(opening.value)])
  }

  function FirstCall(w: World, chat: Id, max: nat): Call {
    Call(chat, max, At(w.disk, chat), 0, 0, false, if w.cursor == Some(chat) then Scrolling else Opening)
  }

  lemma Starts(w: World, chat: Id, max: nat)
    requires Inv(w) && w.call.None? && 1 <= max <= 100 && !At(w.disk, chat).complete
    ensures Reaches(w, [Start(chat, max)], w.(call := Some(FirstCall(w, chat, max)))) && Scrolls([Start(chat, max)]) == []
  {
    StartLeaves(w, chat, max);
    ReachesSnoc(w, [], w, Start(chat, max));
    assert [] + [Start(chat, max)] == [Start(chat, max)];
  }

  /** On the page of its checkpoint, the call goes on scrolling. */
  lemma Resumes(w: World, chat: Id, max: nat)
    requires Inv(w) && w.call.None? && 1 <= max <= 100 && !At(w.disk, chat).complete && w.cursor == Some(chat)
    ensures Head(chat, max, w.cursor, w.page, None) == [Start(chat, max)]
    ensures Reaches(w, [Start(chat, max)], w.(call := Some(FirstCall(w, chat, max)))) && Scrolls([Start(chat, max)]) == []
  {
    Starts(w, chat, max);
  }

  /** Otherwise it holds the view that opening the chat shows, or ends where it began. */
  lemma OpensOrFails(w: World, chat: Id, max: nat, opening: Option<View>)
    requires Inv(w) && w.call.None? && 1 <= max <= 100 && !At(w.disk, chat).complete && w.cursor != Some(chat)
    ensures var actions := Head(chat, max, w.cursor, w.page, opening);
      && Scrolls(actions) == []
      && match opening
         case None => Reaches(w, actions, w)
         case Some(view) => Reaches(w, actions, w.(page := Some(chat), call := Some(FirstCall(w, chat, max).(phase := Holding(view)))))
  {
    Starts(w, chat, max);
    var c := FirstCall(w, chat, max);
    var w1 := w.(call := Some(c));
    match opening
    case None =>
      OpenFailsLeaves(w1, c, w.page);
      ReachesSnoc(w, [Start(chat, max)], w1, OpenFails(w.page));
    case Some(view) =>
      OpenLeaves(w1, c, view);
      ReachesSnoc(w, [Start(chat, max)], w1, Open(view));
  }

  lemma ThrowEnds(w0: World, actions: seq<Action>, w: World)
    requires Reaches(w0, actions, w)
    ensures RunFrom(w0, actions + [Throw]) == w.(call := None) && Scrolls(actions + [Throw]) == Scrolls(actions)
    ensures (actions + [Throw])[..|actions + [Throw]| - 1] == actions
  {
    RunSnoc(w0, actions, Throw);
    assert (actions + [Throw])[..|actions|] == actions;
  }

  class ChatGptHistoryArchive {
    var disk: Disk
    var page: Option<Id>
    var cursor: Option<Id>
    ghost var claimed: set<Id>
    ghost var tops: set<Id>

    constructor ()
      ensures View(None) == Empty
    {
      disk, page, cursor := map[], None, None;
      claimed, tops := {}, {};
    }

    ghost function View(call: Option<Call>): World
      reads this
    {
      World(disk, page, cursor, call, claimed, tops)
    }

    /** `appendSegment` on the opened archive of a chat. */
    method AppendSegment(chat: Id, manifest: Archive, view: View) returns (appended: bool, manifest': Archive)
      modifies this`disk
      ensures manifest' == Append(manifest, view) && (appended <==> !Has(manifest.entries, view))
      ensures disk == old(disk)[chat := At(old(disk), chat).(files := if appended then At(old(disk), chat).files[|manifest.entries| + 1 := view]
                                                                       else At(old(disk), chat).files)]
    {
      var i := 0;
      while i < |manifest.entries|
        invariant i <= |manifest.entries| && forall j :: 0 <= j < i ==> manifest.entries[j].view != view
      {
        if manifest.entries[i].view == view {
          disk := disk[chat := At(disk, chat)];
          return false, manifest;
        }
        i := i + 1;
      }
      var file := |manifest.entries| + 1;
      disk := disk[chat := At(disk, chat).(files := At(disk, chat).files[file := view])];
      appended, manifest' := true, Append(manifest, view);
    }

    /** The call stands where its steps so far lead. */
    ghost predicate Stands(w0: World, actions: seq<Action>, c: Option<Call>)
      reads this
    {
      Reaches(w0, actions, View(c))
    }

    /** `exportBoundChat`: the steps of the protocol it goes through, its status, and how much it added. */
    method ExportBoundChat(chat: Id, max: nat, opening: Option<View>, replies: seq<Reply>)
      returns (complete: bool, added: nat, ghost actions: seq<Action>)
      requires Inv(View(None)) && 1 <= max <= 100
      modifies this
      ensures View(None) == RunFrom(old(View(None)), actions)
      ensures complete ==> chat in disk && disk[chat].complete
      ensures added <= max
      ensures if At(old(disk), chat).complete then complete && actions == []
              else Head(chat, max, old(cursor), old(page), opening) <= actions && Scrolls(actions) <= replies
      ensures Steady(actions) || (Steady(actions[..|actions| - 1]) && actions[|actions| - 1] == Throw && Scrolls(actions) == replies)
    {
      added, actions := 0, [];
      if At(disk, chat).complete { return true, 0, []; }
      var archive := At(disk, chat);
      ghost var w0 := View(None);
      ghost var c;
      var ok, segment;
      ok, segment, actions, c := BeginExport(chat, max, opening);
      if !ok { return false, 0, actions; }
      var scanned, done := 0, false;
      if segment.Some? {
        done, complete, archive, added, scanned, actions, c := KeepView(w0, actions, c, chat, max, segment.value, archive, false, 0, 0);
        if done { return complete, added, actions; }
      }
      complete, added, actions := ScrollOn(w0, actions, c, chat, max, archive, added, scanned, replies);
    }

    /** The rest of the loop: scroll and keep, until the call ends or scrolling fails. */
    method ScrollOn(ghost w0: World, ghost before: seq<Action>, ghost c0: Call, chat: Id, max: nat, archive0: Archive,
                    added0: nat, scanned0: nat, replies: seq<Reply>)
      returns (complete: bool, added: nat, ghost actions: seq<Action>)
      requires Stands(w0, before, Some(c0)) && c0 == Call(chat, max, archive0, added0, scanned0, false, Scrolling) && added0 <= max
      requires Scrolls(before) == []
      modifies this
      ensures View(None) == RunFrom(w0, actions) && (complete ==> chat in disk && disk[chat].complete) && added <= max
      ensures before <= actions && Scrolls(actions) <= replies
      ensures Steady(actions) || (Steady(actions[..|actions| - 1]) && actions[|actions| - 1] == Throw && Scrolls(actions) == replies)
    {
      complete, added, actions := false, added0, before;
      ghost var c := c0;
      var archive, scanned, next := archive0, scanned0, 0;
      while next < |replies|
        invariant !complete && next <= |replies| && Stands(w0, actions, Some(c)) && before <= actions && added <= max
        invariant c == Call(chat, max, archive, added, scanned, false, Scrolling)
        invariant Scrolls(actions) == replies[..next]
      {
        actions, c := TakeReply(w0, actions, c, chat, replies[next]);
        assert replies[..next + 1] == replies[..next] + [replies[next]];
        var done;
        done, complete, archive, added, scanned, actions, c :=
          KeepView(w0, actions, c, chat, max, replies[next].view, archive, replies[next].top, added, scanned);
        if done { return; }
        next := next + 1;
      }
      ThrowEnds(w0, actions, View(Some(c)));
      assert replies[..next] == replies;
      actions := actions + [Throw];
    }

    /** Resumes the page of a checkpoint, or opens the chat at its bottom. */
    method BeginExport(chat: Id, max: nat, opening: Option<View>)
      returns (ok: bool, segment: Option<View>, ghost actions: seq<Action>, ghost c: Call)
      requires Inv(View(None)) && 1 <= max <= 100 && !At(disk, chat).complete
      modifies this
      ensures disk == old(disk) && actions == Head(chat, max, old(cursor), old(page), opening) && Steady(actions) && Scrolls(actions) == []
      ensures !ok ==> RunFrom(old(View(None)), actions) == View(None)
      ensures ok ==> Stands(old(View(None)), actions, Some(c))
                     && c == Call(chat, max, At(disk, chat), 0, 0, false, if segment.Some? then Holding(segment.value) else Scrolling)
    {
      c := FirstCall(View(None), chat, max);
      if cursor == Some(chat) {
        Resumes(View(None), chat, max);
        return true, None, [Start(chat, max)], c;
      }
      OpensOrFails(View(None), chat, max, opening);
      if opening.None? { return false, None, [Start(chat, max)] + [OpenFails(page)], c; }
      ok, segment, actions := true, opening, [Start(chat, max)] + [Open(opening.value)];
      page := Some(chat);
      c := c.(phase := Holding(opening.value));
    }

    /** One answer to scrolling. */
    method TakeReply(ghost w0: World, ghost before: seq<Action>, ghost c: Call, chat: Id, reply: Reply)
      returns (ghost actions: seq<Action>, ghost c': Call)
      requires Stands(w0, before, Some(c)) && c.chat == chat && c.phase == Scrolling
      modifies this`claimed, this`tops
      ensures actions == before + [Scroll(reply.view, reply.top)] && Scrolls(actions) == Scrolls(before) + [reply]
      ensures c' == c.(phase := Holding(reply.view), atStart := reply.top)
      ensures Stands(w0, actions, Some(c'))
    {
      ghost var scroll := Scroll(reply.view, reply.top);
      ScrollLeaves(View(Some(c)), c, reply.view, reply.top);
      ReachesSnoc(w0, before, View(Some(c)), scroll);
      actions, c' := before + [scroll], c.(phase := Holding(reply.view), atStart := reply.top);
      if reply.top {
        claimed := claimed + {chat};
        tops := tops + {reply.view.owner};
      }
    }

    /** One view through the loop: append, save, and then complete, stop at a checkpoint, or go on. */
    method KeepView(ghost w0: World, ghost before: seq<Action>, ghost c: Call, chat: Id, max: nat, view: View, archive: Archive, atStart: bool, added: nat, scanned: nat)
      returns (done: bool, complete: bool, archive': Archive, added': nat, scanned': nat, ghost actions: seq<Action>, ghost c': Call)
      requires Stands(w0, before, Some(c))
      requires c.chat == chat && c.max == max && c.phase == Holding(view) && c.archive == archive && c.atStart == atStart && c.added == added && c.scanned == scanned
      modifies this
      ensures added' <= max && before <= actions && Steady(actions) && Scrolls(actions) == Scrolls(before)
      ensures complete ==> done
      ensures done ==> RunFrom(w0, actions) == View(None) && (complete ==> c.chat in disk && disk[c.chat].complete)
      ensures !done ==> Stands(w0, actions, Some(c'))
                        && c' == Call(c.chat, c.max, archive', added', scanned', false, Scrolling)
    {
      ghost var c1 := StoreView(View(Some(c)), c, view).call.value;
      StoreLeaves(View(Some(c)), c, view);
      ReachesSnoc(w0, before, View(Some(c)), StoreFile);
      var appended;
      appended, archive' := AppendSegment(chat, archive, view);
      added' := if appended then added + 1 else added;
      scanned' := scanned + 1;
      assert StoreView(old(View(Some(c))), c, view) == View(Some(c1));
      done, complete, actions, c' := Settle(w0, before + [StoreFile], c1, chat, max, archive', atStart, added', scanned');
    }

    /** After the append: the manifest is written, and the call completes, stops at a checkpoint, or goes on. */
    method Settle(ghost w0: World, ghost before: seq<Action>, ghost c: Call, chat: Id, max: nat, archive: Archive, atStart: bool,
                  added: nat, scanned: nat)
      returns (done: bool, complete: bool, ghost actions: seq<Action>, ghost c': Call)
      requires Stands(w0, before, Some(c)) && scanned > 0
      requires c == Call(chat, max, archive, added, scanned - 1, atStart, Saving)
      modifies this
      ensures before <= actions && Steady(actions) && Scrolls(actions) == Scrolls(before)
      ensures complete ==> done
      ensures done ==> RunFrom(w0, actions) == View(None) && (complete ==> chat in disk && disk[chat].complete)
      ensures !done ==> Stands(w0, actions, Some(c'))
                        && c' == Call(chat, max, archive, added, scanned, false, Scrolling)
    {
      done, complete := false, false;
      ManifestLeaves(View(Some(c)), c);
      ReachesSnoc(w0, before, View(Some(c)), StoreManifest);
      c' := c.(scanned := scanned, phase := Scrolling);
      disk := disk[chat := archive];
      actions := before + [StoreManifest];
      if atStart {
        ghost var c1 := c.(scanned := scanned, phase := Finishing);
        FinishLeaves(View(Some(c1)), c1);
        ReachesSnoc(w0, actions, View(Some(c1)), Finish);
        actions := actions + [Finish];
        disk := disk[chat := archive.(complete := true)];
        if cursor == Some(chat) { cursor := None; }
        done, complete := true, true;
      } else if added >= max || scanned >= MaxScanned {
        cursor := Some(chat);
        done := true;
      }
    }
  }
}
