/**
  The other half of compare-and-swap: when a save is refused, and that every other save gets
  through if its calls are answered and nobody interferes, with all its images.
 */
module StudioServerSaves {
  import opened Wrappers
  import opened StudioServer
  import opened StudioServerRuns

  // ---------- when a save is refused ----------

  /**
    Over the server's log of the draft and the browser's link: the draft is gone although the link
    has a revision; or the last document cannot be read; or it is neither the work itself nor what
    the link remembers.
   */
  predicate Refused(log: seq<Document>, link: Link, text: string) {
    if log == [] then link.revision.Some?
    else
      var last := log[|log| - 1];
      !last.readable || (last.project.text != text && link.base != Some(last.project.text))
  }

  function LinkOf(s: Storage, work: string, spare: Id): Link {
    if work in s.links then s.links[work] else Link(spare, None, None)
  }

  /** The call that a checked save makes next. */
  lemma CheckedSaveIff(w: World, t: nat, spare: Id, link: Link, log: seq<Document>)
    requires Legal(w, Resume(t, spare)) && w.tasks[t].stage == Checking(link)
    requires w.tasks[t].reply == Some(DraftIs(if log == [] then None else Some((|log|, log[|log| - 1]))))
    ensures var task, task' := w.tasks[t], Step(w, Resume(t, spare)).tasks[t];
            var text := task.project.text;
            var same := log != [] && log[|log| - 1].readable && log[|log| - 1].project.text == text;
            && (task'.stage == Over(false) <==> Refused(log, link, text))
            && (task'.stage == Putting(false) <==> !Refused(log, link, text) && !same)
            && (task'.stage == Putting(false) ==>
                  task'.call == Some(PutDraft(task.productId, Revision(log), Document(task.project, task.work, true))))
            && (same ==> task'.stage == if task.project.slots == [] then Over(true) else Fetching(|log|))
            && (same ==> Step(w, Resume(t, spare)).storage.links[task.work] == Link(link.productId, Some(|log|), Some(text)))
  {}

  /** If nobody wrote the draft since it was read, the server takes the document as the next one. */
  lemma UnchangedDraftIsReplaced(w: World, t: nat, copies: map<string, Id>, spare: Id, log: seq<Document>)
    requires Legal(w, Serve(t, copies, spare)) && w.tasks[t].call.value.PutDraft?
    requires w.tasks[t].call.value.expected == Revision(log) && Log(w.server, w.tasks[t].call.value.productId) == log
    requires log == [] || log[|log| - 1] != w.tasks[t].call.value.doc
    ensures var p, w' := w.tasks[t].call.value.productId, Step(w, Serve(t, copies, spare));
            && Log(w'.server, p) == log + [w.tasks[t].call.value.doc]
            && w'.tasks[t].reply == Some(SavedAs(Some(|log| + 1)))
            && forall q :: q != p ==> Log(w'.server, q) == Log(w.server, q)
  {}

  // ---------- ids ----------

  lemma {:induction false} LongerThanAll(used: set<Id>) returns (n: nat)
    ensures forall id :: id in used ==> |id| < n
  {
    if used == {} {
      n := 0;
    } else {
      var id :| id in used;
      var m := LongerThanAll(used - {id});
      n := if m > |id| then m else |id| + 1;
      forall x | x in used ensures |x| < n { if x != id { assert x in used - {id}; } }
    }
  }

  lemma FreshId(used: set<Id>) returns (id: Id)
    ensures id !in used
  {
    var n := LongerThanAll(used);
    id := seq(n, i => 'a');
  }

  // ---------- a save that is left alone ----------

  /** What the save is for. */
  datatype Goal = Goal(t: nat, work: string, productId: Id, text: string, slots: seq<Slot>)

  /** The document is the draft's last one, with an image in every slot, and the link says so. */
  ghost predicate Reached(w: World, g: Goal) {
    var log := Log(w.server, g.productId);
    && g.t in w.tasks && w.tasks[g.t].stage == Over(true) && log != []
    && log[|log| - 1].project.text == g.text
    && (forall i :: 0 <= i < |g.slots| ==> g.slots[i] in log[|log| - 1].project.media)
    && g.work in w.storage.links && w.storage.links[g.work] == Link(g.productId, Some(|log|), Some(g.text))
  }

  predicate OfTask(e: Event, t: nat) {
    (e.Serve? || e.Resume?) && e.t == t
  }

  ghost predicate Quiet(events: seq<Event>, t: nat) {
    forall i :: 0 <= i < |events| ==> OfTask(events[i], t)
  }

  /** Serving and resuming this save alone can lead to its goal. */
  ghost predicate CanEnd(w: World, g: Goal) {
    exists events :: Runs(w, events) && Quiet(events, g.t) && Reached(Run(w, events), g)
  }

  lemma EndsNow(w: World, g: Goal)
    requires Reached(w, g)
    ensures CanEnd(w, g)
  {
    assert Runs(w, []) && Quiet([], g.t) && Run(w, []) == w;
  }

  lemma EndsAfter(w: World, e: Event, g: Goal)
    requires Legal(w, e) && OfTask(e, g.t) && CanEnd(Step(w, e), g)
    ensures CanEnd(w, g)
  {
    var events :| Runs(Step(w, e), events) && Quiet(events, g.t) && Reached(Run(Step(w, e), events), g);
    var all := [e] + events;
    assert all[1..] == events;
    assert Runs(w, all) && Run(w, all) == Run(Step(w, e), events);
    assert Quiet(all, g.t);
  }

  /** The save runs, for this goal, and the draft holds this many documents. */
  predicate Pursues(w: World, g: Goal, revision: nat) {
    && g.t in w.tasks && w.tasks[g.t].live
    && w.tasks[g.t].work == g.work && w.tasks[g.t].productId == g.productId
    && w.tasks[g.t].project.text == g.text && w.tasks[g.t].project.slots == g.slots
    && |Log(w.server, g.productId)| == revision
  }

  predicate Waits(w: World, t: nat, stage: Stage, call: Call)
    requires t in w.tasks
  {
    w.tasks[t].stage == stage && w.tasks[t].call == Some(call) && w.tasks[t].reply.None?
  }

  /** One call answered, then the code after it. */
  function Answered(w: World, t: nat, copies: map<string, Id>, a: Id, b: Id): World
    requires Legal(w, Serve(t, copies, a)) && w.tasks[t].live && b !in w.used + {a}
  {
    Step(Step(w, Serve(t, copies, a)), Resume(t, b))
  }

  lemma EndsAnswered(w: World, copies: map<string, Id>, a: Id, b: Id, g: Goal)
    requires Legal(w, Serve(g.t, copies, a)) && w.tasks[g.t].live && b !in w.used + {a}
    requires CanEnd(Answered(w, g.t, copies, a, b), g)
    ensures CanEnd(w, g)
  {
    EndsAfter(Step(w, Serve(g.t, copies, a)), Resume(g.t, b), g);
    EndsAfter(w, Serve(g.t, copies, a), g);
  }

  lemma TwoIds(used: set<Id>) returns (a: Id, b: Id)
    ensures a !in used && b !in used + {a}
  {
    a := FreshId(used);
    b := FreshId(used + {a});
  }

  predicate AllFilled(project: Project, n: nat) {
    forall i :: 0 <= i < n && i < |project.slots| ==> project.slots[i] in project.media
  }

  lemma LastPutEnds(w: World, g: Goal, revision: nat)
    requires Pursues(w, g, revision) && revision > 0 && AllFilled(w.tasks[g.t].project, |g.slots|)
    requires Waits(w, g.t, Putting(true), PutDraft(g.productId, Some(revision), Document(w.tasks[g.t].project, g.work, true)))
    ensures CanEnd(w, g)
  {
    var a, b := TwoIds(w.used);
    var w' := Answered(w, g.t, map[], a, b);
    assert Reached(w', g);
    EndsNow(w', g);
    EndsAnswered(w, map[], a, b, g);
  }

  /** Every slot still to fill shows on the server's draft or belongs to a character with a server copy. */
  predicate Fillable(project: Project, remote: Document, targets: map<string, Id>, next: nat) {
    forall i :: next <= i < |project.slots| ==> project.slots[i] in remote.project.media || project.slots[i].character in targets
  }

  ghost predicate ChoosesFrom(w: World, g: Goal, revision: nat, remote: Document, targets: map<string, Id>, next: nat) {
    && Pursues(w, g, revision) && revision > 0 && next <= |g.slots|
    && w.tasks[g.t].stage == Choosing(revision, remote, targets, next)
    && AllFilled(w.tasks[g.t].project, next) && Fillable(w.tasks[g.t].project, remote, targets, next)
  }

  lemma UploadAnswered(w: World, g: Goal, revision: nat, remote: Document, targets: map<string, Id>, next: nat,
                       key: MediaKey, requestId: Id) returns (a: Id, b: Id)
    requires Pursues(w, g, revision) && revision > 0 && next < |g.slots|
    requires Waits(w, g.t, Uploading(revision, remote, targets, next), PostUpload(key, requestId))
    requires AllFilled(w.tasks[g.t].project, next) && Fillable(w.tasks[g.t].project, remote, targets, next)
    ensures Legal(w, Serve(g.t, map[], a)) && b !in w.used + {a}
    ensures ChoosesFrom(Answered(w, g.t, map[], a, b), g, revision, remote, targets, next + 1)
  {
    a, b := TwoIds(w.used);
  }

  /** Slot by slot to the final put. */
  lemma {:induction false} ChoosingEnds(w: World, g: Goal, revision: nat, remote: Document, targets: map<string, Id>, next: nat)
    requires ChoosesFrom(w, g, revision, remote, targets, next)
    ensures CanEnd(w, g)
    decreases |g.slots| - next
  {
    var spare := FreshId(w.used);
    var w' := Step(w, Resume(g.t, spare));
    if next == |g.slots| {
      LastPutEnds(w', g, revision);
    } else if w'.tasks[g.t].stage.Uploading? {
      var call := w'.tasks[g.t].call.value;
      var a, b := UploadAnswered(w', g, revision, remote, targets, next, call.key, call.requestId);
      ChoosingEnds(Answered(w', g.t, map[], a, b), g, revision, remote, targets, next + 1);
      EndsAnswered(w', map[], a, b, g);
    } else {
      ChoosingEnds(w', g, revision, remote, targets, next + 1);
    }
    EndsAfter(w, Resume(g.t, spare), g);
  }

  predicate CopiesFor(slots: seq<Slot>, copies: map<string, Id>) {
    forall i :: 0 <= i < |slots| ==> slots[i].character in copies
  }

  lemma PreparingEnds(w: World, g: Goal, revision: nat, remote: Document, copies: map<string, Id>)
    requires Pursues(w, g, revision) && revision > 0 && CopiesFor(g.slots, copies)
    requires Waits(w, g.t, Preparing(revision, remote), PostComponents(g.productId, revision))
    ensures CanEnd(w, g)
  {
    var a, b := TwoIds(w.used);
    var w' := Answered(w, g.t, copies, a, b);
    ChoosingEnds(w', g, revision, remote, copies + Targets(w.server, g.productId), 0);
    EndsAnswered(w, copies, a, b, g);
  }

  lemma FetchingEnds(w: World, g: Goal, revision: nat, copies: map<string, Id>)
    requires Pursues(w, g, revision) && revision > 0 && CopiesFor(g.slots, copies)
    requires Waits(w, g.t, Fetching(revision), GetDraft(g.productId))
    ensures CanEnd(w, g)
  {
    var a, b := TwoIds(w.used);
    var w' := Answered(w, g.t, map[], a, b);
    PreparingEnds(w', g, revision, Log(w.server, g.productId)[revision - 1], copies);
    EndsAnswered(w, map[], a, b, g);
  }

  /** The text is stored as the draft's last document, and the link says so. */
  predicate TextStored(w: World, g: Goal) {
    var log := Log(w.server, g.productId);
    && log != [] && log[|log| - 1].project.text == g.text
    && g.work in w.storage.links && w.storage.links[g.work] == Link(g.productId, Some(|log|), Some(g.text))
  }

  predicate IsAfterSaved(w: World, g: Goal)
    requires g.t in w.tasks
  {
    if g.slots == [] then w.tasks[g.t].stage == Over(true)
    else Waits(w, g.t, Fetching(|Log(w.server, g.productId)|), GetDraft(g.productId))
  }

  lemma SavedEnds(w: World, g: Goal, copies: map<string, Id>)
    requires Pursues(w, g, |Log(w.server, g.productId)|) && TextStored(w, g) && CopiesFor(g.slots, copies) && IsAfterSaved(w, g)
    ensures CanEnd(w, g)
  {
    if g.slots == [] { EndsNow(w, g); } else { FetchingEnds(w, g, |Log(w.server, g.productId)|, copies); }
  }

  lemma FirstPutEnds(w: World, g: Goal, copies: map<string, Id>)
    requires Pursues(w, g, |Log(w.server, g.productId)|) && CopiesFor(g.slots, copies)
    requires Waits(w, g.t, Putting(false), PutDraft(g.productId, Revision(Log(w.server, g.productId)),
                                                    Document(w.tasks[g.t].project, g.work, true)))
    ensures CanEnd(w, g)
  {
    var a, b := TwoIds(w.used);
    var w' := Answered(w, g.t, map[], a, b);
    assert TextStored(w', g);
    SavedEnds(w', g, copies);
    EndsAnswered(w, map[], a, b, g);
  }

  /** The save as it begins, with the link it reads or makes. */
  function Begun(w: World, t: nat, work: string, project: Project, spare: Id): World
    requires t !in w.tasks && spare !in w.used
  {
    Step(w, Begin(t, work, project, spare))
  }

  function Checked(w: World, t: nat, work: string, project: Project, spare: Id, copies: map<string, Id>, a: Id, b: Id): World
    requires t !in w.tasks && spare !in w.used && a !in w.used + {spare} && b !in w.used + {spare} + {a}
  {
    Answered(Begun(w, t, work, project, spare), t, copies, a, b)
  }

  /**
    A save that begins in any world, has its draft read and goes on: it is refused if and only if
    the link and the server's log say so, and then the server is as it was. Otherwise, whatever
    images the work has, serving and resuming it alone leads to its end: its text is the draft's
    last document, with an image in every slot, and the link remembers it.
   */
  lemma SaveEndsUnlessRefused(w: World, t: nat, work: string, project: Project, spare: Id, copies: map<string, Id>, a: Id, b: Id)
    requires t !in w.tasks && spare !in w.used && a !in w.used + {spare} && b !in w.used + {spare} + {a}
    requires CopiesFor(project.slots, copies)
    ensures var link := LinkOf(w.storage, work, spare);
            var w' := Checked(w, t, work, project, spare, copies, a, b);
            && w'.server == w.server
            && (w'.tasks[t].stage == Over(false) <==> Refused(Log(w.server, link.productId), link, project.text))
            && (!Refused(Log(w.server, link.productId), link, project.text) ==>
                  CanEnd(w', Goal(t, work, link.productId, project.text, project.slots)))
  {
    var link := LinkOf(w.storage, work, spare);
    var log := Log(w.server, link.productId);
    var w1 := Begun(w, t, work, project, spare);
    var w2 := Step(w1, Serve(t, copies, a));
    var w' := Step(w2, Resume(t, b));
    CheckedSaveIff(w2, t, b, link, log);
    if !Refused(log, link, project.text) {
      var g := Goal(t, work, link.productId, project.text, project.slots);
      if w'.tasks[t].stage == Putting(false) { FirstPutEnds(w', g, copies); } else { SavedEnds(w', g, copies); }
    }
  }

  /** The answer to the put, if the check led to one. */
  function TextSaved(w: World, t: nat, c: Id, d: Id): World
    requires t in w.tasks
  {
    if Legal(w, Serve(t, map[], c)) && w.tasks[t].live && d !in w.used + {c} then Answered(w, t, map[], c, d) else w
  }

  /** Where a text save is after its check: refused, over, or about to put its document. */
  ghost predicate TextChecked(w: World, w': World, g: Goal, project: Project, link: Link) {
    var log := Log(w.server, g.productId);
    && w'.server == w.server && g.t in w'.tasks && w'.tasks[g.t].live && w'.tasks[g.t].reply.None?
    && if Refused(log, link, g.text) then w'.tasks[g.t].stage == Over(false) && w'.tasks[g.t].call.None?
       else if log != [] && log[|log| - 1].project.text == g.text then Reached(w', g) && w'.tasks[g.t].call.None?
       else
         && Pursues(w', g, |log|) && w'.tasks[g.t].project == project
         && Waits(w', g.t, Putting(false), PutDraft(g.productId, Revision(log), Document(project, g.work, true)))
  }

  lemma TextIsChecked(w: World, t: nat, work: string, project: Project, spare: Id, a: Id, b: Id)
    requires t !in w.tasks && project.slots == []
    requires spare !in w.used && a !in w.used + {spare} && b !in w.used + {spare} + {a}
    ensures var link := LinkOf(w.storage, work, spare);
            TextChecked(w, Checked(w, t, work, project, spare, map[], a, b), Goal(t, work, link.productId, project.text, []), project, link)
    ensures Checked(w, t, work, project, spare, map[], a, b).used == w.used + {spare, a, b}
  {
    var link := LinkOf(w.storage, work, spare);
    var w2 := Step(Begun(w, t, work, project, spare), Serve(t, map[], a));
    CheckedSaveIff(w2, t, b, link, Log(w.server, link.productId));
  }

  lemma TextIsPut(w: World, g: Goal, project: Project, c: Id, d: Id)
    requires g.slots == [] && c !in w.used && d !in w.used + {c}
    requires Pursues(w, g, |Log(w.server, g.productId)|) && w.tasks[g.t].project == project
    requires Waits(w, g.t, Putting(false), PutDraft(g.productId, Revision(Log(w.server, g.productId)), Document(project, g.work, true)))
    requires forall k :: 0 <= k < |Log(w.server, g.productId)| && k == |Log(w.server, g.productId)| - 1 ==>
               Log(w.server, g.productId)[k].project.text != g.text
    ensures var w' := TextSaved(w, g.t, c, d);
            Reached(w', g) && Log(w'.server, g.productId) == Log(w.server, g.productId) + [Document(project, g.work, true)]
  {}

  /**
    A work without images: after its read, and its put if it makes one, the save is over. It was
    refused or its text is the draft's last document; the log has at most grown by that document.
   */
  lemma TextSaveIff(w: World, t: nat, work: string, project: Project, spare: Id, a: Id, b: Id, c: Id, d: Id)
    requires t !in w.tasks && project.slots == []
    requires spare !in w.used && a !in w.used + {spare} && b !in w.used + {spare} + {a}
    requires c !in w.used + {spare, a, b} && d !in w.used + {spare, a, b} + {c}
    ensures t in Checked(w, t, work, project, spare, map[], a, b).tasks
    ensures var p := LinkOf(w.storage, work, spare).productId;
            var log := Log(w.server, p);
            var refused := Refused(log, LinkOf(w.storage, work, spare), project.text);
            var w' := TextSaved(Checked(w, t, work, project, spare, map[], a, b), t, c, d);
            && (if refused then t in w'.tasks && w'.tasks[t].stage == Over(false) && w'.server == w.server
                else Reached(w', Goal(t, work, p, project.text, [])))
            && (Log(w'.server, p) == log || Log(w'.server, p) == log + [Document(project, work, true)])
  {
    var link := LinkOf(w.storage, work, spare);
    var log := Log(w.server, link.productId);
    var g := Goal(t, work, link.productId, project.text, []);
    TextIsChecked(w, t, work, project, spare, a, b);
    var w' := Checked(w, t, work, project, spare, map[], a, b);
    if w'.tasks[t].stage == Putting(false) { TextIsPut(w', g, project, c, d); }
  }

  // ---------- uploads are made once and remembered ----------

  predicate Holds(s: Storage, key: MediaKey, mediaId: Id) {
    key in s.media && s.media[key].mediaId == Some(mediaId)
  }

  predicate Remembers(w: World, key: MediaKey, mediaId: Id) {
    Holds(w.storage, key, mediaId)
  }

  lemma ChoiceHolds(s: Storage, t: Task, spare: Id, key: MediaKey, mediaId: Id)
    requires t.stage.Choosing? && Holds(s, key, mediaId)
    ensures Holds(AfterChoice(s, t, spare).0, key, mediaId)
  {}

  lemma OtherHolds(s: Storage, t: Task, spare: Id)
    requires !t.stage.Choosing? && !t.stage.Uploading?
    ensures Resumed(s, t, spare).0.media == s.media
  {}

  /** Two answers to one upload name the same image. */
  lemma UploadHolds(w: World, t: Task, spare: Id, key: MediaKey, mediaId: Id)
    requires Inv(w) && TaskOk(w.server, w.recorded, w.storage.media, t) && t.stage.Uploading? && Holds(w.storage, key, mediaId)
    ensures Holds(Resumed(w.storage, t, spare).0, key, mediaId)
  {
    assert StoredOk(w.server, w.storage.media[key].requestId, mediaId);
  }

  lemma ResumeRemembers(w: World, t: nat, spare: Id, key: MediaKey, mediaId: Id)
    requires Inv(w) && Legal(w, Resume(t, spare)) && Remembers(w, key, mediaId)
    ensures Remembers(Step(w, Resume(t, spare)), key, mediaId)
  {
    var task := w.tasks[t];
    assert TaskOk(w.server, w.recorded, w.storage.media, task);
    if task.stage.Choosing? { ChoiceHolds(w.storage, task, spare, key, mediaId); }
    else if task.stage.Uploading? { UploadHolds(w, task, spare, key, mediaId); }
    else { OtherHolds(w.storage, task, spare); }
  }

  lemma {:induction false} RunRemembers(w: World, events: seq<Event>, key: MediaKey, mediaId: Id)
    requires Inv(w) && Runs(w, events) && Remembers(w, key, mediaId)
    ensures Remembers(Run(w, events), key, mediaId)
    decreases events
  {
    if events != [] {
      if events[0].Resume? { ResumeRemembers(w, events[0].t, events[0].spare, key, mediaId); }
      StepKeeps(w, events[0]);
      RunRemembers(Step(w, events[0]), events[1..], key, mediaId);
    }
  }

  /** This save is about to choose an image for a slot that the server's draft does not show. */
  predicate ChoosesOwn(w: World, t: nat, key: MediaKey) {
    && t in w.tasks && w.tasks[t].live && w.tasks[t].stage.Choosing? && w.tasks[t].stage.next < |w.tasks[t].project.slots|
    && var slot := w.tasks[t].project.slots[w.tasks[t].stage.next];
    && slot !in w.tasks[t].stage.remote.project.media && slot.character in w.tasks[t].stage.targets
    && key == MediaKey(w.tasks[t].productId, w.tasks[t].stage.targets[slot.character], slot.asset, slot.usage)
  }

  /** An upload has been answered. */
  predicate Uploaded(w: World, t: nat, key: MediaKey, mediaId: Id) {
    && t in w.tasks && w.tasks[t].stage.Uploading? && w.tasks[t].reply == Some(MediaIs(mediaId))
    && w.tasks[t].call.Some? && w.tasks[t].call.value.PostUpload? && w.tasks[t].call.value.key == key
  }

  lemma UploadIsNoted(w: World, t: nat, spare: Id, key: MediaKey, mediaId: Id)
    requires Legal(w, Resume(t, spare)) && TaskOk(w.server, w.recorded, w.storage.media, w.tasks[t])
    requires Uploaded(w, t, key, mediaId)
    ensures Remembers(Step(w, Resume(t, spare)), key, mediaId)
  {}

  lemma RememberedIsTaken(w: World, t: nat, spare: Id, key: MediaKey, mediaId: Id)
    requires Legal(w, Resume(t, spare)) && ChoosesOwn(w, t, key) && Remembers(w, key, mediaId)
    ensures TakesImage(w.tasks[t], Step(w, Resume(t, spare)).tasks[t], mediaId)
  {}

  /** The slot is filled with this image, and the next one comes; nothing is sent. */
  predicate TakesImage(t: Task, t': Task, mediaId: Id)
    requires t.stage.Choosing? && t.stage.next < |t.project.slots|
  {
    && t'.stage == Choosing(t.stage.revision, t.stage.remote, t.stage.targets, t.stage.next + 1) && t'.call == t.call
    && t'.project == t.project.(media := t.project.media[t.project.slots[t.stage.next] := mediaId])
  }

  /**
    Once the answer to an upload has been handled, then after any events every save that comes to
    a slot with that key takes the image from storage and sends no second upload.
   */
  lemma UploadIsReused(events: seq<Event>, w: World, t: nat, spare: Id, key: MediaKey, mediaId: Id, later: seq<Event>, again: nat, next: Id)
    requires Runs(START, events) && w == Run(START, events) && Legal(w, Resume(t, spare)) && Uploaded(w, t, key, mediaId)
    requires Runs(Step(w, Resume(t, spare)), later)
    requires Legal(Run(Step(w, Resume(t, spare)), later), Resume(again, next))
    requires ChoosesOwn(Run(Step(w, Resume(t, spare)), later), again, key)
    ensures var w' := Run(Step(w, Resume(t, spare)), later);
            TakesImage(w'.tasks[again], Step(w', Resume(again, next)).tasks[again], mediaId)
  {
    RunKeeps(START, events);
    assert TaskOk(w.server, w.recorded, w.storage.media, w.tasks[t]);
    UploadIsNoted(w, t, spare, key, mediaId);
    StepKeeps(w, Resume(t, spare));
    RunRemembers(Step(w, Resume(t, spare)), later, key, mediaId);
    RememberedIsTaken(Run(Step(w, Resume(t, spare)), later), again, next, key, mediaId);
  }

  // ---------- drafts taken over from the server can be saved ----------

  /**
    A draft opened from the server, or listed while no local copy exists, as it is now: a save of
    any edited text is not refused, and goes to that product.
   */
  lemma TakenOverCanBeSaved(w: World, item: Id, text: string, taken: bool, spare: Id)
    requires Log(w.server, item) != [] && Log(w.server, item)[|Log(w.server, item)| - 1].readable
    ensures var log := Log(w.server, item);
            var work := ImportedAs(item, log[|log| - 1], taken);
            var link := LinkOf(Step(w, ImportListed(item, |log|, taken, None)).storage, work, spare);
            link.productId == item && !Refused(log, link, text)
    ensures var log := Log(w.server, item);
            var link := LinkOf(Step(w, OpenOne(item, |log|)).storage, "server:" + item, spare);
            "server:" + item !in w.storage.links ==> link.productId == item && !Refused(log, link, text)
    ensures "server:" + item in w.storage.links ==>
              Step(w, OpenOne(item, |Log(w.server, item)|)).storage == w.storage
  {}
}
