/** One product per work: exactly which steps can send a work to another product. */
module StudioServerLinks {
  import opened Wrappers
  import opened StudioServer
  import opened StudioServerRuns

  /** Every save of a work, running or over, uses the product its link names. */
  ghost predicate Agreed(w: World) {
    forall t :: t in w.tasks ==> Linked(w.storage, w.tasks[t])
  }

  ghost predicate Linked(s: Storage, t: Task) {
    t.work in s.links && s.links[t.work].productId == t.productId
    && (t.stage.Checking? ==> t.stage.link.productId == t.productId)
  }

  /** Listing the server's drafts finds this work's id, and its text, on another product. */
  predicate Moves(w: World, e: Event, work: string)
    requires Legal(w, e)
  {
    && e.ImportListed?
    && var remote := Log(w.server, e.item)[e.revision - 1];
       && ImportedAs(e.item, remote, e.taken) == work && work in w.storage.links && w.storage.links[work].productId != e.item
       && remote.readable && (e.local.None? || e.local.value.text == remote.project.text)
  }

  ghost predicate SameProducts(s: Storage, s': Storage) {
    forall work :: work in s.links ==> work in s'.links && s'.links[work].productId == s.links[work].productId
  }

  lemma CheckStays(s: Storage, t: Task, link: Link, reply: DraftReply)
    requires Linked(s, t) && link.productId == t.productId
    ensures var (s', t') := AfterCheck(s, t, link, reply); SameProducts(s, s') && Linked(s', t')
  {}

  lemma PutStays(s: Storage, t: Task, last: bool, revision: Option<nat>)
    requires Linked(s, t)
    ensures var (s', t') := AfterPut(s, t, last, revision); SameProducts(s, s') && Linked(s', t')
  {}

  lemma ChoiceStays(s: Storage, t: Task, spare: Id)
    requires t.stage.Choosing? && Linked(s, t)
    ensures var (s', t') := AfterChoice(s, t, spare); s'.links == s.links && Linked(s', t') && t'.work == t.work
  {}

  lemma ResumeStays(s: Storage, t: Task, spare: Id)
    requires Linked(s, t)
    ensures var (s', t') := Resumed(s, t, spare); SameProducts(s, s') && Linked(s', t')
  {
    if t.stage.Choosing? { ChoiceStays(s, t, spare); }
    else if t.reply.Some? {
      match (t.stage, t.reply.value)
      case (Checking(link), DraftIs(draft)) => CheckStays(s, t, link, draft);
      case (Putting(last), SavedAs(revision)) => PutStays(s, t, last, revision);
      case _ =>
    }
  }

  lemma LinkedStays(s: Storage, s': Storage, t: Task)
    requires Linked(s, t) && SameProducts(s, s')
    ensures Linked(s', t)
  {}

  ghost predicate NoMove(w: World, e: Event)
    requires Legal(w, e)
  {
    forall work :: !Moves(w, e, work)
  }

  lemma StepStays(w: World, e: Event)
    requires Agreed(w) && Legal(w, e) && NoMove(w, e)
    ensures Agreed(Step(w, e)) && SameProducts(w.storage, Step(w, e).storage)
  {
    var w' := Step(w, e);
    if e.Resume? { ResumeStays(w.storage, w.tasks[e.t], e.spare); }
    if e.ImportListed? {
      assert !Moves(w, e, ImportedAs(e.item, Log(w.server, e.item)[e.revision - 1], e.taken));
    }
    assert SameProducts(w.storage, w'.storage);
    forall t | t in w'.tasks ensures Linked(w'.storage, w'.tasks[t]) {
      if t in w.tasks { LinkedStays(w.storage, w'.storage, w.tasks[t]); }
    }
  }

  /** The product a resumed save writes into its work's link, if it writes one. */
  function Writes(t: Task): Option<Id> {
    if t.reply.None? then None
    else
      match (t.stage, t.reply.value)
      case (Checking(link), DraftIs(Some((_, remote)))) =>
        if remote.readable && remote.project.text == t.project.text then Some(link.productId) else None
      case (Putting(_), SavedAs(Some(_))) => Some(t.productId)
      case _ => None
  }

  /** A save that was running when its work's link went to another product takes it back to its own. */
  predicate MovesBack(w: World, e: Event, work: string)
    requires Legal(w, e)
  {
    && e.Resume? && w.tasks[e.t].work == work && work in w.storage.links
    && Writes(w.tasks[e.t]).Some? && Writes(w.tasks[e.t]).value != w.storage.links[work].productId
  }

  lemma ResumeWrites(s: Storage, t: Task, spare: Id)
    ensures var s' := Resumed(s, t, spare).0;
            && (forall work :: work in s.links && work != t.work ==> work in s'.links && s'.links[work] == s.links[work])
            && (Writes(t).Some? ==> t.work in s'.links && s'.links[t.work].productId == Writes(t).value)
            && (Writes(t).None? ==> s'.links == s.links)
  {}

  /** A step changes the product of a work's link exactly when it is such a listing, or such a save. */
  lemma ProductMovesIff(w: World, e: Event, work: string)
    requires Legal(w, e) && work in w.storage.links
    ensures work in Step(w, e).storage.links
    ensures Step(w, e).storage.links[work].productId != w.storage.links[work].productId
            <==> Moves(w, e, work) || MovesBack(w, e, work)
  {
    if e.Resume? { ResumeWrites(w.storage, w.tasks[e.t], e.spare); }
  }

  predicate Unmoved(w: World, events: seq<Event>)
    requires Runs(w, events)
    decreases events
  {
    events == [] || (!MovesAny(w, events[0]) && Unmoved(Step(w, events[0]), events[1..]))
  }

  predicate MovesAny(w: World, e: Event)
    requires Legal(w, e)
  {
    e.ImportListed? && Moves(w, e, ImportedAs(e.item, Log(w.server, e.item)[e.revision - 1], e.taken))
  }

  lemma {:induction false} RunStays(w: World, events: seq<Event>)
    requires Agreed(w) && Runs(w, events) && Unmoved(w, events)
    ensures Agreed(Run(w, events)) && SameProducts(w.storage, Run(w, events).storage)
    decreases events
  {
    if events != [] {
      StepStays(w, events[0]);
      RunStays(Step(w, events[0]), events[1..]);
    }
  }

  /** No step of the run changes the product of any link. */
  ghost predicate Fixed(w: World, events: seq<Event>)
    requires Runs(w, events)
    decreases events
  {
    events == [] || (SameProducts(w.storage, Step(w, events[0]).storage) && Fixed(Step(w, events[0]), events[1..]))
  }

  /** Products stay fixed along a run exactly if no listing moves a link: only after that can a save move one back. */
  lemma {:induction false} FixedIffUnmoved(w: World, events: seq<Event>)
    requires Agreed(w) && Runs(w, events)
    ensures Fixed(w, events) <==> Unmoved(w, events)
    decreases events
  {
    if events != [] {
      var e := events[0];
      if MovesAny(w, e) {
        ProductMovesIff(w, e, ImportedAs(e.item, Log(w.server, e.item)[e.revision - 1], e.taken));
      } else {
        StepStays(w, e);
        FixedIffUnmoved(Step(w, e), events[1..]);
      }
    }
  }

  lemma EveryRunFixedIff(events: seq<Event>)
    requires Runs(START, events)
    ensures Fixed(START, events) <==> Unmoved(START, events)
  {
    FixedIffUnmoved(START, events);
  }

  /**
    In a run whose listings move no link, all saves of a work ever started use one product, the
    link's, and each of its slots is only ever uploaded under one request id.
   */
  lemma OneProductPerLink(events: seq<Event>, t: nat, t': nat)
    requires Runs(START, events) && Unmoved(START, events)
    requires t in Run(START, events).tasks && t' in Run(START, events).tasks
    requires Run(START, events).tasks[t].work == Run(START, events).tasks[t'].work
    ensures var w := Run(START, events);
            && w.tasks[t].productId == w.tasks[t'].productId
            && (forall slot, a, b :: (w.tasks[t].productId, slot, a) in w.sent && (w.tasks[t'].productId, slot, b) in w.sent ==> a == b)
  {
    RunStays(START, events);
    var w := Run(START, events);
    assert Linked(w.storage, w.tasks[t]) && Linked(w.storage, w.tasks[t']);
    forall slot, a, b | (w.tasks[t].productId, slot, a) in w.sent && (w.tasks[t'].productId, slot, b) in w.sent ensures a == b {
      OneUploadKey(events, w.tasks[t].productId, slot, a, b);
    }
  }

  lemma {:induction false} RunsOn(w: World, first: seq<Event>, rest: seq<Event>)
    requires Runs(w, first) && Runs(Run(w, first), rest)
    ensures Runs(w, first + rest) && Run(w, first + rest) == Run(Run(w, first), rest)
    decreases first
  {
    if first == [] {
      assert first + rest == rest;
    } else {
      RunsOn(Step(w, first[0]), first[1..], rest);
      assert (first + rest)[1..] == first[1..] + rest;
    }
  }

  lemma Further(w: World, events: seq<Event>, n: nat, next: World)
    requires n < |events| && Runs(w, events[..n])
    requires Legal(Run(w, events[..n]), events[n]) && Step(Run(w, events[..n]), events[n]) == next
    ensures Runs(w, events[..n + 1]) && Run(w, events[..n + 1]) == next
  {
    RunsOn(w, events[..n], [events[n]]);
    assert events[..n + 1] == events[..n] + [events[n]];
  }

  const MIGRATED := "migrated-work"

  /** One save here, a save of the same work in another browser, and a listing. */
  function Listing(project: Project): seq<Event> {
    [Begin(0, MIGRATED, project, "p1"), Elsewhere("p2", None, Document(project, MIGRATED, true)),
     ImportListed("p2", 1, false, Some(project))]
  }

  /** The save here is running, its work's link names the other browser's product, and nothing else was made. */
  ghost predicate LinkMoved(w: World, project: Project) {
    && w.tasks == map[0 := Task(MIGRATED, project, "p1", Checking(Link("p1", None, None)), Some(GetDraft("p1")), None, true)]
    && w.storage.links == map[MIGRATED := Link("p2", Some(1), Some(project.text))]
    && Log(w.server, "p1") == [] && w.used == {"p1", "p2"}
  }

  /**
    Two browsers each migrated the same old draft, so both hold it under one work id. One save
    here, a save there, and a listing: the work's link now names the other browser's product.
   */
  lemma ListingCanMove(project: Project)
    ensures Runs(START, Listing(project)) && LinkMoved(Run(START, Listing(project)), project)
  {
    var events, doc := Listing(project), Document(project, MIGRATED, true);
    var w1 := Step(START, events[0]);
    var w2 := Step(w1, events[1]);
    assert Log(w2.server, "p2") == [doc];
    var w3 := Step(w2, events[2]);
    Further(START, events, 0, w1);
    Further(START, events, 1, w2);
    Further(START, events, 2, w3);
    assert events[..3] == events;
  }

  const SERVED := [Serve(0, map[], "s1"), Resume(0, "r1"), Serve(0, map[], "s2")]

  lemma SaveGoesOn(w: World, project: Project)
    requires LinkMoved(w, project)
    ensures Runs(w, SERVED) && Legal(Run(w, SERVED), Resume(0, "r2")) && MovesBack(Run(w, SERVED), Resume(0, "r2"), MIGRATED)
  {
    var w1 := Step(w, SERVED[0]);
    var w2 := Step(w1, SERVED[1]);
    var w3 := Step(w2, SERVED[2]);
    Further(w, SERVED, 0, w1);
    Further(w, SERVED, 1, w2);
    Further(w, SERVED, 2, w3);
    assert SERVED[..3] == SERVED;
  }

  /** The save that was running then is served, and its answer takes the link back to its own product. */
  lemma SaveCanMoveBack(project: Project)
    ensures var events := Listing(project) + SERVED;
            && Runs(START, events) && Legal(Run(START, events), Resume(0, "r2"))
            && MovesBack(Run(START, events), Resume(0, "r2"), MIGRATED)
  {
    ListingCanMove(project);
    SaveGoesOn(Run(START, Listing(project)), project);
    RunsOn(START, Listing(project), SERVED);
  }
}
