/**
  Saving studio works to the server from one browser with many tabs: the links and upload
  receipts in its storage, compare-and-swap drafts on the server, and requests whose answers
  may never come back. A project is known here by the text its drafts are compared by (see
  `StudioSerialized`), its image slots and their media.
 */
module StudioServer {
  import opened Wrappers

  type Id = string

  datatype Slot = Slot(character: string, asset: string, usage: string)
  datatype Project = Project(text: string, slots: seq<Slot>, media: map<Slot, Id>)
  datatype Document = Document(project: Project, clientWorkId: string, readable: bool)

  // ---------- the browser's storage ----------

  datatype Link = Link(productId: Id, revision: Option<nat>, base: Option<string>)
  datatype MediaKey = MediaKey(productId: Id, character: Id, asset: string, usage: string)
  datatype MediaLink = MediaLink(requestId: Id, mediaId: Option<Id>)
  datatype Storage = Storage(links: map<string, Link>, media: map<MediaKey, MediaLink>)

  /** The server's answer to reading a draft: nothing, or a revision and its document. */
  type DraftReply = Option<(nat, Document)>

  datatype Verdict = Finished(revision: nat) | Rejected | PutNow(expected: Option<nat>)

  /** The link of a work; a new product id is stored before anything is sent. */
  function Opened(s: Storage, work: string, spare: Id): (Storage, Link) {
    if work in s.links then (s, s.links[work])
    else
      var link := Link(spare, None, None);
      (s.(links := s.links[work := link]), link)
  }

  function Recorded(s: Storage, work: string, productId: Id, revision: nat, base: string): Storage {
    s.(links := s.links[work := Link(productId, Some(revision), Some(base))])
  }

  /** What the draft on the server means for a save that started from this link. */
  function Examined(s: Storage, work: string, project: Project, link: Link, reply: DraftReply): (Storage, Verdict) {
    match reply
    case None => (s, if link.revision.None? then PutNow(None) else Rejected)
    case Some((revision, remote)) =>
      if !remote.readable then (s, Rejected)
      else if remote.project.text == project.text then
        (Recorded(s, work, link.productId, revision, project.text), Finished(revision))
      else if link.base != Some(remote.project.text) then (s, Rejected)
      else (s, PutNow(Some(revision)))
  }

  datatype Filling = UseMedia(mediaId: Id) | NoTarget | Upload(key: MediaKey, requestId: Id)

  /** One image slot: media the server already shows, an earlier upload, or a new upload. */
  function Filled(s: Storage, slot: Slot, remote: Document, targets: map<string, Id>, productId: Id, spare: Id)
    : (Storage, Filling)
  {
    if slot in remote.project.media then (s, UseMedia(remote.project.media[slot]))
    else if slot.character !in targets then (s, NoTarget)
    else
      var key := MediaKey(productId, targets[slot.character], slot.asset, slot.usage);
      var link := if key in s.media then s.media[key] else MediaLink(spare, None);
      (s.(media := s.media[key := link]),
       if link.mediaId.Some? then UseMedia(link.mediaId.value) else Upload(key, link.requestId))
  }

  function Received(s: Storage, key: MediaKey, requestId: Id, mediaId: Id): Storage {
    s.(media := s.media[key := MediaLink(requestId, Some(mediaId))])
  }

  /** The work a listed draft is imported as. */
  function ImportedAs(item: Id, remote: Document, taken: bool): string {
    var original := if remote.clientWorkId != "" then remote.clientWorkId else item;
    if taken then item else original
  }

  /** Importing one listed draft: its link is written unless a different local copy exists. */
  function Listed(s: Storage, work: string, productId: Id, revision: nat, remote: Document, local: Option<Project>): Storage {
    if remote.readable && (local.None? || local.value.text == remote.project.text)
    then Recorded(s, work, productId, revision, remote.project.text)
    else s
  }

  /** Opening one server draft: its link is written only when there is none. */
  function OpenedDraft(s: Storage, work: string, productId: Id, revision: nat, remote: Document): Storage {
    if remote.readable && work !in s.links then Recorded(s, work, productId, revision, remote.project.text) else s
  }

  /** The browser's storage, as the client code writes it between two awaits. */
  class StudioStorage {
    var links: map<string, Link>
    var media: map<MediaKey, MediaLink>

    function State(): Storage
      reads this
    {
      Storage(links, media)
    }

    method Open(work: string, spare: Id) returns (link: Link)
      modifies this
      ensures (State(), link) == Opened(old(State()), work, spare)
    {
      if work !in links { links := links[work := Link(spare, None, None)]; }
      link := links[work];
    }

    method Record(work: string, productId: Id, revision: nat, base: string)
      modifies this
      ensures State() == Recorded(old(State()), work, productId, revision, base)
    {
      links := links[work := Link(productId, Some(revision), Some(base))];
    }

    method Examine(work: string, project: Project, link: Link, reply: DraftReply) returns (verdict: Verdict)
      modifies this
      ensures (State(), verdict) == Examined(old(State()), work, project, link, reply)
    {
      if reply.None? {
        if link.revision.Some? { return Rejected; }
        return PutNow(None);
      }
      var (revision, remote) := reply.value;
      if !remote.readable { return Rejected; }
      if remote.project.text == project.text {
        Record(work, link.productId, revision, project.text);
        return Finished(revision);
      }
      if link.base != Some(remote.project.text) { return Rejected; }
      return PutNow(Some(revision));
    }

    method Fill(slot: Slot, remote: Document, targets: map<string, Id>, productId: Id, spare: Id) returns (r: Filling)
      modifies this
      ensures (State(), r) == Filled(old(State()), slot, remote, targets, productId, spare)
    {
      if slot in remote.project.media { return UseMedia(remote.project.media[slot]); }
      if slot.character !in targets { return NoTarget; }
      var key := MediaKey(productId, targets[slot.character], slot.asset, slot.usage);
      var link := MediaLink(spare, None);
      if key in media { link := media[key]; }
      media := media[key := link];
      if link.mediaId.Some? { return UseMedia(link.mediaId.value); }
      return Upload(key, link.requestId);
    }

    method Receive(key: MediaKey, requestId: Id, mediaId: Id)
      modifies this
      ensures State() == Received(old(State()), key, requestId, mediaId)
    {
      media := media[key := MediaLink(requestId, Some(mediaId))];
    }

    method List(work: string, productId: Id, revision: nat, remote: Document, local: Option<Project>)
      modifies this
      ensures State() == Listed(old(State()), work, productId, revision, remote, local)
    {
      if !remote.readable { return; }
      if local.None? || local.value.text == remote.project.text {
        Record(work, productId, revision, remote.project.text);
      }
    }

    method OpenDraft(work: string, productId: Id, revision: nat, remote: Document)
      modifies this
      ensures State() == OpenedDraft(old(State()), work, productId, revision, remote)
    {
      if remote.readable && work !in links {
        Record(work, productId, revision, remote.project.text);
      }
    }
  }

  // ---------- the server ----------

  /** Every draft with all the documents it ever held; its revision is their number. */
  datatype Server = Server(drafts: map<Id, seq<Document>>, components: map<Id, map<string, Id>>, uploads: map<Id, Id>)

  function Log(s: Server, productId: Id): seq<Document> {
    if productId in s.drafts then s.drafts[productId] else []
  }

  function Revision(log: seq<Document>): Option<nat> {
    if log == [] then None else Some(|log|)
  }

  /** An identical document is accepted as it is; any other must name the current revision. */
  function Put(s: Server, productId: Id, expected: Option<nat>, doc: Document): (Server, Option<nat>) {
    var log := Log(s, productId);
    if log != [] && log[|log| - 1] == doc then (s, Some(|log|))
    else if Revision(log) != expected then (s, None)
    else (s.(drafts := s.drafts[productId := log + [doc]]), Some(|log| + 1))
  }

  function Targets(s: Server, productId: Id): map<string, Id> {
    if productId in s.components then s.components[productId] else map[]
  }

  /** Server copies of characters are made once; later calls return the same copies. */
  function Prepare(s: Server, productId: Id, revision: nat, copies: map<string, Id>): (Server, Option<map<string, Id>>) {
    if |Log(s, productId)| != revision then (s, None)
    else
      var targets := copies + Targets(s, productId);
      (s.(components := s.components[productId := targets]), Some(targets))
  }

  /** An upload is stored once per request id. */
  function Store(s: Server, requestId: Id, spare: Id): (Server, Id) {
    if requestId in s.uploads then (s, s.uploads[requestId]) else (s.(uploads := s.uploads[requestId := spare]), spare)
  }

  // ---------- tasks, and the calls they wait for ----------

  datatype Call =
    | GetDraft(productId: Id)
    | PutDraft(productId: Id, expected: Option<nat>, doc: Document)
    | PostComponents(productId: Id, revision: nat)
    | PostUpload(key: MediaKey, requestId: Id)

  datatype Reply =
    | DraftIs(draft: DraftReply)
    | SavedAs(revision: Option<nat>)
    | Components(targets: Option<map<string, Id>>)
    | MediaIs(mediaId: Id)

  datatype Stage =
    | Checking(link: Link)
    | Putting(last: bool)
    | Fetching(revision: nat)
    | Preparing(revision: nat, remote: Document)
    | Choosing(revision: nat, remote: Document, targets: map<string, Id>, next: nat)
    | Uploading(revision: nat, remote: Document, targets: map<string, Id>, next: nat)
    | Over(saved: bool)

  /** One save of one work. It is not `live` once its tab is closed or an answer was lost. */
  datatype Task = Task(work: string, project: Project, productId: Id, stage: Stage,
                       call: Option<Call>, reply: Option<Reply>, live: bool)

  function Wait(t: Task, stage: Stage, call: Call): Task {
    t.(stage := stage, call := Some(call), reply := None)
  }

  function End(t: Task, saved: bool): Task {
    t.(stage := Over(saved), call := None, reply := None)
  }

  function SendPut(t: Task, expected: Option<nat>, last: bool): Task {
    Wait(t, Putting(last), PutDraft(t.productId, expected, Document(t.project, t.work, true)))
  }

  /** The document is on the server as this revision; images come next. */
  function AfterSaved(t: Task, revision: nat): Task {
    if t.project.slots == [] then End(t, true) else Wait(t, Fetching(revision), GetDraft(t.productId))
  }

  function AfterCheck(s: Storage, t: Task, link: Link, reply: DraftReply): (Storage, Task) {
    var (s', verdict) := Examined(s, t.work, t.project, link, reply);
    match verdict
    case Finished(revision) => (s', AfterSaved(t, revision))
    case Rejected => (s', End(t, false))
    case PutNow(expected) => (s', SendPut(t, expected, false))
  }

  function AfterPut(s: Storage, t: Task, last: bool, revision: Option<nat>): (Storage, Task) {
    if revision.None? then (s, End(t, false))
    else (Recorded(s, t.work, t.productId, revision.value, t.project.text),
          if last then End(t, true) else AfterSaved(t, revision.value))
  }

  function AfterChoice(s: Storage, t: Task, spare: Id): (Storage, Task)
    requires t.stage.Choosing?
  {
    var st := t.stage;
    if st.next >= |t.project.slots| then (s, SendPut(t, Some(st.revision), true))
    else
      var slot := t.project.slots[st.next];
      var (s', filling) := Filled(s, slot, st.remote, st.targets, t.productId, spare);
      match filling
      case UseMedia(m) =>
        (s', t.(project := t.project.(media := t.project.media[slot := m]),
                stage := Choosing(st.revision, st.remote, st.targets, st.next + 1)))
      case NoTarget => (s', End(t, false))
      case Upload(key, requestId) =>
        (s', Wait(t, Uploading(st.revision, st.remote, st.targets, st.next), PostUpload(key, requestId)))
  }

  function AfterUpload(s: Storage, t: Task, key: MediaKey, requestId: Id, mediaId: Id): (Storage, Task)
    requires t.stage.Uploading? && t.stage.next < |t.project.slots|
  {
    var st := t.stage;
    var slot := t.project.slots[st.next];
    (Received(s, key, requestId, mediaId),
     t.(project := t.project.(media := t.project.media[slot := mediaId]),
        stage := Choosing(st.revision, st.remote, st.targets, st.next + 1), call := None, reply := None))
  }

  /** The code between one answer and the next call. */
  function Resumed(s: Storage, t: Task, spare: Id): (Storage, Task) {
    if t.stage.Choosing? then AfterChoice(s, t, spare)
    else if t.reply.None? then (s, t)
    else
      match (t.stage, t.reply.value)
      case (Checking(link), DraftIs(draft)) => AfterCheck(s, t, link, draft)
      case (Putting(last), SavedAs(revision)) => AfterPut(s, t, last, revision)
      case (Fetching(revision), DraftIs(draft)) =>
        (s, if draft.None? then End(t, false)
            else Wait(t, Preparing(revision, draft.value.1), PostComponents(t.productId, revision)))
      case (Preparing(revision, remote), Components(targets)) =>
        (s, if targets.None? then End(t, false)
            else t.(stage := Choosing(revision, remote, targets.value, 0), call := None, reply := None))
      case (Uploading(_, _, _, next), MediaIs(mediaId)) =>
        if t.call.Some? && t.call.value.PostUpload? && next < |t.project.slots|
        then AfterUpload(s, t, t.call.value.key, t.call.value.requestId, mediaId) else (s, t)
      case _ => (s, t)
  }

  // ---------- runs ----------

  /**
    The world of one browser. `recorded` is every (work, product, base) it ever wrote into a link;
    `sent` is every (product, slot, request id) it ever uploaded with; `used` is every id ever made.
   */
  datatype World = World(server: Server, storage: Storage, tasks: map<nat, Task>, used: set<Id>,
                         recorded: set<(string, Id, string)>, sent: set<(Id, Slot, Id)>)

  datatype Event =
    | Begin(t: nat, work: string, project: Project, spare: Id)
    | Serve(t: nat, copies: map<string, Id>, spare: Id)
    | Resume(t: nat, spare: Id)
    | Lose(t: nat)
    | Elsewhere(productId: Id, expected: Option<nat>, doc: Document)
    | ImportListed(item: Id, revision: nat, taken: bool, local: Option<Project>)
    | OpenOne(item: Id, revision: nat)

  /**
    A call is served at most once, perhaps after its tab is gone. Drafts are imported as they were
    at some earlier moment. Another device may write any draft at any time.
   */
  predicate Legal(w: World, e: Event) {
    match e
    case Begin(t, work, project, spare) => t !in w.tasks && spare !in w.used
    case Serve(t, _, spare) => t in w.tasks && w.tasks[t].call.Some? && w.tasks[t].reply.None? && spare !in w.used
    case Resume(t, spare) => t in w.tasks && w.tasks[t].live && spare !in w.used
    case Lose(t) => t in w.tasks
    case Elsewhere(_, _, _) => true
    case ImportListed(item, revision, _, _) => 1 <= revision <= |Log(w.server, item)|
    case OpenOne(item, revision) => 1 <= revision <= |Log(w.server, item)|
  }

  function Served(s: Server, call: Call, copies: map<string, Id>, spare: Id): (Server, Reply) {
    match call
    case GetDraft(p) => (s, DraftIs(if Log(s, p) == [] then None else Some((|Log(s, p)|, Log(s, p)[|Log(s, p)| - 1]))))
    case PutDraft(p, expected, doc) => (Put(s, p, expected, doc).0, SavedAs(Put(s, p, expected, doc).1))
    case PostComponents(p, revision) => (Prepare(s, p, revision, copies).0, Components(Prepare(s, p, revision, copies).1))
    case PostUpload(_, requestId) => (Store(s, requestId, spare).0, MediaIs(Store(s, requestId, spare).1))
  }

  function Bases(s: Storage): set<(string, Id, string)> {
    set work | work in s.links && s.links[work].base.Some? :: (work, s.links[work].productId, s.links[work].base.value)
  }

  /** The upload a task has just asked for. */
  function NewUploads(t: Task): set<(Id, Slot, Id)> {
    if t.stage.Uploading? && t.stage.next < |t.project.slots| && t.call.Some? && t.call.value.PostUpload?
    then {(t.productId, t.project.slots[t.stage.next], t.call.value.requestId)} else {}
  }

  function WithStorage(w: World, s: Storage): World {
    w.(storage := s, recorded := w.recorded + Bases(s))
  }

  function Step(w: World, e: Event): World
    requires Legal(w, e)
  {
    match e
    case Begin(t, work, project, spare) =>
      var (s, link) := Opened(w.storage, work, spare);
      var task := Task(work, project, link.productId, Checking(link), Some(GetDraft(link.productId)), None, true);
      WithStorage(w, s).(tasks := w.tasks[t := task], used := w.used + {spare})
    case Serve(t, copies, spare) =>
      var (server, reply) := Served(w.server, w.tasks[t].call.value, copies, spare);
      w.(server := server, tasks := w.tasks[t := w.tasks[t].(reply := Some(reply))], used := w.used + {spare})
    case Resume(t, spare) =>
      var (s, task) := Resumed(w.storage, w.tasks[t], spare);
      WithStorage(w, s).(tasks := w.tasks[t := task], used := w.used + {spare}, sent := w.sent + NewUploads(task))
    case Lose(t) => w.(tasks := w.tasks[t := w.tasks[t].(live := false)])
    case Elsewhere(productId, expected, doc) => w.(server := Put(w.server, productId, expected, doc).0, used := w.used + {productId})
    case ImportListed(item, revision, taken, local) =>
      var remote := Log(w.server, item)[revision - 1];
      WithStorage(w, Listed(w.storage, ImportedAs(item, remote, taken), item, revision, remote, local)).(used := w.used + {item})
    case OpenOne(item, revision) =>
      var remote := Log(w.server, item)[revision - 1];
      WithStorage(w, OpenedDraft(w.storage, "server:" + item, item, revision, remote)).(used := w.used + {item})
  }

  predicate Runs(w: World, events: seq<Event>)
    decreases events
  {
    events == [] || (Legal(w, events[0]) && Runs(Step(w, events[0]), events[1..]))
  }

  function Run(w: World, events: seq<Event>): World
    requires Runs(w, events)
    decreases events
  {
    if events == [] then w else Run(Step(w, events[0]), events[1..])
  }

  const START := World(Server(map[], map[], map[]), Storage(map[], map[]), map[], {}, {}, {})
}
