/** What every run of the studio's server saves keeps. */
module StudioServerRuns {
  import opened Wrappers
  import opened StudioServer

  // ---------- the invariant ----------

  ghost predicate At(s: Server, productId: Id, revision: nat, text: string) {
    1 <= revision <= |Log(s, productId)| && Log(s, productId)[revision - 1].project.text == text
  }

  /** A link's base is the text of the server's document at the link's revision. */
  ghost predicate HonestLink(s: Server, link: Link) {
    && (link.revision.Some? <==> link.base.Some?)
    && (link.revision.Some? ==> At(s, link.productId, link.revision.value, link.base.value))
  }

  ghost predicate LinksOk(s: Server, links: map<string, Link>) {
    forall work :: work in links ==> HonestLink(s, links[work])
  }

  ghost predicate MediaOk(s: Server, media: map<MediaKey, MediaLink>, used: set<Id>) {
    && (forall k :: k in media ==> media[k].requestId in used)
    && (forall k, k' :: k in media && k' in media && media[k].requestId == media[k'].requestId ==> k == k')
    && (forall k :: k in media && media[k].mediaId.Some? ==>
          media[k].requestId in s.uploads && s.uploads[media[k].requestId] == media[k].mediaId.value)
  }

  /** The storage key of a slot of a product, by the product's server copies. */
  function KeyFor(productId: Id, slot: Slot, targets: map<string, Id>): MediaKey
    requires slot.character in targets
  {
    MediaKey(productId, targets[slot.character], slot.asset, slot.usage)
  }

  ghost predicate SentFrom(s: Server, media: map<MediaKey, MediaLink>, p: Id, slot: Slot, requestId: Id) {
    && slot.character in Targets(s, p) && KeyFor(p, slot, Targets(s, p)) in media
    && media[KeyFor(p, slot, Targets(s, p))].requestId == requestId
  }

  ghost predicate SentOk(s: Server, media: map<MediaKey, MediaLink>, sent: set<(Id, Slot, Id)>) {
    forall x :: x in sent ==> SentFrom(s, media, x.0, x.1, x.2)
  }

  ghost predicate Sub(a: map<string, Id>, b: map<string, Id>) {
    forall c :: c in a ==> c in b && b[c] == a[c]
  }

  /** Naming this revision replaces only a document whose text the browser recorded as a base. */
  ghost predicate Justified(s: Server, recorded: set<(string, Id, string)>, work: string, productId: Id, revision: nat) {
    && 1 <= revision <= |Log(s, productId)|
    && (work, productId, Log(s, productId)[revision - 1].project.text) in recorded
  }

  ghost predicate CheckingOk(s: Server, recorded: set<(string, Id, string)>, t: Task)
    requires t.stage.Checking?
  {
    var link := t.stage.link;
    && link.productId == t.productId && t.call == Some(GetDraft(t.productId))
    && (link.base.Some? ==> (t.work, t.productId, link.base.value) in recorded)
    && (t.reply.Some? ==> t.reply.value.DraftIs? && ReadOk(s, t.productId, t.reply.value.draft))
  }

  ghost predicate ReadOk(s: Server, productId: Id, draft: DraftReply) {
    draft.Some? ==> 1 <= draft.value.0 <= |Log(s, productId)| && Log(s, productId)[draft.value.0 - 1] == draft.value.1
  }

  ghost predicate SavedOk(s: Server, productId: Id, revision: Option<nat>, text: string) {
    revision.Some? ==> At(s, productId, revision.value, text)
  }

  ghost predicate StoredOk(s: Server, requestId: Id, mediaId: Id) {
    requestId in s.uploads && s.uploads[requestId] == mediaId
  }

  ghost predicate TargetsOk(s: Server, productId: Id, targets: Option<map<string, Id>>) {
    targets.Some? ==> Sub(targets.value, Targets(s, productId))
  }

  ghost predicate PuttingOk(s: Server, recorded: set<(string, Id, string)>, t: Task) {
    && t.call.Some? && t.call.value.PutDraft? && t.call.value.productId == t.productId
    && t.call.value.doc == Document(t.project, t.work, true)
    && (t.call.value.expected.Some? ==> Justified(s, recorded, t.work, t.productId, t.call.value.expected.value))
    && (t.reply.Some? ==> t.reply.value.SavedAs? && SavedOk(s, t.productId, t.reply.value.revision, t.project.text))
  }

  ghost predicate UploadingOk(s: Server, media: map<MediaKey, MediaLink>, t: Task)
    requires t.stage.Uploading?
  {
    && t.stage.next < |t.project.slots| && t.call.Some? && t.call.value.PostUpload?
    && t.project.slots[t.stage.next].character in t.stage.targets
    && t.call.value.key == KeyFor(t.productId, t.project.slots[t.stage.next], t.stage.targets)
    && t.call.value.key in media && media[t.call.value.key].requestId == t.call.value.requestId
    && (t.reply.Some? ==> t.reply.value.MediaIs? && StoredOk(s, t.call.value.requestId, t.reply.value.mediaId))
  }

  /** A slot's image is the one the server's draft shows, or the upload made under the slot's own key. */
  ghost predicate SlotMedia(s: Server, media: map<MediaKey, MediaLink>, p: Id, project: Project, remote: Document,
                            targets: map<string, Id>, i: nat)
    requires i < |project.slots|
  {
    project.slots[i] in project.media
    && HasImage(s, media, p, project.slots[i], remote, targets, project.media[project.slots[i]])
  }

  ghost predicate HasImage(s: Server, media: map<MediaKey, MediaLink>, productId: Id, slot: Slot, remote: Document,
                           targets: map<string, Id>, m: Id) {
    (slot in remote.project.media && m == remote.project.media[slot]) || UploadedAs(s, media, productId, slot, targets, m)
  }

  ghost predicate UploadedAs(s: Server, media: map<MediaKey, MediaLink>, productId: Id, slot: Slot, targets: map<string, Id>, m: Id) {
    && slot.character in targets && KeyFor(productId, slot, targets) in media
    && StoredOk(s, media[KeyFor(productId, slot, targets)].requestId, m)
  }

  ghost predicate SlotsDone(s: Server, media: map<MediaKey, MediaLink>, p: Id, project: Project, remote: Document,
                            targets: map<string, Id>, n: nat) {
    forall i :: 0 <= i < n && i < |project.slots| ==> SlotMedia(s, media, p, project, remote, targets, i)
  }

  ghost predicate TaskOk(s: Server, recorded: set<(string, Id, string)>, media: map<MediaKey, MediaLink>, t: Task) {
    match t.stage
    case Checking(_) => CheckingOk(s, recorded, t)
    case Putting(_) => PuttingOk(s, recorded, t)
    case Fetching(revision) =>
      Justified(s, recorded, t.work, t.productId, revision) && t.call == Some(GetDraft(t.productId))
    case Preparing(revision, _) =>
      && Justified(s, recorded, t.work, t.productId, revision) && t.call == Some(PostComponents(t.productId, revision))
      && (t.reply.Some? ==> t.reply.value.Components? && TargetsOk(s, t.productId, t.reply.value.targets))
    case Choosing(revision, remote, targets, next) =>
      && Justified(s, recorded, t.work, t.productId, revision) && t.call.None? && Sub(targets, Targets(s, t.productId))
      && SlotsDone(s, media, t.productId, t.project, remote, targets, next)
    case Uploading(revision, remote, targets, next) =>
      && Justified(s, recorded, t.work, t.productId, revision) && Sub(targets, Targets(s, t.productId)) && UploadingOk(s, media, t)
      && SlotsDone(s, media, t.productId, t.project, remote, targets, next)
    case Over(saved) => t.call.None? && (saved ==> Held(s, t.productId, t.project.text))
  }

  ghost predicate Held(s: Server, productId: Id, text: string) {
    exists revision :: At(s, productId, revision, text)
  }

  ghost predicate Inv(w: World) {
    && LinksOk(w.server, w.storage.links) && Bases(w.storage) <= w.recorded
    && MediaOk(w.server, w.storage.media, w.used) && SentOk(w.server, w.storage.media, w.sent)
    && forall t :: t in w.tasks ==> TaskOk(w.server, w.recorded, w.storage.media, w.tasks[t])
  }

  // ---------- growth ----------

  ghost predicate Extends(s: Server, s': Server) {
    && (forall p :: Log(s, p) <= Log(s', p)) && (forall p :: Sub(Targets(s, p), Targets(s', p)))
    && forall r :: r in s.uploads ==> r in s'.uploads && s'.uploads[r] == s.uploads[r]
  }

  ghost predicate SameRequests(media: map<MediaKey, MediaLink>, media': map<MediaKey, MediaLink>) {
    forall k :: k in media ==> k in media' && media'[k].requestId == media[k].requestId
  }

  lemma JustifiedGrows(s: Server, s': Server, recorded: set<(string, Id, string)>, recorded': set<(string, Id, string)>,
                       work: string, productId: Id, revision: nat)
    requires Extends(s, s') && recorded <= recorded' && Justified(s, recorded, work, productId, revision)
    ensures Justified(s', recorded', work, productId, revision)
  {
    assert Log(s, productId) <= Log(s', productId);
  }

  lemma SubGrows(s: Server, s': Server, targets: map<string, Id>, productId: Id)
    requires Extends(s, s') && Sub(targets, Targets(s, productId))
    ensures Sub(targets, Targets(s', productId))
  {
    assert Sub(Targets(s, productId), Targets(s', productId));
  }

  lemma SlotsGrow(s: Server, s': Server, media: map<MediaKey, MediaLink>, media': map<MediaKey, MediaLink>, p: Id, project: Project,
                  remote: Document, targets: map<string, Id>, n: nat)
    requires Extends(s, s') && SameRequests(media, media') && SlotsDone(s, media, p, project, remote, targets, n)
    ensures SlotsDone(s', media', p, project, remote, targets, n)
  {
    forall i | 0 <= i < n && i < |project.slots| ensures SlotMedia(s', media', p, project, remote, targets, i) {
      assert SlotMedia(s, media, p, project, remote, targets, i);
    }
  }

  /** One more slot gets its image. */
  lemma SlotsMore(s: Server, media: map<MediaKey, MediaLink>, p: Id, project: Project, project': Project, remote: Document,
                  targets: map<string, Id>, n: nat, m: Id)
    requires n < |project.slots| && SlotsDone(s, media, p, project, remote, targets, n)
    requires project' == project.(media := project.media[project.slots[n] := m])
    requires HasImage(s, media, p, project.slots[n], remote, targets, m)
    ensures SlotsDone(s, media, p, project', remote, targets, n + 1)
  {
    forall i | 0 <= i < n + 1 && i < |project'.slots| ensures SlotMedia(s, media, p, project', remote, targets, i) {
      if i < n { assert SlotMedia(s, media, p, project, remote, targets, i); }
    }
  }

  lemma TaskGrows(s: Server, s': Server, recorded: set<(string, Id, string)>, recorded': set<(string, Id, string)>,
                  media: map<MediaKey, MediaLink>, media': map<MediaKey, MediaLink>, t: Task)
    requires Extends(s, s') && recorded <= recorded' && SameRequests(media, media') && TaskOk(s, recorded, media, t)
    ensures TaskOk(s', recorded', media', t)
  {
    assert Log(s, t.productId) <= Log(s', t.productId);
    match t.stage
    case Checking(_) =>
    case Putting(_) =>
      if t.call.value.expected.Some? {
        JustifiedGrows(s, s', recorded, recorded', t.work, t.productId, t.call.value.expected.value);
      }
    case Fetching(revision) => JustifiedGrows(s, s', recorded, recorded', t.work, t.productId, revision);
    case Preparing(revision, _) =>
      JustifiedGrows(s, s', recorded, recorded', t.work, t.productId, revision);
      if t.reply.Some? && t.reply.value.targets.Some? { SubGrows(s, s', t.reply.value.targets.value, t.productId); }
    case Choosing(revision, remote, targets, next) =>
      JustifiedGrows(s, s', recorded, recorded', t.work, t.productId, revision);
      SubGrows(s, s', targets, t.productId);
      SlotsGrow(s, s', media, media', t.productId, t.project, remote, targets, next);
    case Uploading(revision, remote, targets, next) =>
      JustifiedGrows(s, s', recorded, recorded', t.work, t.productId, revision);
      SubGrows(s, s', targets, t.productId);
      SlotsGrow(s, s', media, media', t.productId, t.project, remote, targets, next);
    case Over(saved) =>
      if saved {
        var revision :| At(s, t.productId, revision, t.project.text);
        assert At(s', t.productId, revision, t.project.text);
      }
  }

  lemma LinksGrow(s: Server, s': Server, links: map<string, Link>)
    requires Extends(s, s') && LinksOk(s, links)
    ensures LinksOk(s', links)
  {
    forall work | work in links ensures HonestLink(s', links[work]) {
      assert HonestLink(s, links[work]) && Log(s, links[work].productId) <= Log(s', links[work].productId);
    }
  }

  lemma SentGrows(s: Server, s': Server, media: map<MediaKey, MediaLink>, media': map<MediaKey, MediaLink>,
                  sent: set<(Id, Slot, Id)>)
    requires Extends(s, s') && SameRequests(media, media') && SentOk(s, media, sent)
    ensures SentOk(s', media', sent)
  {
    forall x | x in sent ensures SentFrom(s', media', x.0, x.1, x.2) {
      assert SentFrom(s, media, x.0, x.1, x.2) && Sub(Targets(s, x.0), Targets(s', x.0));
    }
  }

  /** A change of the server alone, or of media alone, keeps everything that was there. */
  lemma ServerGrows(w: World, w': World)
    requires Inv(w) && Extends(w.server, w'.server) && w.used <= w'.used
    requires w'.storage == w.storage && w'.recorded == w.recorded && w'.sent == w.sent
    ensures LinksOk(w'.server, w'.storage.links) && MediaOk(w'.server, w'.storage.media, w'.used)
    ensures SentOk(w'.server, w'.storage.media, w'.sent)
    ensures forall t :: t in w.tasks ==> TaskOk(w'.server, w'.recorded, w'.storage.media, w.tasks[t])
  {
    LinksGrow(w.server, w'.server, w.storage.links);
    SentGrows(w.server, w'.server, w.storage.media, w.storage.media, w.sent);
    forall t | t in w.tasks ensures TaskOk(w'.server, w'.recorded, w'.storage.media, w.tasks[t]) {
      TaskGrows(w.server, w'.server, w.recorded, w.recorded, w.storage.media, w.storage.media, w.tasks[t]);
    }
  }

  // ---------- the server's steps ----------

  lemma PutExtends(s: Server, p: Id, expected: Option<nat>, doc: Document)
    ensures Extends(s, Put(s, p, expected, doc).0)
    ensures Put(s, p, expected, doc).1.Some? ==>
              var n := Put(s, p, expected, doc).1.value;
              1 <= n <= |Log(Put(s, p, expected, doc).0, p)| && Log(Put(s, p, expected, doc).0, p)[n - 1] == doc
  {
    var s' := Put(s, p, expected, doc).0;
    forall q ensures Log(s, q) <= Log(s', q) {}
    forall q ensures Sub(Targets(s, q), Targets(s', q)) {}
  }

  lemma PrepareExtends(s: Server, p: Id, revision: nat, copies: map<string, Id>)
    ensures Extends(s, Prepare(s, p, revision, copies).0)
    ensures Prepare(s, p, revision, copies).1.Some? ==>
              Sub(Prepare(s, p, revision, copies).1.value, Targets(Prepare(s, p, revision, copies).0, p))
  {
    var s' := Prepare(s, p, revision, copies).0;
    forall q ensures Log(s, q) <= Log(s', q) {}
    forall q ensures Sub(Targets(s, q), Targets(s', q)) {}
  }

  lemma StoreExtends(s: Server, requestId: Id, spare: Id)
    ensures Extends(s, Store(s, requestId, spare).0)
    ensures requestId in Store(s, requestId, spare).0.uploads
         && Store(s, requestId, spare).0.uploads[requestId] == Store(s, requestId, spare).1
  {
    var s' := Store(s, requestId, spare).0;
    forall q ensures Log(s, q) <= Log(s', q) {}
    forall q ensures Sub(Targets(s, q), Targets(s', q)) {}
  }

  lemma ServedExtends(s: Server, call: Call, copies: map<string, Id>, spare: Id)
    ensures Extends(s, Served(s, call, copies, spare).0)
  {
    match call
    case GetDraft(p) =>
      forall q ensures Log(s, q) <= Log(s, q) {}
      forall q ensures Sub(Targets(s, q), Targets(s, q)) {}
    case PutDraft(p, expected, doc) => PutExtends(s, p, expected, doc);
    case PostComponents(p, revision) => PrepareExtends(s, p, revision, copies);
    case PostUpload(_, requestId) => StoreExtends(s, requestId, spare);
  }

  lemma ServedTask(s: Server, recorded: set<(string, Id, string)>, media: map<MediaKey, MediaLink>, t: Task,
                   copies: map<string, Id>, spare: Id)
    requires TaskOk(s, recorded, media, t) && t.call.Some? && t.reply.None?
    ensures var (s', reply) := Served(s, t.call.value, copies, spare);
            TaskOk(s', recorded, media, t.(reply := Some(reply)))
  {
    var (s', reply) := Served(s, t.call.value, copies, spare);
    ServedExtends(s, t.call.value, copies, spare);
    TaskGrows(s, s', recorded, recorded, media, media, t);
    match t.call.value
    case GetDraft(p) =>
    case PutDraft(p, expected, doc) => PutExtends(s, p, expected, doc);
    case PostComponents(p, revision) => PrepareExtends(s, p, revision, copies);
    case PostUpload(_, requestId) => StoreExtends(s, requestId, spare);
  }

  // ---------- the browser's steps ----------

  lemma RecordedOk(s: Server, st: Storage, work: string, productId: Id, revision: nat, base: string)
    requires LinksOk(s, st.links) && At(s, productId, revision, base)
    ensures var st' := Recorded(st, work, productId, revision, base);
            LinksOk(s, st'.links) && st'.media == st.media && (work, productId, base) in Bases(st')
  {
    var st' := Recorded(st, work, productId, revision, base);
    assert work in st'.links && st'.links[work].base.Some?;
  }

  lemma OpenedOk(s: Server, st: Storage, work: string, spare: Id)
    requires LinksOk(s, st.links)
    ensures var (st', link) := Opened(st, work, spare);
            LinksOk(s, st'.links) && st'.media == st.media
            && (link.base.Some? ==> (work, link.productId, link.base.value) in Bases(st'))
  {}

  lemma ExaminedOk(s: Server, recorded: set<(string, Id, string)>, st: Storage, t: Task, link: Link, reply: DraftReply)
    requires LinksOk(s, st.links) && ReadOk(s, t.productId, reply) && link.productId == t.productId
    requires link.base.Some? ==> (t.work, t.productId, link.base.value) in recorded
    ensures var (st', verdict) := Examined(st, t.work, t.project, link, reply);
            && LinksOk(s, st'.links) && st'.media == st.media
            && (verdict.PutNow? && verdict.expected.Some? ==> Justified(s, recorded, t.work, t.productId, verdict.expected.value))
            && (verdict.Finished? ==> Justified(s, recorded + Bases(st'), t.work, t.productId, verdict.revision))
            && (verdict.Finished? ==> At(s, t.productId, verdict.revision, t.project.text))
  {
    if reply.Some? && reply.value.1.readable && reply.value.1.project.text == t.project.text {
      RecordedOk(s, st, t.work, t.productId, reply.value.0, t.project.text);
    }
  }

  lemma FilledOk(s: Server, st: Storage, used: set<Id>, slot: Slot, remote: Document, targets: map<string, Id>,
                 productId: Id, spare: Id)
    requires MediaOk(s, st.media, used) && spare !in used
    ensures var (st', filling) := Filled(st, slot, remote, targets, productId, spare);
            && st'.links == st.links && MediaOk(s, st'.media, used + {spare}) && SameRequests(st.media, st'.media)
            && (filling.Upload? ==>
                  slot.character in targets && filling.key == KeyFor(productId, slot, targets)
                  && filling.key in st'.media && st'.media[filling.key].requestId == filling.requestId)
            && (filling.UseMedia? ==> HasImage(s, st'.media, productId, slot, remote, targets, filling.mediaId))
  {}

  lemma ReceivedOk(s: Server, st: Storage, used: set<Id>, key: MediaKey, requestId: Id, mediaId: Id)
    requires MediaOk(s, st.media, used) && key in st.media && st.media[key].requestId == requestId
    requires StoredOk(s, requestId, mediaId)
    ensures var st' := Received(st, key, requestId, mediaId);
            st'.links == st.links && MediaOk(s, st'.media, used) && SameRequests(st.media, st'.media)
  {}

  lemma MoreUsed(s: Server, media: map<MediaKey, MediaLink>, used: set<Id>, spare: Id)
    requires MediaOk(s, media, used)
    ensures MediaOk(s, media, used + {spare})
  {}

  /** One turn of a task left storage and task in order. */
  ghost predicate TurnOk(w: World, spare: Id, st: Storage, t: Task) {
    && LinksOk(w.server, st.links) && MediaOk(w.server, st.media, w.used + {spare}) && SameRequests(w.storage.media, st.media)
    && TaskOk(w.server, w.recorded + Bases(st), st.media, t)
    && SentOk(w.server, st.media, NewUploads(t))
  }

  lemma AfterSavedOk(w: World, spare: Id, st: Storage, t: Task, revision: nat)
    requires LinksOk(w.server, st.links) && MediaOk(w.server, st.media, w.used + {spare}) && SameRequests(w.storage.media, st.media)
    requires Justified(w.server, w.recorded + Bases(st), t.work, t.productId, revision)
    requires At(w.server, t.productId, revision, t.project.text)
    ensures TurnOk(w, spare, st, AfterSaved(t, revision))
  {}

  lemma JustifiedMore(s: Server, recorded: set<(string, Id, string)>, more: set<(string, Id, string)>,
                      work: string, productId: Id, revision: nat)
    requires Justified(s, recorded, work, productId, revision)
    ensures Justified(s, recorded + more, work, productId, revision)
  {}

  lemma CheckTurn(w: World, spare: Id, t: Task)
    requires Inv(w) && TaskOk(w.server, w.recorded, w.storage.media, t) && t.stage.Checking? && t.reply.Some?
    ensures var (st, t') := Resumed(w.storage, t, spare); TurnOk(w, spare, st, t')
  {
    var link, draft := t.stage.link, t.reply.value.draft;
    ExaminedOk(w.server, w.recorded, w.storage, t, link, draft);
    MoreUsed(w.server, w.storage.media, w.used, spare);
    var (st, verdict) := Examined(w.storage, t.work, t.project, link, draft);
    if verdict.Finished? { AfterSavedOk(w, spare, st, t, verdict.revision); }
    if verdict.PutNow? && verdict.expected.Some? {
      JustifiedMore(w.server, w.recorded, Bases(st), t.work, t.productId, verdict.expected.value);
    }
  }

  lemma PutTurn(w: World, spare: Id, t: Task)
    requires Inv(w) && TaskOk(w.server, w.recorded, w.storage.media, t) && t.stage.Putting? && t.reply.Some?
    ensures var (st, t') := Resumed(w.storage, t, spare); TurnOk(w, spare, st, t')
  {
    MoreUsed(w.server, w.storage.media, w.used, spare);
    var revision := t.reply.value.revision;
    if revision.Some? {
      RecordedOk(w.server, w.storage, t.work, t.productId, revision.value, t.project.text);
      var st := Recorded(w.storage, t.work, t.productId, revision.value, t.project.text);
      AfterSavedOk(w, spare, st, t, revision.value);
    }
  }

  lemma SlotTurn(w: World, spare: Id, t: Task, st: Storage, filling: Filling)
    requires t.stage.Choosing? && t.stage.next < |t.project.slots|
    requires (st, filling) == Filled(w.storage, t.project.slots[t.stage.next], t.stage.remote, t.stage.targets, t.productId, spare)
    requires LinksOk(w.server, st.links) && MediaOk(w.server, st.media, w.used + {spare}) && SameRequests(w.storage.media, st.media)
    requires filling.Upload? ==>
               t.project.slots[t.stage.next].character in t.stage.targets
               && filling.key == KeyFor(t.productId, t.project.slots[t.stage.next], t.stage.targets)
               && filling.key in st.media && st.media[filling.key].requestId == filling.requestId
    requires Justified(w.server, w.recorded + Bases(st), t.work, t.productId, t.stage.revision)
    requires t.call.None? && Sub(t.stage.targets, Targets(w.server, t.productId))
    requires SlotsDone(w.server, st.media, t.productId, t.project, t.stage.remote, t.stage.targets, t.stage.next)
    requires filling.UseMedia? ==>
               HasImage(w.server, st.media, t.productId, t.project.slots[t.stage.next], t.stage.remote, t.stage.targets, filling.mediaId)
    ensures AfterChoice(w.storage, t, spare).0 == st && TurnOk(w, spare, st, AfterChoice(w.storage, t, spare).1)
  {
    var t' := AfterChoice(w.storage, t, spare).1;
    if filling.UseMedia? {
      SlotsMore(w.server, st.media, t.productId, t.project, t'.project, t.stage.remote, t.stage.targets, t.stage.next, filling.mediaId);
    }
  }

  lemma LastTurn(w: World, spare: Id, t: Task)
    requires t.stage.Choosing? && t.stage.next >= |t.project.slots|
    requires LinksOk(w.server, w.storage.links) && MediaOk(w.server, w.storage.media, w.used + {spare})
    requires Justified(w.server, w.recorded + Bases(w.storage), t.work, t.productId, t.stage.revision)
    ensures AfterChoice(w.storage, t, spare).0 == w.storage && TurnOk(w, spare, w.storage, AfterChoice(w.storage, t, spare).1)
  {}

  lemma ChooseTurn(w: World, spare: Id, t: Task)
    requires Inv(w) && spare !in w.used && TaskOk(w.server, w.recorded, w.storage.media, t) && t.stage.Choosing?
    ensures var (st, t') := Resumed(w.storage, t, spare); TurnOk(w, spare, st, t')
  {
    var stage := t.stage;
    if stage.next < |t.project.slots| {
      var slot := t.project.slots[stage.next];
      FilledOk(w.server, w.storage, w.used, slot, stage.remote, stage.targets, t.productId, spare);
      var (st, filling) := Filled(w.storage, slot, stage.remote, stage.targets, t.productId, spare);
      JustifiedMore(w.server, w.recorded, Bases(st), t.work, t.productId, stage.revision);
      SameServer(w.server);
      SlotsGrow(w.server, w.server, w.storage.media, st.media, t.productId, t.project, stage.remote, stage.targets, stage.next);
      SlotTurn(w, spare, t, st, filling);
    } else {
      MoreUsed(w.server, w.storage.media, w.used, spare);
      JustifiedMore(w.server, w.recorded, Bases(w.storage), t.work, t.productId, stage.revision);
      LastTurn(w, spare, t);
    }
  }

  lemma UploadTurn(w: World, spare: Id, t: Task)
    requires Inv(w) && TaskOk(w.server, w.recorded, w.storage.media, t) && t.stage.Uploading? && t.reply.Some?
    ensures var (st, t') := Resumed(w.storage, t, spare); TurnOk(w, spare, st, t')
  {
    MoreUsed(w.server, w.storage.media, w.used, spare);
    ReceivedOk(w.server, w.storage, w.used + {spare}, t.call.value.key, t.call.value.requestId, t.reply.value.mediaId);
    var st := Received(w.storage, t.call.value.key, t.call.value.requestId, t.reply.value.mediaId);
    JustifiedMore(w.server, w.recorded, Bases(st), t.work, t.productId, t.stage.revision);
    SameServer(w.server);
    SlotsGrow(w.server, w.server, w.storage.media, st.media, t.productId, t.project, t.stage.remote, t.stage.targets, t.stage.next);
    SlotsMore(w.server, st.media, t.productId, t.project, Resumed(w.storage, t, spare).1.project, t.stage.remote, t.stage.targets,
              t.stage.next, t.reply.value.mediaId);
  }

  lemma FetchTurn(w: World, spare: Id, t: Task)
    requires Inv(w) && TaskOk(w.server, w.recorded, w.storage.media, t)
    requires t.stage.Fetching? || t.stage.Preparing? || t.stage.Over? || (t.reply.None? && !t.stage.Choosing?)
    ensures var (st, t') := Resumed(w.storage, t, spare);
            st == w.storage && TaskOk(w.server, w.recorded, w.storage.media, t') && (t' == t || NewUploads(t') == {})
  {}

  lemma IdleTurn(w: World, spare: Id, t: Task, t': Task)
    requires Inv(w) && TaskOk(w.server, w.recorded, w.storage.media, t) && TaskOk(w.server, w.recorded, w.storage.media, t')
    requires t' == t || NewUploads(t') == {}
    ensures TurnOk(w, spare, w.storage, t')
  {
    MoreUsed(w.server, w.storage.media, w.used, spare);
    forall p ensures Log(w.server, p) <= Log(w.server, p) {}
    forall p ensures Sub(Targets(w.server, p), Targets(w.server, p)) {}
    TaskGrows(w.server, w.server, w.recorded, w.recorded + Bases(w.storage), w.storage.media, w.storage.media, t');
    UploadSent(w.server, w.recorded, w.storage.media, t');
  }

  lemma UploadSent(s: Server, recorded: set<(string, Id, string)>, media: map<MediaKey, MediaLink>, t: Task)
    requires TaskOk(s, recorded, media, t)
    ensures SentOk(s, media, NewUploads(t))
  {}

  lemma TurnKeeps(w: World, spare: Id, t: Task)
    requires Inv(w) && spare !in w.used && TaskOk(w.server, w.recorded, w.storage.media, t)
    ensures var (st, t') := Resumed(w.storage, t, spare); TurnOk(w, spare, st, t')
  {
    if t.stage.Choosing? { ChooseTurn(w, spare, t); }
    else if t.stage.Checking? && t.reply.Some? { CheckTurn(w, spare, t); }
    else if t.stage.Putting? && t.reply.Some? { PutTurn(w, spare, t); }
    else if t.stage.Uploading? && t.reply.Some? { UploadTurn(w, spare, t); }
    else {
      FetchTurn(w, spare, t);
      IdleTurn(w, spare, t, Resumed(w.storage, t, spare).1);
    }
  }

  // ---------- every run ----------

  /** The other tasks, the bases and the sent keys come along with a turn of one task. */
  lemma TurnInv(w: World, w': World, t: nat, spare: Id, st: Storage, task: Task)
    requires Inv(w) && TurnOk(w, spare, st, task)
    requires w'.server == w.server && w'.storage == st && w'.tasks == w.tasks[t := task] && w'.used == w.used + {spare}
    requires w'.recorded == w.recorded + Bases(st)
    requires w'.sent == w.sent + NewUploads(task)
    ensures Inv(w')
  {
    SameServer(w.server);
    SentGrows(w.server, w.server, w.storage.media, st.media, w.sent);
    forall k | k in w'.tasks ensures TaskOk(w'.server, w'.recorded, w'.storage.media, w'.tasks[k]) {
      if k != t { TaskGrows(w.server, w.server, w.recorded, w'.recorded, w.storage.media, st.media, w.tasks[k]); }
    }
  }

  lemma SameServer(s: Server)
    ensures Extends(s, s)
  {
    forall p ensures Log(s, p) <= Log(s, p) {}
    forall p ensures Sub(Targets(s, p), Targets(s, p)) {}
  }

  lemma BeginKeeps(w: World, e: Event)
    requires Inv(w) && Legal(w, e) && e.Begin?
    ensures Inv(Step(w, e))
  {
    OpenedOk(w.server, w.storage, e.work, e.spare);
    MoreUsed(w.server, w.storage.media, w.used, e.spare);
    var (st, link) := Opened(w.storage, e.work, e.spare);
    var task := Task(e.work, e.project, link.productId, Checking(link), Some(GetDraft(link.productId)), None, true);
    TurnInv(w, Step(w, e), e.t, e.spare, st, task);
  }

  lemma ServeKeeps(w: World, e: Event)
    requires Inv(w) && Legal(w, e) && e.Serve?
    ensures Inv(Step(w, e))
  {
    var t := w.tasks[e.t];
    var w' := Step(w, e);
    ServedExtends(w.server, t.call.value, e.copies, e.spare);
    ServedTask(w.server, w.recorded, w.storage.media, t, e.copies, e.spare);
    ServerGrows(w, w');
  }

  lemma ResumeKeeps(w: World, e: Event)
    requires Inv(w) && Legal(w, e) && e.Resume?
    ensures Inv(Step(w, e))
  {
    TurnKeeps(w, e.spare, w.tasks[e.t]);
    var (st, task) := Resumed(w.storage, w.tasks[e.t], e.spare);
    TurnInv(w, Step(w, e), e.t, e.spare, st, task);
  }

  lemma LoseKeeps(w: World, e: Event)
    requires Inv(w) && Legal(w, e) && e.Lose?
    ensures Inv(Step(w, e))
  {
    assert TaskOk(w.server, w.recorded, w.storage.media, w.tasks[e.t]);
    LostTaskOk(w.server, w.recorded, w.storage.media, w.tasks[e.t]);
  }

  lemma LostTaskOk(s: Server, recorded: set<(string, Id, string)>, media: map<MediaKey, MediaLink>, t: Task)
    requires TaskOk(s, recorded, media, t)
    ensures TaskOk(s, recorded, media, t.(live := false))
  {}

  lemma ElsewhereKeeps(w: World, e: Event)
    requires Inv(w) && Legal(w, e) && e.Elsewhere?
    ensures Inv(Step(w, e))
  {
    PutExtends(w.server, e.productId, e.expected, e.doc);
    ServerGrows(w, Step(w, e));
  }

  /** A link read from the server is written, or nothing is. */
  lemma ImportKeeps(w: World, w': World, st: Storage, item: Id)
    requires Inv(w) && LinksOk(w.server, st.links) && st.media == w.storage.media
    requires w' == w.(storage := st, recorded := w.recorded + Bases(st), used := w.used + {item})
    ensures Inv(w')
  {
    MoreUsed(w.server, w.storage.media, w.used, item);
    SameServer(w.server);
    forall k | k in w'.tasks ensures TaskOk(w'.server, w'.recorded, w'.storage.media, w'.tasks[k]) {
      TaskGrows(w.server, w.server, w.recorded, w'.recorded, w.storage.media, st.media, w.tasks[k]);
    }
  }

  lemma LoadKeeps(w: World, e: Event)
    requires Inv(w) && Legal(w, e) && (e.ImportListed? || e.OpenOne?)
    ensures Inv(Step(w, e))
  {
    var remote := Log(w.server, e.item)[e.revision - 1];
    var work := if e.OpenOne? then "server:" + e.item else ImportedAs(e.item, remote, e.taken);
    RecordedOk(w.server, w.storage, work, e.item, e.revision, remote.project.text);
    ImportKeeps(w, Step(w, e), Step(w, e).storage, e.item);
  }

  lemma StepKeeps(w: World, e: Event)
    requires Inv(w) && Legal(w, e)
    ensures Inv(Step(w, e))
  {
    match e
    case Begin(_, _, _, _) => BeginKeeps(w, e);
    case Serve(_, _, _) => ServeKeeps(w, e);
    case Resume(_, _) => ResumeKeeps(w, e);
    case Lose(_) => LoseKeeps(w, e);
    case Elsewhere(_, _, _) => ElsewhereKeeps(w, e);
    case ImportListed(_, _, _, _) => LoadKeeps(w, e);
    case OpenOne(_, _) => LoadKeeps(w, e);
  }

  lemma {:induction false} RunKeeps(w: World, events: seq<Event>)
    requires Inv(w) && Runs(w, events)
    ensures Inv(Run(w, events))
    decreases events
  {
    if events != [] {
      StepKeeps(w, events[0]);
      RunKeeps(Step(w, events[0]), events[1..]);
    }
  }

  /**
    After any run, when the server takes a draft of this browser, it replaces nothing, or a
    document whose text this browser had recorded as the base of that work and product.
   */
  lemma PutReplacesRecorded(events: seq<Event>, t: nat, copies: map<string, Id>, spare: Id)
    requires Runs(START, events) && Legal(Run(START, events), Serve(t, copies, spare))
    requires Run(START, events).tasks[t].call.value.PutDraft?
    ensures var w := Run(START, events);
            var p := w.tasks[t].call.value.productId;
            var before, after := Log(w.server, p), Log(Step(w, Serve(t, copies, spare)).server, p);
            after == before
            || (after == before + [w.tasks[t].call.value.doc]
                && (before == [] || (w.tasks[t].work, p, before[|before| - 1].project.text) in w.recorded))
  {
    RunKeeps(START, events);
    var w := Run(START, events);
    assert TaskOk(w.server, w.recorded, w.storage.media, w.tasks[t]);
  }

  /** After any run, a save that ended well left its text in the server's draft. */
  lemma SavedIsStored(events: seq<Event>, t: nat)
    requires Runs(START, events) && t in Run(START, events).tasks && Run(START, events).tasks[t].stage == Over(true)
    ensures var w := Run(START, events);
            Held(w.server, w.tasks[t].productId, w.tasks[t].project.text)
  {
    RunKeeps(START, events);
    var w := Run(START, events);
    assert TaskOk(w.server, w.recorded, w.storage.media, w.tasks[t]);
  }

  /**
    After any run, a save that has chosen images for all its slots, and so sends the document with
    them next, shows in each the image the server's draft had there or this slot's own upload.
   */
  lemma EverySlotHasItsImage(events: seq<Event>, t: nat, i: nat)
    requires Runs(START, events) && t in Run(START, events).tasks && Run(START, events).tasks[t].stage.Choosing?
    requires Run(START, events).tasks[t].stage.next >= |Run(START, events).tasks[t].project.slots| > i
    ensures var w := Run(START, events);
            var task := w.tasks[t];
            var slot := task.project.slots[i];
            && slot in task.project.media
            && HasImage(w.server, w.storage.media, task.productId, slot, task.stage.remote, task.stage.targets, task.project.media[slot])
  {
    RunKeeps(START, events);
    var w := Run(START, events);
    var task := w.tasks[t];
    assert TaskOk(w.server, w.recorded, w.storage.media, task);
    assert SlotMedia(w.server, w.storage.media, task.productId, task.project, task.stage.remote, task.stage.targets, i);
  }

  /** After any run, a slot of a product was only ever uploaded under one request id. */
  lemma OneUploadKey(events: seq<Event>, p: Id, slot: Slot, a: Id, b: Id)
    requires Runs(START, events)
    requires (p, slot, a) in Run(START, events).sent && (p, slot, b) in Run(START, events).sent
    ensures a == b
  {
    RunKeeps(START, events);
    var w := Run(START, events);
    assert SentFrom(w.server, w.storage.media, (p, slot, a).0, (p, slot, a).1, (p, slot, a).2);
    assert SentFrom(w.server, w.storage.media, (p, slot, b).0, (p, slot, b).1, (p, slot, b).2);
  }
}
