/**
  Keeping the studio workspace in storage that all tabs share. `read` is the workspace reader and
  `write` the serializer; nothing is assumed of them.
 */
module DraftStorage {
  import opened Wrappers

  datatype Codec<!W> = Codec(read: string -> Option<W>, write: W -> string, empty: W)

  /** The shared workspace entry, and the backups written beside it. */
  datatype Storage = Storage(workspace: Option<string>, backups: set<string>)

  /** One tab: what it shows, whether that is saved, what it could not read, and what it last saw stored. */
  datatype Tab<W> = Tab(latest: W, unsaved: bool, unreadable: Option<string>, lastStored: Option<string>)

  /** What older versions left behind: nothing, something that can be carried over, or something that cannot. */
  datatype Legacy<W> = Absent | Carried(workspace: W) | Lost

  function Restored<W>(codec: Codec<W>, raw: Option<string>, legacy: Legacy<W>): Option<W> {
    if raw.Some? then codec.read(raw.value)
    else match legacy
      case Absent => Some(codec.empty)
      case Carried(w) => Some(w)
      case Lost => None
  }

  /** Opening a tab; storage that cannot be read at all shows an empty workspace. */
  function Loaded<W>(codec: Codec<W>, s: Storage, legacy: Legacy<W>, blocked: bool): Tab<W> {
    if blocked then Tab(codec.empty, false, None, None)
    else
      var restored := Restored(codec, s.workspace, legacy);
      if restored.None? then Tab(codec.empty, false, s.workspace, s.workspace)
      else Tab(restored.value, s.workspace.None? && !legacy.Absent?, None, s.workspace)
  }

  function Committed<W>(t: Tab<W>, next: W): Tab<W> {
    t.(latest := next, unsaved := true)
  }

  /** What a save does; `room` counts the writes the storage will take. */
  function Saved<W>(codec: Codec<W>, s: Storage, t: Tab<W>, room: nat): (Storage, Tab<W>, bool) {
    if s.workspace != t.lastStored then (s, t, false)
    else
      var backing := t.unreadable.Some?;
      if backing && room == 0 then (s, t, false)
      else
        var s1 := if backing then s.(backups := s.backups + {t.unreadable.value}) else s;
        var t1 := t.(unreadable := None);
        if room <= (if backing then 1 else 0) then (s1, t1, false)
        else
          var raw := codec.write(t.latest);
          (s1.(workspace := Some(raw)), t1.(lastStored := Some(raw), unsaved := false), true)
  }

  /** Another tab's write is announced; unsaved work is kept, and unreadable news ignored. */
  function Synced<W>(codec: Codec<W>, t: Tab<W>, news: Option<string>): Tab<W> {
    if t.unsaved || news.None? then t
    else
      var next := codec.read(news.value);
      if next.None? then t else t.(lastStored := news, latest := next.value)
  }

  class SharedStorage {
    var workspace: Option<string>
    var backups: set<string>

    function State(): Storage
      reads this
    {
      Storage(workspace, backups)
    }
  }

  class StudioDraft<W> {
    const codec: Codec<W>
    const storage: SharedStorage
    var latest: W
    var unsaved: bool
    var unreadable: Option<string>
    var lastStored: Option<string>

    function State(): Tab<W>
      reads this
    {
      Tab(latest, unsaved, unreadable, lastStored)
    }

    constructor (codec: Codec<W>, storage: SharedStorage, legacy: Legacy<W>, blocked: bool)
      ensures this.codec == codec && this.storage == storage
      ensures State() == Loaded(codec, storage.State(), legacy, blocked)
    {
      this.codec, this.storage := codec, storage;
      latest, unsaved, unreadable, lastStored := codec.empty, false, None, None;
      new;
      if !blocked {
        var raw := storage.workspace;
        lastStored := raw;
        var restored := Restored(codec, raw, legacy);
        if restored.Some? {
          latest := restored.value;
        } else {
          unreadable := raw;
        }
        if restored.Some? && raw.None? && !legacy.Absent? { unsaved := true; }
      }
    }

    method Save(room: nat) returns (ok: bool)
      modifies this, storage
      ensures (storage.State(), State(), ok) == Saved(codec, old(storage.State()), old(State()), room)
    {
      if storage.workspace != lastStored { return false; }
      var left := room;
      if unreadable.Some? {
        if left == 0 { return false; }
        storage.backups := storage.backups + {unreadable.value};
        unreadable := None;
        left := left - 1;
      }
      var raw := codec.write(latest);
      if left == 0 { return false; }
      storage.workspace := Some(raw);
      lastStored := Some(raw);
      unsaved := false;
      return true;
    }

    method Sync(news: Option<string>)
      modifies this
      ensures State() == Synced(codec, old(State()), news)
    {
      if unsaved { return; }
      if news.Some? {
        var next := codec.read(news.value);
        if next.Some? {
          lastStored := news;
          latest := next.value;
        }
      }
    }

    method Commit(next: W)
      modifies this
      ensures State() == Committed(old(State()), next)
    {
      latest := next;
      unsaved := true;
    }
  }

  // ---------- many tabs ----------

  /** A replacement of the stored value, and who made it. */
  datatype Write = Write(tab: nat, before: Option<string>, after: string)

  /**
    `log` lists the writes; `seen` every (tab, value) that a tab found stored when it opened, was
    told of and took over, or wrote itself.
   */
  datatype World<W> = World(storage: Storage, tabs: map<nat, Tab<W>>, log: seq<Write>,
                            seen: set<(nat, string)>, wrote: set<(nat, string)>)

  datatype Event<W> =
    | Open(tab: nat, legacy: Legacy<W>, blocked: bool)
    | Edit(tab: nat, next: W)
    | Save(tab: nat, room: nat)
    | Announce(tab: nat, news: Option<string>)
    | Close(tab: nat)

  predicate Legal<W>(w: World<W>, e: Event<W>) {
    if e.Open? then e.tab !in w.tabs else e.tab in w.tabs
  }

  function Note(seen: set<(nat, string)>, tab: nat, value: Option<string>): set<(nat, string)> {
    if value.Some? then seen + {(tab, value.value)} else seen
  }

  function Step<W>(codec: Codec<W>, w: World<W>, e: Event<W>): World<W>
    requires Legal(w, e)
  {
    match e
    case Open(tab, legacy, blocked) =>
      var t := Loaded(codec, w.storage, legacy, blocked);
      w.(tabs := w.tabs[tab := t], seen := Note(w.seen, tab, t.lastStored))
    case Edit(tab, next) => w.(tabs := w.tabs[tab := Committed(w.tabs[tab], next)])
    case Save(tab, room) =>
      var (s, t, ok) := Saved(codec, w.storage, w.tabs[tab], room);
      if !ok then w.(storage := s, tabs := w.tabs[tab := t])
      else
        var raw := codec.write(w.tabs[tab].latest);
        w.(storage := s, tabs := w.tabs[tab := t], log := w.log + [Write(tab, w.storage.workspace, raw)],
           seen := w.seen + {(tab, raw)}, wrote := w.wrote + {(tab, raw)})
    case Announce(tab, news) =>
      var t := Synced(codec, w.tabs[tab], news);
      w.(tabs := w.tabs[tab := t], seen := Note(w.seen, tab, t.lastStored))
    case Close(tab) => w.(tabs := w.tabs - {tab})
  }

  predicate Runs<W>(codec: Codec<W>, w: World<W>, events: seq<Event<W>>)
    decreases events
  {
    events == [] || (Legal(w, events[0]) && Runs(codec, Step(codec, w, events[0]), events[1..]))
  }

  function Run<W>(codec: Codec<W>, w: World<W>, events: seq<Event<W>>): World<W>
    requires Runs(codec, w, events)
    decreases events
  {
    if events == [] then w else Run(codec, Step(codec, w, events[0]), events[1..])
  }

  function Start<W>(found: Option<string>): World<W> {
    World(Storage(found, {}), map[], [], {}, {})
  }

  // ---------- what every run keeps ----------

  /** The stored text stands for what is shown: it reads as it, or was written from it. */
  ghost predicate Shows<W>(codec: Codec<W>, raw: string, shown: W) {
    codec.read(raw) == Some(shown) || codec.write(shown) == raw
  }

  ghost predicate Kept<W>(codec: Codec<W>, w: World<W>, tab: nat, raw: string) {
    codec.read(raw).None? ==> raw in w.storage.backups || (tab, raw) in w.wrote
  }

  ghost predicate TabOk<W>(codec: Codec<W>, w: World<W>, tab: nat, t: Tab<W>) {
    t.lastStored.Some? ==>
      var raw := t.lastStored.value;
      && (tab, raw) in w.seen && (t.unreadable == Some(raw) || Kept(codec, w, tab, raw))
      && (!t.unsaved ==> Shows(codec, raw, t.latest) || codec.read(raw).None?)
  }

  /** Each write replaced a value its tab had seen, and one that cannot be read was kept. */
  ghost predicate WriteOk<W>(codec: Codec<W>, w: World<W>, x: Write) {
    x.before.Some? ==> (x.tab, x.before.value) in w.seen && Kept(codec, w, x.tab, x.before.value)
  }

  /** Every write replaced what the one before it had stored. */
  ghost predicate Chained(found: Option<string>, log: seq<Write>, last: Option<string>) {
    && last == Prior(found, log, |log|)
    && forall i :: 0 <= i < |log| ==> log[i].before == Prior(found, log, i)
  }

  /** What was stored when the i-th write came. */
  function Prior(found: Option<string>, log: seq<Write>, i: nat): Option<string>
    requires i <= |log|
  {
    if i == 0 then found else Some(log[i - 1].after)
  }

  ghost predicate Inv<W>(codec: Codec<W>, found: Option<string>, w: World<W>) {
    && (forall tab :: tab in w.tabs ==> TabOk(codec, w, tab, w.tabs[tab]))
    && (forall i :: 0 <= i < |w.log| ==> WriteOk(codec, w, w.log[i]))
    && Chained(found, w.log, w.storage.workspace)
  }

  ghost predicate Grows<W>(w: World<W>, w': World<W>) {
    w.seen <= w'.seen && w.wrote <= w'.wrote && w.storage.backups <= w'.storage.backups
  }

  lemma TabGrows<W>(codec: Codec<W>, w: World<W>, w': World<W>, tab: nat, t: Tab<W>)
    requires Grows(w, w') && TabOk(codec, w, tab, t)
    ensures TabOk(codec, w', tab, t)
  {}

  lemma WriteGrows<W>(codec: Codec<W>, w: World<W>, w': World<W>, x: Write)
    requires Grows(w, w') && WriteOk(codec, w, x)
    ensures WriteOk(codec, w', x)
  {}

  /** A step that changes one tab, keeps the others, and writes nothing. */
  lemma TabStepKeeps<W>(codec: Codec<W>, found: Option<string>, w: World<W>, w': World<W>, tab: nat, t: Tab<W>)
    requires Inv(codec, found, w) && Grows(w, w') && TabOk(codec, w', tab, t)
    requires w'.tabs == w.tabs[tab := t] && w'.log == w.log && w'.storage.workspace == w.storage.workspace
    ensures Inv(codec, found, w')
  {
    forall k | k in w'.tabs ensures TabOk(codec, w', k, w'.tabs[k]) {
      if k != tab { TabGrows(codec, w, w', k, w.tabs[k]); }
    }
    forall i | 0 <= i < |w'.log| ensures WriteOk(codec, w', w'.log[i]) { WriteGrows(codec, w, w', w.log[i]); }
  }

  lemma OpenKeeps<W>(codec: Codec<W>, found: Option<string>, w: World<W>, e: Event<W>)
    requires Inv(codec, found, w) && Legal(w, e) && e.Open?
    ensures Inv(codec, found, Step(codec, w, e))
  {
    TabStepKeeps(codec, found, w, Step(codec, w, e), e.tab, Loaded(codec, w.storage, e.legacy, e.blocked));
  }

  lemma EditKeeps<W>(codec: Codec<W>, found: Option<string>, w: World<W>, e: Event<W>)
    requires Inv(codec, found, w) && Legal(w, e) && e.Edit?
    ensures Inv(codec, found, Step(codec, w, e))
  {
    assert TabOk(codec, w, e.tab, w.tabs[e.tab]);
    TabStepKeeps(codec, found, w, Step(codec, w, e), e.tab, Committed(w.tabs[e.tab], e.next));
  }

  lemma AnnounceKeeps<W>(codec: Codec<W>, found: Option<string>, w: World<W>, e: Event<W>)
    requires Inv(codec, found, w) && Legal(w, e) && e.Announce?
    ensures Inv(codec, found, Step(codec, w, e))
  {
    assert TabOk(codec, w, e.tab, w.tabs[e.tab]);
    TabStepKeeps(codec, found, w, Step(codec, w, e), e.tab, Synced(codec, w.tabs[e.tab], e.news));
  }

  lemma FailedSaveKeeps<W>(codec: Codec<W>, found: Option<string>, w: World<W>, e: Event<W>)
    requires Inv(codec, found, w) && Legal(w, e) && e.Save? && !Saved(codec, w.storage, w.tabs[e.tab], e.room).2
    ensures Inv(codec, found, Step(codec, w, e))
  {
    assert TabOk(codec, w, e.tab, w.tabs[e.tab]);
    TabStepKeeps(codec, found, w, Step(codec, w, e), e.tab, Saved(codec, w.storage, w.tabs[e.tab], e.room).1);
  }

  lemma ChainMore(found: Option<string>, log: seq<Write>, last: Option<string>, x: Write)
    requires Chained(found, log, last) && x.before == last
    ensures Chained(found, log + [x], Some(x.after))
  {
    var more := log + [x];
    forall i | 0 <= i < |more| ensures more[i].before == Prior(found, more, i) {
      assert Prior(found, more, i) == Prior(found, log, i);
      if i < |log| { assert more[i] == log[i]; }
    }
  }

  lemma GoodSaveKeeps<W>(codec: Codec<W>, found: Option<string>, w: World<W>, e: Event<W>)
    requires Inv(codec, found, w) && Legal(w, e) && e.Save? && Saved(codec, w.storage, w.tabs[e.tab], e.room).2
    ensures Inv(codec, found, Step(codec, w, e))
  {
    var w' := Step(codec, w, e);
    assert TabOk(codec, w, e.tab, w.tabs[e.tab]);
    forall k | k in w'.tabs ensures TabOk(codec, w', k, w'.tabs[k]) {
      if k != e.tab { TabGrows(codec, w, w', k, w.tabs[k]); }
    }
    forall i | 0 <= i < |w'.log| ensures WriteOk(codec, w', w'.log[i]) {
      if i < |w.log| { WriteGrows(codec, w, w', w.log[i]); }
    }
    ChainMore(found, w.log, w.storage.workspace, w'.log[|w.log|]);
  }

  lemma CloseKeeps<W>(codec: Codec<W>, found: Option<string>, w: World<W>, e: Event<W>)
    requires Inv(codec, found, w) && Legal(w, e) && e.Close?
    ensures Inv(codec, found, Step(codec, w, e))
  {
    var w' := Step(codec, w, e);
    forall k | k in w'.tabs ensures TabOk(codec, w', k, w'.tabs[k]) { TabGrows(codec, w, w', k, w.tabs[k]); }
    forall i | 0 <= i < |w'.log| ensures WriteOk(codec, w', w'.log[i]) { WriteGrows(codec, w, w', w.log[i]); }
  }

  lemma StepKeeps<W>(codec: Codec<W>, found: Option<string>, w: World<W>, e: Event<W>)
    requires Inv(codec, found, w) && Legal(w, e)
    ensures Inv(codec, found, Step(codec, w, e))
  {
    match e
    case Open(_, _, _) => OpenKeeps(codec, found, w, e);
    case Edit(_, _) => EditKeeps(codec, found, w, e);
    case Save(tab, room) =>
      if Saved(codec, w.storage, w.tabs[tab], room).2 { GoodSaveKeeps(codec, found, w, e); } else { FailedSaveKeeps(codec, found, w, e); }
    case Announce(_, _) => AnnounceKeeps(codec, found, w, e);
    case Close(_) => CloseKeeps(codec, found, w, e);
  }

  lemma {:induction false} RunKeeps<W>(codec: Codec<W>, found: Option<string>, w: World<W>, events: seq<Event<W>>)
    requires Inv(codec, found, w) && Runs(codec, w, events)
    ensures Inv(codec, found, Run(codec, w, events))
    decreases events
  {
    if events != [] {
      StepKeeps(codec, found, w, events[0]);
      RunKeeps(codec, found, Step(codec, w, events[0]), events[1..]);
    }
  }

  /**
    In every run of tabs: the stored values form one chain; each was overwritten only by a tab that
    had read or written exactly that value; a value that cannot be read was backed up first, unless
    that tab had written it; and a tab with nothing unsaved shows what it last saw stored.
   */
  lemma NoLostUpdate<W>(codec: Codec<W>, found: Option<string>, events: seq<Event<W>>)
    requires Runs(codec, Start(found), events)
    ensures var w := Run(codec, Start(found), events);
            && Chained(found, w.log, w.storage.workspace)
            && (forall i :: 0 <= i < |w.log| && w.log[i].before.Some? ==>
                  && (w.log[i].tab, w.log[i].before.value) in w.seen
                  && (codec.read(w.log[i].before.value).None? ==>
                        w.log[i].before.value in w.storage.backups || (w.log[i].tab, w.log[i].before.value) in w.wrote))
            && (forall t :: t in w.tabs && !w.tabs[t].unsaved && w.tabs[t].lastStored.Some? ==>
                  Shows(codec, w.tabs[t].lastStored.value, w.tabs[t].latest) || codec.read(w.tabs[t].lastStored.value).None?)
  {
    RunKeeps(codec, found, Start(found), events);
    var w := Run(codec, Start(found), events);
    forall i | 0 <= i < |w.log| ensures WriteOk(codec, w, w.log[i]) {}
    forall t | t in w.tabs ensures TabOk(codec, w, t, w.tabs[t]) {}
  }

  // ---------- what gets through ----------

  /** How many writes a save makes: the workspace, and before it an unreadable value's backup. */
  function WritesOf<W>(t: Tab<W>): nat {
    if t.unreadable.Some? then 2 else 1
  }

  /**
    A save succeeds if and only if nobody else has written since this tab looked, and there is room
    for all its writes. It then stores what is shown, and an unreadable value as a backup; otherwise
    the stored workspace is as it was and the tab still shows its work, unsaved if it was.
   */
  lemma SaveSucceedsIff<W>(codec: Codec<W>, s: Storage, t: Tab<W>, room: nat)
    ensures var (s', t', ok) := Saved(codec, s, t, room);
            && (ok <==> s.workspace == t.lastStored && room >= WritesOf(t))
            && (ok ==> s'.workspace == Some(codec.write(t.latest)) && t'.lastStored == s'.workspace && !t'.unsaved)
            && (ok && t.unreadable.Some? ==> s'.backups == s.backups + {t.unreadable.value} && t'.unreadable.None?)
            && (!ok ==> s'.workspace == s.workspace && t'.unsaved == t.unsaved && t'.lastStored == t.lastStored)
            && t'.latest == t.latest
  {}

  /** A tab takes news over if and only if it has nothing unsaved and can read them. */
  lemma NewsTakenIff<W>(codec: Codec<W>, t: Tab<W>, raw: string)
    ensures var t' := Synced(codec, t, Some(raw));
            if !t.unsaved && codec.read(raw).Some? then t' == t.(lastStored := Some(raw), latest := codec.read(raw).value)
            else t' == t
    ensures Synced(codec, t, None) == t
  {}

  ghost predicate ReadsBack<W>(codec: Codec<W>, w: W) {
    codec.read(codec.write(w)) == Some(w)
  }

  /**
    An edit that is saved, where the written text reads back: whoever opens a tab afterwards sees
    the edited work, and so does every open tab without unsaved work once it is told; and the tab
    that saved can save again.
   */
  lemma SavedEditIsSeen<W>(codec: Codec<W>, s: Storage, t: Tab<W>, next: W, room: nat, legacy: Legacy<W>, other: Tab<W>)
    requires s.workspace == t.lastStored && room >= WritesOf(t) && ReadsBack(codec, next)
    ensures var (s', t', ok) := Saved(codec, s, Committed(t, next), room);
            && ok && Loaded(codec, s', legacy, false).latest == next && !Loaded(codec, s', legacy, false).unsaved
            && (!other.unsaved ==> Synced(codec, other, s'.workspace).latest == next)
            && Saved(codec, s', t', 1).2
  {
    SaveSucceedsIff(codec, s, Committed(t, next), room);
  }

  /**
    What an opened tab shows: storage that cannot be used shows an empty workspace and backs up
    nothing; a stored value is shown if it can be read, and kept aside if not; without one an older
    version's work is carried over, to be saved, and a lost one leaves an empty workspace.
   */
  lemma OpenedTabShows<W>(codec: Codec<W>, s: Storage, legacy: Legacy<W>)
    ensures Loaded(codec, s, legacy, true) == Tab(codec.empty, false, None, None)
    ensures var t := Loaded(codec, s, legacy, false);
            && t.lastStored == s.workspace
            && (s.workspace.Some? && codec.read(s.workspace.value).Some? ==>
                  Some(t.latest) == codec.read(s.workspace.value) && !t.unsaved && t.unreadable.None?)
            && (s.workspace.Some? && codec.read(s.workspace.value).None? ==>
                  t.latest == codec.empty && !t.unsaved && t.unreadable == s.workspace)
            && (s.workspace.None? && legacy.Carried? ==> t.latest == legacy.workspace && t.unsaved && t.unreadable.None?)
            && (s.workspace.None? && !legacy.Carried? ==> t.latest == codec.empty && !t.unsaved && t.unreadable.None?)
  {}
}
