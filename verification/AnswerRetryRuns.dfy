/**
  However often a submission is repeated: one user message, at most one answer that succeeded.

  The invariant ties the stored value, the requests on their way and the server's records together
  by their keys: a message key belongs to one submission, an answer key that was replaced belongs
  to an answer that ended unsuccessfully, and what a page remembers agrees with what the server
  recorded. Records only grow, so facts learned from an answer stay true however late it comes.
  Each step of the page, the server and the network keeps this, and then no submission can have two
  messages or two successful answers, and none is forgotten before its outcome is known.
 */
module AnswerRetryRuns {
  import opened Wrappers
  import opened AnswerRetry

  predicate Unsuccessful(s: Status) {
    s.Failed? || s.Cancelled? || s.Stale?
  }

  // ---------- the invariant ----------

  /** Every submission has its own message key, and answer keys of its own. */
  ghost predicate KeysOk(w: World) {
    && w.issued.Keys == w.answers.Keys
    && (forall s :: s in w.issued ==> w.issued[s] < w.nextKey && w.answers[s] != [])
    && forall s, t :: s in w.issued && t in w.issued && w.issued[s] == w.issued[t] ==> s == t
  }

  /** The key the submission is using now. */
  function LastKey(w: World, s: nat): Key
    requires s in w.answers && w.answers[s] != []
  {
    w.answers[s][|w.answers[s]| - 1]
  }

  ghost predicate MessageOf(w: World, s: nat, id: Id) {
    s in w.issued && w.issued[s] in w.server.messages && w.server.messages[w.issued[s]] == id
  }

  /** A key that was replaced belongs to an answer that ended unsuccessfully. */
  ghost predicate OldKeyOk(w: World, s: nat, i: nat)
    requires s in w.answers && i < |w.answers[s]|
  {
    i < |w.answers[s]| - 1 ==>
      w.answers[s][i] in w.server.generations && Unsuccessful(w.server.generations[w.answers[s][i]].status)
  }

  ghost predicate OldKeysOk(w: World) {
    forall s, i :: s in w.answers && 0 <= i < |w.answers[s]| ==> OldKeyOk(w, s, i)
  }

  ghost predicate GenerationOk(w: World, key: Key)
    requires key in w.server.generations
  {
    var g := w.server.generations[key];
    g.submission in w.answers && key in w.answers[g.submission] && MessageOf(w, g.submission, g.message)
  }

  ghost predicate GenerationsOk(w: World) {
    forall key :: key in w.server.generations ==> GenerationOk(w, key)
  }

  ghost predicate MessagesOk(w: World) {
    && (forall k :: k in w.server.messages ==> w.server.messages[k] < w.server.nextId)
    && (forall k, k' :: k in w.server.messages && k' in w.server.messages && w.server.messages[k] == w.server.messages[k'] ==> k == k')
    && (forall i :: 0 <= i < |w.server.posted| ==> MessageOf(w, w.server.posted[i].0, w.server.posted[i].1))
    && forall i, j :: 0 <= i < j < |w.server.posted| ==> w.server.posted[i].0 != w.server.posted[j].0
  }

  ghost predicate ValueOk(w: World, v: Pending) {
    && v.submission in w.issued && v.messageKey == w.issued[v.submission]
    && v.submission in w.answers && w.answers[v.submission] != [] && v.answerKey == LastKey(w, v.submission)
    && (v.message.Some? ==> MessageOf(w, v.submission, v.message.value))
  }

  ghost predicate AskOk(w: World, ask: Ask) {
    match ask
    case AskMessage(s, key) => s in w.issued && key == w.issued[s]
    case AskAnswer(s, key, message) => s in w.answers && key in w.answers[s] && MessageOf(w, s, message)
  }

  ghost predicate ReplyOk(w: World, ask: Ask, reply: Reply) {
    match reply
    case MessageIs(id) => ask.AskMessage? && MessageOf(w, ask.submission, id)
    case AnswerIs(status, _) =>
      ask.AskAnswer? && (!status.Waiting? ==> ask.key in w.server.generations && w.server.generations[ask.key].status == status)
    case Fails(_) => true
  }

  ghost predicate CallOk(w: World, c: Call) {
    AskOk(w, c.ask) && (c.reply.Some? ==> ReplyOk(w, c.ask, c.reply.value))
  }

  ghost predicate CallsOk(w: World) {
    forall c :: c in w.calls ==> CallOk(w, w.calls[c])
  }

  ghost predicate PhaseOk(w: World, v: Pending, phase: Phase) {
    match phase
    case AwaitMessage(call) => call in w.calls && w.calls[call].ask == AskMessage(v.submission, v.messageKey)
    case AwaitAnswer(_, call) =>
      v.message.Some? && call in w.calls && w.calls[call].ask == AskAnswer(v.submission, v.answerKey, v.message.value)
    case AwaitRefresh(_, status, _) =>
      !status.Waiting? && v.answerKey in w.server.generations && w.server.generations[v.answerKey].status == status
    case _ => true
  }

  ghost predicate PageOk(w: World) {
    && (w.page.stored.Some? ==> ValueOk(w, w.page.stored.value))
    && (w.page.runner.Some? ==>
          w.page.stored == Some(w.page.runner.value.value) && PhaseOk(w, w.page.runner.value.value, w.page.runner.value.phase))
  }

  ghost predicate Inv(w: World) {
    KeysOk(w) && OldKeysOk(w) && GenerationsOk(w) && MessagesOk(w) && CallsOk(w) && PageOk(w)
  }

  // ---------- what stays true as the world grows ----------

  ghost predicate Grows(w: World, w': World) {
    && (forall s :: s in w.issued ==> s in w'.issued && w'.issued[s] == w.issued[s])
    && (forall s :: s in w.answers ==> s in w'.answers && w.answers[s] <= w'.answers[s])
    && (forall k :: k in w.server.messages ==> k in w'.server.messages && w'.server.messages[k] == w.server.messages[k])
    && (forall k :: k in w.server.generations ==>
          k in w'.server.generations && w'.server.generations[k].submission == w.server.generations[k].submission
          && w'.server.generations[k].message == w.server.generations[k].message
          && (!w.server.generations[k].status.Waiting? ==> w'.server.generations[k].status == w.server.generations[k].status))
  }

  lemma MessageGrows(w: World, w': World, s: nat, id: Id)
    requires Grows(w, w') && MessageOf(w, s, id)
    ensures MessageOf(w', s, id)
  {}

  lemma KeyGrows(w: World, w': World, s: nat, key: Key)
    requires Grows(w, w') && s in w.answers && key in w.answers[s]
    ensures s in w'.answers && key in w'.answers[s]
  {
    var i :| 0 <= i < |w.answers[s]| && w.answers[s][i] == key;
    assert w'.answers[s][i] == key;
  }

  lemma CallGrows(w: World, w': World, c: Call)
    requires Grows(w, w') && CallOk(w, c)
    ensures CallOk(w', c)
  {
    if c.ask.AskAnswer? {
      KeyGrows(w, w', c.ask.submission, c.ask.key);
      MessageGrows(w, w', c.ask.submission, c.ask.message);
    }
  }

  lemma GenerationGrows(w: World, w': World, key: Key)
    requires Grows(w, w') && key in w.server.generations && GenerationOk(w, key)
    ensures GenerationOk(w', key)
  {
    KeyGrows(w, w', w.server.generations[key].submission, key);
    MessageGrows(w, w', w.server.generations[key].submission, w.server.generations[key].message);
  }

  lemma ValueGrows(w: World, w': World, v: Pending)
    requires Grows(w, w') && ValueOk(w, v) && v.submission in w'.answers && w'.answers[v.submission] == w.answers[v.submission]
    ensures ValueOk(w', v)
  {
    if v.message.Some? { MessageGrows(w, w', v.submission, v.message.value); }
  }

  lemma PhaseGrows(w: World, w': World, v: Pending, phase: Phase)
    requires Grows(w, w') && PhaseOk(w, v, phase) && forall c :: c in w.calls ==> c in w'.calls && w'.calls[c].ask == w.calls[c].ask
    ensures PhaseOk(w', v, phase)
  {}

  /** Steps that leave the page, the keys and the calls alone. */
  lemma ServerKeeps(w: World, w': World)
    requires Inv(w) && Grows(w, w') && w'.page == w.page && w'.issued == w.issued && w'.answers == w.answers && w'.nextKey == w.nextKey
    requires forall c :: c in w.calls ==> c in w'.calls && w'.calls[c].ask == w.calls[c].ask
    ensures KeysOk(w') && PageOk(w') && OldKeysOk(w')
  {
    if w.page.stored.Some? { ValueGrows(w, w', w.page.stored.value); }
    if w.page.runner.Some? { PhaseGrows(w, w', w.page.runner.value.value, w.page.runner.value.phase); }
    forall s, i | s in w'.answers && 0 <= i < |w'.answers[s]| ensures OldKeyOk(w', s, i) { assert OldKeyOk(w, s, i); }
  }

  lemma PageStepKeeps(w: World, w': World)
    requires Inv(w) && w' == w.(page := w'.page) && PageOk(w')
    ensures Inv(w')
  {
    forall c | c in w.calls ensures CallOk(w', w.calls[c]) { assert CallOk(w, w.calls[c]); CallGrows(w, w', w.calls[c]); }
    forall k | k in w.server.generations ensures GenerationOk(w', k) { assert GenerationOk(w, k); GenerationGrows(w, w', k); }
    forall i | 0 <= i < |w.server.posted| ensures MessageOf(w', w.server.posted[i].0, w.server.posted[i].1) {
      assert MessageOf(w, w.server.posted[i].0, w.server.posted[i].1);
    }
    forall s, i | s in w'.answers && 0 <= i < |w'.answers[s]| ensures OldKeyOk(w', s, i) { assert OldKeyOk(w, s, i); }
  }

  // ---------- the page's steps ----------

  lemma SimplePageOk(w: World, e: Event)
    requires Inv(w) && Legal(w, e) && (e.Resume? || e.GiveUp? || e.Leave?)
    ensures Step(w, e) == w.(page := Step(w, e).page) && PageOk(Step(w, e))
  {
    var w' := Step(w, e);
    if w'.page.stored.Some? { ValueGrows(w, w', w'.page.stored.value); }
  }

  lemma ReceivedPageOk(w: World, reply: Reply, w': World)
    requires Inv(w) && w.page.runner.Some? && Awaited(w.page.runner.value).Some?
    requires w' == w.(page := Received(w.page, reply))
    requires Awaited(w.page.runner.value).value in w.calls
    requires ReplyOk(w, w.calls[Awaited(w.page.runner.value).value].ask, reply)
    ensures PageOk(w')
  {
    ValueGrows(w, w', w.page.stored.value);
    if w.page.runner.value.phase.AwaitMessage? && reply.MessageIs? {
      MessageGrows(w, w', w.page.runner.value.value.submission, reply.id);
    }
  }

  lemma AwaitedCall(w: World)
    requires Inv(w) && w.page.runner.Some? && Awaited(w.page.runner.value).Some?
    ensures Awaited(w.page.runner.value).value in w.calls
  {}

  lemma DeliverKeeps(w: World, e: Event)
    requires Inv(w) && Legal(w, e) && e.Deliver?
    ensures Inv(Step(w, e))
  {
    assert CallOk(w, w.calls[e.call]);
    ReceivedPageOk(w, w.calls[e.call].reply.value, Step(w, e));
    PageStepKeeps(w, Step(w, e));
  }

  lemma BreakKeeps(w: World, e: Event)
    requires Inv(w) && Legal(w, e) && e.Break?
    ensures Inv(Step(w, e))
  {
    AwaitedCall(w);
    ReceivedPageOk(w, Fails(e.failure), Step(w, e));
    PageStepKeeps(w, Step(w, e));
  }

  lemma SimpleKeeps(w: World, e: Event)
    requires Inv(w) && Legal(w, e) && (e.Resume? || e.GiveUp? || e.Leave?)
    ensures Inv(Step(w, e))
  {
    SimplePageOk(w, e);
    PageStepKeeps(w, Step(w, e));
  }

  // ---------- sending and serving ----------

  lemma SendKeeps(w: World, e: Event)
    requires Inv(w) && Legal(w, e) && e.Send?
    ensures Inv(Step(w, e))
  {
    var w' := Step(w, e);
    var v := w.page.runner.value.value;
    ServerKeepsAll(w, w', w'.page);
    ValueGrows(w, w', v);
    forall c | c in w'.calls ensures CallOk(w', w'.calls[c]) {
      if c == e.call { AskNow(w', v, w'.calls[c].ask, w.page.runner.value); }
      else { assert CallOk(w, w.calls[c]); CallGrows(w, w', w.calls[c]); }
    }
  }

  lemma AskNow(w: World, v: Pending, ask: Ask, r: Runner)
    requires ValueOk(w, v) && r.value == v && NextAsk(r) == Some(ask)
    ensures AskOk(w, ask)
  {
    if ask.AskAnswer? { assert w.answers[v.submission][|w.answers[v.submission]| - 1] == v.answerKey; }
  }

  /** The keys, the old keys, the generations and the messages come along when only more is asked. */
  lemma ServerKeepsAll(w: World, w': World, page: Page)
    requires Inv(w) && w'.server == w.server && w'.issued == w.issued && w'.answers == w.answers && w'.nextKey == w.nextKey
    ensures KeysOk(w') && OldKeysOk(w') && GenerationsOk(w') && MessagesOk(w') && Grows(w, w')
  {
    forall k | k in w.server.generations ensures GenerationOk(w', k) { assert GenerationOk(w, k); GenerationGrows(w, w', k); }
    forall i | 0 <= i < |w.server.posted| ensures MessageOf(w', w.server.posted[i].0, w.server.posted[i].1) {
      assert MessageOf(w, w.server.posted[i].0, w.server.posted[i].1);
    }
    forall s, i | s in w'.answers && 0 <= i < |w'.answers[s]| ensures OldKeyOk(w', s, i) { assert OldKeyOk(w, s, i); }
  }

  lemma HandleGrows(w: World, e: Event)
    requires Legal(w, e) && e.Handle?
    ensures Grows(w, Step(w, e))
  {}

  lemma FinishGrows(w: World, e: Event)
    requires Legal(w, e) && e.Finish?
    ensures Grows(w, Step(w, e))
  {}

  lemma HandleMessages(w: World, e: Event)
    requires Inv(w) && Legal(w, e) && e.Handle?
    ensures MessagesOk(Step(w, e))
  {
    var w' := Step(w, e);
    HandleGrows(w, e);
    assert CallOk(w, w.calls[e.call]);
    forall i | 0 <= i < |w'.server.posted| ensures MessageOf(w', w'.server.posted[i].0, w'.server.posted[i].1) {
      if i < |w.server.posted| { MessageGrows(w, w', w.server.posted[i].0, w.server.posted[i].1); }
    }
    forall i, j | 0 <= i < j < |w'.server.posted| ensures w'.server.posted[i].0 != w'.server.posted[j].0 {
      assert MessageOf(w, w.server.posted[i].0, w.server.posted[i].1);
    }
  }

  lemma HandleGenerations(w: World, e: Event)
    requires Inv(w) && Legal(w, e) && e.Handle?
    ensures GenerationsOk(Step(w, e))
  {
    var w' := Step(w, e);
    HandleGrows(w, e);
    assert CallOk(w, w.calls[e.call]);
    forall k | k in w'.server.generations ensures GenerationOk(w', k) {
      if k in w.server.generations { GenerationGrows(w, w', k); }
      else { MessageGrows(w, w', w.calls[e.call].ask.submission, w.calls[e.call].ask.message); }
    }
  }

  lemma HandleCalls(w: World, e: Event)
    requires Inv(w) && Legal(w, e) && e.Handle?
    ensures CallsOk(Step(w, e))
  {
    var w' := Step(w, e);
    HandleGrows(w, e);
    forall c | c in w'.calls ensures CallOk(w', w'.calls[c]) {
      assert CallOk(w, w.calls[c]);
      CallGrows(w, w', w.calls[c]);
    }
  }

  lemma HandleKeeps(w: World, e: Event)
    requires Inv(w) && Legal(w, e) && e.Handle?
    ensures Inv(Step(w, e))
  {
    HandleGrows(w, e);
    ServerKeeps(w, Step(w, e));
    HandleMessages(w, e);
    HandleGenerations(w, e);
    HandleCalls(w, e);
  }

  lemma FinishKeeps(w: World, e: Event)
    requires Inv(w) && Legal(w, e) && e.Finish?
    ensures Inv(Step(w, e))
  {
    var w' := Step(w, e);
    FinishGrows(w, e);
    ServerKeeps(w, w');
    forall k | k in w'.server.generations ensures GenerationOk(w', k) { assert GenerationOk(w, k); GenerationGrows(w, w', k); }
    forall i | 0 <= i < |w.server.posted| ensures MessageOf(w', w.server.posted[i].0, w.server.posted[i].1) {
      assert MessageOf(w, w.server.posted[i].0, w.server.posted[i].1);
    }
    forall c | c in w'.calls ensures CallOk(w', w'.calls[c]) { assert CallOk(w, w.calls[c]); CallGrows(w, w', w.calls[c]); }
  }

  // ---------- new keys ----------

  lemma KeysGrow(w: World, w': World)
    requires Inv(w) && Grows(w, w') && w'.server == w.server && w'.calls == w.calls
    ensures GenerationsOk(w') && MessagesOk(w') && CallsOk(w')
  {
    forall k | k in w.server.generations ensures GenerationOk(w', k) { assert GenerationOk(w, k); GenerationGrows(w, w', k); }
    forall i | 0 <= i < |w.server.posted| ensures MessageOf(w', w.server.posted[i].0, w.server.posted[i].1) {
      assert MessageOf(w, w.server.posted[i].0, w.server.posted[i].1);
      MessageGrows(w, w', w.server.posted[i].0, w.server.posted[i].1);
    }
    forall c | c in w'.calls ensures CallOk(w', w'.calls[c]) { assert CallOk(w, w.calls[c]); CallGrows(w, w', w.calls[c]); }
  }

  lemma SubmitKeeps(w: World, e: Event)
    requires Inv(w) && Legal(w, e) && e.Submit?
    ensures Inv(Step(w, e))
  {
    var w' := Step(w, e);
    if w' != w {
      KeysGrow(w, w');
      forall s, i | s in w'.answers && 0 <= i < |w'.answers[s]| ensures OldKeyOk(w', s, i) {
        if s in w.answers { assert OldKeyOk(w, s, i); }
      }
    }
  }

  lemma RefreshSameKeys(w: World, e: Event)
    requires Inv(w) && Legal(w, e) && e.Refresh? && !NewAnswerKey(w.page.runner.value, e.trouble)
    ensures Inv(Step(w, e))
  {
    var w' := Step(w, e);
    ValueGrows(w, w', w.page.stored.value);
    PageStepKeeps(w, w');
  }

  lemma NewKeyGrows(w: World, e: Event)
    requires Inv(w) && Legal(w, e) && e.Refresh? && NewAnswerKey(w.page.runner.value, e.trouble)
    ensures Grows(w, Step(w, e)) && KeysOk(Step(w, e))
  {}

  lemma NewKeyOld(w: World, e: Event)
    requires Inv(w) && Legal(w, e) && e.Refresh? && NewAnswerKey(w.page.runner.value, e.trouble)
    ensures OldKeysOk(Step(w, e))
  {
    var w' := Step(w, e);
    forall s, i | s in w'.answers && 0 <= i < |w'.answers[s]| ensures OldKeyOk(w', s, i) {
      if i < |Keys(w, s)| { assert OldKeyOk(w, s, i); }
    }
  }

  lemma RefreshNewKey(w: World, e: Event)
    requires Inv(w) && Legal(w, e) && e.Refresh? && NewAnswerKey(w.page.runner.value, e.trouble)
    ensures Inv(Step(w, e))
  {
    var w' := Step(w, e);
    var v := w.page.runner.value.value;
    NewKeyGrows(w, e);
    NewKeyOld(w, e);
    KeysGrow(w, w');
    if v.message.Some? { MessageGrows(w, w', v.submission, v.message.value); }
  }

  // ---------- every run ----------

  lemma StepKeeps(w: World, e: Event)
    requires Inv(w) && Legal(w, e)
    ensures Inv(Step(w, e))
  {
    match e
    case Submit(_) => SubmitKeeps(w, e);
    case Send(_) => SendKeeps(w, e);
    case Handle(_, _, _) => HandleKeeps(w, e);
    case Deliver(_) => DeliverKeeps(w, e);
    case Break(_) => BreakKeeps(w, e);
    case Refresh(trouble) =>
      if NewAnswerKey(w.page.runner.value, trouble) { RefreshNewKey(w, e); } else { RefreshSameKeys(w, e); }
    case Finish(_, _) => FinishKeeps(w, e);
    case _ => SimpleKeeps(w, e);
  }

  lemma {:induction false} RunKeeps(w: World, events: seq<Event>)
    requires Inv(w) && Runs(w, events)
    ensures Inv(Run(w, events))
    decreases events
  {
    if events != [] {
      StepKeeps(w, events[0]);
      RunKeeps(Step(w, events[0]), events[1..]);
    }
  }

  lemma SuccessIsLast(w: World, key: Key)
    requires Inv(w) && key in w.server.generations && w.server.generations[key].status.Succeeded?
    ensures var s := w.server.generations[key].submission;
            s in w.answers && w.answers[s] != [] && key == LastKey(w, s)
  {
    assert GenerationOk(w, key);
    var s := w.server.generations[key].submission;
    var i :| 0 <= i < |w.answers[s]| && w.answers[s][i] == key;
    assert OldKeyOk(w, s, i);
  }

  /**
    After any run of retries, reloads, lost requests and late answers: a submission has at most
    one user message, and of the answers to it at most one succeeded.
   */
  lemma OneMessageOneAnswer(events: seq<Event>)
    requires Runs(START, events)
    ensures var s := Run(START, events).server;
            && (forall i, j :: 0 <= i < j < |s.posted| ==> s.posted[i].0 != s.posted[j].0)
            && (forall k, k' :: k in s.generations && k' in s.generations && s.generations[k].status.Succeeded?
                                && s.generations[k'].status.Succeeded? && s.generations[k].message == s.generations[k'].message
                                ==> k == k')
  {
    RunKeeps(START, events);
    var w := Run(START, events);
    forall k, k' | k in w.server.generations && k' in w.server.generations && w.server.generations[k].status.Succeeded?
                   && w.server.generations[k'].status.Succeeded? && w.server.generations[k].message == w.server.generations[k'].message
      ensures k == k'
    {
      SuccessIsLast(w, k);
      SuccessIsLast(w, k');
      assert GenerationOk(w, k) && GenerationOk(w, k');
    }
  }

  /** The step brought word that the request can never succeed. */
  ghost predicate RefusedForGood(w: World, e: Event)
    requires Legal(w, e)
  {
    || (e.Deliver? && w.calls[e.call].reply == Some(Fails(Definite)))
    || (e.Break? && e.failure.Definite?)
    || (e.Refresh? && e.trouble == Some(Definite))
  }

  /** What one step may do to a stored submission. */
  ghost predicate KeptOrKnown(w: World, e: Event)
    requires Legal(w, e) && w.page.stored.Some?
  {
    var v, after := w.page.stored.value, Step(w, e).page.stored;
    && (after.None? ==>
          RefusedForGood(w, e) || (v.answerKey in w.server.generations && !w.server.generations[v.answerKey].status.Waiting?))
    && (after.Some? && after.value.answerKey != v.answerKey ==>
          v.answerKey in w.server.generations && Unsuccessful(w.server.generations[v.answerKey].status))
    && (after.Some? ==> after.value.submission == v.submission && after.value.messageKey == v.messageKey)
  }

  lemma ReceivedKept(w: World, e: Event)
    requires PageOk(w) && Legal(w, e) && w.page.stored.Some? && (e.Deliver? || e.Break?)
    ensures KeptOrKnown(w, e)
  {}

  lemma RefreshKept(w: World, e: Event)
    requires PageOk(w) && Legal(w, e) && w.page.stored.Some? && e.Refresh?
    ensures KeptOrKnown(w, e)
  {}

  lemma OtherKept(w: World, e: Event)
    requires PageOk(w) && Legal(w, e) && w.page.stored.Some? && !e.Deliver? && !e.Break? && !e.Refresh?
    ensures KeptOrKnown(w, e) && Step(w, e).page.stored == w.page.stored
  {}

  /**
    After any run: a submission is only forgotten when its latest answer has ended, or when a
    request was refused for good; and it only gets a new answer key when its latest answer ended
    unsuccessfully.
   */
  lemma KeptUntilKnown(events: seq<Event>, e: Event)
    requires Runs(START, events) && Legal(Run(START, events), e) && Run(START, events).page.stored.Some?
    ensures KeptOrKnown(Run(START, events), e)
  {
    RunKeeps(START, events);
    var w := Run(START, events);
    if e.Deliver? || e.Break? { ReceivedKept(w, e); }
    else if e.Refresh? { RefreshKept(w, e); }
    else { OtherKept(w, e); }
  }
}
