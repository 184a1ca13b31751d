/**
  The answer loop, round by round: how often it asks, what each answer leaves stored, and that a
  submission nobody interrupts gets its answer.
 */
module AnswerRounds {
  import opened Wrappers
  import opened AnswerRetry
  import opened AnswerRetryRuns

  // ---------- how often the loop asks ----------

  /** The loop is about to ask for the answer for the (k+1)-th time; the message is known. */
  predicate Polls(p: Page, k: nat, v: Pending) {
    p.runner == Some(Runner(v, Poll(k))) && v.message.Some? && p.stored == Some(v)
  }

  /** An answer that decides nothing: still waiting, or the storage is recovering. */
  predicate Undecided(reply: Reply) {
    (reply.AnswerIs? && reply.status.Waiting?) || reply == Fails(Recovering)
  }

  /** Ask, and take the reply. */
  function Round(p: Page, reply: Reply): Page
    requires p.runner.Some? && NextAsk(p.runner.value).Some?
  {
    Received(p.(runner := Some(Sending(p.runner.value, 0))), reply)
  }

  function Rounds(p: Page, replies: seq<Reply>): Page
    decreases replies
  {
    if replies == [] || p.runner.None? || NextAsk(p.runner.value).None? then p
    else Rounds(Round(p, replies[0]), replies[1..])
  }

  lemma RoundPolls(p: Page, k: nat, v: Pending, reply: Reply)
    requires Polls(p, k, v) && k < 20 && Undecided(reply)
    ensures NextAsk(p.runner.value) == Some(AskAnswer(v.submission, v.answerKey, v.message.value))
    ensures Polls(Round(p, reply), k + 1, v)
  {}

  /**
    While nothing is decided the loop asks again with the same keys, twenty times in all: after n
    such answers there is a next request if and only if n is below twenty, and the stored value is
    as it was.
   */
  lemma {:induction false} TwentyRounds(p: Page, k: nat, v: Pending, replies: seq<Reply>)
    requires Polls(p, k, v) && k + |replies| <= 20 && forall i :: 0 <= i < |replies| ==> Undecided(replies[i])
    ensures Polls(Rounds(p, replies), k + |replies|, v)
    ensures NextAsk(Rounds(p, replies).runner.value).Some? <==> k + |replies| < 20
    ensures NextAsk(Rounds(p, replies).runner.value).Some? ==>
              NextAsk(Rounds(p, replies).runner.value).value == AskAnswer(v.submission, v.answerKey, v.message.value)
    decreases replies
  {
    if replies != [] {
      RoundPolls(p, k, v, replies[0]);
      assert forall i :: 0 <= i < |replies| - 1 ==> replies[1..][i] == replies[i + 1];
      TwentyRounds(Round(p, replies[0]), k + 1, v, replies[1..]);
    }
  }

  // ---------- what an outcome leaves ----------

  /**
    An ended answer, and the history read after it: nothing stays stored if it succeeded or cannot
    be retried; otherwise the value stays with a new answer key and the same message, so that the
    next loop asks for an answer to the very same message.
   */
  lemma OutcomeLeaves(p: Page, k: nat, v: Pending, status: Status, retryable: bool, spare: Key)
    requires Polls(p, k, v) && k < 20 && !status.Waiting?
    ensures var asked := Round(p, AnswerIs(status, retryable));
            && asked.runner.Some? && asked.runner.value.phase.AwaitRefresh? && asked.stored == Some(v)
            && var after := Refreshed(asked, None, spare);
               && after.runner.None? && (after.stored.None? <==> status.Succeeded? || !retryable)
               && (after.stored.Some? ==>
                     && after.stored.value == Pending(v.submission, v.messageKey, spare, v.message)
                     && Resumed(after).runner.Some?
                     && NextAsk(Resumed(after).runner.value) == Some(AskAnswer(v.submission, spare, v.message.value)))
  {}

  /** A failure forgets the value exactly if it is a final refusal, and goes on exactly while storage recovers. */
  lemma FailureLeaves(p: Page, k: nat, v: Pending, failure: Failure)
    requires Polls(p, k, v) && k < 20
    ensures var after := Round(p, Fails(failure));
            && (after.stored.None? <==> failure.Definite?) && (after.stored.Some? ==> after.stored == Some(v))
            && (after.runner.Some? <==> failure.Recovering?)
  {}

  /** The same when the history cannot be read after the answer ended: the loop asks again, with the same key. */
  lemma TroubleLeaves(p: Page, k: nat, v: Pending, status: Status, retryable: bool, trouble: Failure, spare: Key)
    requires Polls(p, k, v) && k < 20 && !status.Waiting?
    ensures var asked := Round(p, AnswerIs(status, retryable));
            && asked.runner.Some? && asked.runner.value.phase.AwaitRefresh?
            && var after := Refreshed(asked, Some(trouble), spare);
               && (after.stored.None? <==> trouble.Definite?) && (after.stored.Some? ==> after.stored == Some(v))
               && (after.runner.Some? <==> trouble.Recovering?)
               && (trouble.Recovering? ==> Polls(after, k + 1, v))
  {}

  /** A message that could not be stored, however it failed, stays pending with its keys. */
  lemma UnsentMessageStays(p: Page, v: Pending, failure: Failure)
    requires p == Page(Some(v), Some(Runner(v, Begin))) && v.message.None?
    ensures NextAsk(p.runner.value) == Some(AskMessage(v.submission, v.messageKey))
    ensures Round(p, Fails(failure)) == Page(Some(v), None)
    ensures Resumed(Round(p, Fails(failure))) == p
  {}

  // ---------- a submission nobody interrupts ----------

  /** The message is posted, an answer to it succeeded, and the page has nothing pending. */
  ghost predicate Answered(w: World, submission: nat) {
    && w.page == Page(None, None)
    && exists key :: SucceededFor(w, submission, key)
  }

  ghost predicate SucceededFor(w: World, submission: nat, key: Key) {
    && key in w.server.generations && w.server.generations[key].submission == submission
    && w.server.generations[key].status.Succeeded?
    && (submission, w.server.generations[key].message) in w.server.posted
  }

  ghost predicate CanEnd(w: World, submission: nat) {
    exists events :: Runs(w, events) && Answered(Run(w, events), submission)
  }

  lemma EndsAfter(w: World, e: Event, submission: nat)
    requires Legal(w, e) && CanEnd(Step(w, e), submission)
    ensures CanEnd(w, submission)
  {
    var events :| Runs(Step(w, e), events) && Answered(Run(Step(w, e), events), submission);
    var all := [e] + events;
    assert all[1..] == events;
    assert Runs(w, all) && Run(w, all) == Run(Step(w, e), events);
  }

  lemma {:induction false} NewCall(used: set<nat>) returns (call: nat)
    ensures forall c :: c in used ==> c < call
  {
    if used == {} {
      call := 0;
    } else {
      var c :| c in used;
      var rest := NewCall(used - {c});
      call := if c < rest then rest else c + 1;
      forall x | x in used ensures x < call { if x != c { assert x in used - {c}; } }
    }
  }

  /** Send the next request, have it handled, and take the reply. */
  function Exchanged(w: World, call: nat, retryable: bool): World
    requires Legal(w, Send(call))
  {
    var w1 := Step(w, Send(call));
    var w2 := Step(w1, Handle(call, None, retryable));
    if Legal(w2, Deliver(call)) then Step(w2, Deliver(call)) else w2
  }

  lemma EndsExchanged(w: World, call: nat, retryable: bool, submission: nat)
    requires Legal(w, Send(call)) && CanEnd(Exchanged(w, call, retryable), submission)
    ensures CanEnd(w, submission)
  {
    var w1 := Step(w, Send(call));
    var w2 := Step(w1, Handle(call, None, retryable));
    if Legal(w2, Deliver(call)) { EndsAfter(w2, Deliver(call), submission); }
    EndsAfter(w1, Handle(call, None, retryable), submission);
    EndsAfter(w, Send(call), submission);
  }

  lemma SucceededEnds(w: World, k: nat, v: Pending)
    requires Polls(w.page, k, v) && k < 20 && SucceededFor(w, v.submission, v.answerKey)
    ensures CanEnd(w, v.submission)
  {
    var call := NewCall(w.calls.Keys);
    assert call !in w.calls;
    var w' := Exchanged(w, call, false);
    var last := Step(w', Refresh(None));
    assert SucceededFor(last, v.submission, v.answerKey);
    assert Runs(last, []) && Run(last, []) == last;
    EndsAfter(w', Refresh(None), v.submission);
    EndsExchanged(w, call, false, v.submission);
  }

  lemma PostedEnds(w: World, v: Pending)
    requires Polls(w.page, 0, v) && v.answerKey !in w.server.generations && (v.submission, v.message.value) in w.server.posted
    ensures CanEnd(w, v.submission)
  {
    var call := NewCall(w.calls.Keys);
    assert call !in w.calls;
    var w' := Exchanged(w, call, false);
    var w2 := Step(w', Finish(v.answerKey, Succeeded));
    SucceededEnds(w2, 1, v);
    EndsAfter(w', Finish(v.answerKey, Succeeded), v.submission);
    EndsExchanged(w, call, false, v.submission);
  }

  lemma BegunEnds(w: World, v: Pending)
    requires w.page == Page(Some(v), Some(Runner(v, Begin))) && v.message.None?
    requires v.messageKey !in w.server.messages && v.answerKey !in w.server.generations
    ensures CanEnd(w, v.submission)
  {
    var call := NewCall(w.calls.Keys);
    assert call !in w.calls;
    var w' := Exchanged(w, call, false);
    PostedEnds(w', v.(message := Some(w.server.nextId)));
    EndsExchanged(w, call, false, v.submission);
  }

  // ---------- keys are made once ----------

  predicate KeyBelow(ask: Ask, n: Key) {
    ask.key < n
  }

  predicate ValueBelow(v: Pending, n: Key) {
    v.messageKey < n && v.answerKey < n
  }

  /** Every key anywhere was made before. */
  ghost predicate KeysBelow(w: World) {
    && (forall k :: k in w.server.messages ==> k < w.nextKey) && (forall k :: k in w.server.generations ==> k < w.nextKey)
    && (forall c :: c in w.calls ==> KeyBelow(w.calls[c].ask, w.nextKey))
    && (w.page.stored.Some? ==> ValueBelow(w.page.stored.value, w.nextKey))
    && (w.page.runner.Some? ==> ValueBelow(w.page.runner.value.value, w.nextKey))
  }

  lemma PageKeysBelow(w: World, e: Event)
    requires KeysBelow(w) && Legal(w, e) && (e.Deliver? || e.Break? || e.Refresh?)
    ensures KeysBelow(Step(w, e))
  {}

  lemma StepKeepsKeys(w: World, e: Event)
    requires KeysBelow(w) && Legal(w, e)
    ensures KeysBelow(Step(w, e))
  {
    if e.Deliver? || e.Break? || e.Refresh? { PageKeysBelow(w, e); }
  }

  lemma {:induction false} RunKeepsKeys(w: World, events: seq<Event>)
    requires KeysBelow(w) && Runs(w, events)
    ensures KeysBelow(Run(w, events))
    decreases events
  {
    if events != [] {
      StepKeepsKeys(w, events[0]);
      RunKeepsKeys(Step(w, events[0]), events[1..]);
    }
  }

  /**
    After any run that left nothing pending, a new submission whose requests are answered and whose
    answer succeeds ends with its message posted, that answer to it, and nothing pending again.
   */
  lemma SubmissionIsAnswered(events: seq<Event>, w: World, submission: nat)
    requires Runs(START, events) && w == Run(START, events)
    requires w.page == Page(None, None) && submission !in w.issued
    ensures CanEnd(w, submission)
  {
    RunKeepsKeys(START, events);
    BegunEnds(Step(w, Submit(submission)), Pending(submission, w.nextKey, w.nextKey + 1, None));
    EndsAfter(w, Submit(submission), submission);
  }
}
