/**
  Sending a chat message and waiting for its answer: the page stores the request keys before it
  sends anything, and repeats requests until an outcome is known. `submission` numbers the user's
  submissions; it exists only to state what belongs together.
 */
module AnswerRetry {
  import opened Wrappers

  type Key = nat
  type Id = nat

  datatype Status = Waiting | Succeeded | Failed | Cancelled | Stale

  datatype Pending = Pending(submission: nat, messageKey: Key, answerKey: Key, message: Option<Id>)

  /** How a request can fail, as far as the page tells failures apart. */
  datatype Failure = Recovering | Definite | Uncertain

  datatype Reply = MessageIs(id: Id) | AnswerIs(status: Status, retryable: bool) | Fails(failure: Failure)

  datatype Ask = AskMessage(submission: nat, key: Key) | AskAnswer(submission: nat, key: Key, message: Id)

  const ATTEMPTS := 20

  datatype Phase =
    | Begin
    | AwaitMessage(call: nat)
    | Poll(attempt: nat)
    | AwaitAnswer(attempt: nat, call: nat)
    | AwaitRefresh(attempt: nat, status: Status, retryable: bool)

  datatype Runner = Runner(value: Pending, phase: Phase)

  // ---------- the page ----------

  /** What the tab stores, and the loop that is running on it. */
  datatype Page = Page(stored: Option<Pending>, runner: Option<Runner>)

  function Submitted(p: Page, submission: nat, messageKey: Key, answerKey: Key): Page {
    if p.stored.Some? || p.runner.Some? then p
    else
      var value := Pending(submission, messageKey, answerKey, None);
      Page(Some(value), Some(Runner(value, Begin)))
  }

  function Resumed(p: Page): Page {
    if p.runner.Some? || p.stored.None? then p else p.(runner := Some(Runner(p.stored.value, Begin)))
  }

  /** The next request of the loop, if it has one to send. */
  function NextAsk(r: Runner): Option<Ask> {
    match r.phase
    case Begin =>
      if r.value.message.None? then Some(AskMessage(r.value.submission, r.value.messageKey))
      else Some(AskAnswer(r.value.submission, r.value.answerKey, r.value.message.value))
    case Poll(attempt) =>
      if attempt < ATTEMPTS && r.value.message.Some?
      then Some(AskAnswer(r.value.submission, r.value.answerKey, r.value.message.value)) else None
    case _ => None
  }

  function Sending(r: Runner, call: nat): Runner
    requires NextAsk(r).Some?
  {
    r.(phase := if NextAsk(r).value.AskMessage? then AwaitMessage(call)
                else AwaitAnswer(if r.phase.Poll? then r.phase.attempt else 0, call))
  }

  function Awaited(r: Runner): Option<nat> {
    match r.phase
    case AwaitMessage(call) => Some(call)
    case AwaitAnswer(_, call) => Some(call)
    case _ => None
  }

  /** A failed poll is repeated, forgotten, or left for the user to repeat. */
  function AfterFailure(p: Page, attempt: nat, failure: Failure): Page
    requires p.runner.Some?
  {
    match failure
    case Recovering => p.(runner := Some(p.runner.value.(phase := Poll(attempt + 1))))
    case Definite => Page(None, None)
    case Uncertain => p.(runner := None)
  }

  function Received(p: Page, reply: Reply): Page
    requires p.runner.Some? && Awaited(p.runner.value).Some?
  {
    var r := p.runner.value;
    match r.phase
    case AwaitMessage(_) =>
      if !reply.MessageIs? then p.(runner := None)
      else
        var value := r.value.(message := Some(reply.id));
        Page(Some(value), Some(Runner(value, Poll(0))))
    case AwaitAnswer(attempt, _) =>
      (match reply
       case MessageIs(_) => p.(runner := None)
       case AnswerIs(status, retryable) =>
         p.(runner := Some(r.(phase := if status.Waiting? then Poll(attempt + 1) else AwaitRefresh(attempt, status, retryable))))
       case Fails(failure) => AfterFailure(p, attempt, failure))
  }

  /** The history was read again after the outcome; a new answer key is made only here. */
  predicate NewAnswerKey(r: Runner, failure: Option<Failure>)
    requires r.phase.AwaitRefresh?
  {
    failure.None? && !r.phase.status.Succeeded? && r.phase.retryable
  }

  function Refreshed(p: Page, failure: Option<Failure>, spare: Key): Page
    requires p.runner.Some? && p.runner.value.phase.AwaitRefresh?
  {
    var r := p.runner.value;
    if failure.Some? then AfterFailure(p, r.phase.attempt, failure.value)
    else if NewAnswerKey(r, failure) then Page(Some(r.value.(answerKey := spare)), None)
    else Page(None, None)
  }

  /** The page's stored value and loop, changed handler by handler. */
  class ChatPage {
    var stored: Option<Pending>
    var runner: Option<Runner>

    function State(): Page
      reads this
    {
      Page(stored, runner)
    }

    method SavePending(value: Option<Pending>)
      modifies this`stored
      ensures stored == value
    {
      stored := value;
    }

    method Submit(submission: nat, messageKey: Key, answerKey: Key)
      modifies this
      ensures State() == Submitted(old(State()), submission, messageKey, answerKey)
    {
      if stored.Some? || runner.Some? { return; }
      var value := Pending(submission, messageKey, answerKey, None);
      SavePending(Some(value));
      runner := Some(Runner(value, Begin));
    }

    method ContinuePending()
      modifies this
      ensures State() == Resumed(old(State()))
    {
      if runner.Some? || stored.None? { return; }
      runner := Some(Runner(stored.value, Begin));
    }

    method Send(call: nat) returns (ask: Option<Ask>)
      requires runner.Some?
      modifies this
      ensures ask == NextAsk(old(runner.value)) && stored == old(stored)
      ensures runner == Some(if ask.Some? then Sending(old(runner.value), call) else old(runner.value))
    {
      var r := runner.value;
      match r.phase {
        case Begin =>
          if r.value.message.None? {
            runner := Some(r.(phase := AwaitMessage(call)));
            return Some(AskMessage(r.value.submission, r.value.messageKey));
          }
          runner := Some(r.(phase := AwaitAnswer(0, call)));
          return Some(AskAnswer(r.value.submission, r.value.answerKey, r.value.message.value));
        case Poll(attempt) =>
          if attempt >= ATTEMPTS || r.value.message.None? { return None; }
          runner := Some(r.(phase := AwaitAnswer(attempt, call)));
          return Some(AskAnswer(r.value.submission, r.value.answerKey, r.value.message.value));
        case _ => return None;
      }
    }

    method Fail(attempt: nat, failure: Failure)
      requires runner.Some?
      modifies this
      ensures State() == AfterFailure(old(State()), attempt, failure)
    {
      match failure {
        case Recovering => runner := Some(runner.value.(phase := Poll(attempt + 1)));
        case Definite => { SavePending(None); runner := None; }
        case Uncertain => runner := None;
      }
    }

    method Receive(reply: Reply)
      requires runner.Some? && Awaited(runner.value).Some?
      modifies this
      ensures State() == Received(old(State()), reply)
    {
      var r := runner.value;
      if r.phase.AwaitMessage? {
        if !reply.MessageIs? { runner := None; return; }
        var value := r.value.(message := Some(reply.id));
        SavePending(Some(value));
        runner := Some(Runner(value, Poll(0)));
      } else {
        match reply {
          case MessageIs(_) => runner := None;
          case AnswerIs(status, retryable) =>
            if status.Waiting? { runner := Some(r.(phase := Poll(r.phase.attempt + 1))); }
            else { runner := Some(r.(phase := AwaitRefresh(r.phase.attempt, status, retryable))); }
          case Fails(failure) => Fail(r.phase.attempt, failure);
        }
      }
    }

    method Refresh(failure: Option<Failure>, spare: Key)
      requires runner.Some? && runner.value.phase.AwaitRefresh?
      modifies this
      ensures State() == Refreshed(old(State()), failure, spare)
    {
      var r := runner.value;
      if failure.Some? {
        Fail(r.phase.attempt, failure.value);
        return;
      }
      if !r.phase.status.Succeeded? && r.phase.retryable {
        SavePending(Some(r.value.(answerKey := spare)));
      } else {
        SavePending(None);
      }
      runner := None;
    }
  }

  // ---------- the server, and what is between it and the page ----------

  datatype Generation = Generation(submission: nat, message: Id, status: Status)

  /** A message key and an answer key each make at most one record. `posted` lists message rows. */
  datatype Server = Server(messages: map<Key, Id>, posted: seq<(nat, Id)>, generations: map<Key, Generation>, nextId: Id)

  datatype Call = Call(ask: Ask, reply: Option<Reply>)

  /**
    `issued` and `answers` remember the message key and the answer keys of every submission;
    `nextKey` is above every key that was made.
   */
  datatype World = World(server: Server, page: Page, calls: map<nat, Call>, issued: map<nat, Key>,
                         answers: map<nat, seq<Key>>, nextKey: Key)

  const START := World(Server(map[], [], map[], 0), Page(None, None), map[], map[], map[], 0)

  datatype Event =
    | Submit(submission: nat)
    | Resume
    | Send(call: nat)
    | Handle(call: nat, refused: Option<Failure>, retryable: bool)
    | Deliver(call: nat)
    | Break(failure: Failure)
    | Refresh(trouble: Option<Failure>)
    | GiveUp
    | Leave
    | Finish(key: Key, status: Status)

  function Keys(w: World, submission: nat): seq<Key> {
    if submission in w.answers then w.answers[submission] else []
  }

  predicate Legal(w: World, e: Event) {
    match e
    case Submit(submission) => submission !in w.issued
    case Send(call) => w.page.runner.Some? && NextAsk(w.page.runner.value).Some? && call !in w.calls
    case Handle(call, _, _) => call in w.calls && w.calls[call].reply.None?
    case Deliver(call) =>
      call in w.calls && w.calls[call].reply.Some? && w.page.runner.Some? && Awaited(w.page.runner.value) == Some(call)
    case Break(failure) => w.page.runner.Some? && Awaited(w.page.runner.value).Some?
    case Refresh(_) => w.page.runner.Some? && w.page.runner.value.phase.AwaitRefresh?
    case GiveUp => w.page.runner.Some? && w.page.runner.value.phase.Poll?
    case Finish(key, status) => key in w.server.generations && w.server.generations[key].status.Waiting?
    case _ => true
  }

  /** The server's part of one request: it makes the record, finds it, or refuses. */
  function Handled(s: Server, ask: Ask, refused: Option<Failure>, retryable: bool): (Server, Reply) {
    match ask
    case AskMessage(submission, key) =>
      if refused.Some? then (s, Fails(refused.value))
      else if key in s.messages then (s, MessageIs(s.messages[key]))
      else (s.(messages := s.messages[key := s.nextId], posted := s.posted + [(submission, s.nextId)], nextId := s.nextId + 1),
            MessageIs(s.nextId))
    case AskAnswer(submission, key, message) =>
      if refused.Some? then (s, Fails(refused.value))
      else if key in s.generations then (s, AnswerIs(s.generations[key].status, retryable))
      else (s.(generations := s.generations[key := Generation(submission, message, Waiting)]), AnswerIs(Waiting, false))
  }

  function Step(w: World, e: Event): World
    requires Legal(w, e)
  {
    match e
    case Submit(submission) =>
      var page := Submitted(w.page, submission, w.nextKey, w.nextKey + 1);
      if page == w.page then w
      else w.(page := page, issued := w.issued[submission := w.nextKey],
              answers := w.answers[submission := [w.nextKey + 1]], nextKey := w.nextKey + 2)
    case Resume => w.(page := Resumed(w.page))
    case Send(call) =>
      var r := w.page.runner.value;
      w.(page := w.page.(runner := Some(Sending(r, call))), calls := w.calls[call := Call(NextAsk(r).value, None)])
    case Handle(call, refused, retryable) =>
      var (server, reply) := Handled(w.server, w.calls[call].ask, refused, retryable);
      w.(server := server, calls := w.calls[call := w.calls[call].(reply := Some(reply))])
    case Deliver(call) => w.(page := Received(w.page, w.calls[call].reply.value))
    case Break(failure) => w.(page := Received(w.page, Fails(failure)))
    case Refresh(trouble) =>
      var r := w.page.runner.value;
      var page := Refreshed(w.page, trouble, w.nextKey);
      if !NewAnswerKey(r, trouble) then w.(page := page)
      else w.(page := page, answers := w.answers[r.value.submission := Keys(w, r.value.submission) + [w.nextKey]], nextKey := w.nextKey + 1)
    case GiveUp => w.(page := w.page.(runner := None))
    case Leave => w.(page := w.page.(runner := None))
    case Finish(key, status) =>
      w.(server := w.server.(generations := w.server.generations[key := w.server.generations[key].(status := status)]))
  }

  predicate Runs(w: World, events: seq<Event>)
    decreases events
  {
    events == [] || (Legal(w, events[0]) && Runs(Step(w, events[0]), events[1..]))
  }

  function Run(w: World, events: seq<Event>): World
    requires Runs(w, events)
    decreases events
  {
    if events == [] then w else Run(Step(w, events[0]), events[1..])
  }
}
