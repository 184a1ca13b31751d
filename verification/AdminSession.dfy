/**
  Refreshing an admin session from many tabs of one browser. All steps that can present a refresh
  token run under one lock; a flag in shared storage remembers a refresh whose outcome is unknown.
 */
module AdminSession {
  import opened Wrappers

  type Token = nat

  datatype Answer = Success | Failure(status: nat, code: string) | NoAnswer

  /** The server surely took or refused the request: it answered, and not with a server error. */
  predicate Definite(a: Answer) {
    a.Success? || (a.Failure? && a.status < 500)
  }

  // ---------- the flag ----------

  datatype Admission = AlreadyValid | Denied | MayRefresh

  /** Under the lock, after asking who is logged in: is a refresh due, and may it be sent? */
  function Admitted(uncertain: bool, me: Answer): (bool, Admission) {
    if me.Success? then (uncertain, AlreadyValid)
    else if me != Failure(401, "invalid_token") then (uncertain, Denied)
    else if uncertain then (true, Denied)
    else (true, MayRefresh)
  }

  datatype Kind = Refresh | Login | Logout

  /** What is left of the flag when a locked request ends. Logging out clears it only later. */
  function Settled(uncertain: bool, kind: Kind, a: Answer): bool {
    match kind
    case Refresh => uncertain && !Definite(a)
    case Login => uncertain && !a.Success?
    case Logout => uncertain
  }

  /** The flag in the storage that all tabs share. */
  class UncertainFlag {
    var uncertain: bool

    method Admit(me: Answer) returns (r: Admission)
      modifies this
      ensures (uncertain, r) == Admitted(old(uncertain), me)
    {
      if me.Success? { return AlreadyValid; }
      if me != Failure(401, "invalid_token") { return Denied; }
      if uncertain { return Denied; }
      uncertain := true;
      return MayRefresh;
    }

    method Settle(kind: Kind, a: Answer)
      modifies this
      ensures uncertain == Settled(old(uncertain), kind, a)
    {
      if kind.Logout? { return; }
      if a.Success? { uncertain := false; }
      else if kind.Refresh? && a.Failure? && a.status < 500 { uncertain := false; }
    }

    /** A logout that succeeded does this when it has let go of the lock. */
    method Forget()
      modifies this
      ensures !uncertain
    {
      uncertain := false;
    }
  }

  // ---------- the world ----------

  datatype Effect = Keep | Clear | Put(token: Token)

  /** A request on its way, answered and on its way back, or gone. */
  datatype Progress = Sent | Replied(answer: Answer, effect: Effect) | Gone
  datatype Request = Request(kind: Kind, token: Option<Token>, progress: Progress)

  datatype Stage = AtMe | AtCsrf(second: bool) | AtPost(second: bool, request: nat) | Answered(second: bool, answer: Answer)
  datatype Holder = Holder(kind: Kind, stage: Stage)

  /**
    `jar` is the refresh cookie all tabs share; `holder` is whoever holds the lock; `live` and
    `spent` are the tokens the server would take, and has rotated. Tokens are made from `next`.
    `clears` counts the logouts that have let go of the lock and not yet cleared the flag.
    `unheard` notes that a refresh went out under the lock and no definite answer to it, and no
    successful login or logout, has come since.
   */
  datatype World = World(jar: Option<Token>, uncertain: bool, holder: Option<Holder>, requests: map<nat, Request>,
                         live: set<Token>, spent: set<Token>, next: Token, clears: nat, unheard: bool)

  const START := World(None, false, None, map[], {}, {}, 0, 0, false)

  datatype Outcome = Accepted(answer: Answer) | Revoked | Untouched(answer: Answer)

  datatype Event =
    | Acquire(kind: Kind)
    | MeAnswers(answer: Answer)
    | CsrfReady(request: nat)
    | CsrfFails(answer: Answer)
    | Process(request: nat, outcome: Outcome)
    | Deliver(request: nat)
    | ConnectionBreaks
    | Continue
    | CloseTab
    | ForgetCookies
    | LoginElsewhere
    | LateClear
    | TabForgets

  ghost predicate Legal(w: World, e: Event) {
    match e
    case Acquire(_) => w.holder.None?
    case MeAnswers(_) => w.holder.Some? && w.holder.value.stage.AtMe?
    case CsrfReady(r) => w.holder.Some? && w.holder.value.stage.AtCsrf? && r !in w.requests
    case CsrfFails(a) => w.holder.Some? && w.holder.value.stage.AtCsrf? && !a.Success?
    case Process(r, outcome) => r in w.requests && w.requests[r].progress.Sent? && Possible(w, w.requests[r], outcome)
    case Deliver(r) => r in w.requests && w.requests[r].progress.Replied?
    case ConnectionBreaks => w.holder.Some? && w.holder.value.stage.AtPost?
    case Continue => w.holder.Some? && w.holder.value.stage.Answered?
    case CloseTab => w.holder.Some?
    case ForgetCookies => true
    case LoginElsewhere => true
    case LateClear => w.clears > 0
    case TabForgets => w.clears > 0
  }

  /** The code for a bad anti-forgery token only ever comes with status 403. */
  predicate CodesFit(a: Answer) {
    a.Failure? && a.code == "csrf_failed" ==> a.status == 403
  }

  /**
    What the server may do with a request. It takes a live refresh token, or a login; the answer
    may still turn into a server error on the way. It refuses a token it does not take and then
    takes the cookie away; sessions also end on their own. Or it never gets to the session: rejected early, or failed early.
   */
  ghost predicate Possible(w: World, q: Request, outcome: Outcome) {
    match outcome
    case Accepted(a) => (q.kind.Refresh? ==> q.token.Some? && q.token.value in w.live) && CodesFit(a) && (a.Success? || (a.Failure? && a.status >= 500))
    case Revoked => q.kind.Refresh?
    case Untouched(a) => a.Failure? && CodesFit(a)
  }

  function Processed(w: World, r: nat, outcome: Outcome): World
    requires r in w.requests
  {
    var q := w.requests[r];
    match outcome
    case Untouched(a) => w.(requests := w.requests[r := q.(progress := Replied(a, Keep))])
    case Revoked => w.(requests := w.requests[r := q.(progress := Replied(Failure(401, "refresh_reused"), Clear))])
    case Accepted(a) =>
      var taken := if q.token.Some? then {q.token.value} else {};
      if q.kind.Logout? then
        w.(requests := w.requests[r := q.(progress := Replied(a, if a.Success? then Clear else Keep))], live := w.live - taken)
      else
        w.(requests := w.requests[r := q.(progress := Replied(a, if a.Success? then Put(w.next) else Keep))],
           live := (if q.kind.Refresh? then w.live - taken else w.live) + {w.next},
           spent := if q.kind.Refresh? then w.spent + taken else w.spent, next := w.next + 1)
  }

  function Applied(jar: Option<Token>, effect: Effect): Option<Token> {
    match effect
    case Keep => jar
    case Clear => None
    case Put(token) => Some(token)
  }

  /** The locked callback ends, and the lock with it. After a successful logout the flag is still to be cleared. */
  function Finished(w: World, kind: Kind, a: Answer): World {
    w.(holder := None, uncertain := Settled(w.uncertain, kind, a),
       clears := if kind.Logout? && a.Success? then w.clears + 1 else w.clears)
  }

  /** After this answer the outcome of every refresh that went out is known. */
  predicate Settles(kind: Kind, a: Answer) {
    if kind.Refresh? then Definite(a) else a.Success?
  }

  /** A request refused for its anti-forgery token is sent once more, with a new one. */
  predicate TriesAgain(second: bool, a: Answer) {
    a.Failure? && a.code == "csrf_failed" && !second
  }

  function At(w: World, stage: Stage): World
    requires w.holder.Some?
  {
    w.(holder := Some(w.holder.value.(stage := stage)))
  }

  function Step(w: World, e: Event): World
    requires Legal(w, e)
  {
    match e
    case Acquire(kind) => w.(holder := Some(Holder(kind, if kind.Refresh? then AtMe else AtCsrf(false))))
    case MeAnswers(a) =>
      var (uncertain, admission) := Admitted(w.uncertain, a);
      if admission.MayRefresh? then At(w.(uncertain := uncertain), AtCsrf(false)) else w.(uncertain := uncertain, holder := None)
    case CsrfReady(r) =>
      var h := w.holder.value;
      At(w.(requests := w.requests[r := Request(h.kind, w.jar, Sent)], unheard := w.unheard || h.kind.Refresh?),
         AtPost(h.stage.second, r))
    case CsrfFails(a) => Finished(w, w.holder.value.kind, a)
    case Process(r, outcome) => Processed(w, r, outcome)
    case Deliver(r) =>
      var q := w.requests[r];
      var w' := w.(jar := Applied(w.jar, q.progress.effect), requests := w.requests[r := q.(progress := Gone)]);
      if w.holder.Some? && w.holder.value.stage.AtPost? && w.holder.value.stage.request == r
      then At(w'.(unheard := w.unheard && !Settles(w.holder.value.kind, q.progress.answer)),
              Answered(w.holder.value.stage.second, q.progress.answer))
      else w'
    case ConnectionBreaks => At(w, Answered(w.holder.value.stage.second, NoAnswer))
    case Continue =>
      var h := w.holder.value;
      var a := h.stage.answer;
      if TriesAgain(h.stage.second, a) then At(w, AtCsrf(true)) else Finished(w, h.kind, a)
    case CloseTab => w.(holder := None)
    case ForgetCookies => w.(jar := None)
    case LoginElsewhere => w.(jar := Some(w.next), live := w.live + {w.next}, next := w.next + 1)
    case LateClear => w.(uncertain := false, clears := w.clears - 1)
    case TabForgets => w.(clears := w.clears - 1)
  }

  ghost predicate Runs(w: World, events: seq<Event>)
    decreases events
  {
    events == [] || (Legal(w, events[0]) && Runs(Step(w, events[0]), events[1..]))
  }

  ghost function Run(w: World, events: seq<Event>): World
    requires Runs(w, events)
    decreases events
  {
    if events == [] then w else Run(Step(w, events[0]), events[1..])
  }

  // ---------- what could present a rotated token ----------

  /** An unanswered refresh still carries this token. */
  ghost predicate OnItsWay(w: World, r: nat, c: Token) {
    r in w.requests && w.requests[r].kind.Refresh? && w.requests[r].progress.Sent? && w.requests[r].token == Some(c)
  }

  /** The server rotated this token, or may yet do so. */
  ghost predicate MayBeRotated(w: World, c: Token) {
    c in w.spent || exists r :: OnItsWay(w, r, c)
  }

  ghost predicate Risky(w: World) {
    w.jar.Some? && MayBeRotated(w, w.jar.value)
  }

  /** This answer is the server's word that its request rotated the token. */
  ghost predicate Rotated(w: World, r: nat, c: Token) {
    r in w.requests && w.requests[r].token == Some(c) && w.requests[r].progress.Replied?
    && (w.requests[r].progress.effect.Put? || !Definite(w.requests[r].progress.answer))
  }

  /** While a refresh is out, only that refresh can make the cookie risky. */
  ghost predicate OnlyBy(w: World, r: nat) {
    w.jar.Some? ==>
      && (w.jar.value in w.spent ==> Rotated(w, r, w.jar.value))
      && forall q :: OnItsWay(w, q, w.jar.value) ==> q == r
  }

  ghost predicate HolderOk(w: World, h: Holder) {
    match h.stage
    case AtMe => true
    case AtCsrf(_) => h.kind.Refresh? ==> w.uncertain && !w.unheard
    case AtPost(_, r) =>
      r in w.requests && w.requests[r].kind == h.kind && !w.requests[r].progress.Gone?
      && (h.kind.Refresh? ==> w.uncertain && w.unheard && OnlyBy(w, r))
    case Answered(second, a) =>
      && CodesFit(a) && (Settles(h.kind, a) ==> !w.unheard)
      && (h.kind.Refresh? && TriesAgain(second, a) ==> w.uncertain)
  }

  /** A token on its way to the jar was never presented, and comes once. */
  ghost predicate Coming(w: World, r: nat) {
    r in w.requests && w.requests[r].progress.Replied? && w.requests[r].progress.effect.Put? ==>
      var c := w.requests[r].progress.effect.token;
      c < w.next && !MayBeRotated(w, c) && w.jar != Some(c)
      && forall q :: q in w.requests ==>
           w.requests[q].token != Some(c) && (q != r && w.requests[q].progress.Replied? ==> w.requests[q].progress.effect != Put(c))
  }

  ghost predicate TokensMade(w: World) {
    && (w.jar.Some? ==> w.jar.value < w.next) && (forall c :: c in w.spent || c in w.live ==> c < w.next)
    && forall r :: r in w.requests && w.requests[r].token.Some? ==> w.requests[r].token.value < w.next
  }

  ghost predicate Replies(w: World) {
    forall r :: r in w.requests && w.requests[r].progress.Replied? ==> ReplyOk(w.requests[r])
  }

  /** Success sets a new cookie, or takes it away; a cookie never comes with a failure. */
  ghost predicate ReplyOk(q: Request)
    requires q.progress.Replied?
  {
    && !q.progress.answer.NoAnswer?
    && (q.progress.answer.Success? ==> if q.kind.Logout? then q.progress.effect.Clear? else q.progress.effect.Put?)
    && (q.progress.effect.Put? ==> q.progress.answer.Success?) && CodesFit(q.progress.answer)
  }

  ghost predicate Inv(w: World) {
    && TokensMade(w) && Replies(w) && (forall r :: Coming(w, r))
    && (Risky(w) ==> w.unheard) && (w.unheard ==> w.uncertain)
    && (w.holder.Some? ==> HolderOk(w, w.holder.value))
  }

  // ---------- late clears ----------

  /** A refresh is admitted and about to be sent, for the first or the second time. */
  predicate ToBeSent(h: Holder) {
    h.kind.Refresh? && (h.stage.AtCsrf? || (h.stage.Answered? && TriesAgain(h.stage.second, h.stage.answer)))
  }

  /**
    What the tabs did under the lock leaves a refresh open: it was sent and not heard of, or is
    about to be sent.
   */
  predicate Open(w: World) {
    w.unheard || (w.holder.Some? && ToBeSent(w.holder.value))
  }

  /** Every late clear of the run finds no refresh open. */
  ghost predicate Tidy(w: World, events: seq<Event>)
    requires Runs(w, events)
    decreases events
  {
    events == [] || ((events[0].LateClear? ==> !Open(w)) && Tidy(Step(w, events[0]), events[1..]))
  }

  /** A refresh is sent next, with a token the server rotated or may yet rotate. */
  ghost predicate Presents(w: World) {
    w.holder.Some? && w.holder.value.kind.Refresh? && w.holder.value.stage.AtCsrf? && Risky(w)
  }

  /** However the run goes on, with tidy clears only, no such token is presented. */
  ghost predicate NeverPresents(w: World) {
    forall events :: Runs(w, events) && Tidy(w, events) ==> !Presents(Run(w, events))
  }
}
