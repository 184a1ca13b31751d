/**
  No run of admin tabs presents a refresh token that the server may already have rotated.

  The invariant says where a risky cookie can come from: only from a refresh that went out under
  the lock and was not heard of, and then the flag keeps every tab from sending another one. Each
  kind of step keeps it, so every run does, as long as a logout that clears the flag late finds
  no refresh open. The second half is about that late clear. Runs that look the same to the tabs
  end in the same tab state; behind each of them there is one with the worst possible server; and
  there a clear that comes while a refresh is open lets a rotated token go out again.
 */
module AdminSessionRuns {
  import opened Wrappers
  import opened AdminSession

  /** Nothing but sending a refresh makes a safe cookie risky. */
  ghost predicate Calmer(w: World, w': World) {
    Risky(w') ==> Risky(w) && w'.jar == w.jar
  }

  lemma AcquireKeeps(w: World, e: Event)
    requires Inv(w) && Legal(w, e) && (e.Acquire? || e.MeAnswers? || e.CsrfFails? || e.ConnectionBreaks? || e.CloseTab? || e.TabForgets?)
    ensures Inv(Step(w, e))
  {
    var w' := Step(w, e);
    SameRequests(w, w');
  }

  lemma SameRequests(w: World, w': World)
    requires w'.requests == w.requests && w'.jar == w.jar && w'.spent == w.spent && w'.next == w.next && w'.live == w.live
    ensures Risky(w') == Risky(w)
    ensures forall r :: Coming(w, r) ==> Coming(w', r)
    ensures TokensMade(w) ==> TokensMade(w')
    ensures Replies(w) ==> Replies(w')
    ensures forall r :: OnlyBy(w, r) ==> OnlyBy(w', r)
  {
    forall c ensures MayBeRotated(w', c) == MayBeRotated(w, c) {
      forall r ensures OnItsWay(w', r, c) == OnItsWay(w, r, c) {}
    }
    forall r | Coming(w, r) ensures Coming(w', r) {}
    forall r | OnlyBy(w, r) ensures OnlyBy(w', r) {
      if w'.jar.Some? {
        forall q | OnItsWay(w', q, w'.jar.value) ensures q == r { assert OnItsWay(w, q, w.jar.value); }
        if w'.jar.value in w'.spent { assert Rotated(w, r, w.jar.value); }
      }
    }
  }

  lemma ContinueKeeps(w: World, e: Event)
    requires Inv(w) && Legal(w, e) && e.Continue?
    ensures Inv(Step(w, e))
  {
    SameRequests(w, Step(w, e));
  }

  // ---------- sending ----------

  lemma PostKeeps(w: World, e: Event)
    requires Inv(w) && Legal(w, e) && e.CsrfReady?
    ensures Inv(Step(w, e))
  {
    var w' := Step(w, e);
    PostComing(w, e);
    if w.holder.value.kind.Refresh? { PostOnlyBy(w, e); } else { PostCalm(w, e); }
  }

  lemma PostComing(w: World, e: Event)
    requires Inv(w) && Legal(w, e) && e.CsrfReady?
    ensures forall r :: Coming(Step(w, e), r)
  {
    var w' := Step(w, e);
    forall r ensures Coming(w', r) {
      assert Coming(w, r);
      if r != e.request && r in w.requests && w.requests[r].progress.Replied? && w.requests[r].progress.effect.Put? {
        var c := w.requests[r].progress.effect.token;
        forall q ensures !OnItsWay(w', q, c) { assert !OnItsWay(w, q, c); }
      }
    }
  }

  lemma PostCalm(w: World, e: Event)
    requires Legal(w, e) && e.CsrfReady? && !w.holder.value.kind.Refresh?
    ensures Risky(Step(w, e)) ==> Risky(w)
  {
    var w' := Step(w, e);
    if Risky(w') && w.jar.value !in w.spent {
      var r :| OnItsWay(w', r, w.jar.value);
      assert OnItsWay(w, r, w.jar.value);
    }
  }

  lemma PostOnlyBy(w: World, e: Event)
    requires Legal(w, e) && e.CsrfReady? && !Risky(w)
    ensures OnlyBy(Step(w, e), e.request)
  {
    var w' := Step(w, e);
    if w.jar.Some? {
      forall q | OnItsWay(w', q, w.jar.value) ensures q == e.request {
        assert !OnItsWay(w, q, w.jar.value);
      }
    }
  }

  // ---------- the server ----------

  lemma ProcessCalm(w: World, e: Event)
    requires Inv(w) && Legal(w, e) && e.Process?
    ensures Risky(Step(w, e)) ==> Risky(w)
  {
    var w' := Step(w, e);
    if Risky(w') {
      var c := w.jar.value;
      if c in w'.spent {
        if c !in w.spent { assert OnItsWay(w, e.request, c); }
      } else {
        var r :| OnItsWay(w', r, c);
        assert OnItsWay(w, r, c);
      }
    }
  }

  lemma ProcessOnlyBy(w: World, e: Event, r: nat)
    requires Inv(w) && Legal(w, e) && e.Process? && OnlyBy(w, r)
    ensures OnlyBy(Step(w, e), r)
  {
    var w' := Step(w, e);
    if w.jar.Some? {
      var c := w.jar.value;
      forall q | OnItsWay(w', q, c) ensures q == r { assert OnItsWay(w, q, c); }
      if c in w'.spent {
        if c in w.spent { assert Rotated(w, r, c); }
        else { assert OnItsWay(w, e.request, c); }
        assert Rotated(w', r, c);
      }
    }
  }

  lemma ProcessComing(w: World, e: Event)
    requires Inv(w) && Legal(w, e) && e.Process?
    ensures forall r :: Coming(Step(w, e), r)
  {
    forall r ensures Coming(Step(w, e), r) {
      if r == e.request { NewComing(w, e); } else { OldComing(w, e, r); }
    }
  }

  lemma NewComing(w: World, e: Event)
    requires Inv(w) && Legal(w, e) && e.Process?
    ensures Coming(Step(w, e), e.request)
  {
    var w' := Step(w, e);
    var q := w'.requests[e.request];
    if q.progress.effect.Put? {
      var c := w.next;
      forall r ensures !OnItsWay(w', r, c) {}
      forall r | r in w'.requests && r != e.request && w'.requests[r].progress.Replied? ensures w'.requests[r].progress.effect != Put(c) {
        assert Coming(w, r);
      }
      assert w'.requests[e.request].token != Some(c);
    }
  }

  lemma OldComing(w: World, e: Event, r: nat)
    requires Inv(w) && Legal(w, e) && e.Process? && r != e.request
    ensures Coming(Step(w, e), r)
  {
    assert Coming(w, r) && Coming(w, e.request);
    BareOldComing(w, e, r);
  }

  lemma BareOldComing(w: World, e: Event, r: nat)
    requires Coming(w, r) && TokensMade(w) && Legal(w, e) && e.Process? && r != e.request
    ensures Coming(Step(w, e), r)
  {
    var w' := Step(w, e);
    if r in w.requests && w.requests[r].progress.Replied? && w.requests[r].progress.effect.Put? {
      var c := w.requests[r].progress.effect.token;
      assert w.requests[e.request].token != Some(c);
      forall q ensures !OnItsWay(w', q, c) { assert !OnItsWay(w, q, c); }
      assert !MayBeRotated(w', c);
    }
  }

  lemma ProcessTokens(w: World, e: Event)
    requires TokensMade(w) && Legal(w, e) && e.Process?
    ensures TokensMade(Step(w, e))
  {}

  lemma ProcessReplies(w: World, e: Event)
    requires Replies(w) && Legal(w, e) && e.Process?
    ensures Replies(Step(w, e))
  {}

  lemma ProcessHolder(w: World, e: Event)
    requires Inv(w) && Legal(w, e) && e.Process? && w.holder.Some?
    ensures HolderOk(Step(w, e), w.holder.value)
  {
    match w.holder.value.stage
    case AtPost(_, r) => if w.holder.value.kind.Refresh? { ProcessOnlyBy(w, e, r); }
    case _ =>
  }

  lemma ProcessKeeps(w: World, e: Event)
    requires Inv(w) && Legal(w, e) && e.Process?
    ensures Inv(Step(w, e))
  {
    ProcessCalm(w, e);
    ProcessComing(w, e);
    ProcessTokens(w, e);
    ProcessReplies(w, e);
    if w.holder.Some? { ProcessHolder(w, e); }
  }

  // ---------- answers ----------

  lemma DeliverCalm(w: World, e: Event)
    requires Inv(w) && Legal(w, e) && e.Deliver?
    ensures var effect := w.requests[e.request].progress.effect;
            Risky(Step(w, e)) ==> effect.Keep? && Risky(w)
  {
    var w' := Step(w, e);
    var effect := w.requests[e.request].progress.effect;
    assert Coming(w, e.request);
    if effect.Put? {
      forall r ensures !OnItsWay(w', r, effect.token) { assert !OnItsWay(w, r, effect.token); }
      assert !Risky(w');
    } else if effect.Keep? {
      if Risky(w') && w.jar.value !in w.spent {
        var r :| OnItsWay(w', r, w.jar.value);
        assert OnItsWay(w, r, w.jar.value);
      }
    }
  }

  lemma DeliverComing(w: World, e: Event)
    requires Inv(w) && Legal(w, e) && e.Deliver?
    ensures forall r :: Coming(Step(w, e), r)
  {
    var w' := Step(w, e);
    forall r ensures Coming(w', r) {
      assert Coming(w, r) && Coming(w, e.request);
      if r != e.request && r in w.requests && w.requests[r].progress.Replied? && w.requests[r].progress.effect.Put? {
        var c := w.requests[r].progress.effect.token;
        forall q ensures !OnItsWay(w', q, c) { assert !OnItsWay(w, q, c); }
      }
    }
  }

  /** The awaited answer is definite: the cookie is new, gone, or was not rotated. */
  lemma DeliverDefinite(w: World, e: Event)
    requires Inv(w) && Legal(w, e) && e.Deliver? && OnlyBy(w, e.request) && Definite(w.requests[e.request].progress.answer)
    ensures !Risky(Step(w, e))
  {
    var w' := Step(w, e);
    DeliverCalm(w, e);
    assert ReplyOk(w.requests[e.request]);
    if w.requests[e.request].progress.effect.Keep? && w.jar.Some? {
      assert !Rotated(w, e.request, w.jar.value);
      forall r ensures !OnItsWay(w', r, w.jar.value) {
        if OnItsWay(w, r, w.jar.value) { assert r == e.request; }
      }
    }
  }

  lemma DeliverOnlyBy(w: World, e: Event, r: nat)
    requires Inv(w) && Legal(w, e) && e.Deliver? && e.request != r && OnlyBy(w, r)
    ensures OnlyBy(Step(w, e), r)
  {
    var w' := Step(w, e);
    var effect := w.requests[e.request].progress.effect;
    assert Coming(w, e.request);
    if effect.Put? {
      forall q ensures !OnItsWay(w', q, effect.token) { assert !OnItsWay(w, q, effect.token); }
    } else if effect.Keep? && w.jar.Some? {
      forall q | OnItsWay(w', q, w.jar.value) ensures q == r { assert OnItsWay(w, q, w.jar.value); }
      if w.jar.value in w.spent { assert Rotated(w, r, w.jar.value); }
    }
  }

  lemma DeliverKeeps(w: World, e: Event)
    requires Inv(w) && Legal(w, e) && e.Deliver?
    ensures Inv(Step(w, e))
  {
    DeliverCalm(w, e);
    DeliverComing(w, e);
    assert Coming(w, e.request) && ReplyOk(w.requests[e.request]);
    if w.holder.Some? && w.holder.value.stage.AtPost? {
      var h := w.holder.value;
      if h.stage.request == e.request {
        if h.kind.Refresh? && Definite(w.requests[e.request].progress.answer) { DeliverDefinite(w, e); }
      } else if h.kind.Refresh? { DeliverOnlyBy(w, e, h.stage.request); }
    }
  }

  // ---------- cookies changed from outside ----------

  lemma OutsideKeeps(w: World, e: Event)
    requires Inv(w) && Legal(w, e) && (e.ForgetCookies? || e.LoginElsewhere?)
    ensures Inv(Step(w, e))
  {
    var w' := Step(w, e);
    forall r, c | OnItsWay(w', r, c) ensures OnItsWay(w, r, c) {}
    assert !Risky(w') by {
      if w'.jar.Some? { forall r ensures !OnItsWay(w', r, w.next) {} }
    }
    forall r ensures Coming(w', r) {
      assert Coming(w, r);
      if r in w.requests && w.requests[r].progress.Replied? && w.requests[r].progress.effect.Put? {
        var c := w.requests[r].progress.effect.token;
        forall q ensures !OnItsWay(w', q, c) { assert !OnItsWay(w, q, c); }
      }
    }
    if w.holder.Some? && w.holder.value.stage.AtPost? && w'.jar.Some? {
      forall r ensures !OnItsWay(w', r, w.next) {}
    }
  }

  // ---------- every run ----------

  /** Clearing the flag while no refresh is open is like clearing it under the lock. */
  lemma ClearKeeps(w: World)
    requires Inv(w) && Legal(w, LateClear) && !Open(w)
    ensures Inv(Step(w, LateClear))
  {
    SameRequests(w, Step(w, LateClear));
  }

  lemma StepKeeps(w: World, e: Event)
    requires Inv(w) && Legal(w, e) && (e.LateClear? ==> !Open(w))
    ensures Inv(Step(w, e))
  {
    match e
    case LateClear => ClearKeeps(w);
    case CsrfReady(_) => PostKeeps(w, e);
    case Process(_, _) => ProcessKeeps(w, e);
    case Deliver(_) => DeliverKeeps(w, e);
    case Continue => ContinueKeeps(w, e);
    case ForgetCookies => OutsideKeeps(w, e);
    case LoginElsewhere => OutsideKeeps(w, e);
    case _ => AcquireKeeps(w, e);
  }

  lemma {:induction false} RunKeeps(w: World, events: seq<Event>)
    requires Inv(w) && Runs(w, events) && Tidy(w, events)
    ensures Inv(Run(w, events))
    decreases events
  {
    if events != [] {
      StepKeeps(w, events[0]);
      RunKeeps(Step(w, events[0]), events[1..]);
    }
  }

  lemma StartInv()
    ensures Inv(START)
  {
    forall r ensures Coming(START, r) {}
  }

  /**
    In every run of tabs that close, requests that get lost, answers that come late or as server
    errors, and logouts that clear the flag late but while no refresh is open: a refresh is only
    sent with a cookie the server has not rotated and that no refresh still on its way carries.
   */
  lemma NoRotatedTokenPresented(events: seq<Event>)
    requires Runs(START, events) && Tidy(START, events)
    ensures var w := Run(START, events);
            !Presents(w) && (w.holder.Some? && w.holder.value.kind.Refresh? && w.holder.value.stage.AtCsrf? ==> w.uncertain)
  {
    StartInv();
    RunKeeps(START, events);
  }

  lemma InvNeverPresents(w: World)
    requires Inv(w)
    ensures NeverPresents(w)
  {
    forall events | Runs(w, events) && Tidy(w, events) ensures !Presents(Run(w, events)) { RunKeeps(w, events); }
  }

  /** When a logout lets go of the lock nothing is open: clearing the flag at once is tidy. */
  lemma AtomicLogoutIsTidy(w: World)
    requires Inv(w) && Legal(w, Continue) && w.holder.value.kind.Logout? && w.holder.value.stage.answer.Success?
    ensures Legal(Step(w, Continue), LateClear) && !Open(Step(w, Continue))
  {}

  // ---------- what the tabs see ----------

  datatype Tabs = Tabs(uncertain: bool, holder: Option<Holder>, clears: nat, unheard: bool)

  function TabsOf(w: World): Tabs {
    Tabs(w.uncertain, w.holder, w.clears, w.unheard)
  }

  datatype Sight =
    | Locked(kind: Kind)
    | MeSaid(answer: Answer)
    | Posted(request: nat)
    | NoCsrf(answer: Answer)
    | Heard(answer: Answer)
    | Broke
    | WentOn
    | Closed
    | Cleared
    | Forgot

  predicate Awaited(w: World, r: nat) {
    w.holder.Some? && w.holder.value.stage.AtPost? && w.holder.value.stage.request == r
  }

  /** What the server does, and cookies and answers nobody waits for, are not seen by any tab. */
  function Seen(w: World, e: Event): Option<Sight>
    requires Legal(w, e)
  {
    match e
    case Acquire(kind) => Some(Locked(kind))
    case MeAnswers(a) => Some(MeSaid(a))
    case CsrfReady(r) => Some(Posted(r))
    case CsrfFails(a) => Some(NoCsrf(a))
    case Deliver(r) => if Awaited(w, r) then Some(Heard(w.requests[r].progress.answer)) else None
    case ConnectionBreaks => Some(Broke)
    case Continue => Some(WentOn)
    case CloseTab => Some(Closed)
    case LateClear => Some(Cleared)
    case TabForgets => Some(Forgot)
    case _ => None
  }

  ghost function View(w: World, events: seq<Event>): seq<Sight>
    requires Runs(w, events)
    decreases events
  {
    if events == [] then []
    else
      var rest := View(Step(w, events[0]), events[1..]);
      var sight := Seen(w, events[0]);
      if sight.Some? then [sight.value] + rest else rest
  }

  /** What the tabs see decides what they know, whether a refresh is open, and what they do. */
  lemma SameSight(w: World, e: Event, v: World, f: Event)
    requires Legal(w, e) && Legal(v, f) && TabsOf(w) == TabsOf(v) && Seen(w, e).Some? && Seen(w, e) == Seen(v, f)
    ensures TabsOf(Step(w, e)) == TabsOf(Step(v, f))
  {}

  lemma UnseenStays(w: World, e: Event)
    requires Legal(w, e) && Seen(w, e).None?
    ensures TabsOf(Step(w, e)) == TabsOf(w)
  {}

  lemma {:induction false} SameViews(w: World, events: seq<Event>, v: World, others: seq<Event>)
    requires Runs(w, events) && Runs(v, others) && TabsOf(w) == TabsOf(v) && View(w, events) == View(v, others)
    ensures TabsOf(Run(w, events)) == TabsOf(Run(v, others))
    decreases |events| + |others|
  {
    if events != [] && Seen(w, events[0]).None? {
      UnseenStays(w, events[0]);
      SameViews(Step(w, events[0]), events[1..], v, others);
    } else if others != [] && Seen(v, others[0]).None? {
      UnseenStays(v, others[0]);
      SameViews(w, events, Step(v, others[0]), others[1..]);
    } else if events != [] && others != [] {
      var rest, rest' := View(Step(w, events[0]), events[1..]), View(Step(v, others[0]), others[1..]);
      assert ([Seen(w, events[0]).value] + rest)[0] == ([Seen(v, others[0]).value] + rest')[0];
      assert ([Seen(w, events[0]).value] + rest)[1..] == rest && ([Seen(v, others[0]).value] + rest')[1..] == rest';
      SameSight(w, events[0], v, others[0]);
      SameViews(Step(w, events[0]), events[1..], Step(v, others[0]), others[1..]);
    }
  }

  // ---------- the worst server behind one view ----------

  /** The same tabs; here every refresh not heard of carries, or carried, the cookie, and was taken. */
  ghost predicate Worst(w: World, v: World) {
    && TabsOf(w) == TabsOf(v) && Inv(w) && Inv(v) && v.requests.Keys <= w.requests.Keys
    && (v.unheard ==> Risky(v))
    && (v.holder.Some? && v.holder.value.stage.AtPost? ==> WorstRequest(v, v.holder.value))
  }

  ghost predicate WorstRequest(v: World, h: Holder)
    requires h.stage.AtPost?
  {
    var r := h.stage.request;
    && r in v.requests && v.requests[r].progress.Sent? && v.requests[r].kind == h.kind
    && (h.kind.Refresh? ==> v.jar.Some? && v.requests[r].token == v.jar && v.jar.value in v.live)
  }

  /** How the worst server lets an awaited answer come about. */
  function WorstOutcome(kind: Kind, a: Answer): Outcome {
    if a.Success? || (kind.Refresh? && a.Failure? && a.status >= 500) then Accepted(a) else Untouched(a)
  }

  function WorstEvents(w: World, e: Event): seq<Event>
    requires Legal(w, e)
  {
    if Seen(w, e).None? then []
    else
      match e
      case CsrfReady(r) => if w.holder.value.kind.Refresh? then [LoginElsewhere, e] else [e]
      case Deliver(r) => [Process(r, WorstOutcome(w.holder.value.kind, w.requests[r].progress.answer)), e]
      case _ => [e]
  }

  /** Two runs one after the other. */
  lemma {:induction false} Joined(w: World, first: seq<Event>, rest: seq<Event>)
    requires Runs(w, first) && Tidy(w, first) && Runs(Run(w, first), rest) && Tidy(Run(w, first), rest)
    ensures Runs(w, first + rest) && Tidy(w, first + rest) && Run(w, first + rest) == Run(Run(w, first), rest)
    ensures View(w, first + rest) == View(w, first) + View(Run(w, first), rest)
    decreases first
  {
    if first == [] {
      assert first + rest == rest;
    } else {
      Joined(Step(w, first[0]), first[1..], rest);
      assert (first + rest)[1..] == first[1..] + rest;
    }
  }

  lemma OneEvent(w: World, e: Event)
    requires Legal(w, e) && (e.LateClear? ==> !Open(w))
    ensures Runs(w, [e]) && Tidy(w, [e]) && Run(w, [e]) == Step(w, e)
    ensures View(w, [e]) == if Seen(w, e).Some? then [Seen(w, e).value] else []
  {
    assert [e][1..] == [];
  }

  lemma TwoEvents(w: World, e: Event, f: Event)
    requires Legal(w, e) && !e.LateClear? && Legal(Step(w, e), f) && !f.LateClear? && Seen(w, e).None?
    ensures Runs(w, [e, f]) && Tidy(w, [e, f]) && Run(w, [e, f]) == Step(Step(w, e), f)
    ensures View(w, [e, f]) == if Seen(Step(w, e), f).Some? then [Seen(Step(w, e), f).value] else []
  {
    OneEvent(w, e);
    OneEvent(Step(w, e), f);
    Joined(w, [e], [f]);
    assert [e] + [f] == [e, f];
  }

  /** What a step of the worst server has to show. */
  ghost predicate Follows(w: World, e: Event, v: World)
    requires Legal(w, e)
  {
    var events := WorstEvents(w, e);
    && Runs(v, events) && Tidy(v, events) && Worst(Step(w, e), Run(v, events))
    && View(v, events) == (if Seen(w, e).Some? then [Seen(w, e).value] else [])
  }

  lemma WorstUnseen(w: World, e: Event, v: World)
    requires Worst(w, v) && Legal(w, e) && Seen(w, e).None?
    ensures Follows(w, e, v)
  {
    StepKeeps(w, e);
  }

  /** A step that sends nothing and hears nothing leaves the cookie as it is. */
  lemma PlainStaysWorst(v: World, e: Event)
    requires Legal(v, e) && Seen(v, e).Some? && !e.CsrfReady? && !e.Deliver?
    ensures Step(v, e).requests == v.requests
    ensures (v.unheard ==> Risky(v)) ==> (Step(v, e).unheard ==> Risky(Step(v, e)))
    ensures Step(v, e).holder.Some? ==> !Step(v, e).holder.value.stage.AtPost? || Step(v, e).holder == v.holder
    ensures Step(v, e).jar == v.jar && Step(v, e).live == v.live
  {
    SameRequests(v, Step(v, e));
  }

  lemma WorstPlain(w: World, e: Event, v: World)
    requires Worst(w, v) && Legal(w, e) && (e.LateClear? ==> !Open(w))
    requires Seen(w, e).Some? && !e.CsrfReady? && !e.Deliver?
    ensures Follows(w, e, v)
  {
    SameOffer(w, e, v);
    StepKeeps(w, e);
    StepKeeps(v, e);
    OneEvent(v, e);
    SameSight(w, e, v, e);
    PlainStaysWorst(v, e);
    SendsNothing(w, e);
  }

  lemma SendsNothing(w: World, e: Event)
    requires Legal(w, e) && Seen(w, e).Some? && !e.CsrfReady? && !e.Deliver?
    ensures Step(w, e).requests == w.requests
  {}

  lemma SameOffer(w: World, e: Event, v: World)
    requires TabsOf(w) == TabsOf(v) && Legal(w, e) && Seen(w, e).Some? && !e.CsrfReady? && !e.Deliver?
    ensures Legal(v, e) && Seen(v, e) == Seen(w, e) && WorstEvents(w, e) == [e] && (Open(w) <==> Open(v))
  {}

  lemma WorstOtherPost(w: World, e: Event, v: World)
    requires Worst(w, v) && Legal(w, e) && e.CsrfReady? && !w.holder.value.kind.Refresh?
    ensures Follows(w, e, v)
  {
    StepKeeps(w, e);
    StepKeeps(v, e);
    OneEvent(v, e);
    SameSight(w, e, v, e);
    if v.unheard { StillRisky(v, Step(v, e)); }
  }

  lemma StillRisky(v: World, v': World)
    requires Risky(v) && v'.jar == v.jar && v.spent <= v'.spent
    requires forall r :: OnItsWay(v, r, v.jar.value) ==> OnItsWay(v', r, v.jar.value)
    ensures Risky(v')
  {
    if v.jar.value !in v.spent {
      var r :| OnItsWay(v, r, v.jar.value);
      assert OnItsWay(v', r, v.jar.value);
    }
  }

  lemma WorstRefreshPost(w: World, e: Event, v: World)
    requires Worst(w, v) && Legal(w, e) && e.CsrfReady? && w.holder.value.kind.Refresh?
    ensures Follows(w, e, v)
  {
    var v1 := Step(v, LoginElsewhere);
    var v2 := Step(v1, e);
    StepKeeps(w, e);
    StepKeeps(v, LoginElsewhere);
    StepKeeps(v1, e);
    TwoEvents(v, LoginElsewhere, e);
    SameSight(w, e, v1, e);
    assert OnItsWay(v2, e.request, v2.jar.value);
  }

  lemma WorstAnswer(w: World, e: Event, v: World)
    requires Worst(w, v) && Legal(w, e) && e.Deliver? && Awaited(w, e.request)
    ensures Follows(w, e, v)
  {
    var h, a := w.holder.value, w.requests[e.request].progress.answer;
    assert ReplyOk(w.requests[e.request]);
    var out := WorstOutcome(h.kind, a);
    assert Possible(v, v.requests[e.request], out);
    var v1 := Step(v, Process(e.request, out));
    var v2 := Step(v1, e);
    StepKeeps(w, e);
    StepKeeps(v, Process(e.request, out));
    StepKeeps(v1, e);
    TwoEvents(v, Process(e.request, out), e);
    SameSight(w, e, v1, e);
    if v2.unheard { AnswerStaysRisky(v, e, out, a); }
  }

  lemma AnswerStaysRisky(v: World, e: Event, out: Outcome, a: Answer)
    requires v.unheard && Risky(v) && e.Deliver? && Awaited(v, e.request) && WorstRequest(v, v.holder.value)
    requires out == WorstOutcome(v.holder.value.kind, a) && Legal(v, Process(e.request, out))
    requires !Settles(v.holder.value.kind, a) && a.Failure?
    ensures Risky(Step(Step(v, Process(e.request, out)), e))
  {
    var v2 := Step(Step(v, Process(e.request, out)), e);
    if !v.holder.value.kind.Refresh? { StillRisky(v, v2); }
  }

  lemma WorstStep(w: World, e: Event, v: World)
    requires Worst(w, v) && Legal(w, e) && (e.LateClear? ==> !Open(w))
    ensures Follows(w, e, v)
  {
    if Seen(w, e).None? { WorstUnseen(w, e, v); }
    else if e.CsrfReady? {
      if w.holder.value.kind.Refresh? { WorstRefreshPost(w, e, v); } else { WorstOtherPost(w, e, v); }
    } else if e.Deliver? { WorstAnswer(w, e, v); }
    else { WorstPlain(w, e, v); }
  }

  /** Behind every run there is one that looks the same to the tabs and has the worst server. */
  lemma {:induction false} WorstRun(w: World, events: seq<Event>, v: World) returns (others: seq<Event>)
    requires Worst(w, v) && Runs(w, events) && Tidy(w, events)
    ensures Runs(v, others) && Tidy(v, others) && View(v, others) == View(w, events)
    ensures Worst(Run(w, events), Run(v, others))
    decreases events
  {
    if events == [] {
      others := [];
    } else {
      var first := WorstEvents(w, events[0]);
      WorstStep(w, events[0], v);
      var rest := WorstRun(Step(w, events[0]), events[1..], Run(v, first));
      Joined(v, first, rest);
      others := first + rest;
    }
  }

  // ---------- what a late clear opens ----------

  lemma Backwards(w: World, e: Event)
    requires Legal(w, e) && !e.LateClear? && !NeverPresents(Step(w, e))
    ensures !NeverPresents(w)
  {
    var events :| Runs(Step(w, e), events) && Tidy(Step(w, e), events) && Presents(Run(Step(w, e), events));
    OneEvent(w, e);
    Joined(w, [e], events);
  }

  const EXPIRED := Failure(401, "invalid_token")

  /** With the flag clear, the next refresh is admitted, whatever the cookie. */
  lemma AdmittedAgain(w: World)
    requires !w.uncertain && Risky(w)
    ensures !NeverPresents(w)
  {
    var w1 := if w.holder.Some? then Step(w, CloseTab) else w;
    var w2 := Step(w1, Acquire(Refresh));
    var w3 := Step(w2, MeAnswers(EXPIRED));
    SameRequests(w, w3);
    assert Runs(w3, []) && Tidy(w3, []) && Presents(Run(w3, []));
    Backwards(w2, MeAnswers(EXPIRED));
    Backwards(w1, Acquire(Refresh));
    if w.holder.Some? { Backwards(w, CloseTab); }
  }

  lemma {:induction false} FreshRequest(keys: set<nat>) returns (r: nat)
    ensures forall k :: k in keys ==> k < r
    decreases |keys|
  {
    if keys == {} {
      r := 0;
    } else {
      var k :| k in keys;
      var rest := FreshRequest(keys - {k});
      r := if k < rest then rest else k + 1;
      forall q | q in keys ensures q < r { assert q == k || q in keys - {k}; }
    }
  }

  /** A refresh about to be sent without its flag can be lost, and its token sent again. */
  lemma SentWithoutFlag(w: World)
    requires !w.uncertain && w.holder.Some? && w.holder.value.kind.Refresh? && w.holder.value.stage.AtCsrf?
    ensures !NeverPresents(w)
  {
    var r := FreshRequest(w.requests.Keys);
    assert r !in w.requests;
    var w1 := Step(w, LoginElsewhere);
    var w2 := Step(w1, CsrfReady(r));
    assert OnItsWay(w2, r, w2.jar.value);
    AdmittedAgain(w2);
    Backwards(w1, CsrfReady(r));
    Backwards(w, LoginElsewhere);
  }

  lemma OpenIsUnsafe(w: World)
    requires Legal(w, LateClear) && Open(w) && (w.unheard ==> Risky(w))
    ensures !NeverPresents(Step(w, LateClear))
  {
    var u := Step(w, LateClear);
    SameRequests(w, u);
    if w.unheard { AdmittedAgain(u); }
    else if u.holder.value.stage.AtCsrf? { SentWithoutFlag(u); }
    else {
      SentWithoutFlag(Step(u, Continue));
      Backwards(u, Continue);
    }
  }

  /** Another run of the browser that no tab can tell from this one. */
  ghost predicate LooksLike(others: seq<Event>, events: seq<Event>)
    requires Runs(START, events)
  {
    Runs(START, others) && Tidy(START, others) && View(START, others) == View(START, events)
  }

  ghost predicate ClearIsSafe(w: World) {
    Legal(w, LateClear) && NeverPresents(Step(w, LateClear))
  }

  /**
    A logout clears the flag after it has let go of the lock. That is safe, for every server and
    cookie the tabs could be dealing with, if and only if under the lock no refresh was left open:
    every one sent since got a definite answer, or a login or logout succeeded after it, and none
    is about to be sent.
   */
  lemma LateClearIff(events: seq<Event>)
    requires Runs(START, events) && Tidy(START, events) && Legal(Run(START, events), LateClear)
    ensures (forall others :: LooksLike(others, events) ==> ClearIsSafe(Run(START, others))) <==> !Open(Run(START, events))
  {
    StartInv();
    var w := Run(START, events);
    if Open(w) {
      var others := WorstRun(START, events, START);
      OpenIsUnsafe(Run(START, others));
      assert LooksLike(others, events) && !ClearIsSafe(Run(START, others));
    } else {
      forall others | LooksLike(others, events) ensures ClearIsSafe(Run(START, others)) {
        SameViews(START, events, START, others);
        RunKeeps(START, others);
        ClearKeeps(Run(START, others));
        InvNeverPresents(Step(Run(START, others), LateClear));
      }
    }
  }

  // ---------- a late clear that opens the way ----------

  lemma Further(w: World, events: seq<Event>, n: nat, next: World)
    requires n < |events| && Runs(w, events[..n])
    requires Legal(Run(w, events[..n]), events[n]) && Step(Run(w, events[..n]), events[n]) == next
    ensures Runs(w, events[..n + 1]) && Run(w, events[..n + 1]) == next
  {
    RunsOn(w, events[..n], [events[n]]);
    assert events[..n + 1] == events[..n] + [events[n]];
  }

  lemma {:induction false} RunsOn(w: World, first: seq<Event>, rest: seq<Event>)
    requires Runs(w, first) && Runs(Run(w, first), rest)
    ensures Runs(w, first + rest) && Run(w, first + rest) == Run(Run(w, first), rest)
    decreases first
  {
    if first == [] {
      assert first + rest == rest;
    } else {
      RunsOn(Step(w, first[0]), first[1..], rest);
      assert (first + rest)[1..] == first[1..] + rest;
    }
  }

  const BROKEN := Failure(502, "http_502")

  /** One tab logs out; another logs in again, and its refresh ends in a server error. */
  const LOGOUT_SENT := [LoginElsewhere, Acquire(Logout), CsrfReady(0)]
  const LOGOUT_DONE := [Process(0, Accepted(Success)), Deliver(0), Continue]
  const LOGIN_SENT := [Acquire(Login), CsrfReady(1)]
  const LOGIN_DONE := [Process(1, Accepted(Success)), Deliver(1), Continue]
  const REFRESH_SENT := [Acquire(Refresh), MeAnswers(EXPIRED), CsrfReady(2)]
  const REFRESH_LOST := [Process(2, Accepted(BROKEN)), Deliver(2), Continue]
  const AGAIN := [LateClear, Acquire(Refresh), MeAnswers(EXPIRED)]

  const LOGGING_OUT := World(Some(0), false, Some(Holder(Logout, AtPost(false, 0))), map[0 := Request(Logout, Some(0), Sent)], {0}, {}, 1, 0, false)
  const LOGGED_OUT := World(None, false, None, map[0 := Request(Logout, Some(0), Gone)], {}, {}, 1, 1, false)
  const LOGGING_IN := LOGGED_OUT.(holder := Some(Holder(Login, AtPost(false, 1))),
                                  requests := LOGGED_OUT.requests[1 := Request(Login, None, Sent)])
  const LOGGED_IN := LOGGED_OUT.(jar := Some(1), live := {1}, next := 2,
                                 requests := LOGGED_OUT.requests[1 := Request(Login, None, Gone)])
  const REFRESHING := LOGGED_IN.(uncertain := true, unheard := true, holder := Some(Holder(Refresh, AtPost(false, 2))),
                                 requests := LOGGED_IN.requests[2 := Request(Refresh, Some(1), Sent)])
  const LEFT_OPEN := LOGGED_IN.(uncertain := true, unheard := true, live := {2}, spent := {1}, next := 3,
                                requests := LOGGED_IN.requests[2 := Request(Refresh, Some(1), Gone)])

  lemma ThreeSteps(w: World, events: seq<Event>, w1: World, w2: World, w3: World)
    requires |events| == 3 && Legal(w, events[0]) && Step(w, events[0]) == w1
    requires Legal(w1, events[1]) && Step(w1, events[1]) == w2 && Legal(w2, events[2]) && Step(w2, events[2]) == w3
    ensures Runs(w, events) && Run(w, events) == w3
  {
    Further(w, events, 0, w1);
    Further(w, events, 1, w2);
    Further(w, events, 2, w3);
    assert events[..3] == events;
  }

  lemma LogoutIsSent()
    ensures Runs(START, LOGOUT_SENT) && Run(START, LOGOUT_SENT) == LOGGING_OUT
  {
    var w1 := Step(START, LOGOUT_SENT[0]);
    var w2 := Step(w1, LOGOUT_SENT[1]);
    ThreeSteps(START, LOGOUT_SENT, w1, w2, LOGGING_OUT);
  }

  lemma LogoutIsDone()
    ensures Runs(LOGGING_OUT, LOGOUT_DONE) && Run(LOGGING_OUT, LOGOUT_DONE) == LOGGED_OUT
  {
    var w1 := Step(LOGGING_OUT, LOGOUT_DONE[0]);
    var w2 := Step(w1, LOGOUT_DONE[1]);
    ThreeSteps(LOGGING_OUT, LOGOUT_DONE, w1, w2, LOGGED_OUT);
  }

  lemma LoginIsSent()
    ensures Runs(LOGGED_OUT, LOGIN_SENT) && Run(LOGGED_OUT, LOGIN_SENT) == LOGGING_IN
  {
    Further(LOGGED_OUT, LOGIN_SENT, 0, Step(LOGGED_OUT, LOGIN_SENT[0]));
    Further(LOGGED_OUT, LOGIN_SENT, 1, LOGGING_IN);
    assert LOGIN_SENT[..2] == LOGIN_SENT;
  }

  lemma LoginIsDone()
    ensures Runs(LOGGING_IN, LOGIN_DONE) && Run(LOGGING_IN, LOGIN_DONE) == LOGGED_IN
  {
    var w1 := Step(LOGGING_IN, LOGIN_DONE[0]);
    var w2 := Step(w1, LOGIN_DONE[1]);
    ThreeSteps(LOGGING_IN, LOGIN_DONE, w1, w2, LOGGED_IN);
  }

  lemma RefreshIsSent()
    ensures Runs(LOGGED_IN, REFRESH_SENT) && Run(LOGGED_IN, REFRESH_SENT) == REFRESHING
  {
    var w1 := Step(LOGGED_IN, REFRESH_SENT[0]);
    var w2 := Step(w1, REFRESH_SENT[1]);
    ThreeSteps(LOGGED_IN, REFRESH_SENT, w1, w2, REFRESHING);
  }

  lemma RefreshIsLost()
    ensures Runs(REFRESHING, REFRESH_LOST) && Run(REFRESHING, REFRESH_LOST) == LEFT_OPEN
  {
    var w1 := Step(REFRESHING, REFRESH_LOST[0]);
    var w2 := Step(w1, REFRESH_LOST[1]);
    ThreeSteps(REFRESHING, REFRESH_LOST, w1, w2, LEFT_OPEN);
  }

  lemma AgainRun()
    ensures Runs(LEFT_OPEN, AGAIN) && Presents(Run(LEFT_OPEN, AGAIN))
  {
    var w1 := Step(LEFT_OPEN, AGAIN[0]);
    var w2 := Step(w1, AGAIN[1]);
    ThreeSteps(LEFT_OPEN, AGAIN, w1, w2, Step(w2, AGAIN[2]));
  }

  /** Only then does the first tab clear the flag, and the rotated token is sent again. */
  lemma LateClearPresentsAgain()
    ensures var events := LOGOUT_SENT + LOGOUT_DONE + LOGIN_SENT + LOGIN_DONE + REFRESH_SENT + REFRESH_LOST + AGAIN;
            Runs(START, events) && Presents(Run(START, events))
  {
    LogoutIsSent();
    LogoutIsDone();
    RunsOn(START, LOGOUT_SENT, LOGOUT_DONE);
    LoginIsSent();
    RunsOn(START, LOGOUT_SENT + LOGOUT_DONE, LOGIN_SENT);
    LoginIsDone();
    RunsOn(START, LOGOUT_SENT + LOGOUT_DONE + LOGIN_SENT, LOGIN_DONE);
    RefreshIsSent();
    RunsOn(START, LOGOUT_SENT + LOGOUT_DONE + LOGIN_SENT + LOGIN_DONE, REFRESH_SENT);
    RefreshIsLost();
    RunsOn(START, LOGOUT_SENT + LOGOUT_DONE + LOGIN_SENT + LOGIN_DONE + REFRESH_SENT, REFRESH_LOST);
    AgainRun();
    RunsOn(START, LOGOUT_SENT + LOGOUT_DONE + LOGIN_SENT + LOGIN_DONE + REFRESH_SENT + REFRESH_LOST, AGAIN);
  }
}
