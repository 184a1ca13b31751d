/**
  The other side of the locked refresh: one that nothing disturbs goes through, and exactly which
  answers leave the flag set, so that no further refresh is sent until somebody logs in.
 */
module AdminRefreshes {
  import opened Wrappers
  import opened AdminSession
  import opened AdminSessionRuns

  const EXPIRED := Failure(401, "invalid_token")

  lemma {:induction false} Joined(w: World, first: seq<Event>, rest: seq<Event>)
    requires Runs(w, first) && Runs(Run(w, first), rest)
    ensures Runs(w, first + rest) && Run(w, first + rest) == Run(Run(w, first), rest)
    decreases first
  {
    if first == [] {
      assert first + rest == rest;
    } else {
      Joined(Step(w, first[0]), first[1..], rest);
      assert (first + rest)[1..] == first[1..] + rest;
    }
  }

  lemma One(w: World, e: Event)
    requires Legal(w, e)
    ensures Runs(w, [e]) && Run(w, [e]) == Step(w, e)
  {
    assert [e][1..] == [] && Runs(Step(w, e), []) && Run(Step(w, e), []) == Step(w, e);
  }

  lemma Cons(w: World, e: Event, rest: seq<Event>)
    requires Legal(w, e) && Runs(Step(w, e), rest)
    ensures Runs(w, [e] + rest) && Run(w, [e] + rest) == Run(Step(w, e), rest)
  {
    assert ([e] + rest)[1..] == rest;
  }

  lemma Two(w: World, a: Event, b: Event)
    requires Legal(w, a) && Legal(Step(w, a), b)
    ensures Runs(w, [a, b]) && Run(w, [a, b]) == Step(Step(w, a), b)
  {
    One(Step(w, a), b);
    Cons(w, a, [b]);
    assert [a] + [b] == [a, b];
  }

  lemma Three(w: World, a: Event, b: Event, c: Event)
    requires Legal(w, a) && Legal(Step(w, a), b) && Legal(Step(Step(w, a), b), c)
    ensures Runs(w, [a, b, c]) && Run(w, [a, b, c]) == Step(Step(Step(w, a), b), c)
  {
    Two(Step(w, a), b, c);
    Cons(w, a, [b, c]);
    assert [a] + [b, c] == [a, b, c];
  }

  // ---------- who may refresh ----------

  /**
    Of all answers to "who am I" only an expired token, with the flag clear, lets a refresh go on;
    it sets the flag. Every other answer lets go of the lock, and the flag is as it was.
   */
  lemma RefreshGoesOnIff(w: World, me: Answer)
    requires w.holder.None?
    ensures Runs(w, [Acquire(Refresh), MeAnswers(me)])
    ensures var w' := Run(w, [Acquire(Refresh), MeAnswers(me)]);
            && (w'.holder.Some? <==> me.Failure? && me.status == 401 && me.code == "invalid_token" && !w.uncertain)
            && (w'.holder.Some? ==> w'.holder.value == Holder(Refresh, AtCsrf(false)) && w'.uncertain)
            && (w'.holder.None? ==> w'.uncertain == w.uncertain)
            && w'.requests == w.requests && w'.jar == w.jar
  {
    Two(w, Acquire(Refresh), MeAnswers(me));
  }

  // ---------- one request, answered ----------

  /** The holder gets its anti-forgery token, sends, and is answered as the server decides. */
  function Asked(r: nat, outcome: Outcome): seq<Event> {
    [CsrfReady(r), Process(r, outcome), Deliver(r)]
  }

  ghost predicate CanAsk(w: World, kind: Kind, second: bool, r: nat, outcome: Outcome) {
    && w.holder == Some(Holder(kind, AtCsrf(second))) && r !in w.requests
    && Possible(w, Request(kind, w.jar, Sent), outcome)
  }

  function AnswerOf(outcome: Outcome): Answer {
    match outcome
    case Accepted(a) => a
    case Revoked => Failure(401, "refresh_reused")
    case Untouched(a) => a
  }

  lemma AskedSteps(w: World, kind: Kind, second: bool, r: nat, outcome: Outcome)
    requires CanAsk(w, kind, second, r, outcome)
    ensures Legal(w, CsrfReady(r)) && Legal(Step(w, CsrfReady(r)), Process(r, outcome))
    ensures Legal(Step(Step(w, CsrfReady(r)), Process(r, outcome)), Deliver(r))
    ensures var w' := Step(Step(Step(w, CsrfReady(r)), Process(r, outcome)), Deliver(r));
            && w'.holder == Some(Holder(kind, Answered(second, AnswerOf(outcome))))
            && w'.uncertain == w.uncertain && w'.clears == w.clears
  {}

  lemma AskedRuns(w: World, kind: Kind, second: bool, r: nat, outcome: Outcome)
    requires CanAsk(w, kind, second, r, outcome)
    ensures Runs(w, Asked(r, outcome))
    ensures Run(w, Asked(r, outcome)) == Step(Step(Step(w, CsrfReady(r)), Process(r, outcome)), Deliver(r))
    ensures var w' := Run(w, Asked(r, outcome));
            && w'.holder == Some(Holder(kind, Answered(second, AnswerOf(outcome))))
            && w'.uncertain == w.uncertain && w'.clears == w.clears
  {
    AskedSteps(w, kind, second, r, outcome);
    Three(w, CsrfReady(r), Process(r, outcome), Deliver(r));
  }

  /** And goes on with the answer. */
  lemma AskedGoesOn(w: World, kind: Kind, second: bool, r: nat, outcome: Outcome)
    requires CanAsk(w, kind, second, r, outcome)
    ensures Runs(w, Asked(r, outcome)) && Runs(w, Asked(r, outcome) + [Continue])
    ensures Legal(Run(w, Asked(r, outcome)), Continue)
    ensures Run(w, Asked(r, outcome) + [Continue]) == Step(Run(w, Asked(r, outcome)), Continue)
  {
    AskedRuns(w, kind, second, r, outcome);
    One(Run(w, Asked(r, outcome)), Continue);
    Joined(w, Asked(r, outcome), [Continue]);
  }

  /**
    A refresh that is answered and goes on: it lets go of the lock, except that the first refusal
    of its anti-forgery token makes it ask for another. The flag it set is left exactly by a server
    error; every other answer clears it.
   */
  lemma RefreshEndsIff(w: World, second: bool, r: nat, outcome: Outcome)
    requires CanAsk(w, Refresh, second, r, outcome) && w.uncertain
    ensures Runs(w, Asked(r, outcome) + [Continue])
    ensures var w' := Run(w, Asked(r, outcome) + [Continue]);
            var a := AnswerOf(outcome);
            if a.Failure? && a.code == "csrf_failed" && !second
            then w'.holder == Some(Holder(Refresh, AtCsrf(true))) && w'.uncertain
            else w'.holder.None? && (w'.uncertain <==> a.NoAnswer? || (a.Failure? && a.status >= 500))
  {
    AskedRuns(w, Refresh, second, r, outcome);
    AskedGoesOn(w, Refresh, second, r, outcome);
  }

  /** A refresh whose answer never comes lets go of the lock with the flag set, wherever it broke. */
  lemma UnheardRefreshStaysFlagged(w: World, second: bool, r: nat)
    requires w.holder == Some(Holder(Refresh, AtPost(second, r))) && w.uncertain
    ensures Runs(w, [ConnectionBreaks, Continue])
    ensures var w' := Run(w, [ConnectionBreaks, Continue]); w'.holder.None? && w'.uncertain
  {
    Two(w, ConnectionBreaks, Continue);
  }

  /** A login in the same browser clears the flag exactly if it succeeds. */
  lemma LoginClearsIff(w: World, second: bool, r: nat, outcome: Outcome)
    requires CanAsk(w, Login, second, r, outcome) && w.uncertain
    requires var a := AnswerOf(outcome); !(a.Failure? && a.code == "csrf_failed" && !second)
    ensures Runs(w, Asked(r, outcome) + [Continue])
    ensures var w' := Run(w, Asked(r, outcome) + [Continue]);
            w'.holder.None? && (w'.uncertain <==> !AnswerOf(outcome).Success?)
  {
    AskedRuns(w, Login, second, r, outcome);
    AskedGoesOn(w, Login, second, r, outcome);
  }

  /** A logout leaves the flag as it is; only a successful one owes a clear after the lock. */
  lemma LogoutOwesAClear(w: World, second: bool, r: nat, outcome: Outcome)
    requires CanAsk(w, Logout, second, r, outcome)
    requires var a := AnswerOf(outcome); !(a.Failure? && a.code == "csrf_failed" && !second)
    ensures Runs(w, Asked(r, outcome) + [Continue])
    ensures var w' := Run(w, Asked(r, outcome) + [Continue]);
            && w'.holder.None? && w'.uncertain == w.uncertain
            && w'.clears == w.clears + (if AnswerOf(outcome).Success? then 1 else 0)
            && (w'.clears > 0 ==> Legal(w', LateClear) && !Step(w', LateClear).uncertain)
  {
    AskedRuns(w, Logout, second, r, outcome);
    AskedGoesOn(w, Logout, second, r, outcome);
  }

  // ---------- a whole refresh ----------

  ghost predicate Refreshable(w: World, r: nat) {
    w.holder.None? && !w.uncertain && r !in w.requests && w.jar.Some? && w.jar.value in w.live
  }

  /**
    An expired login whose refresh nobody disturbs: the lock is taken and let go, the old token is
    rotated, the browser has the new one, which the server takes, and the flag is clear again.
   */
  lemma QuietRefresh(w: World, r: nat)
    requires Refreshable(w, r)
    ensures var events := [Acquire(Refresh), MeAnswers(EXPIRED)] + (Asked(r, Accepted(Success)) + [Continue]);
            && Runs(w, events)
            && var w' := Run(w, events);
               && w'.holder.None? && !w'.uncertain && w'.jar == Some(w.next) && w.next in w'.live
               && w.jar.value in w'.spent
  {
    RefreshGoesOnIff(w, EXPIRED);
    var w1 := Run(w, [Acquire(Refresh), MeAnswers(EXPIRED)]);
    EntersUnchanged(w);
    RefreshEndsIff(w1, false, r, Accepted(Success));
    NewToken(w1, r);
    Joined(w, [Acquire(Refresh), MeAnswers(EXPIRED)], Asked(r, Accepted(Success)) + [Continue]);
  }

  lemma EntersUnchanged(w: World)
    requires w.holder.None? && !w.uncertain && Runs(w, [Acquire(Refresh), MeAnswers(EXPIRED)])
    ensures var w1 := Run(w, [Acquire(Refresh), MeAnswers(EXPIRED)]);
            w1.jar == w.jar && w1.live == w.live && w1.spent == w.spent && w1.next == w.next && w1.requests == w.requests
  {
    Two(w, Acquire(Refresh), MeAnswers(EXPIRED));
  }

  lemma NewToken(w: World, r: nat)
    requires w.holder == Some(Holder(Refresh, AtCsrf(false))) && r !in w.requests && w.jar.Some? && w.jar.value in w.live
    ensures Runs(w, Asked(r, Accepted(Success)) + [Continue])
    ensures var w' := Run(w, Asked(r, Accepted(Success)) + [Continue]);
            w'.jar == Some(w.next) && w.next in w'.live && w.jar.value in w'.spent
  {
    AskedRuns(w, Refresh, false, r, Accepted(Success));
    AskedGoesOn(w, Refresh, false, r, Accepted(Success));
  }
}
