/**
  Use cases that nest in one transaction: the outermost scope commits or rolls back, and a nested
  scope that failed poisons it even if the failure was caught.
 */
module Transaction {
  import opened Wrappers

  /**
    What code does with a session, with every error decided: it writes, raises, opens a scope, or
    catches whatever its body raises. `commits` says whether the database takes the commit.
   */
  datatype Stmt =
    | Write(value: nat)
    | Raise
    | Scope(body: seq<Stmt>, commits: bool)
    | Catch(body: seq<Stmt>)

  /** The marker of the open scope (and whether it failed), the open transaction, what is committed. */
  datatype Session = Session(marker: Option<bool>, active: bool, pending: seq<nat>, committed: seq<nat>)

  function Exec(stmts: seq<Stmt>, s: Session): (Session, bool)
    decreases stmts
  {
    if stmts == [] then (s, false)
    else
      var (s1, raised) := ExecOne(stmts[0], s);
      if raised then (s1, true) else Exec(stmts[1..], s1)
  }

  /** A write outside every scope opens a transaction of its own, which a scope then refuses to join. */
  function ExecOne(stmt: Stmt, s: Session): (Session, bool)
    decreases stmt
  {
    match stmt
    case Write(v) => (s.(active := true, pending := s.pending + [v]), false)
    case Raise => (s, true)
    case Catch(body) => (Exec(body, s).0, false)
    case Scope(body, commits) =>
      if s.marker.Some? then
        var (s1, raised) := Exec(body, s);
        if raised then (s1.(marker := Some(true)), true) else (s1, false)
      else if s.active then (s, true)
      else
        var (s1, raised) := Exec(body, s.(active := true, marker := Some(false)));
        if !raised && s1.marker == Some(false) && commits
        then (Session(None, false, [], s1.committed + s1.pending), false)
        else (Session(None, false, [], s1.committed), true)
  }

  /** The session, driven scope by scope. */
  class UseCaseSession {
    var marker: Option<bool>
    var active: bool
    var pending: seq<nat>
    var committed: seq<nat>

    function State(): Session
      reads this
    {
      Session(marker, active, pending, committed)
    }

    method Run(stmts: seq<Stmt>) returns (raised: bool)
      modifies this
      ensures (State(), raised) == Exec(stmts, old(State()))
      decreases stmts
    {
      var k := 0;
      while k < |stmts|
        invariant 0 <= k <= |stmts|
        invariant Exec(stmts, old(State())) == Exec(stmts[k..], State())
      {
        assert stmts[k..][0] == stmts[k] && stmts[k..][1..] == stmts[k + 1..];
        raised := RunOne(stmts[k]);
        if raised { return true; }
        k := k + 1;
      }
      return false;
    }

    method RunOne(stmt: Stmt) returns (raised: bool)
      modifies this
      ensures (State(), raised) == ExecOne(stmt, old(State()))
      decreases stmt
    {
      match stmt {
        case Write(v) => { active, pending := true, pending + [v]; return false; }
        case Raise => return true;
        case Catch(body) => { var caught := Run(body); return false; }
        case Scope(body, commits) => raised := RunScope(body, commits, stmt);
      }
    }

    method RunScope(body: seq<Stmt>, commits: bool, ghost stmt: Stmt) returns (raised: bool)
      requires stmt == Scope(body, commits)
      modifies this
      ensures (State(), raised) == ExecOne(stmt, old(State()))
      decreases stmt, 0
    {
      if marker.Some? {
        raised := Run(body);
        if raised { marker := Some(true); }
        return;
      }
      if active { return true; }
      active, marker := true, Some(false);
      assert State() == old(State()).(active := true, marker := Some(false));
      raised := Run(body);
      raised := raised || marker != Some(false) || !commits;
      marker := None;
      if !raised { committed := committed + pending; }
      active, pending := false, [];
    }
  }

  // ---------- what a body does, without any session ----------

  /** Whether it raises, what it writes, and whether a scope inside it raised. */
  datatype Effect = Effect(raised: bool, writes: seq<nat>, poisoned: bool)

  function Then(a: Effect, b: Effect): Effect {
    if a.raised then a else Effect(b.raised, a.writes + b.writes, a.poisoned || b.poisoned)
  }

  function Meaning(stmts: seq<Stmt>): Effect
    decreases stmts
  {
    if stmts == [] then Effect(false, [], false) else Then(MeaningOne(stmts[0]), Meaning(stmts[1..]))
  }

  function MeaningOne(stmt: Stmt): Effect
    decreases stmt
  {
    match stmt
    case Write(v) => Effect(false, [v], false)
    case Raise => Effect(true, [], false)
    case Catch(body) => Meaning(body).(raised := false)
    case Scope(body, _) => var e := Meaning(body); e.(poisoned := e.poisoned || e.raised)
  }

  /** Inside a scope, a body adds its writes to the transaction and its failures to the marker. */
  lemma {:induction false} Inside(stmts: seq<Stmt>, s: Session)
    requires s.marker.Some? && s.active
    ensures var e := Meaning(stmts);
            Exec(stmts, s) == (Session(Some(s.marker.value || e.poisoned), true, s.pending + e.writes, s.committed), e.raised)
    decreases stmts, 1
  {
    if stmts == [] {
      assert s.pending + [] == s.pending;
    } else {
      InsideOne(stmts[0], s);
      var (s1, raised) := ExecOne(stmts[0], s);
      if !raised {
        Inside(stmts[1..], s1);
        var a, b := MeaningOne(stmts[0]), Meaning(stmts[1..]);
        assert s.pending + a.writes + b.writes == s.pending + (a.writes + b.writes);
      }
    }
  }

  lemma {:induction false} InsideOne(stmt: Stmt, s: Session)
    requires s.marker.Some? && s.active
    ensures var e := MeaningOne(stmt);
            ExecOne(stmt, s) == (Session(Some(s.marker.value || e.poisoned), true, s.pending + e.writes, s.committed), e.raised)
    decreases stmt, 0
  {
    match stmt
    case Write(_) =>
    case Raise => assert s.pending + [] == s.pending;
    case Catch(body) => Inside(body, s);
    case Scope(body, _) => Inside(body, s);
  }

  predicate Idle(s: Session) {
    s.marker.None? && !s.active && s.pending == []
  }

  /**
    An outermost scope commits all writes of its body exactly when the body ends normally, no scope
    inside it raised, and the database takes the commit; otherwise it raises and no write survives.
    Either way the marker is gone and no transaction is left open.
   */
  lemma OutermostScope(body: seq<Stmt>, commits: bool, s: Session)
    requires Idle(s)
    ensures var e := Meaning(body);
            var good := !e.raised && !e.poisoned && commits;
            ExecOne(Scope(body, commits), s)
              == (Session(None, false, [], if good then s.committed + e.writes else s.committed), !good)
  {
    Inside(body, s.(active := true, marker := Some(false)));
    assert s.pending + Meaning(body).writes == Meaning(body).writes;
  }

  /** A scope is refused while a transaction it did not open is active; nothing changes. */
  lemma ForeignTransactionRefused(body: seq<Stmt>, commits: bool, s: Session)
    requires s.marker.None? && s.active
    ensures ExecOne(Scope(body, commits), s) == (s, true)
  {}

  // ---------- a whole request of scopes ----------

  ghost predicate OnlyScopes(stmts: seq<Stmt>)
    decreases stmts
  {
    forall i :: 0 <= i < |stmts| ==> OnlyScopesIn(stmts[i])
  }

  /** Nothing is written outside a scope. */
  ghost predicate OnlyScopesIn(stmt: Stmt)
    decreases stmt
  {
    match stmt
    case Write(_) => false
    case Raise => true
    case Scope(_, _) => true
    case Catch(body) => OnlyScopes(body)
  }

  /** Code that writes only inside scopes leaves an idle session idle, whatever raises and is caught. */
  lemma {:induction false} MarkerAlwaysRemoved(stmts: seq<Stmt>, s: Session)
    requires Idle(s) && OnlyScopes(stmts)
    ensures Idle(Exec(stmts, s).0) && s.committed <= Exec(stmts, s).0.committed
    decreases stmts, 1
  {
    if stmts != [] {
      assert OnlyScopesIn(stmts[0]);
      RemovedOne(stmts[0], s);
      var (s1, raised) := ExecOne(stmts[0], s);
      if !raised {
        assert forall i :: 0 <= i < |stmts[1..]| ==> stmts[1..][i] == stmts[i + 1];
        MarkerAlwaysRemoved(stmts[1..], s1);
      }
    }
  }

  lemma {:induction false} RemovedOne(stmt: Stmt, s: Session)
    requires Idle(s) && OnlyScopesIn(stmt)
    ensures Idle(ExecOne(stmt, s).0) && s.committed <= ExecOne(stmt, s).0.committed
    decreases stmt, 0
  {
    match stmt
    case Raise =>
    case Catch(body) => MarkerAlwaysRemoved(body, s);
    case Scope(body, commits) => OutermostScope(body, commits, s);
  }
}
