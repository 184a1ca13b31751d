/**
  The conversation as the server keeps it, and how it changes while a client is reading.

  Positions come from one table-wide identity column, so they only grow and are never reused;
  message ids are fresh on insertion. A plain append keeps `revision`; replacing the last
  message or rewinding the tail advances it in the same transaction.
 */
module ChatServer {
  import opened Wrappers

  datatype Message = Message(id: string, conversation: string, sender: string,
                             content: string, position: int, revision: int)

  /** `issued` and `clock` remember every id and position ever handed out. */
  datatype Server = Server(revision: int, messages: seq<Message>, issued: set<string>, clock: int)

  datatype Cursor = Cursor(position: int)

  const PAGE_SIZE := 100
  const MAX_SAFE_INTEGER := 9007199254740991

  function Ids(ms: seq<Message>): set<string> {
    set m | m in ms :: m.id
  }

  ghost predicate Ordered(ms: seq<Message>) {
    forall i, j :: 0 <= i < j < |ms| ==> ms[i].position < ms[j].position
  }

  ghost predicate UniqueIds(ms: seq<Message>) {
    forall i, j :: 0 <= i < j < |ms| ==> ms[i].id != ms[j].id
  }

  ghost predicate Valid(s: Server) {
    && 0 < s.revision <= MAX_SAFE_INTEGER
    && Ordered(s.messages) && UniqueIds(s.messages)
    && (forall m :: m in s.messages ==> m.id in s.issued && 0 < m.position <= s.clock)
    && 0 <= s.clock
  }

  ghost predicate AppendStep(s: Server, s': Server) {
    var n := |s.messages|;
    && |s'.messages| == n + 1 && s'.messages[..n] == s.messages
    && var m := s'.messages[n];
    && m.id !in s.issued && m.position > s.clock
    && s' == Server(s.revision, s'.messages, s.issued + {m.id}, m.position)
  }

  ghost predicate ReplaceStep(s: Server, s': Server) {
    var n := |s.messages|;
    && |s'.messages| == n > 0
    && s' == s.(revision := s.revision + 1,
                messages := s.messages[n - 1 := s.messages[n - 1].(content := s'.messages[n - 1].content,
                                                                   revision := s.messages[n - 1].revision + 1)])
  }

  ghost predicate RewindStep(s: Server, s': Server) {
    && |s'.messages| < |s.messages|
    && s' == s.(revision := s.revision + 1, messages := s.messages[..|s'.messages|])
  }

  ghost predicate Next(s: Server, s': Server) {
    s' == s || AppendStep(s, s') || ReplaceStep(s, s') || RewindStep(s, s')
  }

  type Timeline = nat -> Server

  ghost predicate StepAt(srv: Timeline, t: nat) {
    Next(srv(t), srv(t + 1))
  }

  /** Every history of one conversation. Revisions stay inside JavaScript's safe integers. */
  ghost predicate Runs(srv: Timeline, conversation: string) {
    && Valid(srv(0))
    && (forall t: nat :: StepAt(srv, t))
    && (forall t: nat :: srv(t).revision <= MAX_SAFE_INTEGER)
    && (forall t: nat, m :: m in srv(t).messages ==> m.conversation == conversation)
  }

  lemma {:induction false} AlwaysValid(srv: Timeline, c: string, t: nat)
    requires Runs(srv, c)
    ensures Valid(srv(t))
  {
    if t > 0 {
      AlwaysValid(srv, c, t - 1);
      var s, s' := srv(t - 1), srv(t);
      assert StepAt(srv, t - 1);
      if AppendStep(s, s') {
        forall m | m in s'.messages ensures m in s.messages || m == s'.messages[|s.messages|] {
          assert s'.messages == s'.messages[..|s.messages|] + [s'.messages[|s.messages|]];
        }
        forall i, j | 0 <= i < j < |s'.messages|
          ensures s'.messages[i].position < s'.messages[j].position && s'.messages[i].id != s'.messages[j].id
        {
          assert s'.messages[i] == s.messages[i];
          if j < |s.messages| { assert s'.messages[j] == s.messages[j]; }
        }
      }
    }
  }

  /** With an unchanged revision the later list extends the earlier one past its clock. */
  ghost predicate Extends(s: Server, s': Server) {
    && s.messages <= s'.messages
    && forall i :: |s.messages| <= i < |s'.messages| ==> s'.messages[i].position > s.clock
  }

  lemma {:induction false} Advances(srv: Timeline, c: string, i: nat, j: nat)
    requires Runs(srv, c) && i <= j
    ensures srv(i).revision <= srv(j).revision
    ensures srv(i).clock <= srv(j).clock
    ensures srv(i).revision == srv(j).revision ==> Extends(srv(i), srv(j))
    ensures srv(i).issued <= srv(j).issued
    decreases j - i
  {
    if i < j {
      Advances(srv, c, i, j - 1);
      AlwaysValid(srv, c, j - 1);
      AlwaysValid(srv, c, i);
      assert StepAt(srv, j - 1);
      var s, s' := srv(j - 1), srv(j);
      if AppendStep(s, s') && srv(i).revision == s'.revision {
        forall k | |srv(i).messages| <= k < |s'.messages| ensures s'.messages[k].position > srv(i).clock {
          if k < |s.messages| { assert s'.messages[k] == s.messages[k]; }
        }
      }
    }
  }

  /** The row a later state holds under an id that was already issued was held all along. */
  ghost predicate HeldBefore(s: Server, m': Message) {
    exists m :: m in s.messages && m.id == m'.id && m.position == m'.position
             && m.revision <= m'.revision && (m.revision == m'.revision ==> m == m')
  }

  lemma {:induction false} HeldThroughout(srv: Timeline, c: string, i: nat, j: nat, m': Message)
    requires Runs(srv, c) && i <= j
    requires m' in srv(j).messages && m'.id in srv(i).issued
    ensures HeldBefore(srv(i), m')
    decreases j - i
  {
    if i == j {
      assert m' in srv(i).messages && m'.id == m'.id;
    } else {
      assert StepAt(srv, j - 1);
      Advances(srv, c, i, j - 1);
      var s, s' := srv(j - 1), srv(j);
      var k :| 0 <= k < |s'.messages| && s'.messages[k] == m';
      if AppendStep(s, s') {
        assert k < |s.messages|;
        assert s'.messages[..|s.messages|][k] == m';
        assert m' in s.messages;
        HeldThroughout(srv, c, i, j - 1, m');
      } else {
        var p := s.messages[k];
        assert p.id == m'.id && p.position == m'.position && p in s.messages;
        HeldThroughout(srv, c, i, j - 1, p);
        var m :| m in srv(i).messages && m.id == p.id && m.position == p.position
                 && m.revision <= p.revision && (m.revision == p.revision ==> m == p);
        assert m.revision <= m'.revision && (m.revision == m'.revision ==> m == m');
      }
    }
  }

  // ---------- one page ----------

  /** A page as it arrives: every field the client inspects may be missing. */
  datatype Page = Page(items: seq<Message>, next: Option<Cursor>, revision: Option<int>, sync: SyncField)

  /** `sync_cursor`: absent from the body, null, or a checkpoint. */
  datatype SyncField = Missing | NoRow | At(cursor: Cursor)

  function After(ms: seq<Message>, p: int): seq<Message> {
    if ms == [] then []
    else if ms[0].position > p then [ms[0]] + After(ms[1..], p)
    else After(ms[1..], p)
  }

  lemma {:induction false} AfterIsSuffix(ms: seq<Message>, p: int) returns (k: nat)
    requires Ordered(ms)
    ensures k <= |ms| && After(ms, p) == ms[k..]
    ensures forall i :: 0 <= i < k ==> ms[i].position <= p
    ensures forall i :: k <= i < |ms| ==> ms[i].position > p
  {
    if ms == [] {
      k := 0;
    } else if ms[0].position > p {
      var k' := AfterIsSuffix(ms[1..], p);
      assert forall i :: 0 <= i < |ms| ==> ms[i].position > p;
      assert k' == 0;
      k := 0;
      assert ms[0..] == [ms[0]] + ms[1..];
    } else {
      var k' := AfterIsSuffix(ms[1..], p);
      k := k' + 1;
      assert ms[1..][k'..] == ms[k..];
      forall i | 0 <= i < k ensures ms[i].position <= p {
        if i > 0 { assert ms[i] == ms[1..][i - 1]; }
      }
      forall i | k <= i < |ms| ensures ms[i].position > p {
        assert ms[i] == ms[1..][i - 1];
      }
    }
  }

  function CursorPosition(c: Option<Cursor>): int {
    if c.Some? then c.value.position else 0
  }

  /**
    The server answers with the revision it read first and the rows it read next. `rev` and
    `rows` come from two statements, so they may be taken at different moments.
   */
  function PageOf(rev: int, rows: seq<Message>, cursor: Option<Cursor>): Page {
    var found := After(rows, CursorPosition(cursor));
    var more := |found| > PAGE_SIZE;
    var items := if more then found[..PAGE_SIZE] else found;
    Page(items,
         if more then Some(Cursor(items[|items| - 1].position)) else None,
         Some(rev),
         if items != [] then At(Cursor(items[|items| - 1].position))
         else if cursor.Some? then At(cursor.value) else NoRow)
  }
}
