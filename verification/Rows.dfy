/** Lists of rows with an id, as the studio documents keep them. */
module Rows {
  import opened Wrappers

  datatype Row<+T> = Row(id: string, value: T)

  function Ids<T>(rows: seq<Row<T>>): set<string> {
    set i | 0 <= i < |rows| :: rows[i].id
  }

  ghost predicate Distinct<T>(rows: seq<Row<T>>) {
    forall i, j :: 0 <= i < j < |rows| ==> rows[i].id != rows[j].id
  }

  /** Every id is nonempty and none occurs twice. */
  ghost predicate UniqueRows<T>(rows: seq<Row<T>>) {
    Distinct(rows) && forall i :: 0 <= i < |rows| ==> rows[i].id != ""
  }

  function Find<T>(rows: seq<Row<T>>, id: string): (r: Option<Row<T>>)
    ensures r.Some? <==> id in Ids(rows)
    ensures r.Some? ==> r.value.id == id && exists i :: 0 <= i < |rows| && rows[i] == r.value
  {
    if rows == [] then None
    else
      assert rows == [rows[0]] + rows[1..];
      assert Ids(rows) == {rows[0].id} + Ids(rows[1..]) by { IdsCons(rows); }
      if rows[0].id == id then Some(rows[0])
      else
        var r := Find(rows[1..], id);
        assert r.Some? ==> exists i :: 0 <= i < |rows| && rows[i] == r.value by {
          if r.Some? { var i :| 0 <= i < |rows[1..]| && rows[1..][i] == r.value; assert rows[i + 1] == r.value; }
        }
        r
  }

  function Without<T>(rows: seq<Row<T>>, id: string): seq<Row<T>> {
    if rows == [] then []
    else (if rows[0].id == id then [] else [rows[0]]) + Without(rows[1..], id)
  }

  function MapRows<T>(rows: seq<Row<T>>, f: Row<T> -> T): (r: seq<Row<T>>)
    ensures |r| == |rows|
    ensures forall i :: 0 <= i < |rows| ==> r[i] == Row(rows[i].id, f(rows[i]))
  {
    if rows == [] then [] else [Row(rows[0].id, f(rows[0]))] + MapRows(rows[1..], f)
  }

  lemma IdsCons<T>(rows: seq<Row<T>>)
    requires rows != []
    ensures Ids(rows) == {rows[0].id} + Ids(rows[1..])
  {
    forall x | x in Ids(rows) ensures x in {rows[0].id} + Ids(rows[1..]) {
      var i :| 0 <= i < |rows| && rows[i].id == x;
      if i > 0 { assert rows[1..][i - 1].id == x; }
    }
    forall x | x in Ids(rows[1..]) ensures x in Ids(rows) {
      var i :| 0 <= i < |rows[1..]| && rows[1..][i].id == x;
      assert rows[i + 1].id == x;
    }
  }

  lemma IdsConcat<T>(a: seq<Row<T>>, b: seq<Row<T>>)
    ensures Ids(a + b) == Ids(a) + Ids(b)
  {
    forall x | x in Ids(a + b) ensures x in Ids(a) + Ids(b) {
      var i :| 0 <= i < |a + b| && (a + b)[i].id == x;
      if i < |a| { assert a[i].id == x; } else { assert b[i - |a|].id == x; }
    }
    forall x | x in Ids(a) ensures x in Ids(a + b) {
      var i :| 0 <= i < |a| && a[i].id == x;
      assert (a + b)[i].id == x;
    }
    forall x | x in Ids(b) ensures x in Ids(a + b) {
      var i :| 0 <= i < |b| && b[i].id == x;
      assert (a + b)[|a| + i].id == x;
    }
  }

  /** Appending a row keeps the ids distinct exactly when its id is new. */
  lemma AppendUnique<T>(rows: seq<Row<T>>, row: Row<T>)
    requires UniqueRows(rows) && row.id != ""
    ensures Ids(rows + [row]) == Ids(rows) + {row.id}
    ensures UniqueRows(rows + [row]) <==> row.id !in Ids(rows)
  {
    IdsConcat(rows, [row]);
    assert Ids([row]) == {row.id} by { assert [row][0].id == row.id; }
    var r := rows + [row];
    if row.id in Ids(rows) {
      var i :| 0 <= i < |rows| && rows[i].id == row.id;
      assert r[i].id == r[|rows|].id;
    } else {
      forall i, j | 0 <= i < j < |r| ensures r[i].id != r[j].id {
        if j == |rows| { assert rows[i].id in Ids(rows); }
      }
    }
  }

  lemma MapKeeps<T>(rows: seq<Row<T>>, f: Row<T> -> T)
    ensures Ids(MapRows(rows, f)) == Ids(rows)
    ensures UniqueRows(MapRows(rows, f)) <==> UniqueRows(rows)
  {
    var r := MapRows(rows, f);
    forall i | 0 <= i < |rows| ensures r[i].id == rows[i].id {}
    forall x | x in Ids(rows) ensures x in Ids(r) {
      var i :| 0 <= i < |rows| && rows[i].id == x;
      assert r[i].id == x;
    }
  }

  lemma {:induction false} WithoutAbsent<T>(rows: seq<Row<T>>, id: string)
    requires id !in Ids(rows)
    ensures Without(rows, id) == rows
  {
    if rows != [] {
      IdsCons(rows);
      WithoutAbsent(rows[1..], id);
      assert rows == [rows[0]] + rows[1..];
    }
  }

  /** With distinct ids, removing one takes out exactly the row found under it. */
  lemma {:induction false} WithoutAt<T>(rows: seq<Row<T>>, id: string) returns (k: nat)
    requires Distinct(rows) && id in Ids(rows)
    ensures k < |rows| && Find(rows, id) == Some(rows[k]) && rows[k].id == id
    ensures Without(rows, id) == rows[..k] + rows[k + 1..]
  {
    IdsCons(rows);
    if rows[0].id == id {
      k := 0;
      assert id !in Ids(rows[1..]);
      WithoutAbsent(rows[1..], id);
    } else {
      assert Distinct(rows[1..]);
      var k' := WithoutAt(rows[1..], id);
      k := k' + 1;
      assert rows[..k] == [rows[0]] + rows[1..][..k'];
      assert rows[k + 1..] == rows[1..][k' + 1..];
    }
  }

  lemma {:induction false} WithoutMembers<T>(rows: seq<Row<T>>, id: string)
    ensures forall row :: row in Without(rows, id) <==> row in rows && row.id != id
  {
    if rows != [] {
      WithoutMembers(rows[1..], id);
      assert rows == [rows[0]] + rows[1..];
      assert forall row :: row in rows <==> row == rows[0] || row in rows[1..];
    }
  }

  lemma {:induction false} WithoutIds<T>(rows: seq<Row<T>>, id: string)
    ensures Ids(Without(rows, id)) == Ids(rows) - {id}
  {
    if rows != [] {
      WithoutIds(rows[1..], id);
      IdsCons(rows);
      IdsConcat([rows[0]], Without(rows[1..], id));
      assert Ids([rows[0]]) == {rows[0].id} by { assert [rows[0]][0].id == rows[0].id; }
      if rows[0].id == id { assert Without(rows, id) == Without(rows[1..], id); }
    }
  }

  lemma {:induction false} WithoutUnique<T>(rows: seq<Row<T>>, id: string)
    requires UniqueRows(rows)
    ensures UniqueRows(Without(rows, id))
  {
    if rows != [] {
      WithoutUnique(rows[1..], id);
      if rows[0].id == id {
        assert Without(rows, id) == Without(rows[1..], id);
      } else {
        WithoutIds(rows[1..], id);
        var t := Without(rows[1..], id);
        forall j | 0 <= j < |t| ensures t[j].id != rows[0].id {
          assert t[j].id in Ids(t) && t[j].id in Ids(rows[1..]);
          var k :| 0 <= k < |rows[1..]| && rows[1..][k].id == t[j].id;
          assert rows[k + 1].id == t[j].id;
        }
      }
    }
  }

  lemma WithoutKeeps<T>(rows: seq<Row<T>>, id: string)
    requires UniqueRows(rows)
    ensures UniqueRows(Without(rows, id)) && Ids(Without(rows, id)) == Ids(rows) - {id}
    ensures forall row :: row in Without(rows, id) <==> row in rows && row.id != id
  {
    WithoutUnique(rows, id);
    WithoutIds(rows, id);
    WithoutMembers(rows, id);
  }

  /** A row with a new id, appended and removed again, leaves the list as it was. */
  lemma AppendWithout<T>(rows: seq<Row<T>>, row: Row<T>)
    requires row.id !in Ids(rows)
    ensures Without(rows + [row], row.id) == rows && Find(rows + [row], row.id) == Some(row)
  {
    if rows == [] {
      assert [] + [row] == [row];
    } else {
      IdsCons(rows);
      AppendWithout(rows[1..], row);
      assert (rows + [row])[1..] == rows[1..] + [row];
      assert rows == [rows[0]] + rows[1..];
    }
  }

  lemma MemberId<T>(rows: seq<Row<T>>, row: Row<T>)
    requires row in rows
    ensures row.id in Ids(rows)
  {
    var i :| 0 <= i < |rows| && rows[i] == row;
  }

  lemma FindMember<T>(rows: seq<Row<T>>, row: Row<T>)
    requires Distinct(rows) && row in rows
    ensures Find(rows, row.id) == Some(row)
  {
    MemberId(rows, row);
    var i :| 0 <= i < |rows| && rows[i] == row;
    var k := WithoutAt(rows, row.id);
  }

  lemma SameRows<T>(a: seq<Row<T>>, b: seq<Row<T>>)
    requires |a| == |b| && forall i :: 0 <= i < |a| ==> a[i] == b[i]
    ensures a == b
  {}
}
