/** A database table whose rows are unique on `(shopifyId, tenantId)`, with the
    keyed upsert the sync routine issues once per fetched record. Rows are kept
    in storage order; the table owns an autoincrement id counter. The
    payload `P` holds the columns an upsert overwrites. */
module Tables {
  import opened Common

  datatype Key = Key(shopifyId: string, tenantId: TenantId)

  datatype Row<P> = Row(id: RowId, key: Key, fields: P, createdAt: Day, updatedAt: Day)

  datatype Table<P> = Table(rows: seq<Row<P>>, nextId: RowId)

  /** One `upsert`: the unique key, the columns to write, and the `createdAt`
      to store if the row is new (`None`: the column default, the time of the insert). */
  datatype Write<P> = Write(key: Key, fields: P, createdAt: Option<Day>)

  /** The `createdAt` an insert of `w` at time `now` stores. */
  function Stamp<P>(w: Write<P>, now: Day): (d: Day)
    ensures w.createdAt.Some? ==> d == w.createdAt.value
    ensures w.createdAt.None? ==> d == now
  {
    match w.createdAt
    case Some(d) => d
    case None => now
  }

  ghost predicate UniqueKeys<P>(t: Table<P>)
  {
    forall i, j :: 0 <= i < |t.rows| && 0 <= j < |t.rows| && t.rows[i].key == t.rows[j].key ==> i == j
  }

  /** `findUnique` on the key: the position of the row with key `k`. */
  function Find<P>(rows: seq<Row<P>>, k: Key): (r: Option<nat>)
    ensures r.Some? ==> r.value < |rows| && rows[r.value].key == k
    ensures r.Some? ==> forall j :: 0 <= j < r.value ==> rows[j].key != k
    ensures r.None? ==> forall j :: 0 <= j < |rows| ==> rows[j].key != k
  {
    if rows == [] then None
    else match Find(rows[..|rows| - 1], k)
      case Some(i) => Some(i)
      case None => if rows[|rows| - 1].key == k then Some(|rows| - 1) else None
  }

  /** Lookups depend only on the keys: a table that keeps every existing key in
      place and at most appends rows finds an existing key where it was. */
  lemma FindStable<P, Q>(a: seq<Row<P>>, b: seq<Row<Q>>, k: Key)
    requires |a| <= |b|
    requires forall i :: 0 <= i < |a| ==> b[i].key == a[i].key
    ensures Find(a, k).Some? ==> Find(b, k) == Find(a, k)
    ensures Find(a, k).None? && |a| == |b| ==> Find(b, k).None?
  {
    if Find(a, k).Some? {
      var i := Find(a, k).value;
      assert b[i].key == k;
    }
  }

  /** The row with key `w.key` gets `w.fields` and `updatedAt := now`, keeping
      its id and `createdAt`; without such a row a new one is appended with the
      next id, `w.createdAt` and `updatedAt := now`. */
  function Upsert<P>(t: Table<P>, w: Write<P>, now: Day): (r: Table<P>)
    ensures Find(t.rows, w.key).Some? ==> |r.rows| == |t.rows| && r.nextId == t.nextId
    ensures Find(t.rows, w.key).None? ==> |r.rows| == |t.rows| + 1 && r.nextId == t.nextId + 1
    ensures Find(t.rows, w.key).None? ==> r.rows[|t.rows|] == Row(t.nextId, w.key, w.fields, Stamp(w, now), now)
    ensures forall i :: 0 <= i < |t.rows| ==> r.rows[i].key == t.rows[i].key
    ensures forall i :: 0 <= i < |t.rows| && Some(i) != Find(t.rows, w.key) ==> r.rows[i] == t.rows[i]
    ensures Find(r.rows, w.key).Some?
    ensures var i := Find(r.rows, w.key).value;
      r.rows[i].fields == w.fields && r.rows[i].updatedAt == now &&
      match Find(t.rows, w.key)
      case Some(j) => i == j && r.rows[i].id == t.rows[j].id && r.rows[i].createdAt == t.rows[j].createdAt
      case None => i == |t.rows| && r.rows[i].id == t.nextId && r.rows[i].createdAt == Stamp(w, now)
  {
    match Find(t.rows, w.key)
    case Some(j) =>
      var rows := t.rows[j := t.rows[j].(fields := w.fields, updatedAt := now)];
      FindStable(t.rows, rows, w.key);
      Table(rows, t.nextId)
    case None =>
      var rows := t.rows + [Row(t.nextId, w.key, w.fields, Stamp(w, now), now)];
      assert rows[..|t.rows|] == t.rows;
      Table(rows, t.nextId + 1)
  }

  /** A whole sync pass for one entity: the upserts in order. */
  function Pass<P>(t: Table<P>, ws: seq<Write<P>>, now: Day): Table<P>
  {
    if ws == [] then t else Upsert(Pass(t, ws[..|ws| - 1], now), ws[|ws| - 1], now)
  }

  /** A pass adds at most one row per write, and each added row consumes one id. */
  lemma {:induction false} PassGrows<P>(t: Table<P>, ws: seq<Write<P>>, now: Day)
    ensures |t.rows| <= |Pass(t, ws, now).rows| <= |t.rows| + |ws|
    ensures Pass(t, ws, now).nextId == t.nextId + (|Pass(t, ws, now).rows| - |t.rows|)
  {
    if ws != [] {
      PassGrows(t, ws[..|ws| - 1], now);
    }
  }

  function WriteKeys<P>(ws: seq<Write<P>>): set<Key>
  {
    set i | 0 <= i < |ws| :: ws[i].key
  }

  /** The last write of key `k`, whose columns a pass leaves behind. */
  function LastWrite<P>(ws: seq<Write<P>>, k: Key): (r: Option<Write<P>>)
    ensures r.Some? <==> k in WriteKeys(ws)
    ensures r.Some? ==> r.value.key == k
  {
    if ws == [] then None
    else if ws[|ws| - 1].key == k then Some(ws[|ws| - 1])
    else
      var r := LastWrite(ws[..|ws| - 1], k);
      assert ws == ws[..|ws| - 1] + [ws[|ws| - 1]];
      r
  }

  /** The first write of key `k`, whose `createdAt` an insert stores. */
  function FirstWrite<P>(ws: seq<Write<P>>, k: Key): (r: Option<Write<P>>)
    ensures r.Some? <==> k in WriteKeys(ws)
    ensures r.Some? ==> r.value.key == k && exists i :: 0 <= i < |ws| && ws[i] == r.value
  {
    if ws == [] then None
    else
      assert ws == ws[..|ws| - 1] + [ws[|ws| - 1]];
      match FirstWrite(ws[..|ws| - 1], k)
      case Some(w) => Some(w)
      case None => if ws[|ws| - 1].key == k then Some(ws[|ws| - 1]) else None
  }

  lemma WriteKeysSnoc<P>(ws: seq<Write<P>>)
    requires ws != []
    ensures WriteKeys(ws) == WriteKeys(ws[..|ws| - 1]) + {ws[|ws| - 1].key}
  {
    assert ws == ws[..|ws| - 1] + [ws[|ws| - 1]];
  }

  /** The write at `i` is the last write of its key when no later write repeats the key. */
  lemma {:induction false} LastWriteAt<P>(ws: seq<Write<P>>, i: nat)
    requires i < |ws|
    requires forall j :: i < j < |ws| ==> ws[j].key != ws[i].key
    ensures LastWrite(ws, ws[i].key) == Some(ws[i])
  {
    if i < |ws| - 1 {
      var init := ws[..|ws| - 1];
      assert init[i] == ws[i];
      LastWriteAt(init, i);
    }
  }

  /** The write at `i` is the first write of its key when no earlier write has the key. */
  lemma {:induction false} FirstWriteAt<P>(ws: seq<Write<P>>, i: nat)
    requires i < |ws|
    requires forall j :: 0 <= j < i ==> ws[j].key != ws[i].key
    ensures FirstWrite(ws, ws[i].key) == Some(ws[i])
  {
    var init := ws[..|ws| - 1];
    if i < |ws| - 1 {
      assert init[i] == ws[i];
      FirstWriteAt(init, i);
    } else {
      assert ws[i].key !in WriteKeys(init);
    }
  }

  /** A pass never deletes: every existing row keeps its position, key, id
      and `createdAt`, and a row whose key is not written is left as it was.
      Rows it appends carry written keys. */
  lemma {:induction false} PassKeepsRows<P>(t: Table<P>, ws: seq<Write<P>>, now: Day)
    ensures var r := Pass(t, ws, now);
      |t.rows| <= |r.rows| && t.nextId <= r.nextId &&
      (forall i :: 0 <= i < |t.rows| ==>
        r.rows[i].key == t.rows[i].key && r.rows[i].id == t.rows[i].id &&
        r.rows[i].createdAt == t.rows[i].createdAt) &&
      (forall i :: 0 <= i < |t.rows| && t.rows[i].key !in WriteKeys(ws) ==> r.rows[i] == t.rows[i]) &&
      (forall i :: |t.rows| <= i < |r.rows| ==> r.rows[i].key in WriteKeys(ws))
  {
    if ws != [] {
      var init := ws[..|ws| - 1];
      var w := ws[|ws| - 1];
      PassKeepsRows(t, init, now);
      WriteKeysSnoc(ws);
      var p := Pass(t, init, now);
      var r := Upsert(p, w, now);
      assert r == Pass(t, ws, now);
      forall i | 0 <= i < |t.rows|
        ensures r.rows[i].key == t.rows[i].key && r.rows[i].id == t.rows[i].id
        ensures r.rows[i].createdAt == t.rows[i].createdAt
      {
        if Some(i) == Find(p.rows, w.key) {
          assert r.rows[Find(r.rows, w.key).value].id == p.rows[i].id;
        }
      }
      forall i | 0 <= i < |t.rows| && t.rows[i].key !in WriteKeys(ws) ensures r.rows[i] == t.rows[i] {
        assert p.rows[i].key != w.key;
      }
    }
  }

  /** Last write wins: after a pass the row for a written key holds the
      columns of its last write and was updated at `now`; it is the row that
      already had the key (same position, id and `createdAt`), or else a new
      row whose `createdAt` is that of the key's first write. */
  lemma {:induction false} PassLastWriteWins<P>(t: Table<P>, ws: seq<Write<P>>, now: Day, k: Key)
    requires k in WriteKeys(ws)
    ensures var r := Pass(t, ws, now);
      Find(r.rows, k).Some? &&
      var i := Find(r.rows, k).value;
      r.rows[i].fields == LastWrite(ws, k).value.fields && r.rows[i].updatedAt == now &&
      match Find(t.rows, k)
      case Some(j) => i == j && r.rows[i].id == t.rows[j].id && r.rows[i].createdAt == t.rows[j].createdAt
      case None => |t.rows| <= i && r.rows[i].createdAt == Stamp(FirstWrite(ws, k).value, now)
  {
    var init := ws[..|ws| - 1];
    var w := ws[|ws| - 1];
    var p := Pass(t, init, now);
    var r := Upsert(p, w, now);
    assert r == Pass(t, ws, now);
    WriteKeysSnoc(ws);
    PassKeepsRows(t, init, now);
    FindStable(t.rows, p.rows, k);
    if w.key == k {
      if Find(t.rows, k).None? && k in WriteKeys(init) {
        PassLastWriteWins(t, init, now, k);
      }
      if Find(t.rows, k).None? && k !in WriteKeys(init) {
        assert Find(p.rows, k).None?;
      }
    } else {
      assert k in WriteKeys(init);
      PassLastWriteWins(t, init, now, k);
      FindStable(p.rows, r.rows, k);
    }
  }

  /** The row a pass leaves for the key of `ws[i]`, when no later write
      repeats that key: the only row with the key, holding `ws[i]`'s columns. */
  lemma PassRowFor<P>(t: Table<P>, ws: seq<Write<P>>, now: Day, i: nat)
    requires UniqueKeys(t)
    requires i < |ws| && forall j :: i < j < |ws| ==> ws[j].key != ws[i].key
    ensures var r := Pass(t, ws, now);
      var k := ws[i].key;
      Find(r.rows, k).Some? &&
      var n := Find(r.rows, k).value;
      (forall j :: 0 <= j < |r.rows| && r.rows[j].key == k ==> j == n) &&
      r.rows[n].fields == ws[i].fields && r.rows[n].updatedAt == now &&
      match Find(t.rows, k)
      case Some(p) => n == p && r.rows[n].id == t.rows[p].id && r.rows[n].createdAt == t.rows[p].createdAt
      case None => |t.rows| <= n && r.rows[n].createdAt == Stamp(FirstWrite(ws, k).value, now)
  {
    LastWriteAt(ws, i);
    assert ws[i].key in WriteKeys(ws);
    PassLastWriteWins(t, ws, now, ws[i].key);
    PassPreservesUniqueKeys(t, ws, now);
  }

  /** A pass over keys that are all present already appends nothing. */
  lemma {:induction false} PassOverPresentKeys<P>(t: Table<P>, ws: seq<Write<P>>, now: Day)
    requires forall k :: k in WriteKeys(ws) ==> Find(t.rows, k).Some?
    ensures |Pass(t, ws, now).rows| == |t.rows| && Pass(t, ws, now).nextId == t.nextId
  {
    if ws != [] {
      var init := ws[..|ws| - 1];
      var w := ws[|ws| - 1];
      WriteKeysSnoc(ws);
      PassOverPresentKeys(t, init, now);
      PassKeepsRows(t, init, now);
      FindStable(t.rows, Pass(t, init, now).rows, w.key);
    }
  }

  lemma {:induction false} PassPreservesUniqueKeys<P>(t: Table<P>, ws: seq<Write<P>>, now: Day)
    requires UniqueKeys(t)
    ensures UniqueKeys(Pass(t, ws, now))
  {
    if ws != [] {
      var init := ws[..|ws| - 1];
      var w := ws[|ws| - 1];
      PassPreservesUniqueKeys(t, init, now);
      var p := Pass(t, init, now);
      var r := Upsert(p, w, now);
      if Find(p.rows, w.key).None? {
        forall i, j | 0 <= i < |r.rows| && 0 <= j < |r.rows| && r.rows[i].key == r.rows[j].key ensures i == j {
          if i < |p.rows| && j < |p.rows| {
            assert p.rows[i].key == p.rows[j].key;
          }
        }
      } else {
        forall i, j | 0 <= i < |r.rows| && 0 <= j < |r.rows| && r.rows[i].key == r.rows[j].key ensures i == j {
          assert p.rows[i].key == p.rows[j].key;
        }
      }
    }
  }

  /** A table with its `updatedAt` stamps blanked: what re-running a pass must preserve. */
  function Erase<P>(t: Table<P>): (e: Table<P>)
    ensures |e.rows| == |t.rows| && e.nextId == t.nextId
    ensures forall i :: 0 <= i < |t.rows| ==> e.rows[i] == t.rows[i].(updatedAt := 0)
  {
    Table(seq(|t.rows|, i requires 0 <= i < |t.rows| => t.rows[i].(updatedAt := 0)), t.nextId)
  }

  /** Running the same pass twice creates no row and changes no column other
      than `updatedAt`. */
  lemma PassIdempotent<P>(t: Table<P>, ws: seq<Write<P>>, now1: Day, now2: Day)
    requires UniqueKeys(t)
    ensures Erase(Pass(Pass(t, ws, now1), ws, now2)) == Erase(Pass(t, ws, now1))
  {
    var t1 := Pass(t, ws, now1);
    var t2 := Pass(t1, ws, now2);
    PassPreservesUniqueKeys(t, ws, now1);
    forall k | k in WriteKeys(ws) ensures Find(t1.rows, k).Some? {
      PassLastWriteWins(t, ws, now1, k);
    }
    PassOverPresentKeys(t1, ws, now2);
    PassKeepsRows(t1, ws, now2);
    forall i | 0 <= i < |t1.rows| ensures t2.rows[i].(updatedAt := 0) == t1.rows[i].(updatedAt := 0) {
      var k := t1.rows[i].key;
      if k in WriteKeys(ws) {
        PassLastWriteWins(t, ws, now1, k);
        PassLastWriteWins(t1, ws, now2, k);
        assert Find(t1.rows, k) == Some(i);
      }
    }
    assert Erase(t2).rows == Erase(t1).rows;
  }
}
