/** What the stores' last-seen times say about the table, over every run of concurrent ingestion. */
module LastSeen {
  import opened Events
  import opened Sessions

  /** When the last row of this store was received. */
  function LastReceived(rows: seq<Row>, storeId: Uuid): Option<Instant> {
    if rows == [] then None
    else if Last(rows).storeId == storeId then Some(Last(rows).receivedAt)
    else LastReceived(Init(rows), storeId)
  }

  /** The last-seen time of this store after these rows were committed, starting from before. */
  predicate SeenAfter(before: map<Uuid, Instant>, rows: seq<Row>, storeId: Uuid, after: map<Uuid, Instant>) {
    match LastReceived(rows, storeId)
    case Some(at) => storeId in after && after[storeId] == at
    case None =>
      && (storeId in after <==> storeId in before)
      && (storeId in before && storeId in after ==> after[storeId] == before[storeId])
  }

  /** A step commits at most one row, with the committing call's store and its time. */
  lemma StepIsSeen(cat: Catalog, s: State, a: Action)
    requires Inv(cat, s)
    ensures
      var db, db' := s.db, Step(cat, s, a).db;
      || db' == db
      || (|db'.rows| == |db.rows| + 1 && db.rows <= db'.rows
          && (a.Advance? || a.Sever?) && a.i < |s.sessions|
          && db'.rows[|db.rows|].receivedAt == s.sessions[a.i].now
          && db'.lastSeen == db.lastSeen[db'.rows[|db.rows|].storeId := s.sessions[a.i].now])
  {
  }

  /** Over every run, each store was last seen when the last of its rows that the run committed was
      received, in commit order; a store without a new row is as it was. */
  lemma {:induction false} RunIsSeen(cat: Catalog, s: State, acts: seq<Action>, storeId: Uuid)
    requires Inv(cat, s)
    ensures s.db.rows <= Run(cat, s, acts).db.rows
    ensures
      var end := Run(cat, s, acts);
      SeenAfter(s.db.lastSeen, end.db.rows[|s.db.rows|..], storeId, end.db.lastSeen)
  {
    hide Inv, Step;
    var n := |s.db.rows|;
    if acts == [] {
      assert s.db.rows[n..] == [];
    } else {
      var before, end := Run(cat, s, Init(acts)), Run(cat, s, acts);
      RunIsSeen(cat, s, Init(acts), storeId);
      RunKeepsInv(cat, s, Init(acts));
      StepIsSeen(cat, before, Last(acts));
      if end.db != before.db {
        assert Init(end.db.rows[n..]) == before.db.rows[n..];
        assert Last(end.db.rows[n..]) == end.db.rows[|before.db.rows|];
      }
    }
  }

  predicate HasRowOf(rows: seq<Row>, storeId: Uuid) {
    exists i | 0 <= i < |rows| :: rows[i].storeId == storeId
  }

  lemma {:induction false} LastReceivedIs(rows: seq<Row>, storeId: Uuid)
    ensures LastReceived(rows, storeId).Some? <==> HasRowOf(rows, storeId)
    ensures forall i | 0 <= i < |rows| && rows[i].storeId == storeId
                       && (forall j | i < j < |rows| :: rows[j].storeId != storeId) ::
              LastReceived(rows, storeId) == Some(rows[i].receivedAt)
  {
    if rows != [] {
      LastReceivedIs(Init(rows), storeId);
      assert forall i | 0 <= i < |Init(rows)| :: Init(rows)[i] == rows[i];
      assert rows[|rows| - 1] == Last(rows);
    }
  }

  /** From an empty database: a store has been seen exactly when it has a row, and then at the time
      its last row in commit order was received. */
  lemma SeenExactly(cat: Catalog, acts: seq<Action>, storeId: Uuid)
    requires cat.Valid()
    ensures
      var db := Run(cat, Fresh(Db([], map[])), acts).db;
      && (storeId in db.lastSeen <==> HasRowOf(db.rows, storeId))
      && forall i | 0 <= i < |db.rows| && db.rows[i].storeId == storeId
                    && (forall j | i < j < |db.rows| :: db.rows[j].storeId != storeId) ::
           storeId in db.lastSeen && db.lastSeen[storeId] == db.rows[i].receivedAt
  {
    hide Run;
    var db := Run(cat, Fresh(Db([], map[])), acts).db;
    FreshIsInv(cat, Db([], map[]));
    RunIsSeen(cat, Fresh(Db([], map[])), acts, storeId);
    assert db.rows[0..] == db.rows;
    LastReceivedIs(db.rows, storeId);
  }
}
