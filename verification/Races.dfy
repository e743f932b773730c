/** One call without interference is the sequential call, and the one race that makes a verdict
    disagree with every sequential order. */
module Races {
  import opened Events
  import opened Sessions
  import opened Refinement

  /** A call that never has to wait. */
  function Alone(cat: Catalog, db: Db, t: Session, turns: nat): (Db, Session)
    decreases turns
  {
    if turns == 0 then (db, t)
    else Alone(cat, Written(db, t), Moved(cat, db.rows, t), turns - 1)
  }

  const TURNS: nat := 9

  lemma AloneTwice(cat: Catalog, db: Db, t: Session, m: nat, n: nat)
    ensures Alone(cat, db, t, m + n) == Alone(cat, Alone(cat, db, t, m).0, Alone(cat, db, t, m).1, n)
    decreases m
  {
  }

  lemma AloneStays(cat: Catalog, db: Db, t: Session, n: nat)
    requires Finished(t)
    ensures Alone(cat, db, t, n) == (db, t)
    decreases n
  {
  }

  /** From the insert on. */
  lemma AloneFromInsert(cat: Catalog, db: Db, t: Session)
    requires t.pc.Inserting? && Find(db.rows, t.payload.eventId).None?
    ensures
      Alone(cat, db, t, 3)
      == (Commit(db, t.payload, t.pc.storeId, t.pc.productId, t.now), t.(pc := Done(Accepted(t.now)), lock := None))
  {
    var t1 := Moved(cat, db.rows, t);
    var t2 := Moved(cat, db.rows, t1);
    assert Alone(cat, db, t, 3) == Alone(cat, db, t1, 2) == Alone(cat, db, t2, 1);
    assert Alone(cat, db, t2, 1) == Alone(cat, Written(db, t2), Moved(cat, db.rows, t2), 0);
  }

  lemma AloneCloses(cat: Catalog, db: Db, t: Session, n: nat)
    requires t.pc.Closing? && 0 < n
    ensures Alone(cat, db, t, n) == (db, t.(pc := Done(t.pc.verdict), lock := None))
  {
    AloneStays(cat, db, Moved(cat, db.rows, t), n - 1);
  }

  /** From the lock on. */
  lemma AloneFromLock(cat: Catalog, db: Db, t: Session)
    requires t.pc.Locking? && t.payload.kind == Refund(t.pc.saleId)
    requires cat.Resolves(t.payload, t.pc.storeId, t.pc.productId) && Find(db.rows, t.payload.eventId).None?
    ensures
      var (after, verdict) := Ingest(cat, db, t.payload, t.now);
      Alone(cat, db, t, 6) == (after, t.(pc := Done(verdict), lock := None))
  {
    var t1 := Moved(cat, db.rows, t);
    assert Alone(cat, db, t, 6) == Alone(cat, db, t1, 5);
    if t1.pc.Closing? {
      AloneCloses(cat, db, t1, 5);
    } else {
      var t2 := Moved(cat, db.rows, t1);
      var t3 := Moved(cat, db.rows, t2);
      assert Alone(cat, db, t1, 5) == Alone(cat, db, t2, 4) == Alone(cat, db, t3, 3);
      if t3.pc.Closing? {
        AloneCloses(cat, db, t3, 3);
      } else {
        AloneFromInsert(cat, db, t3);
      }
    }
  }

  /** The program of one call, run alone, answers and writes what the sequential call does. */
  lemma AloneIsIngest(cat: Catalog, db: Db, p: Payload, now: Instant)
    requires cat.Valid() && Legal(cat, db.rows)
    ensures
      var (after, verdict) := Ingest(cat, db, p, now);
      Alone(cat, db, Session(p, now, LookingUp, None), TURNS) == (after, Session(p, now, Done(verdict), None))
  {
    var t := Session(p, now, LookingUp, None);
    var t1 := Moved(cat, db.rows, t);
    assert Alone(cat, db, t, 9) == Alone(cat, db, t1, 8);
    if t1.pc.Closing? {
      AloneCloses(cat, db, t1, 8);
      ClassifiedHasEvidence(cat, db.rows, p);
    } else {
      var t2 := Moved(cat, db.rows, t1);
      assert Alone(cat, db, t1, 8) == Alone(cat, db, t2, 7);
      if t2.pc.Closing? {
        AloneCloses(cat, db, t2, 7);
      } else {
        var t3 := Moved(cat, db.rows, t2);
        assert Alone(cat, db, t2, 7) == Alone(cat, db, t3, 6);
        if t3.pc.Closing? {
          AloneCloses(cat, db, t3, 6);
        } else if t3.pc.Inserting? {
          AloneFromInsert(cat, db, t3);
          AloneTwice(cat, db, t3, 3, 3);
        } else {
          AloneFromLock(cat, db, t3);
        }
      }
    }
  }

  // ---------------------------------------------------------------- calls run one after another

  function Turns(i: nat, n: nat): seq<Action> {
    if n == 0 then [] else Turns(i, n - 1) + [Advance(i)]
  }

  /** Nobody else holds a lock or an uncommitted row. */
  predicate QuietExcept(s: State, i: nat) {
    forall j | 0 <= j < |s.sessions| && j != i :: s.sessions[j].lock.None? && !Pending(s.sessions[j])
  }

  lemma QuietNeverWaits(s: State, i: nat)
    requires i < |s.sessions| && QuietExcept(s, i)
    ensures !Waits(s, i)
  {
  }

  lemma {:induction false} AloneOneMore(cat: Catalog, db: Db, t: Session, n: nat)
    requires 0 < n
    ensures
      var (db', t') := Alone(cat, db, t, n - 1);
      Alone(cat, db, t, n) == (Written(db', t'), Moved(cat, db'.rows, t'))
    decreases n
  {
    if n > 1 {
      AloneOneMore(cat, Written(db, t), Moved(cat, db.rows, t), n - 1);
    }
  }

  /** With everybody else quiet, n turns of session i are n undisturbed statements. */
  lemma {:induction false} QuietRun(cat: Catalog, s: State, i: nat, n: nat)
    requires i < |s.sessions| && QuietExcept(s, i)
    ensures
      var (db, t) := Alone(cat, s.db, s.sessions[i], n);
      Run(cat, s, Turns(i, n)) == State(db, s.sessions[i := t])
  {
    hide Moved, Written, Blocks;
    if n > 0 {
      QuietRun(cat, s, i, n - 1);
      AloneOneMore(cat, s.db, s.sessions[i], n);
      var before := Run(cat, s, Turns(i, n - 1));
      assert Init(Turns(i, n)) == Turns(i, n - 1);
      assert QuietExcept(before, i);
      QuietNeverWaits(before, i);
    } else {
      assert s.sessions[i := s.sessions[i]] == s.sessions;
    }
  }

  lemma {:induction false} RunTwice(cat: Catalog, s: State, acts: seq<Action>, more: seq<Action>)
    ensures Run(cat, s, acts + more) == Run(cat, Run(cat, s, acts), more)
  {
    if more == [] {
      assert acts + more == acts;
    } else {
      assert Init(acts + more) == acts + Init(more);
      RunTwice(cat, s, acts, Init(more));
    }
  }

  /** A whole call while everybody else is quiet: the sequential call, with its session added. */
  lemma CallAlone(cat: Catalog, s: State, p: Payload, now: Instant)
    requires cat.Valid() && Legal(cat, s.db.rows) && p.Valid()
    requires QuietExcept(s, |s.sessions|)
    ensures
      var (db, verdict) := Ingest(cat, s.db, p, now);
      Run(cat, s, [Start(p, now)] + Turns(|s.sessions|, TURNS))
      == State(db, s.sessions + [Session(p, now, Done(verdict), None)])
  {
    hide Moved, Written, Legal;
    var t := Session(p, now, LookingUp, None);
    var started := State(s.db, s.sessions + [t]);
    assert Init([Start(p, now)]) == [];
    assert Run(cat, s, [Start(p, now)]) == started;
    RunTwice(cat, s, [Start(p, now)], Turns(|s.sessions|, TURNS));
    QuietRun(cat, started, |s.sessions|, TURNS);
    AloneIsIngest(cat, s.db, p, now);
  }

  // ---------------------------------------------------------------- the race

  const RACE_CATALOG := Catalog(map["S" := 0], map[0 := "S"], map["P" := 0], map[0 := "P"])

  function RaceSale(id: Uuid): Payload {
    Payload(id, "S", "P", Sale, 2, 2, 0, "x", None, None)
  }

  function RaceRefund(id: Uuid, saleId: Uuid): Payload {
    Payload(id, "S", "P", Refund(saleId), 1, 1, 0, "x", None, None)
  }

  function RaceRow(p: Payload): Row {
    RowFor(p, 0, 0, 0)
  }

  /** The table grows from sale 0 by sale 1 and then by refund 2 of sale 0. */
  function RaceTable(n: nat): seq<Row> {
    if n == 0 then []
    else if n == 1 then [RaceRow(RaceSale(0))]
    else if n == 2 then RaceTable(1) + [RaceRow(RaceSale(1))]
    else RaceTable(2) + [RaceRow(RaceRefund(2, 0))]
  }

  lemma FirstRaceTable()
    ensures Legal(RACE_CATALOG, RaceTable(1))
    ensures Judge(RACE_CATALOG, RaceTable(1), RaceSale(1), 0) == Accepted(0)
    ensures Find(RaceTable(1), 0) == Some(RaceRow(RaceSale(0)))
    ensures Find(RaceTable(1), 1).None? && Find(RaceTable(1), 2).None?
    ensures forall m :: Refunded(RaceTable(1), 0, m) == 0
  {
    var rows, row := RaceTable(1), RaceRow(RaceSale(0));
    assert Init(rows) == [] && Last(rows) == row;
    assert Find([], 0).None? && Find([], 1).None? && Find([], 2).None?;
    assert Find(rows, 0) == Some(row) && Find(rows, 1).None? && Find(rows, 2).None?;
    assert Legal(RACE_CATALOG, []) && Admissible(RACE_CATALOG, [], row);
  }

  lemma SecondRaceTable()
    ensures Legal(RACE_CATALOG, RaceTable(2))
    ensures Judge(RACE_CATALOG, RaceTable(2), RaceRefund(2, 0), 0) == Accepted(0)
    ensures Find(RaceTable(2), 1).Some? && Find(RaceTable(2), 2).None?
  {
    FirstRaceTable();
    AppendRow(RaceTable(1), RaceRow(RaceSale(1)));
  }

  lemma ThirdRaceTable()
    ensures Find(RaceTable(3), 1).Some? && Find(RaceTable(3), 2) == Some(RaceRow(RaceRefund(2, 0)))
  {
    SecondRaceTable();
    AppendRow(RaceTable(2), RaceRow(RaceRefund(2, 0)));
  }

  /** The refund with id 1 for original 2, waiting to lock its original. */
  function RacingSession(): Session {
    Session(RaceRefund(1, 2), 0, Locking(0, 0, 2), None)
  }

  lemma RaceFirstLeg(db: Db)
    requires db.rows == RaceTable(1)
    ensures Run(RACE_CATALOG, Fresh(db), [Start(RaceRefund(1, 2), 0)] + Turns(0, 3)) == State(db, [RacingSession()])
  {
    var cat, t := RACE_CATALOG, Session(RaceRefund(1, 2), 0, LookingUp, None);
    FirstRaceTable();
    assert Init([Start(t.payload, 0)]) == [];
    assert Run(cat, Fresh(db), [Start(t.payload, 0)]) == State(db, [t]);
    RunTwice(cat, Fresh(db), [Start(t.payload, 0)], Turns(0, 3));
    QuietRun(cat, State(db, [t]), 0, 3);
    var t1 := Moved(cat, db.rows, t);
    var t2 := Moved(cat, db.rows, t1);
    assert Alone(cat, db, t, 3) == Alone(cat, db, t1, 2) == Alone(cat, db, t2, 1)
        == Alone(cat, db, RacingSession(), 0);
  }

  /** An accepted call overtakes the racing session. */
  lemma RaceOvertaken(s: State, p: Payload)
    requires QuietExcept(s, |s.sessions|) && |s.sessions| > 0 && s.sessions[0] == RacingSession()
    requires Legal(RACE_CATALOG, s.db.rows) && p.Valid() && RACE_CATALOG.Knows(p)
    requires Judge(RACE_CATALOG, s.db.rows, p, 0) == Accepted(0)
    ensures
      var after := Run(RACE_CATALOG, s, [Start(p, 0)] + Turns(|s.sessions|, TURNS));
      && QuietExcept(after, |after.sessions|)
      && |after.sessions| == |s.sessions| + 1
      && after.sessions[0] == RacingSession()
      && after.db.rows == s.db.rows + [RaceRow(p)]
  {
    CallAlone(RACE_CATALOG, s, p, 0);
  }

  function RaceLeg(n: nat): seq<Action> {
    if n == 0 then [Start(RaceRefund(1, 2), 0)] + Turns(0, 3)
    else if n == 1 then [Start(RaceSale(1), 0)] + Turns(1, TURNS)
    else if n == 2 then [Start(RaceRefund(2, 0), 0)] + Turns(2, TURNS)
    else [Advance(0)]
  }

  /** The racing session reads its original. */
  lemma RaceLastLeg(s: State)
    requires QuietExcept(s, |s.sessions|) && |s.sessions| > 0 && s.sessions[0] == RacingSession()
    requires s.db.rows == RaceTable(3)
    ensures
      var end := Run(RACE_CATALOG, s, RaceLeg(3));
      && end.db.rows == RaceTable(3)
      && |end.sessions| > 0 && end.sessions[0].pc == Closing(InvalidOriginalSale)
      && end.sessions[0].payload == RaceRefund(1, 2)
  {
    ThirdRaceTable();
    assert Init(RaceLeg(3)) == [] && Run(RACE_CATALOG, s, []) == s;
    assert !Waits(s, 0);
  }

  lemma RaceOrder()
    ensures !CommittedBefore(RaceTable(3), 2, 1)
  {
    FirstRaceTable();
    SecondRaceTable();
    ThirdRaceTable();
    var rows := RaceTable(3);
    assert rows[..0] == [] && rows[..1] == RaceTable(1) && rows[..2] == RaceTable(2) && rows[..3] == rows;
  }

  function RaceActions(): seq<Action> {
    RaceLeg(0) + RaceLeg(1) + RaceLeg(2) + RaceLeg(3)
  }

  predicate Racing(s: State, n: nat) {
    && |s.sessions| == n && n > 0
    && QuietExcept(s, n) && s.sessions[0] == RacingSession()
    && s.db.rows == RaceTable(n)
  }

  lemma RaceLegs(db: Db)
    requires db.rows == RaceTable(1)
    ensures Racing(Run(RACE_CATALOG, Fresh(db), RaceLeg(0)), 1)
    ensures forall s | Racing(s, 1) :: Racing(Run(RACE_CATALOG, s, RaceLeg(1)), 2)
    ensures forall s | Racing(s, 2) :: Racing(Run(RACE_CATALOG, s, RaceLeg(2)), 3)
  {
    hide Step, Legal, Judge, Run, Turns, TURNS;
    FirstRaceTable();
    SecondRaceTable();
    RaceFirstLeg(db);
    forall s | Racing(s, 1) ensures Racing(Run(RACE_CATALOG, s, RaceLeg(1)), 2) {
      RaceOvertaken(s, RaceSale(1));
    }
    forall s | Racing(s, 2) ensures Racing(Run(RACE_CATALOG, s, RaceLeg(2)), 3) {
      RaceOvertaken(s, RaceRefund(2, 0));
    }
  }

  lemma RaceEnds(db: Db)
    requires db.rows == RaceTable(1)
    ensures
      var end := Run(RACE_CATALOG, Fresh(db), RaceActions());
      && end.db.rows == RaceTable(3)
      && |end.sessions| > 0 && end.sessions[0].pc == Closing(InvalidOriginalSale)
      && end.sessions[0].payload == RaceRefund(1, 2)
  {
    hide Run, RaceTable, Turns, TURNS;
    var cat := RACE_CATALOG;
    RaceLegs(db);
    var s1 := Run(cat, Fresh(db), RaceLeg(0));
    var s2 := Run(cat, s1, RaceLeg(1));
    var s3 := Run(cat, s2, RaceLeg(2));
    RaceLastLeg(s3);
    hide RaceLeg, Racing;
    RunTwice(cat, Fresh(db), RaceLeg(0), RaceLeg(1));
    RunTwice(cat, Fresh(db), RaceLeg(0) + RaceLeg(1), RaceLeg(2));
    RunTwice(cat, Fresh(db), RaceLeg(0) + RaceLeg(1) + RaceLeg(2), RaceLeg(3));
  }

  /** A refund with id 1 for original 2 misses its id; then id 1 is used for a sale, and id 2 for a
      refund of sale 0; then the first call reads its original.  "The original is not a SALE" is
      its answer, and the sequential call gives that answer at no moment of the call. */
  lemma InvalidOriginalCanRace() returns (cat: Catalog, db: Db, acts: seq<Action>)
    ensures cat.Valid() && Legal(cat, db.rows)
    ensures
      var end := Run(cat, Fresh(db), acts);
      Decided(end, 0) && end.sessions[0].pc.verdict == InvalidOriginalSale
    ensures !JudgedDuring(cat, Fresh(db), acts, 0, InvalidOriginalSale)
  {
    cat, db, acts := RACE_CATALOG, Db(RaceTable(1), map[]), RaceActions();
    FirstRaceTable();
    ThirdRaceTable();
    RaceEnds(db);
    RaceOrder();
    FreshIsInv(cat, db);
    InvalidOriginalIsSequentialExactly(cat, Fresh(db), acts, 0);
  }
}
