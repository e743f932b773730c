/** Concurrent ingestion as a whole, for clients that use each event id for one payload and for
    those that do not. */
module Linearizability {
  import opened Events
  import opened Sessions
  import opened Refinement
  import opened Guarantees

  // ---------------------------------------------------------------- one payload per id

  /** Every request that uses this id carries this payload. */
  predicate OnlyPayload(acts: seq<Action>, p: Payload) {
    forall a | a in acts && a.Start? && a.payload.eventId == p.eventId :: a.payload == p
  }

  /** No two requests use the same id for different payloads. */
  predicate OnePayloadPerId(acts: seq<Action>) {
    forall a | a in acts && a.Start? :: OnlyPayload(acts, a.payload)
  }

  /** Every call was requested. */
  lemma {:induction false} CallWasStarted(cat: Catalog, s: State, acts: seq<Action>, i: nat)
    requires |s.sessions| <= i < |Run(cat, s, acts).sessions|
    ensures Start(Run(cat, s, acts).sessions[i].payload, Run(cat, s, acts).sessions[i].now) in acts
  {
    var before := Run(cat, s, Init(acts));
    if i < |before.sessions| {
      CallWasStarted(cat, s, Init(acts), i);
    }
  }

  lemma MissedInTheBeginning(cat: Catalog, s: State, acts: seq<Action>, k: nat, id: Uuid)
    requires Inv(cat, s) && k <= |acts| && Find(Run(cat, s, acts[..k]).db.rows, id).None?
    ensures Find(s.db.rows, id).None?
  {
    hide Step;
    assert acts[..k][..0] == [];
    RunExtendsTable(cat, s, acts[..k], 0);
    RunKeepsInv(cat, s, acts[..k]);
    AbsentBefore(cat, s.db.rows, Run(cat, s, acts[..k]).db.rows, id);
  }

  /** "The original is not a SALE" is the sequential verdict at a moment of the call whenever its
      client, and everybody else, uses its id for this payload only. */
  lemma InvalidOriginalIsSequentialForOnePayload(cat: Catalog, s: State, acts: seq<Action>, i: nat)
    requires Inv(cat, s) && s.sessions == []
    requires Decided(Run(cat, s, acts), i) && Run(cat, s, acts).sessions[i].pc.verdict.InvalidOriginalSale?
    requires OnlyPayload(acts, Run(cat, s, acts).sessions[i].payload)
    ensures JudgedDuring(cat, s, acts, i, InvalidOriginalSale)
  {
    hide Inv, Step, Run, Judge, JudgedDuring;
    var end := Run(cat, s, acts);
    var p := end.sessions[i].payload;
    var k, last := InvalidOriginalWasRead(cat, s, acts, i);
    if Find(end.db.rows, p.eventId).Some? {
      MissedInTheBeginning(cat, s, acts, k, p.eventId);
      var j := RowsComeFromCommits(cat, s, acts, p.eventId);
      CallWasStarted(cat, s, acts, j);
      RunKeepsInv(cat, s, acts);
      StoredIsFinal(cat, end, p, end.sessions[j].now, i);
    }
    InvalidOriginalIsSequentialExactly(cat, s, acts, i);
  }

  // ---------------------------------------------------------------- all of it

  /** The table stays legal and is the accepted calls applied one after another. */
  ghost predicate TableIsSequential(cat: Catalog, db: Db, acts: seq<Action>) {
    && Legal(cat, Run(cat, Fresh(db), acts).db.rows)
    && Run(cat, Fresh(db), acts).db == Replay(cat, db, Commits(cat, Fresh(db), acts))
    && AllAccepted(cat, db, Commits(cat, Fresh(db), acts))
  }

  /** Call i's verdict is the sequential one at a moment while it was in flight. */
  ghost predicate VerdictIsSequential(cat: Catalog, db: Db, acts: seq<Action>, i: nat)
    requires Decided(Run(cat, Fresh(db), acts), i)
  {
    JudgedDuring(cat, Fresh(db), acts, i, Run(cat, Fresh(db), acts).sessions[i].pc.verdict)
  }

  /** Any number of ingestion calls, interleaved and aborted in any way, over any legal table: the
      table stays legal and is the accepted calls applied one after another, and every verdict that
      is not an abort is the sequential verdict at a moment while its call was in flight, except
      that "the original is not a SALE" needs an id that is not used for two payloads. */
  lemma IngestionIsLinearizable(cat: Catalog, db: Db, acts: seq<Action>)
    requires cat.Valid() && Legal(cat, db.rows)
    ensures TableIsSequential(cat, db, acts)
    ensures forall i: nat | Decided(Run(cat, Fresh(db), acts), i) ::
              var t := Run(cat, Fresh(db), acts).sessions[i];
              t.pc.verdict.Aborted? || (t.pc.verdict.InvalidOriginalSale? && !OnlyPayload(acts, t.payload))
              || VerdictIsSequential(cat, db, acts, i)
  {
    hide Run, Replay, Commits, AllAccepted, OnlyPayload, JudgedDuring;
    var end := Run(cat, Fresh(db), acts);
    FreshIsInv(cat, db);
    RunKeepsInv(cat, Fresh(db), acts);
    RunRefines(cat, Fresh(db), acts);
    forall i: nat | Decided(end, i)
      ensures
        var t := end.sessions[i];
        t.pc.verdict.Aborted? || (t.pc.verdict.InvalidOriginalSale? && !OnlyPayload(acts, t.payload))
        || VerdictIsSequential(cat, db, acts, i)
    {
      var t := end.sessions[i];
      if !t.pc.verdict.Aborted? {
        if !t.pc.verdict.InvalidOriginalSale? {
          VerdictsAreSequential(cat, Fresh(db), acts, i);
        } else if OnlyPayload(acts, t.payload) {
          InvalidOriginalIsSequentialForOnePayload(cat, Fresh(db), acts, i);
        }
      }
    }
  }

  /** With one payload per id, which is all a client must keep to, every verdict but an abort is
      sequential: concurrent ingestion cannot be told from one call at a time. */
  lemma DisciplinedIngestionIsLinearizable(cat: Catalog, db: Db, acts: seq<Action>)
    requires cat.Valid() && Legal(cat, db.rows) && OnePayloadPerId(acts)
    ensures TableIsSequential(cat, db, acts)
    ensures forall i: nat | Decided(Run(cat, Fresh(db), acts), i) ::
              Run(cat, Fresh(db), acts).sessions[i].pc.verdict.Aborted? || VerdictIsSequential(cat, db, acts, i)
  {
    hide Run, OnlyPayload, TableIsSequential, VerdictIsSequential;
    var end := Run(cat, Fresh(db), acts);
    IngestionIsLinearizable(cat, db, acts);
    forall i: nat | Decided(end, i) ensures OnlyPayload(acts, end.sessions[i].payload) {
      CallWasStarted(cat, Fresh(db), acts, i);
    }
  }
}
