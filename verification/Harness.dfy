/** The end of a verification run: producers down, backend down as a write barrier, cleanup,
    restart and re-check, under every pattern of failures, while the backend serves requests
    whenever it is up. */
module Harness {
  import opened Events
  import opened Sessions
  import opened Refinement
  import opened Progress
  import opened Races
  import opened LastSeen
  import opened Cleanup
  import opened RunRows

  // ---------------------------------------------------------------- the backend as a writer

  /** The backend with its database, and when each store row was last updated. */
  datatype Site = Site(backend: State, updatedAt: map<Uuid, Instant>, up: bool)
  {
    function Stores(): Stores {
      map id | id in updatedAt ::
        StoreState(if id in backend.db.lastSeen then Some(backend.db.lastSeen[id]) else None, updatedAt[id])
    }

    function Tables(): Tables {
      Cleanup.Tables(backend.db.rows, Stores())
    }

    ghost predicate Valid(cat: Catalog) {
      Sessions.Inv(cat, backend)
    }
  }

  /** A commit also updates its store's row. */
  function Updated(updatedAt: map<Uuid, Instant>, s: State, a: Action): map<Uuid, Instant> {
    if CommitOf(s, a) == [] || s.sessions[a.i].pc.storeId !in updatedAt then updatedAt
    else updatedAt[s.sessions[a.i].pc.storeId := s.sessions[a.i].now]
  }

  /** What the backend does between two acts of the harness. */
  function Serve(cat: Catalog, site: Site, acts: seq<Action>): Site {
    if acts == [] || !site.up then site
    else
      var before := Serve(cat, site, Init(acts));
      before.(backend := Step(cat, before.backend, Last(acts)),
              updatedAt := Updated(before.updatedAt, before.backend, Last(acts)))
  }

  /** A stopped backend has no sessions; what they had not committed is gone. */
  function Halted(site: Site): Site {
    site.(backend := Fresh(site.backend.db), up := false)
  }

  /** The tables after the cleanup transaction. */
  function Replaced(site: Site, t: Tables): Site {
    site.(backend := site.backend.(db := Db(t.rows, map id | id in t.stores && t.stores[id].lastSeenAt.Some? ::
                                                        t.stores[id].lastSeenAt.value)),
          updatedAt := map id | id in t.stores :: t.stores[id].updatedAt)
  }

  lemma ReplacedTables(site: Site, t: Tables)
    ensures Replaced(site, t).Tables() == t
  {
    assert Replaced(site, t).Stores() == t.stores;
  }

  lemma {:induction false} ServeRuns(cat: Catalog, site: Site, acts: seq<Action>)
    requires site.up
    ensures Serve(cat, site, acts).backend == Run(cat, site.backend, acts) && Serve(cat, site, acts).up
  {
    hide Step, Updated;
    if acts != [] {
      ServeRuns(cat, site, Init(acts));
    }
  }

  lemma ServeKeepsValid(cat: Catalog, site: Site, acts: seq<Action>)
    requires site.Valid(cat)
    ensures Serve(cat, site, acts).Valid(cat) && site.backend.db.rows <= Serve(cat, site, acts).backend.db.rows
  {
    hide Inv;
    if site.up {
      ServeRuns(cat, site, acts);
      RunKeepsInv(cat, site.backend, acts);
      assert acts[..0] == [];
      RunExtendsTable(cat, site.backend, acts, 0);
    }
  }

  /** A backend without sessions and without new requests writes nothing. */
  lemma {:induction false} IdleBackendWritesNothing(cat: Catalog, site: Site, acts: seq<Action>)
    requires site.backend.sessions == [] && StartsNothing(acts)
    ensures Serve(cat, site, acts) == site
  {
    if acts != [] && site.up {
      IdleBackendWritesNothing(cat, site, Init(acts));
      assert Last(acts) in acts;
    }
  }

  /** A backend that is down serves nothing. */
  lemma DownServesNothing(cat: Catalog, site: Site, acts: seq<Action>)
    requires !site.up
    ensures Serve(cat, site, acts) == site
  {
  }

  lemma StepIsDated(cat: Catalog, s: State, a: Action, updatedAt: map<Uuid, Instant>)
    requires Inv(cat, s)
    ensures
      var db', updatedAt' := Step(cat, s, a).db, Updated(updatedAt, s, a);
      || (db' == s.db && updatedAt' == updatedAt)
      || (|db'.rows| == |s.db.rows| + 1 && s.db.rows <= db'.rows
          && updatedAt' == if db'.rows[|s.db.rows|].storeId in updatedAt
                           then updatedAt[db'.rows[|s.db.rows|].storeId := db'.rows[|s.db.rows|].receivedAt]
                           else updatedAt)
  {
  }

  lemma {:induction false} ServeIsDated(cat: Catalog, site: Site, acts: seq<Action>, id: Uuid)
    requires site.Valid(cat) && site.up && id in site.updatedAt
    ensures site.backend.db.rows <= Serve(cat, site, acts).backend.db.rows
    ensures
      var end := Serve(cat, site, acts);
      id in end.updatedAt
      && SeenAfter(site.updatedAt, end.backend.db.rows[|site.backend.db.rows|..], id, end.updatedAt)
  {
    hide Inv, Step, Updated;
    var n := |site.backend.db.rows|;
    if acts == [] {
      assert site.backend.db.rows[n..] == [];
    } else {
      var before, end := Serve(cat, site, Init(acts)), Serve(cat, site, acts);
      ServeIsDated(cat, site, Init(acts), id);
      ServeKeepsValid(cat, site, Init(acts));
      ServeRuns(cat, site, Init(acts));
      StepIsDated(cat, before.backend, Last(acts), before.updatedAt);
      if end.backend.db != before.backend.db {
        assert Init(end.backend.db.rows[n..]) == before.backend.db.rows[n..];
        assert Last(end.backend.db.rows[n..]) == end.backend.db.rows[|before.backend.db.rows|];
      }
    }
  }

  /** Store rows follow the events: a store whose events were committed was last seen and updated when
      the last of them was received, and every other store is as it was. */
  lemma StoresFollowTheEvents(cat: Catalog, site: Site, acts: seq<Action>, id: Uuid)
    requires site.Valid(cat) && site.up && id in site.updatedAt
    ensures site.backend.db.rows <= Serve(cat, site, acts).backend.db.rows
    ensures
      var end := Serve(cat, site, acts);
      && id in end.Stores()
      && match LastReceived(end.backend.db.rows[|site.backend.db.rows|..], id)
         case Some(at) => end.Stores()[id] == StoreState(Some(at), at)
         case None => end.Stores()[id] == site.Stores()[id]
  {
    hide Inv, Serve, Run;
    ServeIsDated(cat, site, acts, id);
    ServeRuns(cat, site, acts);
    RunIsSeen(cat, site.backend, acts, id);
  }

  /** Requests of this kind bring rows of this kind. */
  lemma {:induction false} ServeKeepsCovered(cat: Catalog, site: Site, acts: seq<Action>, good: (Uuid, string) -> bool)
    requires Covered(site.backend, good)
    requires forall a | a in acts && a.Start? :: good(a.payload.eventId, a.payload.sourceInstance)
    ensures Covered(Serve(cat, site, acts).backend, good)
  {
    hide Step, Covered, Updated;
    if acts != [] && site.up {
      assert Last(acts) in acts && forall a | a in Init(acts) :: a in acts;
      ServeKeepsCovered(cat, site, Init(acts), good);
      StepKeepsCovered(cat, Serve(cat, site, Init(acts)).backend, Last(acts), good);
    }
  }

  // ---------------------------------------------------------------- what the commands answer

  /** What listing the running containers answers. */
  datatype Listing = NoneRunning | SomeRunning | ListingFailed

  /** The outcomes of the commands that stop one group of services. */
  datatype StopOutcome = StopOutcome(
    stopOk: bool,
    afterStop: Listing,
    killOk: bool,
    afterKill: Listing,
    wentDown: bool)                // the services are down, whatever the commands said
  {
    /** What shows nothing running is right: the listing after the stop, and the one after the kill
        when there is one. */
    predicate Valid() {
      && (afterStop.NoneRunning? ==> wentDown)
      && (!afterStop.ListingFailed? && afterKill.NoneRunning? ==> wentDown)
    }

    /** A command succeeded and the listing right after it showed nothing running. */
    predicate Confirmed() {
      || (stopOk && afterStop.NoneRunning?)
      || (!afterStop.ListingFailed? && killOk && afterKill.NoneRunning?)
    }
  }

  /** Everything the commands of one finalization do and answer. */
  datatype Commands = Commands(
    simulators: StopOutcome,
    backend: StopOutcome,
    transactionRan: bool,          // the transaction reached the database, whatever became of the command
    transactionReported: bool,     // the command reported success
    rowsCounted: bool,
    mismatchesCounted: bool,
    cameUp: bool,                  // the backend serves again, whatever became of the readiness probe
    restarted: bool,               // the readiness probe succeeded
    afterRestart: Listing,         // simulator containers
    rowsRecounted: bool,
    mismatchesRecounted: bool)
  {
    /** Success is not reported of what did not happen. */
    predicate Valid() {
      && simulators.Valid() && backend.Valid()
      && (transactionReported ==> transactionRan) && (restarted ==> cameUp)
    }
  }

  /** What the backend serves while the simulators are being stopped, while it is itself being
      stopped, and between its restart and the final check. */
  datatype Traffic = Traffic(stopping: seq<Action>, draining: seq<Action>, reopened: seq<Action>)

  datatype Error = SimulatorStopFailed | CleanupFailed | RestartFailed | PostRestartFailed

  /** What the harness did, in order. */
  datatype Act =
    | SimulatorsStopped
    | BackendStopped
    | TransactionRun
    | RestartAttempted
    | FinalCheck

  // ---------------------------------------------------------------- what becomes of the site

  function AfterStopping(cat: Catalog, site: Site, t: Traffic): Site {
    Serve(cat, site, t.stopping)
  }

  function AfterDraining(cat: Catalog, site: Site, t: Traffic): Site {
    Serve(cat, AfterStopping(cat, site, t), t.draining)
  }

  /** A stop that is not confirmed can still have taken the backend down. */
  function StoppedOrNot(site: Site, c: Commands): Site {
    if c.backend.wentDown then Halted(site) else site
  }

  /** The transaction, behind the barrier. */
  function AfterTransaction(site: Site, runTag: string, snapshot: seq<SnapshotEntry>, ran: bool): Site {
    var cleaned := if ran then Transaction(site.Tables(), runTag, snapshot) else None;
    if cleaned.Some? then Replaced(site, cleaned.value) else site
  }

  function Final(cat: Catalog, site: Site, runTag: string, snapshot: seq<SnapshotEntry>,
                 c: Commands, t: Traffic): Site {
    if !c.simulators.Confirmed() then AfterStopping(cat, site, t)
    else if !c.backend.Confirmed() then StoppedOrNot(AfterDraining(cat, site, t), c)
    else
      var cleaned := AfterTransaction(Halted(AfterDraining(cat, site, t)), runTag, snapshot, c.transactionRan);
      Serve(cat, cleaned.(up := c.cameUp), t.reopened)
  }

  /** The transaction removed the run. */
  predicate Removed(cat: Catalog, site: Site, runTag: string, c: Commands, t: Traffic) {
    && c.simulators.Confirmed() && c.backend.Confirmed()
    && c.transactionRan && !OutsideRefund(AfterDraining(cat, site, t).backend.db.rows, runTag)
  }

  lemma TransactionKeepsLegal(cat: Catalog, site: Site, runTag: string, snapshot: seq<SnapshotEntry>, ran: bool)
    requires Legal(cat, site.backend.db.rows)
    ensures
      var after := AfterTransaction(site, runTag, snapshot, ran);
      && after.up == site.up && after.backend.sessions == site.backend.sessions
      && Legal(cat, after.backend.db.rows)
      && (forall row | row in site.backend.db.rows && !OfRun(runTag, row) :: row in after.backend.db.rows)
      && if ran && !OutsideRefund(site.backend.db.rows, runTag)
         then after.Tables() == Tables(Survivors(site.backend.db.rows, Whole(runTag)), Restore(site.Stores(), snapshot))
              && NoRunRows(after.backend.db.rows, runTag)
         else after == site
  {
    hide OfRun, OutsideRefund, Transaction;
    TransactionSucceedsExactly(cat, site.Tables(), runTag, snapshot);
    if ran && Transaction(site.Tables(), runTag, snapshot).Some? {
      ReplacedTables(site, Transaction(site.Tables(), runTag, snapshot).value);
    }
  }

  lemma HaltKeepsValid(cat: Catalog, site: Site)
    requires site.Valid(cat)
    ensures Halted(site).Valid(cat) && cat.Valid() && Legal(cat, site.backend.db.rows)
  {
    FreshIsInv(cat, site.backend.db);
  }

  /** Whatever fails and whatever is served: the table stays legal and no row of anybody else is
      lost. */
  lemma OthersKeepTheirRows(cat: Catalog, site: Site, runTag: string, snapshot: seq<SnapshotEntry>,
                            c: Commands, t: Traffic)
    requires site.Valid(cat)
    ensures Final(cat, site, runTag, snapshot, c, t).Valid(cat)
    ensures forall row | row in AfterDraining(cat, site, t).backend.db.rows && !OfRun(runTag, row)
                         && c.simulators.Confirmed() ::
              row in Final(cat, site, runTag, snapshot, c, t).backend.db.rows
  {
    hide OfRun, OutsideRefund, Serve, AfterTransaction;
    ServeKeepsValid(cat, site, t.stopping);
    ServeKeepsValid(cat, AfterStopping(cat, site, t), t.draining);
    HaltKeepsValid(cat, AfterDraining(cat, site, t));
    if c.simulators.Confirmed() && c.backend.Confirmed() {
      var halted := Halted(AfterDraining(cat, site, t));
      TransactionKeepsLegal(cat, halted, runTag, snapshot, c.transactionRan);
      var serving := AfterTransaction(halted, runTag, snapshot, c.transactionRan).(up := c.cameUp);
      FreshIsInv(cat, serving.backend.db);
      ServeKeepsValid(cat, serving, t.reopened);
    }
  }

  function NotOfRun(runTag: string): (Uuid, string) -> bool {
    (id: Uuid, source: string) => !Like(SourcePattern(runTag), source)
  }

  lemma NothingOfTheRun(s: State, runTag: string)
    requires s.sessions == [] && NoRunRows(s.db.rows, runTag)
    ensures Covered(s, NotOfRun(runTag))
  {
    assert forall i | 0 <= i < |s.db.rows| :: s.db.rows[i] in s.db.rows;
  }

  lemma NoRowOfTheRun(s: State, runTag: string)
    requires Covered(s, NotOfRun(runTag))
    ensures NoRunRows(s.db.rows, runTag)
  {
    hide Like;
    forall row | row in s.db.rows ensures !OfRun(runTag, row) {
      var i :| 0 <= i < |s.db.rows| && s.db.rows[i] == row;
    }
  }

  /** Behind the barrier the run stays removed: whatever the backend had been doing, and whatever
      others request after the restart, no row of the run is there at the final check. */
  lemma NothingOfTheRunReturns(cat: Catalog, site: Site, runTag: string, snapshot: seq<SnapshotEntry>,
                               c: Commands, t: Traffic)
    requires site.Valid(cat) && Removed(cat, site, runTag, c, t) && NoRunStarts(t.reopened, runTag)
    ensures NoRunRows(Final(cat, site, runTag, snapshot, c, t).backend.db.rows, runTag)
  {
    hide OfRun, OutsideRefund, Serve, AfterTransaction, Like;
    ServeKeepsValid(cat, site, t.stopping);
    ServeKeepsValid(cat, AfterStopping(cat, site, t), t.draining);
    var halted := Halted(AfterDraining(cat, site, t));
    TransactionKeepsLegal(cat, halted, runTag, snapshot, c.transactionRan);
    var serving := AfterTransaction(halted, runTag, snapshot, c.transactionRan).(up := c.cameUp);
    NothingOfTheRun(serving.backend, runTag);
    ServeKeepsCovered(cat, serving, t.reopened, NotOfRun(runTag));
    NoRowOfTheRun(Final(cat, site, runTag, snapshot, c, t).backend, runTag);
  }

  /** When nobody requests anything after the restart, the final check sees what the transaction
      left. */
  lemma QuietRestart(cat: Catalog, site: Site, runTag: string, snapshot: seq<SnapshotEntry>, c: Commands, t: Traffic)
    requires site.Valid(cat) && Removed(cat, site, runTag, c, t) && StartsNothing(t.reopened)
    ensures
      var drained := AfterDraining(cat, site, t);
      Final(cat, site, runTag, snapshot, c, t).Tables()
      == Tables(Survivors(drained.backend.db.rows, Whole(runTag)), Restore(drained.Stores(), snapshot))
  {
    hide OfRun, OutsideRefund, Serve, AfterTransaction;
    ServeKeepsValid(cat, site, t.stopping);
    ServeKeepsValid(cat, AfterStopping(cat, site, t), t.draining);
    var halted := Halted(AfterDraining(cat, site, t));
    TransactionKeepsLegal(cat, halted, runTag, snapshot, c.transactionRan);
    IdleBackendWritesNothing(
      cat, AfterTransaction(halted, runTag, snapshot, c.transactionRan).(up := c.cameUp), t.reopened);
  }

  lemma HaltedIsDown(site: Site)
    ensures !Halted(site).up
  {
  }

  lemma {:induction false} ServeKeepsUp(cat: Catalog, site: Site, acts: seq<Action>)
    ensures Serve(cat, site, acts).up == site.up
  {
    if acts != [] && site.up {
      ServeKeepsUp(cat, site, Init(acts));
    }
  }

  /** A serving backend is left down exactly when the simulators were confirmed stopped and it went
      down itself, and then either its stop was not confirmed, so that nobody restarts it, or the
      restart did not bring it up. */
  lemma BackendIsLeftDownExactly(cat: Catalog, site: Site, runTag: string, snapshot: seq<SnapshotEntry>,
                                 c: Commands, t: Traffic)
    requires site.up && c.Valid()
    ensures !Final(cat, site, runTag, snapshot, c, t).up <==>
              c.simulators.Confirmed() && c.backend.wentDown && !(c.backend.Confirmed() && c.cameUp)
  {
    hide AfterTransaction, Halted;
    ServeKeepsUp(cat, site, t.stopping);
    ServeKeepsUp(cat, AfterStopping(cat, site, t), t.draining);
    var halted := Halted(AfterDraining(cat, site, t));
    HaltedIsDown(AfterDraining(cat, site, t));
    ServeKeepsUp(cat, AfterTransaction(halted, runTag, snapshot, c.transactionRan).(up := c.cameUp), t.reopened);
  }

  /** What becomes of the tables, for every pattern, in terms of what the backend alone serves: nothing
      but that happens unless both stops are confirmed; and behind both, in a quiet restart, nothing but
      the removal, if the transaction runs and nobody else refers to the run. */
  lemma TablesExactly(cat: Catalog, site: Site, runTag: string, snapshot: seq<SnapshotEntry>, c: Commands, t: Traffic)
    requires site.Valid(cat)
    ensures
      var end := Final(cat, site, runTag, snapshot, c, t);
      var stopped := Serve(cat, site, t.stopping);
      var drained := Serve(cat, stopped, t.draining);
      if !c.simulators.Confirmed() then end == stopped
      else if !c.backend.Confirmed() then end.Tables() == drained.Tables()
      else
        var removed := c.transactionRan && !OutsideRefund(drained.backend.db.rows, runTag);
        && (!removed ==> drained.backend.db.rows <= end.backend.db.rows)
        && (StartsNothing(t.reopened) ==>
              end.Tables() == if removed
                              then Tables(Survivors(drained.backend.db.rows, Whole(runTag)),
                                          Restore(drained.Stores(), snapshot))
                              else drained.Tables())
    ensures !(c.simulators.Confirmed() && c.backend.Confirmed()) ==>
              site.backend.db.rows <= Final(cat, site, runTag, snapshot, c, t).backend.db.rows
  {
    hide OfRun, OutsideRefund, Serve, AfterTransaction, Inv;
    ServeKeepsValid(cat, site, t.stopping);
    ServeKeepsValid(cat, AfterStopping(cat, site, t), t.draining);
    var halted := Halted(AfterDraining(cat, site, t));
    HaltKeepsValid(cat, AfterDraining(cat, site, t));
    TransactionKeepsLegal(cat, halted, runTag, snapshot, c.transactionRan);
    var serving := AfterTransaction(halted, runTag, snapshot, c.transactionRan).(up := c.cameUp);
    FreshIsInv(cat, serving.backend.db);
    ServeKeepsValid(cat, serving, t.reopened);
    if StartsNothing(t.reopened) {
      IdleBackendWritesNothing(cat, serving, t.reopened);
    }
  }

  // ---------------------------------------------------------------- without the barrier

  /** A sale call that has only its commit left. */
  function Uncommitted(cat: Catalog, p: Payload, now: Instant): Session
    requires cat.Knows(p)
  {
    Session(p, now, Committing(cat.storeIds[p.storeCode], cat.productIds[p.productSku]), None)
  }

  lemma AloneUpToTheCommit(cat: Catalog, db: Db, p: Payload, now: Instant)
    requires p.kind.Sale? && cat.Knows(p) && Find(db.rows, p.eventId).None?
    ensures Alone(cat, db, Session(p, now, LookingUp, None), 5) == (db, Uncommitted(cat, p, now))
  {
    var t := Session(p, now, LookingUp, None);
    var t1 := Moved(cat, db.rows, t);
    var t2 := Moved(cat, db.rows, t1);
    var t3 := Moved(cat, db.rows, t2);
    var t4 := Moved(cat, db.rows, t3);
    assert Alone(cat, db, t, 5) == Alone(cat, db, t1, 4) == Alone(cat, db, t2, 3) == Alone(cat, db, t3, 2)
        == Alone(cat, db, t4, 1) == Alone(cat, db, Uncommitted(cat, p, now), 0);
  }

  lemma SaleGetsThere(cat: Catalog, db: Db, p: Payload, now: Instant)
    requires p.Valid() && p.kind.Sale? && cat.Knows(p) && Find(db.rows, p.eventId).None?
    ensures Run(cat, Fresh(db), [Start(p, now)] + Turns(0, 5)) == State(db, [Uncommitted(cat, p, now)])
  {
    hide Moved, Written, Waits, Alone, Turns, Find;
    var t := Session(p, now, LookingUp, None);
    assert Init([Start(p, now)]) == [];
    assert Run(cat, Fresh(db), [Start(p, now)]) == State(db, [t]);
    RunTwice(cat, Fresh(db), [Start(p, now)], Turns(0, 5));
    QuietRun(cat, State(db, [t]), 0, 5);
    AloneUpToTheCommit(cat, db, p, now);
  }

  /** The site's tables are replaced under a backend that still serves. */
  function CleanedUnder(s: State, t: Tables): State {
    s.(db := s.db.(rows := t.rows))
  }

  /** With a backend that still serves, stopping the producers is not enough: over every legal table,
      any new sale of the run can be inserted and uncommitted when the transaction removes the
      run, and its commit, with no request after it, brings a row of the run back. */
  lemma CleanupNeedsTheBarrier(cat: Catalog, db: Db, p: Payload, now: Instant, runTag: string,
                               stores: Stores, snapshot: seq<SnapshotEntry>)
    returns (before: seq<Action>, after: seq<Action>)
    requires cat.Valid() && Legal(cat, db.rows) && !OutsideRefund(db.rows, runTag)
    requires p.Valid() && p.kind.Sale? && cat.Knows(p) && Find(db.rows, p.eventId).None? && FromRun(runTag, p)
    ensures StartsNothing(after)
    ensures
      var s := Run(cat, Fresh(db), before);
      var cleaned := Transaction(Cleanup.Tables(s.db.rows, stores), runTag, snapshot);
      && cleaned.Some? && NoRunRows(cleaned.value.rows, runTag)
      && !NoRunRows(Run(cat, CleanedUnder(s, cleaned.value), after).db.rows, runTag)
  {
    hide Like, OutsideRefund, Transaction;
    before, after := [Start(p, now)] + Turns(0, 5), [Advance(0)];
    SaleGetsThere(cat, db, p, now);
    TransactionSucceedsExactly(cat, Cleanup.Tables(db.rows, stores), runTag, snapshot);
    var cleaned := Transaction(Cleanup.Tables(db.rows, stores), runTag, snapshot).value;
    var s := CleanedUnder(Run(cat, Fresh(db), before), cleaned);
    assert Init(after) == [] && Run(cat, s, []) == s;
    assert !Waits(s, 0);
    var rows := Run(cat, s, after).db.rows;
    assert rows[|rows| - 1].sourceInstance == p.sourceInstance && OfRun(runTag, rows[|rows| - 1]);
  }

  // ---------------------------------------------------------------- the harness

  function CountRun(rows: seq<Row>, runTag: string): nat {
    if rows == [] then 0 else CountRun(Init(rows), runTag) + if OfRun(runTag, Last(rows)) then 1 else 0
  }

  lemma {:induction false} CountedZero(rows: seq<Row>, runTag: string)
    ensures CountRun(rows, runTag) == 0 <==> NoRunRows(rows, runTag)
  {
    hide OfRun;
    if rows != [] {
      CountedZero(Init(rows), runTag);
      assert forall row :: row in rows <==> row in Init(rows) || row == Last(rows);
    }
  }

  class Finalizer {
    const cat: Catalog
    const runTag: string
    const snapshot: seq<SnapshotEntry>
    var site: Site
    var acts: seq<Act>
    var errors: seq<Error>

    constructor (cat: Catalog, runTag: string, snapshot: seq<SnapshotEntry>, site: Site)
      requires site.Valid(cat) && site.up && OnePerStore(snapshot)
      ensures this.cat == cat && this.runTag == runTag && this.snapshot == snapshot && this.site == site
      ensures Valid() && acts == [] && errors == []
    {
      this.cat, this.runTag, this.snapshot, this.site := cat, runTag, snapshot, site;
      acts, errors := [], [];
    }

    ghost predicate Valid()
      reads this
    {
      site.Valid(cat) && OnePerStore(snapshot)
    }

    /** The backend at work, as long as it is up. */
    method BackendServes(served: seq<Action>)
      requires Valid()
      modifies this`site
      ensures Valid() && site == Serve(cat, old(site), served)
    {
      ServeKeepsValid(cat, site, served);
      site := Serve(cat, site, served);
    }

    /** Graceful stop, then a kill when that could not be confirmed. */
    method StopServices(o: StopOutcome) returns (ok: bool)
      ensures ok <==> o.Confirmed()
    {
      if o.afterStop.ListingFailed? { return false; }
      if o.stopOk && o.afterStop.NoneRunning? { return true; }
      if o.afterKill.ListingFailed? { return false; }
      ok := o.killOk && o.afterKill.NoneRunning?;
    }

    method VerifyNoRunRows(counted: bool) returns (ok: bool)
      ensures ok <==> counted && NoRunRows(site.backend.db.rows, runTag)
    {
      CountedZero(site.backend.db.rows, runTag);
      ok := counted && CountRun(site.backend.db.rows, runTag) == 0;
    }

    /** The cleanup checks itself: the transaction took, its command said so, and nothing is missing. */
    predicate CleanedUp(c: Commands, before: Site) {
      && c.transactionReported && !OutsideRefund(before.backend.db.rows, runTag)
      && c.rowsCounted && c.mismatchesCounted
      && forall i | 0 <= i < |snapshot| :: snapshot[i].id in before.Stores()
    }

    /** The transaction, and the two checks after it.  The transaction may have run although its
        command failed; then nothing is checked. */
    method CleanupVerificationData(c: Commands) returns (ok: bool)
      requires Valid() && c.Valid() && site.backend.sessions == []
      modifies this`site, this`acts
      ensures Valid() && acts == old(acts) + [TransactionRun]
      ensures site == AfterTransaction(old(site), runTag, snapshot, c.transactionRan)
      ensures site.backend.sessions == []
      ensures ok <==> CleanedUp(c, old(site))
    {
      hide OfRun, OutsideRefund, Transaction;
      acts := acts + [TransactionRun];
      TransactionKeepsLegal(cat, site, runTag, snapshot, c.transactionRan);
      RestoreMatchesExactly(site.Stores(), snapshot);
      TransactionSucceedsExactly(cat, site.Tables(), runTag, snapshot);
      var cleaned := if c.transactionRan then Transaction(site.Tables(), runTag, snapshot) else None;
      if cleaned.Some? {
        site := Replaced(site, cleaned.value);
        FreshIsInv(cat, site.backend.db);
      }
      if cleaned.None? || !c.transactionReported { return false; }
      ReplacedTables(old(site), cleaned.value);
      var empty := VerifyNoRunRows(c.rowsCounted);
      if !empty { return false; }
      ok := c.mismatchesCounted && Mismatches(site.Stores(), snapshot) == 0;
    }

    /** The final check: no simulator is back, no run row is back, the restored state still holds. */
    method VerifyAfterRestart(c: Commands) returns (ok: bool)
      modifies this`acts
      ensures acts == old(acts) + [FinalCheck]
      ensures ok <==>
              && c.afterRestart.NoneRunning?
              && c.rowsRecounted && NoRunRows(site.backend.db.rows, runTag)
              && c.mismatchesRecounted && Mismatches(site.Stores(), snapshot) == 0
    {
      acts := acts + [FinalCheck];
      if !c.afterRestart.NoneRunning? { return false; }
      var empty := VerifyNoRunRows(c.rowsRecounted);
      if !empty { return false; }
      ok := c.mismatchesRecounted && Mismatches(site.Stores(), snapshot) == 0;
    }

    /** Which acts a pattern of command outcomes leads to. */
    function Plan(c: Commands): seq<Act> {
      if !c.simulators.Confirmed() then []
      else if !c.backend.Confirmed() then [SimulatorsStopped]
      else [SimulatorsStopped, BackendStopped, TransactionRun, RestartAttempted]
           + if c.restarted then [FinalCheck] else []
    }

    /** The barrier takes effect. */
    method Halt()
      requires Valid()
      modifies this`site
      ensures Valid() && site == Halted(old(site))
    {
      HaltKeepsValid(cat, site);
      site := Halted(site);
    }

    /** Everything between the stop of the backend and the final check. */
    method CleanBehindBarrier(c: Commands, t: Traffic)
      requires Valid() && c.Valid()
      modifies this
      ensures Valid() && acts == old(acts) + [BackendStopped, TransactionRun, RestartAttempted]
      ensures
        var cleaned := AfterTransaction(Halted(old(site)), runTag, snapshot, c.transactionRan);
        site == Serve(cat, cleaned.(up := c.cameUp), t.reopened)
      ensures errors == old(errors) + (if CleanedUp(c, old(site)) then [] else [CleanupFailed])
                        + (if c.restarted then [] else [RestartFailed])
    {
      hide OfRun, OutsideRefund, Serve, Inv, AfterTransaction, NoRunRows, Mismatches;
      acts := acts + [BackendStopped];
      Halt();
      var cleaned := CleanupVerificationData(c);
      if !cleaned {
        errors := errors + [CleanupFailed];
      }
      acts := acts + [RestartAttempted];
      site := site.(up := c.cameUp);
      if !c.restarted {
        errors := errors + [RestartFailed];
      }
      BackendServes(t.reopened);
    }

    /** What has to hold for a finalization of this site to raise nothing. */
    predicate Succeeded(c: Commands, t: Traffic, before: Site)
      reads this`site
    {
      && Removed(cat, before, runTag, c, t) && c.transactionReported
      && (forall i | 0 <= i < |snapshot| :: snapshot[i].id in AfterDraining(cat, before, t).Stores())
      && c.rowsCounted && c.mismatchesCounted
      && c.restarted && c.afterRestart.NoneRunning?
      && c.rowsRecounted && NoRunRows(site.backend.db.rows, runTag)
      && c.mismatchesRecounted && Mismatches(site.Stores(), snapshot) == 0
    }

    /** The final check passes. */
    predicate FinalCheckPasses(c: Commands)
      reads this`site
    {
      && c.afterRestart.NoneRunning?
      && c.rowsRecounted && NoRunRows(site.backend.db.rows, runTag)
      && c.mismatchesRecounted && Mismatches(site.Stores(), snapshot) == 0
    }

    /** Step by step. */
    method FinalizeSteps(c: Commands, t: Traffic)
      requires Valid() && c.Valid() && acts == [] && errors == []
      modifies this
      ensures Valid() && acts == Plan(c)
      ensures site == Final(cat, old(site), runTag, snapshot, c, t)
      ensures errors == [] <==> Succeeded(c, t, old(site))
      ensures errors ==
              if !c.simulators.Confirmed() then [SimulatorStopFailed]
              else if !c.backend.Confirmed() then [CleanupFailed]
              else (if CleanedUp(c, AfterDraining(cat, old(site), t)) then [] else [CleanupFailed])
                   + (if !c.restarted then [RestartFailed] else if FinalCheckPasses(c) then [] else [PostRestartFailed])
    {
      hide OfRun, OutsideRefund, Serve, Inv, AfterTransaction, NoRunRows, Mismatches, Halted;
      BackendServes(t.stopping);
      var stopped := StopServices(c.simulators);
      if !stopped {
        errors := errors + [SimulatorStopFailed];
        return;
      }
      acts := acts + [SimulatorsStopped];
      BackendServes(t.draining);
      var backendStopped := StopServices(c.backend);
      if backendStopped {
        CleanBehindBarrier(c, t);
      } else {
        if c.backend.wentDown {
          Halt();
        }
        errors := errors + [CleanupFailed];
      }
      if backendStopped && RestartFailed !in errors {
        var verified := VerifyAfterRestart(c);
        if !verified {
          errors := errors + [PostRestartFailed];
        }
      }
    }

    /** The whole finalization.  The transaction runs only behind both barriers, and a backend that is
        confirmed stopped gets exactly one restart attempt. */
    method Finalize(c: Commands, t: Traffic)
      requires Valid() && c.Valid() && acts == [] && errors == []
      modifies this
      ensures Valid() && acts == Plan(c)
      ensures TransactionRun in acts <==> c.simulators.Confirmed() && c.backend.Confirmed()
      ensures multiset(acts)[RestartAttempted] == if c.simulators.Confirmed() && c.backend.Confirmed() then 1 else 0
      ensures site == Final(cat, old(site), runTag, snapshot, c, t)
      ensures TransactionRun !in acts ==> old(site).backend.db.rows <= site.backend.db.rows
      ensures !c.simulators.Confirmed() ==> site == Serve(cat, old(site), t.stopping)
      ensures c.simulators.Confirmed() && !c.backend.Confirmed() ==>
                site.Tables() == Serve(cat, Serve(cat, old(site), t.stopping), t.draining).Tables()
      ensures errors == [] <==> Succeeded(c, t, old(site))
      ensures errors ==
              if !c.simulators.Confirmed() then [SimulatorStopFailed]
              else if !c.backend.Confirmed() then [CleanupFailed]
              else (if CleanedUp(c, AfterDraining(cat, old(site), t)) then [] else [CleanupFailed])
                   + (if !c.restarted then [RestartFailed] else if FinalCheckPasses(c) then [] else [PostRestartFailed])
    {
      hide OfRun, OutsideRefund, Serve, Inv, AfterTransaction, NoRunRows, Mismatches, Halted, Final, Succeeded,
           CleanedUp, FinalCheckPasses;
      TablesExactly(cat, site, runTag, snapshot, c, t);
      FinalizeSteps(c, t);
      if c.simulators.Confirmed() && c.backend.Confirmed() {
        assert multiset(acts) == multiset{SimulatorsStopped, BackendStopped, TransactionRun, RestartAttempted}
                                 + if c.restarted then multiset{FinalCheck} else multiset{};
      }
    }
  }
}
