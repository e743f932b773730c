/** A verification run from its first request to the final check: any number of producers, their
    networks and other clients, the finalization behind its barriers, and what is left. */
module WholeRun {
  import opened Events
  import opened Sessions
  import opened Settings
  import opened Delivery
  import opened Cleanup
  import opened RunRows
  import opened Fleets
  import opened Harness

  // ---------------------------------------------------------------- a fleet at work

  function Onward(cat: Catalog, cfgs: seq<Config>, f: Fleet, os: seq<Occurrence>): (f': Fleet)
    requires Manned(f, cfgs)
    ensures Manned(f', cfgs)
  {
    if os == [] then f else Occurs(cat, cfgs, Onward(cat, cfgs, f, Init(os)), Last(os))
  }

  lemma {:induction false} ChronicleOnward(cat: Catalog, cfgs: seq<Config>, db: Db,
                                           os: seq<Occurrence>, more: seq<Occurrence>)
    requires ValidConfigs(cfgs)
    ensures Chronicle(cat, cfgs, db, os + more) == Onward(cat, cfgs, Chronicle(cat, cfgs, db, os), more)
  {
    if more == [] {
      assert os + more == os;
    } else {
      assert Init(os + more) == os + Init(more);
      ChronicleOnward(cat, cfgs, db, os, Init(more));
    }
  }

  /** What an occurrence makes the backend do. */
  function ActionOf(cfgs: seq<Config>, f: Fleet, o: Occurrence): seq<Action>
    requires Manned(f, cfgs)
  {
    if o.k >= |cfgs| || !Admitted(f, o.h) || BackendAction(View(f, o.k), o.h).None? then []
    else [BackendAction(View(f, o.k), o.h).value]
  }

  function ActionsOf(cat: Catalog, cfgs: seq<Config>, f: Fleet, os: seq<Occurrence>): seq<Action>
    requires Manned(f, cfgs)
  {
    if os == [] then []
    else ActionsOf(cat, cfgs, f, Init(os)) + ActionOf(cfgs, Onward(cat, cfgs, f, Init(os)), Last(os))
  }

  lemma OccursActs(cat: Catalog, cfgs: seq<Config>, f: Fleet, o: Occurrence)
    requires Manned(f, cfgs)
    ensures
      var acts := ActionOf(cfgs, f, o);
      Occurs(cat, cfgs, f, o).backend == if acts == [] then f.backend else Step(cat, f.backend, acts[0])
  {
    hide Happens, Step;
    if o.k < |cfgs| && Admitted(f, o.h) {
      BackendMoves(cat, cfgs[o.k], View(f, o.k), o.h);
    }
  }

  lemma AtMostOneAction(cfgs: seq<Config>, f: Fleet, o: Occurrence)
    requires Manned(f, cfgs)
    ensures |ActionOf(cfgs, f, o)| <= 1
  {
  }

  /** The backend of a fleet serves what the fleet and everybody else bring. */
  lemma {:induction false} OnwardServes(cat: Catalog, cfgs: seq<Config>, f: Fleet, os: seq<Occurrence>, site: Site)
    requires Manned(f, cfgs) && site.up && site.backend == f.backend
    ensures Serve(cat, site, ActionsOf(cat, cfgs, f, os)).backend == Onward(cat, cfgs, f, os).backend
    ensures Serve(cat, site, ActionsOf(cat, cfgs, f, os)).up
  {
    hide Occurs, Step, Updated, ActionOf;
    if os != [] {
      OnwardServes(cat, cfgs, f, Init(os), site);
      var before, acts := Onward(cat, cfgs, f, Init(os)), ActionOf(cfgs, Onward(cat, cfgs, f, Init(os)), Last(os));
      OccursActs(cat, cfgs, before, Last(os));
      AtMostOneAction(cfgs, before, Last(os));
      var all := ActionsOf(cat, cfgs, f, Init(os)) + acts;
      if acts == [] {
        assert all == ActionsOf(cat, cfgs, f, Init(os));
      } else {
        assert Init(all) == ActionsOf(cat, cfgs, f, Init(os)) && Last(all) == acts[0];
      }
    }
  }

  // ---------------------------------------------------------------- with the producers stopped

  /** Needs no producer: a request under way, another client, or the backend itself. */
  predicate ByNetwork(h: Happening) {
    h.Arrive? || h.Foreign? || h.Execute? || h.Crash? || h.Cut?
  }

  predicate Stopped(os: seq<Occurrence>) {
    forall o | o in os :: ByNetwork(o.h)
  }

  /** A backend that is started anew has none of the old connections. */
  function Reconnected(f: Fleet, backend: State): Fleet {
    Fleet(backend, f.producers, seq(|f.wires|, k => Wires([], {}, map[], map[], [])))
  }

  predicate Silent(f: Fleet) {
    forall k | 0 <= k < |f.wires| :: f.wires[k].posts == []
  }

  lemma SilentStays(cat: Catalog, cfgs: seq<Config>, f: Fleet, o: Occurrence)
    requires Manned(f, cfgs) && Silent(f) && ByNetwork(o.h)
    ensures Silent(Occurs(cat, cfgs, f, o))
    ensures forall a | a in ActionOf(cfgs, f, o) && a.Start? :: o.h.Foreign? && a.payload == o.h.payload
  {
    hide Step, Touches;
  }

  lemma RequestedStays(os: seq<Occurrence>, more: seq<Occurrence>, id: Uuid, source: string)
    requires Requested(os, id, source) || Requested(more, id, source)
    ensures Requested(os + more, id, source)
  {
    if Requested(os, id, source) {
      var i :| 0 <= i < |os| &&
               os[i].h.Foreign? && os[i].h.payload.eventId == id && os[i].h.payload.sourceInstance == source;
      assert (os + more)[i] == os[i];
    } else {
      var i :| 0 <= i < |more| &&
               more[i].h.Foreign? && more[i].h.payload.eventId == id && more[i].h.payload.sourceInstance == source;
      assert (os + more)[|os| + i] == more[i];
    }
  }

  /** Requests that arrive at a backend started anew are those of other clients. */
  lemma {:induction false} OnlyOthersRequest(cat: Catalog, cfgs: seq<Config>, f: Fleet, os: seq<Occurrence>)
    requires Manned(f, cfgs) && Silent(f) && Stopped(os)
    ensures Silent(Onward(cat, cfgs, f, os))
    ensures forall a | a in ActionsOf(cat, cfgs, f, os) && a.Start? ::
              Requested(os, a.payload.eventId, a.payload.sourceInstance)
              && exists o | o in os :: o.h.Foreign? && a.payload == o.h.payload
  {
    hide Occurs, ActionOf, Silent;
    if os == [] {
    } else {
      var before, o := Onward(cat, cfgs, f, Init(os)), Last(os);
      assert o in os && forall other | other in Init(os) :: other in os;
      OnlyOthersRequest(cat, cfgs, f, Init(os));
      SilentStays(cat, cfgs, before, o);
      forall a | a in ActionsOf(cat, cfgs, f, os) && a.Start?
        ensures Requested(os, a.payload.eventId, a.payload.sourceInstance)
        ensures exists other | other in os :: other.h.Foreign? && a.payload == other.h.payload
      {
        if a in ActionsOf(cat, cfgs, f, Init(os)) {
          RequestedStays(Init(os), [o], a.payload.eventId, a.payload.sourceInstance);
          assert Init(os) + [o] == os;
        } else {
          assert os[|os| - 1] == o;
        }
      }
    }
  }

  // ---------------------------------------------------------------- the whole run

  /** The run itself, and what goes on while the producers are being stopped, while the backend is
      being stopped, and between its restart and the final check. */
  datatype Course = Course(
    running: seq<Occurrence>,
    stopping: seq<Occurrence>,
    draining: seq<Occurrence>,
    reopened: seq<Occurrence>)
  {
    function BeforeStop(): seq<Occurrence> {
      running + stopping + draining
    }

    function All(): seq<Occurrence> {
      BeforeStop() + reopened
    }
  }

  /** The site when the finalization begins. */
  function SiteOf(cat: Catalog, cfgs: seq<Config>, db: Db, course: Course, updatedAt: map<Uuid, Instant>): Site
    requires ValidConfigs(cfgs)
  {
    Site(Chronicle(cat, cfgs, db, course.running).backend, updatedAt, true)
  }

  /** What the backend serves up to its own stop. */
  function TrafficBeforeStop(cat: Catalog, cfgs: seq<Config>, db: Db, course: Course): Traffic
    requires ValidConfigs(cfgs)
  {
    var f := Chronicle(cat, cfgs, db, course.running);
    var f1 := Onward(cat, cfgs, f, course.stopping);
    Traffic(ActionsOf(cat, cfgs, f, course.stopping), ActionsOf(cat, cfgs, f1, course.draining), [])
  }

  /** The site behind both stops, after the transaction. */
  function CleanedSite(cat: Catalog, cfgs: seq<Config>, db: Db, course: Course, updatedAt: map<Uuid, Instant>,
                       runTag: string, snapshot: seq<SnapshotEntry>, ran: bool): Site
    requires ValidConfigs(cfgs)
  {
    var t := TrafficBeforeStop(cat, cfgs, db, course);
    AfterTransaction(Halted(AfterDraining(cat, SiteOf(cat, cfgs, db, course, updatedAt), t)), runTag, snapshot, ran)
  }

  function TrafficOf(cat: Catalog, cfgs: seq<Config>, db: Db, course: Course, updatedAt: map<Uuid, Instant>,
                     runTag: string, snapshot: seq<SnapshotEntry>, ran: bool): Traffic
    requires ValidConfigs(cfgs)
  {
    var f := Chronicle(cat, cfgs, db, course.BeforeStop());
    var cleaned := CleanedSite(cat, cfgs, db, course, updatedAt, runTag, snapshot, ran);
    TrafficBeforeStop(cat, cfgs, db, course)
      .(reopened := ActionsOf(cat, cfgs, Reconnected(f, cleaned.backend), course.reopened))
  }

  /** A run with a new tag, which all its producers carry and nobody else uses. */
  predicate IsRun(cat: Catalog, cfgs: seq<Config>, db: Db, course: Course, runTag: string) {
    && ValidConfigs(cfgs) && cat.Valid() && Legal(cat, db.rows)
    && (forall k | 0 <= k < |cfgs| :: Stocked(cat, cfgs[k]) && Like(SourcePattern(runTag), cfgs[k].instanceLabel))
    && NoRunRows(db.rows, runTag) && OnlyFleetRuns(course.All(), runTag)
  }

  /** The backend as the harness finds it when both stops are confirmed. */
  lemma DrainedIsChronicle(cat: Catalog, cfgs: seq<Config>, db: Db, course: Course, updatedAt: map<Uuid, Instant>)
    requires ValidConfigs(cfgs)
    ensures
      var site, t := SiteOf(cat, cfgs, db, course, updatedAt), TrafficBeforeStop(cat, cfgs, db, course);
      AfterDraining(cat, site, t).backend == Chronicle(cat, cfgs, db, course.BeforeStop()).backend
  {
    hide Chronicle, Onward, Serve, ActionsOf;
    var f := Chronicle(cat, cfgs, db, course.running);
    var f1 := Onward(cat, cfgs, f, course.stopping);
    var site, t := SiteOf(cat, cfgs, db, course, updatedAt), TrafficBeforeStop(cat, cfgs, db, course);
    OnwardServes(cat, cfgs, f, course.stopping, site);
    OnwardServes(cat, cfgs, f1, course.draining, AfterStopping(cat, site, t));
    ChronicleOnward(cat, cfgs, db, course.running, course.stopping);
    ChronicleOnward(cat, cfgs, db, course.running + course.stopping, course.draining);
  }

  /** From the initial table, or requested by another client. */
  function FromOthers(rows: seq<Row>, os: seq<Occurrence>): (Uuid, string) -> bool {
    (id: Uuid, source: string) => StoredIn(rows, id, source) || Requested(os, id, source)
  }

  /** What is not of the run was there before it or is another client's. */
  lemma SurvivorIsFromOthers(cat: Catalog, cfgs: seq<Config>, db: Db, course: Course, runTag: string, row: Row)
    requires IsRun(cat, cfgs, db, course, runTag)
    requires row in Chronicle(cat, cfgs, db, course.BeforeStop()).backend.db.rows && !OfRun(runTag, row)
    ensures FromOthers(db.rows, course.All())(row.eventId, row.sourceInstance)
  {
    hide Chronicle, Like, StoredIn, Requested, Stocked;
    var os := course.BeforeStop();
    ChronicleHasOrigins(cat, cfgs, db, os);
    var f := Chronicle(cat, cfgs, db, os);
    var i :| 0 <= i < |f.backend.db.rows| && f.backend.db.rows[i] == row;
    assert Origin(cfgs, f.producers, db.rows, os)(row.eventId, row.sourceInstance);
    if Requested(os, row.eventId, row.sourceInstance) {
      RequestedStays(os, course.reopened, row.eventId, row.sourceInstance);
    }
  }

  lemma OnlyFleetRunsBefore(course: Course, runTag: string)
    requires OnlyFleetRuns(course.All(), runTag)
    ensures OnlyFleetRuns(course.BeforeStop(), runTag) && OnlyFleetRuns(course.reopened, runTag)
  {
    hide FromRun;
    assert forall o | o in course.BeforeStop() :: o in course.All();
    assert forall o | o in course.reopened :: o in course.All();
  }

  /** Behind both barriers the run can be removed, and what is left is the others'. */
  lemma CleanedIsOthers(cat: Catalog, cfgs: seq<Config>, db: Db, course: Course, updatedAt: map<Uuid, Instant>,
                        runTag: string, snapshot: seq<SnapshotEntry>)
    requires IsRun(cat, cfgs, db, course, runTag)
    ensures
      var f := Chronicle(cat, cfgs, db, course.BeforeStop());
      var cleaned := CleanedSite(cat, cfgs, db, course, updatedAt, runTag, snapshot, true);
      && !OutsideRefund(f.backend.db.rows, runTag)
      && cleaned.backend.sessions == []
      && Legal(cat, cleaned.backend.db.rows)
      && NoRunRows(cleaned.backend.db.rows, runTag)
      && Covered(cleaned.backend, FromOthers(db.rows, course.All()))
      && forall row | row in db.rows :: row in cleaned.backend.db.rows
  {
    var os := course.BeforeStop();
    var f := Chronicle(cat, cfgs, db, os);
    var cleaned := CleanedSite(cat, cfgs, db, course, updatedAt, runTag, snapshot, true);
    var t := TrafficBeforeStop(cat, cfgs, db, course);
    var halted := Halted(AfterDraining(cat, SiteOf(cat, cfgs, db, course, updatedAt), t));
    DrainedIsChronicle(cat, cfgs, db, course, updatedAt);
    OnlyFleetRunsBefore(course, runTag);
    hide Chronicle, TrafficBeforeStop, SiteOf, AfterDraining, AfterTransaction, OfRun, OutsideRefund, Stocked, Like,
         OnlyFleetRuns, FromOthers;
    RunIsRemovable(cat, cfgs, db, os, runTag, map[], []);
    ChronicleIsLegal(cat, cfgs, db, os);
    TransactionKeepsLegal(cat, halted, runTag, snapshot, true);
    SurvivorsAre(f.backend.db.rows, Whole(runTag));
    forall i | 0 <= i < |cleaned.backend.db.rows|
      ensures
        var row := cleaned.backend.db.rows[i];
        FromOthers(db.rows, course.All())(row.eventId, row.sourceInstance)
    {
      assert cleaned.backend.db.rows[i] in cleaned.backend.db.rows;
      SurvivorIsFromOthers(cat, cfgs, db, course, runTag, cleaned.backend.db.rows[i]);
    }
    forall row | row in db.rows ensures row in cleaned.backend.db.rows {
      assert row in f.backend.db.rows;
    }
  }

  /** The last leg of the finalization, in terms of the cleaned site. */
  lemma EndsReopened(cat: Catalog, cfgs: seq<Config>, db: Db, course: Course, updatedAt: map<Uuid, Instant>,
                     runTag: string, snapshot: seq<SnapshotEntry>, c: Commands)
    requires ValidConfigs(cfgs)
    requires c.simulators.Confirmed() && c.backend.Confirmed() && c.transactionRan
    ensures
      var site := SiteOf(cat, cfgs, db, course, updatedAt);
      var t := TrafficOf(cat, cfgs, db, course, updatedAt, runTag, snapshot, true);
      var cleaned := CleanedSite(cat, cfgs, db, course, updatedAt, runTag, snapshot, true);
      && Final(cat, site, runTag, snapshot, c, t) == Serve(cat, cleaned.(up := c.cameUp), t.reopened)
      && AfterDraining(cat, site, t) == AfterDraining(cat, site, TrafficBeforeStop(cat, cfgs, db, course))
  {
    hide Chronicle, AfterTransaction, Serve, ActionsOf, Reconnected, Onward;
  }

  /** After the restart only other clients are served. */
  lemma ReopenedIsOthers(cat: Catalog, cfgs: seq<Config>, db: Db, course: Course, updatedAt: map<Uuid, Instant>,
                         runTag: string, snapshot: seq<SnapshotEntry>)
    requires IsRun(cat, cfgs, db, course, runTag) && Stopped(course.reopened)
    ensures
      var t := TrafficOf(cat, cfgs, db, course, updatedAt, runTag, snapshot, true);
      && NoRunStarts(t.reopened, runTag)
      && forall a | a in t.reopened && a.Start? :: Requested(course.All(), a.payload.eventId, a.payload.sourceInstance)
  {
    hide Chronicle, CleanedSite, TrafficBeforeStop, Like, Stocked, Requested, Onward;
    var f := Chronicle(cat, cfgs, db, course.BeforeStop());
    var cleaned := CleanedSite(cat, cfgs, db, course, updatedAt, runTag, snapshot, true);
    OnlyFleetRunsBefore(course, runTag);
    var t := TrafficOf(cat, cfgs, db, course, updatedAt, runTag, snapshot, true);
    OnlyOthersRequest(cat, cfgs, Reconnected(f, cleaned.backend), course.reopened);
    forall a | a in t.reopened && a.Start?
      ensures Requested(course.All(), a.payload.eventId, a.payload.sourceInstance)
    {
      RequestedStays(course.BeforeStop(), course.reopened, a.payload.eventId, a.payload.sourceInstance);
    }
  }

  lemma SameIdSameRow(cat: Catalog, rows: seq<Row>, some: seq<Row>, row: Row)
    requires Legal(cat, rows) && row in rows && StoredIn(some, row.eventId, row.sourceInstance)
    requires forall r | r in some :: r in rows
    ensures row in some
  {
    var i :| 0 <= i < |some| && some[i].eventId == row.eventId && some[i].sourceInstance == row.sourceInstance;
    assert some[i] in rows;
    var a :| 0 <= a < |rows| && rows[a] == row;
    var b :| 0 <= b < |rows| && rows[b] == some[i];
    OriginalIsUnique(cat, rows, row.eventId);
  }

  /** Serving others on others' rows leaves others' rows. */
  lemma OthersAreLeft(cat: Catalog, site: Site, acts: seq<Action>, db: Db, os: seq<Occurrence>, runTag: string)
    requires cat.Valid() && Legal(cat, site.backend.db.rows) && site.backend.sessions == []
    requires NoRunRows(site.backend.db.rows, runTag) && NoRunStarts(acts, runTag)
    requires Covered(site.backend, FromOthers(db.rows, os))
    requires forall a | a in acts && a.Start? :: Requested(os, a.payload.eventId, a.payload.sourceInstance)
    requires forall row | row in db.rows :: row in site.backend.db.rows
    ensures
      var rows := Serve(cat, site, acts).backend.db.rows;
      && Legal(cat, rows) && NoRunRows(rows, runTag)
      && (forall row | row in db.rows :: row in rows)
      && (forall row | row in rows :: row in db.rows || Requested(os, row.eventId, row.sourceInstance))
  {
    hide Requested, Serve;
    var end := Serve(cat, site, acts);
    FreshIsInv(cat, site.backend.db);
    ServeKeepsValid(cat, site, acts);
    HaltKeepsValid(cat, end);
    NothingOfTheRun(site.backend, runTag);
    ServeKeepsCovered(cat, site, acts, NotOfRun(runTag));
    NoRowOfTheRun(end.backend, runTag);
    ServeKeepsCovered(cat, site, acts, FromOthers(db.rows, os));
    forall row | row in db.rows ensures row in end.backend.db.rows {
      assert row in site.backend.db.rows;
    }
    forall row | row in end.backend.db.rows
      ensures row in db.rows || Requested(os, row.eventId, row.sourceInstance)
    {
      var i :| 0 <= i < |end.backend.db.rows| && end.backend.db.rows[i] == row;
      assert FromOthers(db.rows, os)(row.eventId, row.sourceInstance);
      if StoredIn(db.rows, row.eventId, row.sourceInstance) {
        SameIdSameRow(cat, end.backend.db.rows, db.rows, row);
      }
    }
  }

  /** A verification run leaves nothing behind.  When the producers and the backend were confirmed
      stopped and the transaction ran, whatever failed apart from that: the final table is legal,
      holds every initial row and no row of the run, and everything else in it was requested by
      other clients.  That no request of the run follows the restart is a consequence of the
      producers' stop: they send nothing, and their connections ended with the old backend. */
  lemma NothingOfTheRunIsLeft(cat: Catalog, cfgs: seq<Config>, db: Db, course: Course, updatedAt: map<Uuid, Instant>,
                              runTag: string, snapshot: seq<SnapshotEntry>, c: Commands)
    requires IsRun(cat, cfgs, db, course, runTag)
    requires c.simulators.Confirmed() ==> Stopped(course.draining) && Stopped(course.reopened)
    requires c.simulators.Confirmed() && c.backend.Confirmed() && c.transactionRan
    ensures
      var site := SiteOf(cat, cfgs, db, course, updatedAt);
      var t := TrafficOf(cat, cfgs, db, course, updatedAt, runTag, snapshot, c.transactionRan);
      var rows := Final(cat, site, runTag, snapshot, c, t).backend.db.rows;
      && Removed(cat, site, runTag, c, t)
      && Legal(cat, rows)
      && NoRunRows(rows, runTag)
      && (forall row | row in db.rows :: row in rows)
      && (forall row | row in rows :: row in db.rows || Requested(course.All(), row.eventId, row.sourceInstance))
  {
    var site := SiteOf(cat, cfgs, db, course, updatedAt);
    var t := TrafficOf(cat, cfgs, db, course, updatedAt, runTag, snapshot, true);
    var cleaned := CleanedSite(cat, cfgs, db, course, updatedAt, runTag, snapshot, true);
    var end := Final(cat, site, runTag, snapshot, c, t);
    DrainedIsChronicle(cat, cfgs, db, course, updatedAt);
    CleanedIsOthers(cat, cfgs, db, course, updatedAt, runTag, snapshot);
    ReopenedIsOthers(cat, cfgs, db, course, updatedAt, runTag, snapshot);
    hide Chronicle, TrafficOf, TrafficBeforeStop, CleanedSite, SiteOf, AfterDraining, AfterTransaction, Serve, Like,
         OutsideRefund, Requested, Stocked, StoredIn;
    EndsReopened(cat, cfgs, db, course, updatedAt, runTag, snapshot, c);
    OthersAreLeft(cat, cleaned.(up := c.cameUp), t.reopened, db, course.All(), runTag);
  }
}
