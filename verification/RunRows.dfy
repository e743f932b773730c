/** Where the rows of a verification run come from while the backend is serving. */
module RunRows {
  import opened Events
  import opened Sessions
  import opened Refinement
  import opened Cleanup

  predicate FromRun(runTag: string, p: Payload) {
    Like(SourcePattern(runTag), p.sourceInstance)
  }

  /** Every row, stored or still to be stored, has an id and a source of this kind. */
  ghost predicate Covered(s: State, good: (Uuid, string) -> bool) {
    && (forall i: nat | InFlight(s, i) :: good(s.sessions[i].payload.eventId, s.sessions[i].payload.sourceInstance))
    && (forall i | 0 <= i < |s.db.rows| :: good(s.db.rows[i].eventId, s.db.rows[i].sourceInstance))
  }

  lemma StepInFlight(cat: Catalog, s: State, a: Action, i: nat)
    requires InFlight(Step(cat, s, a), i)
    ensures i < |s.sessions| ==> InFlight(s, i) && Step(cat, s, a).sessions[i].payload == s.sessions[i].payload
    ensures i >= |s.sessions| ==> a.Start? && Step(cat, s, a).sessions[i].payload == a.payload
  {
  }

  /** A step stores no row but that of a session in flight. */
  lemma StepAddsItsRow(cat: Catalog, s: State, a: Action, k: nat)
    requires |s.db.rows| <= k < |Step(cat, s, a).db.rows|
    ensures (a.Advance? || a.Sever?) && InFlight(s, a.i)
    ensures Step(cat, s, a).db.rows[k].eventId == s.sessions[a.i].payload.eventId
    ensures Step(cat, s, a).db.rows[k].sourceInstance == s.sessions[a.i].payload.sourceInstance
  {
  }

  lemma StepKeepsCovered(cat: Catalog, s: State, a: Action, good: (Uuid, string) -> bool)
    requires Covered(s, good)
    requires a.Start? ==> good(a.payload.eventId, a.payload.sourceInstance)
    ensures Covered(Step(cat, s, a), good)
  {
    hide Step;
    var s' := Step(cat, s, a);
    forall i: nat | InFlight(s', i)
      ensures good(s'.sessions[i].payload.eventId, s'.sessions[i].payload.sourceInstance)
    {
      StepInFlight(cat, s, a, i);
    }
    StepExtendsTable(cat, s, a);
    forall k | 0 <= k < |s'.db.rows| ensures good(s'.db.rows[k].eventId, s'.db.rows[k].sourceInstance) {
      if k >= |s.db.rows| {
        StepAddsItsRow(cat, s, a, k);
      } else {
        assert s'.db.rows[k] == s.db.rows[k];
      }
    }
  }

  lemma CoveredByMore(s: State, good: (Uuid, string) -> bool, more: (Uuid, string) -> bool)
    requires Covered(s, good) && forall id, source | good(id, source) :: more(id, source)
    ensures Covered(s, more)
  {
  }

  /** No request of the run. */
  predicate NoRunStarts(acts: seq<Action>, runTag: string) {
    forall a | a in acts && a.Start? :: !FromRun(runTag, a.payload)
  }

  predicate NoRunRows(rows: seq<Row>, runTag: string) {
    forall row | row in rows :: !OfRun(runTag, row)
  }
}
