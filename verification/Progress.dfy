/** Deadlock freedom and termination of concurrent ingestion. */
module Progress {
  import opened Events
  import opened Sessions
  import opened Refinement

  /** The order of what is held: the original sale's lock, then an uncommitted event id, then a
      store row. */
  function Holding(t: Session): nat {
    match t.pc
    case Rechecking(_, _, _) => 1
    case Validating(_, _, _) => 1
    case Inserting(_, _) => 1
    case Classifying(_, _) => 1
    case Closing(_) => 1
    case UpdatingStore(_, _) => 2
    case Committing(_, _) => 3
    case _ => 0
  }

  /** Every wait points to a session in flight that is strictly further in that order. */
  lemma WaitsPointForward(cat: Catalog, s: State, i: nat, j: nat)
    requires Inv(cat, s) && i < |s.sessions| && j < |s.sessions|
    requires Blocks(s.sessions[i], s.sessions[j])
    ensures Holding(s.sessions[i]) < Holding(s.sessions[j]) && InFlight(s, j)
  {
    assert SessionOk(cat, s.db.rows, s.sessions[i]) && SessionOk(cat, s.db.rows, s.sessions[j]);
  }

  predicate CanMove(s: State, i: nat) {
    InFlight(s, i) && !Waits(s, i)
  }

  /** Following the waits reaches a session that can move. */
  lemma {:induction false} SomeoneCanMove(cat: Catalog, s: State, i: nat) returns (j: nat)
    requires Inv(cat, s) && InFlight(s, i)
    ensures CanMove(s, j)
    decreases 3 - Holding(s.sessions[i])
  {
    if Waits(s, i) {
      var k :| 0 <= k < |s.sessions| && k != i && Blocks(s.sessions[i], s.sessions[k]);
      WaitsPointForward(cat, s, i, k);
      j := SomeoneCanMove(cat, s, k);
    } else {
      j := i;
    }
  }

  // ---------------------------------------------------------------- termination

  /** An upper bound on the statements a call still executes. */
  function Remaining(t: Session): nat {
    match t.pc
    case LookingUp => 9
    case FindingStore => 8
    case FindingProduct(_) => 7
    case Locking(_, _, _) => 6
    case Rechecking(_, _, _) => 5
    case Validating(_, _, _) => 4
    case Inserting(_, _) => 3
    case Classifying(_, _) => 2
    case UpdatingStore(_, _) => 2
    case Committing(_, _) => 1
    case Closing(_) => 1
    case Done(_) => 0
  }

  function Work(sessions: seq<Session>): nat {
    if sessions == [] then 0 else Work(Init(sessions)) + Remaining(Last(sessions))
  }

  lemma {:induction false} WorkUpdated(sessions: seq<Session>, i: nat, t: Session)
    requires i < |sessions|
    ensures Work(sessions[i := t]) == Work(sessions) - Remaining(sessions[i]) + Remaining(t)
    ensures Remaining(sessions[i]) <= Work(sessions)
  {
    if i < |sessions| - 1 {
      WorkUpdated(Init(sessions), i, t);
      assert Init(sessions[i := t]) == Init(sessions)[i := t];
    } else {
      assert Init(sessions[i := t]) == Init(sessions);
    }
  }

  lemma MovedHasLessLeft(cat: Catalog, rows: seq<Row>, t: Session)
    ensures Finished(t) ==> Moved(cat, rows, t) == t
    ensures !Finished(t) ==> Remaining(Moved(cat, rows, t)) < Remaining(t)
  {
  }

  lemma EndedHasLessLeft(sessions: seq<Session>, i: nat)
    requires i < |sessions| && !Finished(sessions[i])
    ensures Work(sessions[i := Ended(sessions[i])]) < Work(sessions)
  {
    WorkUpdated(sessions, i, Ended(sessions[i]));
  }

  /** A scheduled session either makes progress or cannot change anything. */
  lemma AdvanceMakesProgress(cat: Catalog, s: State, i: nat)
    ensures |Step(cat, s, Advance(i)).sessions| == |s.sessions|
    ensures CanMove(s, i) ==> Work(Step(cat, s, Advance(i)).sessions) < Work(s.sessions)
    ensures !CanMove(s, i) ==> Step(cat, s, Advance(i)) == s
  {
    if i < |s.sessions| {
      WorkUpdated(s.sessions, i, Moved(cat, s.db.rows, s.sessions[i]));
      MovedHasLessLeft(cat, s.db.rows, s.sessions[i]);
    }
  }

  /** So does whatever ends a call from outside. */
  lemma ActionKeepsOrLowersWork(cat: Catalog, s: State, a: Action)
    requires !a.Start?
    ensures |Step(cat, s, a).sessions| == |s.sessions|
    ensures Step(cat, s, a) == s || Work(Step(cat, s, a).sessions) < Work(s.sessions)
  {
    match a
    case Advance(i) => AdvanceMakesProgress(cat, s, i);
    case Abort(i) =>
      if i < |s.sessions| && !Finished(s.sessions[i]) {
        EndedHasLessLeft(s.sessions, i);
      }
    case Sever(i) =>
      if i < |s.sessions| && s.sessions[i].pc.Committing? {
        EndedHasLessLeft(s.sessions, i);
      }
  }

  /** Turns and aborts, and no new calls. */
  predicate StartsNothing(acts: seq<Action>) {
    forall a | a in acts :: !a.Start?
  }

  lemma {:induction false} ScheduleKeepsOrLowersWork(cat: Catalog, s: State, acts: seq<Action>)
    requires StartsNothing(acts)
    ensures |Run(cat, s, acts).sessions| == |s.sessions|
    ensures Run(cat, s, acts) == s || Work(Run(cat, s, acts).sessions) < Work(s.sessions)
  {
    hide Step;
    if acts != [] {
      ScheduleKeepsOrLowersWork(cat, s, Init(acts));
      ActionKeepsOrLowersWork(cat, Run(cat, s, Init(acts)), Last(acts));
    }
  }

  /** A schedule that gives a movable session a turn makes progress. */
  lemma {:induction false} TurnMakesProgress(cat: Catalog, s: State, acts: seq<Action>, i: nat)
    requires StartsNothing(acts) && CanMove(s, i) && Advance(i) in acts
    ensures Work(Run(cat, s, acts).sessions) < Work(s.sessions)
  {
    hide Step;
    ScheduleKeepsOrLowersWork(cat, s, Init(acts));
    ActionKeepsOrLowersWork(cat, Run(cat, s, Init(acts)), Last(acts));
    if Last(acts) == Advance(i) {
      AdvanceMakesProgress(cat, Run(cat, s, Init(acts)), i);
    } else {
      TurnMakesProgress(cat, s, Init(acts), i);
    }
  }

  /** Every session gets a turn; any may be aborted in between. */
  predicate FairRound(s: State, round: seq<Action>) {
    StartsNothing(round) && forall i: nat | i < |s.sessions| :: Advance(i) in round
  }

  function RunRounds(cat: Catalog, s: State, rounds: seq<seq<Action>>): State {
    if rounds == [] then s else Run(cat, RunRounds(cat, s, Init(rounds)), Last(rounds))
  }

  predicate AllFinished(s: State) {
    forall i | 0 <= i < |s.sessions| :: Finished(s.sessions[i])
  }

  lemma {:induction false} FinishedStays(cat: Catalog, s: State, acts: seq<Action>)
    requires StartsNothing(acts) && AllFinished(s)
    ensures Run(cat, s, acts) == s
  {
    if acts != [] {
      FinishedStays(cat, s, Init(acts));
    }
  }

  lemma {:induction false} RoundsLowerWork(cat: Catalog, s: State, rounds: seq<seq<Action>>)
    requires Inv(cat, s)
    requires forall r | r in rounds :: FairRound(s, r)
    ensures Inv(cat, RunRounds(cat, s, rounds))
    ensures |RunRounds(cat, s, rounds).sessions| == |s.sessions|
    ensures AllFinished(RunRounds(cat, s, rounds))
            || Work(RunRounds(cat, s, rounds).sessions) + |rounds| <= Work(s.sessions)
  {
    if rounds != [] {
      var before, round := RunRounds(cat, s, Init(rounds)), Last(rounds);
      RoundsLowerWork(cat, s, Init(rounds));
      RunKeepsInv(cat, before, round);
      assert FairRound(s, round);
      ScheduleKeepsOrLowersWork(cat, before, round);
      if AllFinished(before) {
        FinishedStays(cat, before, round);
      } else {
        var i :| 0 <= i < |before.sessions| && !Finished(before.sessions[i]);
        var j := SomeoneCanMove(cat, before, i);
        TurnMakesProgress(cat, before, round, j);
      }
    }
  }

  lemma {:induction false} NoWorkMeansFinished(sessions: seq<Session>, i: nat)
    requires Work(sessions) == 0 && i < |sessions|
    ensures Finished(sessions[i])
  {
    if i < |sessions| - 1 {
      NoWorkMeansFinished(Init(sessions), i);
    }
  }

  /** Under fair scheduling every call finishes, after at most as many rounds as there are
      statements left. */
  lemma FairRunsFinish(cat: Catalog, s: State, rounds: seq<seq<Action>>)
    requires Inv(cat, s)
    requires forall r | r in rounds :: FairRound(s, r)
    requires Work(s.sessions) <= |rounds|
    ensures AllFinished(RunRounds(cat, s, rounds))
  {
    RoundsLowerWork(cat, s, rounds);
    var end := RunRounds(cat, s, rounds);
    forall i | 0 <= i < |end.sessions| ensures Finished(end.sessions[i]) {
      if Work(end.sessions) == 0 {
        NoWorkMeansFinished(end.sessions, i);
      }
    }
  }
}
