/** Every interleaving of ingestion calls is equivalent to running accepted calls one at a time,
    and every verdict is the verdict of the sequential call at a moment while the call ran. */
module Refinement {
  import opened Events
  import opened Sessions

  // ---------------------------------------------------------------- tables only grow

  lemma StepExtendsTable(cat: Catalog, s: State, a: Action)
    ensures s.db.rows <= Step(cat, s, a).db.rows
  {
  }

  lemma StepKeepsPayload(cat: Catalog, s: State, a: Action, j: nat)
    requires j < |s.sessions|
    ensures j < |Step(cat, s, a).sessions| && Step(cat, s, a).sessions[j].payload == s.sessions[j].payload
    ensures Step(cat, s, a).sessions[j].now == s.sessions[j].now
  {
  }

  lemma {:induction false} RunExtendsTable(cat: Catalog, s: State, acts: seq<Action>, k: nat)
    requires k <= |acts|
    ensures Run(cat, s, acts[..k]).db.rows <= Run(cat, s, acts).db.rows
  {
    if k == |acts| {
      assert acts[..k] == acts;
    } else {
      assert Init(acts)[..k] == acts[..k];
      RunExtendsTable(cat, s, Init(acts), k);
      StepExtendsTable(cat, Run(cat, s, Init(acts)), Last(acts));
    }
  }

  // ---------------------------------------------------------------- the table refines sequential ingestion

  datatype Request = Request(payload: Payload, now: Instant)

  function Replay(cat: Catalog, db: Db, calls: seq<Request>): Db {
    if calls == [] then db
    else Ingest(cat, Replay(cat, db, Init(calls)), Last(calls).payload, Last(calls).now).0
  }

  /** Each call in the list is accepted when its turn comes. */
  predicate AllAccepted(cat: Catalog, db: Db, calls: seq<Request>) {
    calls == [] ||
    (AllAccepted(cat, db, Init(calls)) &&
     Ingest(cat, Replay(cat, db, Init(calls)), Last(calls).payload, Last(calls).now).1 == Accepted(Last(calls).now))
  }

  /** The commit an action performs, if any. */
  function CommitOf(s: State, a: Action): seq<Request> {
    if (a.Advance? || a.Sever?) && a.i < |s.sessions| && s.sessions[a.i].pc.Committing?
    then [Request(s.sessions[a.i].payload, s.sessions[a.i].now)]
    else []
  }

  /** The committed calls of a run, in commit order. */
  function Commits(cat: Catalog, s: State, acts: seq<Action>): seq<Request> {
    if acts == [] then [] else Commits(cat, s, Init(acts)) + CommitOf(Run(cat, s, Init(acts)), Last(acts))
  }

  /** A committing session is one the sequential call would accept on the committed table. */
  lemma CommitIsAccepted(cat: Catalog, s: State, i: nat)
    requires Inv(cat, s) && i < |s.sessions| && s.sessions[i].pc.Committing?
    ensures
      var t := s.sessions[i];
      Ingest(cat, s.db, t.payload, t.now) == (Written(s.db, t), Accepted(t.now))
  {
    var t := s.sessions[i];
    assert SessionOk(cat, s.db.rows, t);
    if t.payload.kind.Refund? {
      var original := Find(s.db.rows, t.payload.kind.originalEventId).value;
      NoErrorMeansFits(s.db.rows, original, t.pc.storeId, t.pc.productId, t.payload);
    }
  }

  /** A step either commits one call that the sequential ingestion accepts, or writes nothing. */
  lemma StepRefines(cat: Catalog, s: State, a: Action)
    requires Inv(cat, s)
    ensures CommitOf(s, a) == [] ==> Step(cat, s, a).db == s.db
    ensures CommitOf(s, a) != [] ==>
              Ingest(cat, s.db, CommitOf(s, a)[0].payload, CommitOf(s, a)[0].now)
              == (Step(cat, s, a).db, Accepted(CommitOf(s, a)[0].now))
  {
    if CommitOf(s, a) != [] {
      CommitIsAccepted(cat, s, a.i);
    }
  }

  /** The committed database of any run is the accepted calls applied one at a time. */
  lemma {:induction false} RunRefines(cat: Catalog, s: State, acts: seq<Action>)
    requires Inv(cat, s)
    ensures Run(cat, s, acts).db == Replay(cat, s.db, Commits(cat, s, acts))
    ensures AllAccepted(cat, s.db, Commits(cat, s, acts))
  {
    if acts != [] {
      var before := Run(cat, s, Init(acts));
      RunRefines(cat, s, Init(acts));
      RunKeepsInv(cat, s, Init(acts));
      StepRefines(cat, before, Last(acts));
      var calls, call := Commits(cat, s, Init(acts)), CommitOf(before, Last(acts));
      if call == [] {
        assert calls + call == calls;
      } else {
        assert Init(calls + call) == calls && Last(calls + call) == call[0];
      }
    }
  }

  // ---------------------------------------------------------------- verdicts are sequential verdicts

  predicate InFlight(s: State, i: nat) {
    i < |s.sessions| && !Finished(s.sessions[i])
  }

  predicate Decided(s: State, i: nat) {
    i < |s.sessions| && (s.sessions[i].pc.Closing? || s.sessions[i].pc.Done?)
  }

  /** After k actions the call is in flight and the sequential call would answer v. */
  predicate Moment(cat: Catalog, s: State, acts: seq<Action>, i: nat, k: nat, v: Verdict) {
    && k <= |acts|
    && var at := Run(cat, s, acts[..k]);
    && InFlight(at, i)
    && Judge(cat, at.db.rows, at.sessions[i].payload, at.sessions[i].now) == v
  }

  ghost predicate JudgedDuring(cat: Catalog, s: State, acts: seq<Action>, i: nat, v: Verdict) {
    exists k: nat :: Moment(cat, s, acts, i, k, v)
  }

  lemma JudgedEarlier(cat: Catalog, s: State, acts: seq<Action>, i: nat, v: Verdict)
    requires acts != [] && JudgedDuring(cat, s, Init(acts), i, v)
    ensures JudgedDuring(cat, s, acts, i, v)
  {
    var k: nat :| Moment(cat, s, Init(acts), i, k, v);
    assert Init(acts)[..k] == acts[..k];
    assert Moment(cat, s, acts, i, k, v);
  }

  /** After k actions the call is in flight and its id is not in the table. */
  predicate MissedAt(cat: Catalog, s: State, acts: seq<Action>, i: nat, k: nat) {
    && k <= |acts|
    && var at, now := Run(cat, s, acts[..k]), Run(cat, s, acts);
    && InFlight(at, i)
    && i < |now.sessions|
    && at.sessions[i].payload == now.sessions[i].payload
    && at.sessions[i].now == now.sessions[i].now
    && Find(at.db.rows, at.sessions[i].payload.eventId).None?
    && at.db.rows <= now.db.rows
  }

  predicate PastLookup(t: Session) {
    t.pc.FindingStore? || t.pc.FindingProduct? || t.pc.Locking?
  }

  /** How a step leaves a session past its first lookup. */
  lemma StepPastLookup(cat: Catalog, s: State, a: Action, i: nat)
    requires i < |Step(cat, s, a).sessions| && PastLookup(Step(cat, s, a).sessions[i])
    ensures i < |s.sessions|
    ensures s.sessions[i].payload == Step(cat, s, a).sessions[i].payload
    ensures s.sessions[i].now == Step(cat, s, a).sessions[i].now
    ensures PastLookup(s.sessions[i])
            || (s.sessions[i].pc.LookingUp? && Find(s.db.rows, s.sessions[i].payload.eventId).None?)
  {
  }

  /** A call past its first lookup missed its id at some moment since it started. */
  lemma {:induction false} MissWitness(cat: Catalog, s: State, acts: seq<Action>, i: nat) returns (k: nat)
    requires |s.sessions| <= i < |Run(cat, s, acts).sessions|
    requires PastLookup(Run(cat, s, acts).sessions[i])
    ensures MissedAt(cat, s, acts, i, k)
  {
    var before := Run(cat, s, Init(acts));
    StepExtendsTable(cat, before, Last(acts));
    StepPastLookup(cat, before, Last(acts), i);
    if PastLookup(before.sessions[i]) {
      k := MissWitness(cat, s, Init(acts), i);
    } else {
      k := |acts| - 1;
    }
    assert Init(acts)[..k] == acts[..k];
  }

  /** The same moment for a call that passed its re-check: the refund sums it will be
      validated against are still those of that moment, because it holds the sale. */
  predicate CheckedAt(cat: Catalog, s: State, acts: seq<Action>, i: nat, k: nat) {
    && MissedAt(cat, s, acts, i, k)
    && var at, now := Run(cat, s, acts[..k]), Run(cat, s, acts);
    && now.sessions[i].pc.Validating?
    && var original := now.sessions[i].pc.original;
    && Find(at.db.rows, original.eventId) == Some(original)
    && Refunded(at.db.rows, original.eventId, Quantity) == Refunded(now.db.rows, original.eventId, Quantity)
    && Refunded(at.db.rows, original.eventId, Amount) == Refunded(now.db.rows, original.eventId, Amount)
  }

  /** A commit changes the refund sums only of the sale its session holds. */
  lemma CommitLeavesOtherSums(cat: Catalog, rows: seq<Row>, t: Session, saleId: Uuid, m: Measure)
    requires SessionOk(cat, rows, t) && t.pc.Committing? && t.lock != Some(saleId)
    ensures Refunded(rows + [RowFor(t.payload, t.pc.storeId, t.pc.productId, t.now)], saleId, m)
            == Refunded(rows, saleId, m)
  {
    AppendRow(rows, RowFor(t.payload, t.pc.storeId, t.pc.productId, t.now));
  }

  /** While a session holds a sale, nobody else's step changes that sale's refund sums. */
  lemma LockFreezesSums(cat: Catalog, s: State, a: Action, i: nat, saleId: Uuid, m: Measure)
    requires Inv(cat, s) && i < |s.sessions| && s.sessions[i].lock == Some(saleId)
    requires CommitOf(s, a) != [] ==> a.i != i
    ensures Refunded(Step(cat, s, a).db.rows, saleId, m) == Refunded(s.db.rows, saleId, m)
  {
    if CommitOf(s, a) != [] {
      assert Apart(s.sessions[i], s.sessions[a.i]);
      CommitLeavesOtherSums(cat, s.db.rows, s.sessions[a.i], saleId, m);
    } else {
      StepRefines(cat, s, a);
    }
  }

  /** How a step leaves a session about to be validated. */
  lemma StepToValidating(cat: Catalog, s: State, a: Action, i: nat)
    requires Inv(cat, s)
    requires i < |Step(cat, s, a).sessions| && Step(cat, s, a).sessions[i].pc.Validating?
    ensures i < |s.sessions|
    ensures s.sessions[i].payload == Step(cat, s, a).sessions[i].payload
    ensures s.sessions[i].now == Step(cat, s, a).sessions[i].now
    ensures
      var t, original := s.sessions[i], Step(cat, s, a).sessions[i].pc.original;
      && t.lock == Some(original.eventId)
      && Find(s.db.rows, original.eventId) == Some(original)
      && if t.pc.Validating? then t.pc.original == original && (CommitOf(s, a) != [] ==> a.i != i)
         else t.pc.Rechecking? && Find(s.db.rows, t.payload.eventId).None? && Step(cat, s, a).db == s.db
  {
    if i < |s.sessions| {
      assert SessionOk(cat, s.db.rows, s.sessions[i]);
    }
  }

  lemma {:induction false} CheckWitness(cat: Catalog, s: State, acts: seq<Action>, i: nat) returns (k: nat)
    requires Inv(cat, s) && |s.sessions| <= i < |Run(cat, s, acts).sessions|
    requires Run(cat, s, acts).sessions[i].pc.Validating?
    ensures CheckedAt(cat, s, acts, i, k)
  {
    var before := Run(cat, s, Init(acts));
    var original := Run(cat, s, acts).sessions[i].pc.original;
    RunKeepsInv(cat, s, Init(acts));
    StepExtendsTable(cat, before, Last(acts));
    StepToValidating(cat, before, Last(acts), i);
    if before.sessions[i].pc.Validating? {
      k := CheckWitness(cat, s, Init(acts), i);
      LockFreezesSums(cat, before, Last(acts), i, original.eventId, Quantity);
      LockFreezesSums(cat, before, Last(acts), i, original.eventId, Amount);
    } else {
      k := |acts| - 1;
    }
    assert Init(acts)[..k] == acts[..k];
  }

  /** A verdict is decided by the session's own statement. */
  lemma DecidingStep(cat: Catalog, s: State, a: Action, i: nat)
    requires Inv(cat, s) && i < |s.sessions| && !Decided(s, i) && Decided(Step(cat, s, a), i)
    requires !Step(cat, s, a).sessions[i].pc.verdict.Aborted?
    ensures a == Advance(i) && SessionOk(cat, s.db.rows, s.sessions[i])
    ensures Step(cat, s, a).sessions[i] == Moved(cat, s.db.rows, s.sessions[i])
  {
  }

  /** An unknown store, product or original, judged on the table of the first lookup. */
  lemma MissingIsSequential(cat: Catalog, earlier: seq<Row>, rows: seq<Row>, t: Session)
    requires Legal(cat, rows) && earlier <= rows && Find(earlier, t.payload.eventId).None?
    requires SessionOk(cat, rows, t) && PastLookup(t) && Moved(cat, rows, t).pc.Closing?
    requires !Moved(cat, rows, t).pc.verdict.InvalidOriginalSale?
    ensures Judge(cat, earlier, t.payload, t.now) == Moved(cat, rows, t).pc.verdict
  {
    if t.pc.Locking? {
      AbsentBefore(cat, earlier, rows, t.pc.saleId);
    }
  }

  /** A found event id, or a commit, judged on the current table. */
  lemma FoundIsSequential(cat: Catalog, s: State, i: nat)
    requires Inv(cat, s) && i < |s.sessions|
    requires
      var t := s.sessions[i];
      t.pc.LookingUp? || t.pc.Rechecking? || t.pc.Classifying? || t.pc.Committing?
    requires
      var pc := Moved(cat, s.db.rows, s.sessions[i]).pc;
      pc.Closing? || pc.Done?
    ensures
      var t := s.sessions[i];
      Judge(cat, s.db.rows, t.payload, t.now) == Moved(cat, s.db.rows, t).pc.verdict
  {
    var t := s.sessions[i];
    assert SessionOk(cat, s.db.rows, t);
    if t.pc.Committing? {
      CommitIsAccepted(cat, s, i);
    } else {
      ClassifiedHasEvidence(cat, s.db.rows, t.payload);
    }
  }

  /** A refusal by validation, judged on the table of the re-check. */
  lemma InvalidIsSequential(cat: Catalog, earlier: seq<Row>, rows: seq<Row>, t: Session)
    requires SessionOk(cat, rows, t) && t.pc.Validating? && Moved(cat, rows, t).pc.Closing?
    requires Find(earlier, t.payload.eventId).None? && Find(earlier, t.pc.original.eventId) == Some(t.pc.original)
    requires Refunded(earlier, t.pc.original.eventId, Quantity) == Refunded(rows, t.pc.original.eventId, Quantity)
    requires Refunded(earlier, t.pc.original.eventId, Amount) == Refunded(rows, t.pc.original.eventId, Amount)
    ensures Judge(cat, earlier, t.payload, t.now) == Moved(cat, rows, t).pc.verdict
  {
  }

  /** The step that decides a verdict. */
  lemma DecisionIsSequential(cat: Catalog, s: State, acts: seq<Action>, i: nat)
    requires Inv(cat, s) && acts != []
    requires |s.sessions| <= i < |Run(cat, s, Init(acts)).sessions|
    requires !Decided(Run(cat, s, Init(acts)), i)
    requires Decided(Run(cat, s, acts), i)
    requires !Run(cat, s, acts).sessions[i].pc.verdict.InvalidOriginalSale?
    requires !Run(cat, s, acts).sessions[i].pc.verdict.Aborted?
    ensures JudgedDuring(cat, s, acts, i, Run(cat, s, acts).sessions[i].pc.verdict)
  {
    hide Inv, Step, Legal, Judge;
    var before := Run(cat, s, Init(acts));
    var t, v := before.sessions[i], Run(cat, s, acts).sessions[i].pc.verdict;
    RunKeepsInv(cat, s, Init(acts));
    DecidingStep(cat, before, Last(acts), i);
    var k: nat := |acts| - 1;
    if PastLookup(t) {
      k := MissWitness(cat, s, Init(acts), i);
      MissingIsSequential(cat, Run(cat, s, Init(acts)[..k]).db.rows, before.db.rows, t);
    } else if t.pc.Validating? {
      k := CheckWitness(cat, s, Init(acts), i);
      InvalidIsSequential(cat, Run(cat, s, Init(acts)[..k]).db.rows, before.db.rows, t);
    } else {
      FoundIsSequential(cat, before, i);
    }
    assert Init(acts)[..k] == acts[..k];
    assert Moment(cat, s, acts, i, k, v);
  }

  /** Every verdict of every run, except the two that need not be: an abort, and "the original is
      not a sale", which is treated below. */
  lemma {:induction false} VerdictsAreSequential(cat: Catalog, s: State, acts: seq<Action>, i: nat)
    requires Inv(cat, s) && |s.sessions| <= i
    requires Decided(Run(cat, s, acts), i)
    requires !Run(cat, s, acts).sessions[i].pc.verdict.InvalidOriginalSale?
    requires !Run(cat, s, acts).sessions[i].pc.verdict.Aborted?
    ensures JudgedDuring(cat, s, acts, i, Run(cat, s, acts).sessions[i].pc.verdict)
  {
    hide Inv;
    if acts != [] {
      if Decided(Run(cat, s, Init(acts)), i) {
        VerdictsAreSequential(cat, s, Init(acts), i);
        JudgedEarlier(cat, s, acts, i, Run(cat, s, acts).sessions[i].pc.verdict);
      } else {
        DecisionIsSequential(cat, s, acts, i);
      }
    }
  }

  // ---------------------------------------------------------------- "the original is not a SALE"

  /** Some committed table held the first id and not the second. */
  ghost predicate CommittedBefore(rows: seq<Row>, first: Uuid, second: Uuid) {
    exists n: nat :: n <= |rows| && Find(rows[..n], first).Some? && Find(rows[..n], second).None?
  }

  lemma {:induction false} LegalPrefix(cat: Catalog, rows: seq<Row>, n: nat)
    requires Legal(cat, rows) && n <= |rows|
    ensures Legal(cat, rows[..n])
  {
    if n < |rows| {
      assert Init(rows)[..n] == rows[..n];
      LegalPrefix(cat, Init(rows), n);
    } else {
      assert rows[..n] == rows;
    }
  }

  /** Sessions stay in the list, with their payload. */
  lemma {:induction false} StillThere(cat: Catalog, s: State, acts: seq<Action>, i: nat, k: nat, j: nat)
    requires k <= j <= |acts| && i < |Run(cat, s, acts[..k]).sessions|
    ensures i < |Run(cat, s, acts[..j]).sessions|
    ensures Run(cat, s, acts[..j]).sessions[i].payload == Run(cat, s, acts[..k]).sessions[i].payload
    ensures Run(cat, s, acts[..j]).sessions[i].now == Run(cat, s, acts[..k]).sessions[i].now
    decreases j
  {
    hide Step;
    if k < j {
      assert Init(acts[..j]) == acts[..j - 1];
      StillThere(cat, s, acts, i, k, j - 1);
      StepKeepsPayload(cat, Run(cat, s, acts[..j - 1]), Last(acts[..j]), i);
    }
  }

  lemma StepAddsAtMostOneRow(cat: Catalog, s: State, a: Action)
    ensures |Step(cat, s, a).db.rows| <= |s.db.rows| + 1
  {
  }

  /** If second is in a table and first was committed before it, first was there a row earlier. */
  lemma FirstWasThere(cat: Catalog, before: seq<Row>, rows: seq<Row>, all: seq<Row>, first: Uuid, second: Uuid)
    requires Legal(cat, all) && before <= rows <= all && |rows| <= |before| + 1
    requires Find(rows, second).Some? && CommittedBefore(all, first, second)
    ensures Find(before, first).Some?
  {
    hide Legal;
    var n: nat :| n <= |all| && Find(all[..n], first).Some? && Find(all[..n], second).None?;
    LegalPrefix(cat, all, n);
    LegalPrefix(cat, all, |before|);
    assert before == all[..|before|];
    if n <= |before| {
      FindIsStable(cat, all[..n], before, first);
    } else {
      FindIsStable(cat, rows, all[..n], second);
    }
  }

  lemma StillInFlight(cat: Catalog, s: State, a: Action, i: nat)
    requires i < |s.sessions| && InFlight(Step(cat, s, a), i)
    ensures InFlight(s, i)
  {
  }

  /** Between missing its own id and reading its original, the call was in flight at a moment
      when the original was there and its own id still was not. */
  lemma {:induction false} OriginalAppears(cat: Catalog, s: State, acts: seq<Action>, i: nat, k: nat, last: nat)
    returns (j: nat)
    requires Inv(cat, s) && k <= last <= |acts|
    requires InFlight(Run(cat, s, acts[..k]), i) && InFlight(Run(cat, s, acts[..last]), i)
    requires Run(cat, s, acts[..last]).sessions[i].payload.kind.Refund?
    requires
      var p := Run(cat, s, acts[..last]).sessions[i].payload;
      && Find(Run(cat, s, acts[..k]).db.rows, p.eventId).None?
      && Find(Run(cat, s, acts[..last]).db.rows, p.kind.originalEventId).Some?
      && (Find(Run(cat, s, acts).db.rows, p.eventId).Some? ==>
            CommittedBefore(Run(cat, s, acts).db.rows, p.kind.originalEventId, p.eventId))
    ensures j <= |acts| && InFlight(Run(cat, s, acts[..j]), i)
    ensures
      var at, p := Run(cat, s, acts[..j]), Run(cat, s, acts[..last]).sessions[i].payload;
      && at.sessions[i].payload == p
      && Find(at.db.rows, p.eventId).None?
      && Find(at.db.rows, p.kind.originalEventId).Some?
    decreases last
  {
    hide Step, Find;
    var at, all := Run(cat, s, acts[..last]), Run(cat, s, acts).db.rows;
    var p := at.sessions[i].payload;
    if Find(at.db.rows, p.eventId).None? {
      j := last;
    } else {
      assert Init(acts[..last]) == acts[..last - 1];
      var before := Run(cat, s, acts[..last - 1]);
      RunExtendsTable(cat, s, acts, last);
      RunKeepsInv(cat, s, acts);
      FindIsStable(cat, at.db.rows, all, p.eventId);
      StepExtendsTable(cat, before, Last(acts[..last]));
      StepAddsAtMostOneRow(cat, before, Last(acts[..last]));
      FirstWasThere(cat, before.db.rows, at.db.rows, all, p.kind.originalEventId, p.eventId);
      StillThere(cat, s, acts, i, k, last - 1);
      StillThere(cat, s, acts, i, last - 1, last);
      StillInFlight(cat, before, Last(acts[..last]), i);
      j := OriginalAppears(cat, s, acts, i, k, last - 1);
    }
  }

  lemma UndecidedExists(cat: Catalog, s: State, a: Action, i: nat)
    requires Decided(Step(cat, s, a), i)
    ensures i < |s.sessions|
  {
  }

  /** A decided verdict is not decided again, except that an abort may hide it. */
  lemma DecisionStands(cat: Catalog, s: State, a: Action, i: nat)
    requires Decided(s, i)
    ensures Decided(Step(cat, s, a), i)
    ensures Step(cat, s, a).sessions[i].payload == s.sessions[i].payload
    ensures Step(cat, s, a).sessions[i].pc.verdict == s.sessions[i].pc.verdict
            || Step(cat, s, a).sessions[i].pc.verdict.Aborted?
  {
  }

  lemma InvalidComesFromLocking(cat: Catalog, rows: seq<Row>, t: Session)
    requires cat.Valid() && Legal(cat, rows) && SessionOk(cat, rows, t)
    requires !t.pc.Closing? && !t.pc.Done?
    requires Moved(cat, rows, t).pc.Closing? && Moved(cat, rows, t).pc.verdict.InvalidOriginalSale?
    ensures t.pc.Locking? && t.payload.kind == Refund(t.pc.saleId) && Find(rows, t.pc.saleId).Some?
  {
    if Find(rows, t.payload.eventId).Some? {
      ClassifiedHasEvidence(cat, rows, t.payload);
    }
  }

  /** The two moments of a call refused because its original is not a sale: when it missed its
      own id, and when it read its original. */
  lemma {:induction false} InvalidOriginalWasRead(cat: Catalog, s: State, acts: seq<Action>, i: nat)
    returns (k: nat, last: nat)
    requires Inv(cat, s) && |s.sessions| <= i
    requires Decided(Run(cat, s, acts), i) && Run(cat, s, acts).sessions[i].pc.verdict.InvalidOriginalSale?
    ensures k <= last <= |acts|
    ensures InFlight(Run(cat, s, acts[..k]), i) && InFlight(Run(cat, s, acts[..last]), i)
    ensures
      var p := Run(cat, s, acts).sessions[i].payload;
      && p.kind.Refund?
      && Run(cat, s, acts[..last]).sessions[i].payload == p
      && Find(Run(cat, s, acts[..k]).db.rows, p.eventId).None?
      && Find(Run(cat, s, acts[..last]).db.rows, p.kind.originalEventId).Some?
  {
    hide Inv, Step, Legal, SessionOk, Find;
    var before := Run(cat, s, Init(acts));
    RunKeepsInv(cat, s, Init(acts));
    if Decided(before, i) {
      DecisionStands(cat, before, Last(acts), i);
      k, last := InvalidOriginalWasRead(cat, s, Init(acts), i);
    } else {
      UndecidedExists(cat, before, Last(acts), i);
      DecidingStep(cat, before, Last(acts), i);
      SessionIsOk(cat, before, i);
      InvalidComesFromLocking(cat, before.db.rows, before.sessions[i]);
      last := |acts| - 1;
      k := MissWitness(cat, s, Init(acts), i);
    }
    assert Init(acts)[..k] == acts[..k] && Init(acts)[..last] == acts[..last];
  }

  lemma InvalidWhenSeparated(cat: Catalog, earlier: seq<Row>, rows: seq<Row>, t: Session)
    requires Legal(cat, rows) && earlier <= rows && SessionOk(cat, rows, t)
    requires (t.pc.Closing? || t.pc.Done?) && t.pc.verdict.InvalidOriginalSale?
    requires t.payload.kind.Refund?
    requires Find(earlier, t.payload.eventId).None? && Find(earlier, t.payload.kind.originalEventId).Some?
    ensures forall now :: Judge(cat, earlier, t.payload, now) == InvalidOriginalSale
  {
    FindIsStable(cat, earlier, rows, t.payload.kind.originalEventId);
  }

  lemma InvalidMeansSeparated(cat: Catalog, s: State, acts: seq<Action>, i: nat, k: nat)
    requires Inv(cat, s) && Moment(cat, s, acts, i, k, InvalidOriginalSale)
    ensures i < |Run(cat, s, acts).sessions| && Run(cat, s, acts).sessions[i].payload.kind.Refund?
    ensures
      var p, rows := Run(cat, s, acts).sessions[i].payload, Run(cat, s, acts).db.rows;
      CommittedBefore(rows, p.kind.originalEventId, p.eventId)
  {
    var at := Run(cat, s, acts[..k]);
    assert acts[..|acts|] == acts;
    StillThere(cat, s, acts, i, k, |acts|);
    RunExtendsTable(cat, s, acts, k);
    RunKeepsInv(cat, s, acts[..k]);
    var p, rows := at.sessions[i].payload, Run(cat, s, acts).db.rows;
    if Find(at.db.rows, p.eventId).Some? {
      ClassifiedHasEvidence(cat, at.db.rows, p);
    }
    assert rows[..|at.db.rows|] == at.db.rows;
  }

  /** The verdict "original is not a SALE" is the sequential verdict at some moment of the call
      exactly when the refund's own id was not committed before its original's id. */
  lemma InvalidOriginalIsSequentialExactly(cat: Catalog, s: State, acts: seq<Action>, i: nat)
    requires Inv(cat, s) && |s.sessions| <= i
    requires Decided(Run(cat, s, acts), i) && Run(cat, s, acts).sessions[i].pc.verdict.InvalidOriginalSale?
    requires Run(cat, s, acts).sessions[i].payload.kind.Refund?
    ensures
      var p, rows := Run(cat, s, acts).sessions[i].payload, Run(cat, s, acts).db.rows;
      JudgedDuring(cat, s, acts, i, InvalidOriginalSale)
      <==> (Find(rows, p.eventId).None? || CommittedBefore(rows, p.kind.originalEventId, p.eventId))
  {
    var end := Run(cat, s, acts);
    var p, rows := end.sessions[i].payload, end.db.rows;
    assert acts[..|acts|] == acts;
    RunKeepsInv(cat, s, acts);
    if JudgedDuring(cat, s, acts, i, InvalidOriginalSale) {
      var k: nat :| Moment(cat, s, acts, i, k, InvalidOriginalSale);
      InvalidMeansSeparated(cat, s, acts, i, k);
    }
    if Find(rows, p.eventId).None? || CommittedBefore(rows, p.kind.originalEventId, p.eventId) {
      var k, last := InvalidOriginalWasRead(cat, s, acts, i);
      var j := OriginalAppears(cat, s, acts, i, k, last);
      RunExtendsTable(cat, s, acts, j);
      InvalidWhenSeparated(cat, Run(cat, s, acts[..j]).db.rows, rows, end.sessions[i]);
      assert Moment(cat, s, acts, i, j, InvalidOriginalSale);
    }
  }
}
