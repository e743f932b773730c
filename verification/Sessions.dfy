/** Concurrent ingestion as a step system.  Every SQL statement is one atomic step that sees the
    committed rows (READ COMMITTED) and the session's own insert; a statement that must wait
    for another session leaves the state as it is until it can go through. */
module Sessions {
  import opened Events

  /** Where a call stands, with the local variables still needed from there on. */
  datatype Pc =
    | LookingUp                                                         // first lookup of the event id
    | FindingStore
    | FindingProduct(storeId: Uuid)
    | Locking(storeId: Uuid, productId: Uuid, saleId: Uuid)             // SELECT ... FOR UPDATE
    | Rechecking(storeId: Uuid, productId: Uuid, original: Row)         // second lookup of the event id
    | Validating(storeId: Uuid, productId: Uuid, original: Row)         // reference check and summed limits
    | Inserting(storeId: Uuid, productId: Uuid)                         // INSERT ... ON CONFLICT DO NOTHING
    | Classifying(storeId: Uuid, productId: Uuid)                       // the insert returned no row
    | UpdatingStore(storeId: Uuid, productId: Uuid)                     // row inserted, not committed
    | Committing(storeId: Uuid, productId: Uuid)                        // store row updated, not committed
    | Closing(verdict: Verdict)                                         // outcome known, rollback to come
    | Done(verdict: Verdict)

  /** One call.  now is the transaction's timestamp, which the database stores as received_at;
      lock is the sale row this transaction holds FOR UPDATE. */
  datatype Session = Session(payload: Payload, now: Instant, pc: Pc, lock: Option<Uuid>)

  datatype State = State(db: Db, sessions: seq<Session>)

  /** What the scheduler, the clients and failures can do. */
  datatype Action =
    | Start(payload: Payload, now: Instant)
    | Advance(i: nat)
    | Abort(i: nat)             // rolled back from outside
    | Sever(i: nat)             // the commit takes effect, and the caller gets an error

  /** The session's own row is inserted but not committed. */
  predicate Pending(t: Session) {
    t.pc.UpdatingStore? || t.pc.Committing?
  }

  predicate Finished(t: Session) {
    t.pc.Done?
  }

  /** j holds what i's next statement needs. */
  predicate Blocks(t: Session, u: Session) {
    match t.pc
    case Locking(_, _, saleId) => u.lock == Some(saleId)
    case Inserting(_, _) => Pending(u) && u.payload.eventId == t.payload.eventId
    case UpdatingStore(storeId, _) => u.pc.Committing? && u.pc.storeId == storeId
    case _ => false
  }

  predicate Waits(s: State, i: nat)
    requires i < |s.sessions|
  {
    exists j | 0 <= j < |s.sessions| :: j != i && Blocks(s.sessions[i], s.sessions[j])
  }

  function Close(t: Session, v: Verdict): Session {
    t.(pc := Closing(v))
  }

  /** The session after its next statement, when that statement does not wait. */
  function Moved(cat: Catalog, rows: seq<Row>, t: Session): Session {
    var p := t.payload;
    match t.pc
    case LookingUp =>
      (match Find(rows, p.eventId)
       case Some(existing) => Close(t, ClassifyByCode(cat, existing, p))
       case None => t.(pc := FindingStore))
    case FindingStore =>
      if p.storeCode in cat.storeIds
      then t.(pc := FindingProduct(cat.storeIds[p.storeCode]))
      else Close(t, UnknownStore)
    case FindingProduct(storeId) =>
      if p.productSku !in cat.productIds then Close(t, UnknownProduct)
      else
        (match p.kind
         case Sale => t.(pc := Inserting(storeId, cat.productIds[p.productSku]))
         case Refund(saleId) => t.(pc := Locking(storeId, cat.productIds[p.productSku], saleId)))
    case Locking(storeId, productId, saleId) =>
      var original := Find(rows, saleId);
      var error := OriginalError(original);
      var locked := t.(lock := if original.Some? then Some(saleId) else None);
      if error.Some? then Close(locked, error.value)
      else locked.(pc := Rechecking(storeId, productId, original.value))
    case Rechecking(storeId, productId, original) =>
      (match Find(rows, p.eventId)
       case Some(existing) => Close(t, ClassifyById(existing, storeId, productId, p))
       case None => t.(pc := Validating(storeId, productId, original)))
    case Validating(storeId, productId, original) =>
      var error := RefundError(rows, original, storeId, productId, p);
      if error.Some? then Close(t, error.value) else t.(pc := Inserting(storeId, productId))
    case Inserting(storeId, productId) =>
      if Find(rows, p.eventId).Some?
      then t.(pc := Classifying(storeId, productId))
      else t.(pc := UpdatingStore(storeId, productId))
    case Classifying(storeId, productId) =>
      (match Find(rows, p.eventId)
       case Some(existing) => Close(t, ClassifyById(existing, storeId, productId, p))
       case None => Close(t, InternalError))
    case UpdatingStore(storeId, productId) => t.(pc := Committing(storeId, productId))
    case Committing(_, _) => t.(pc := Done(Accepted(t.now)), lock := None)
    case Closing(v) => t.(pc := Done(v), lock := None)
    case Done(_) => t
  }

  /** Only a commit changes the committed database. */
  function Written(db: Db, t: Session): Db {
    match t.pc
    case Committing(storeId, productId) => Commit(db, t.payload, storeId, productId, t.now)
    case _ => db
  }

  /** Ended with an error from outside. */
  function Ended(t: Session): Session {
    t.(pc := Done(Aborted), lock := None)
  }

  function Step(cat: Catalog, s: State, a: Action): State {
    match a
    case Start(p, now) =>
      if p.Valid() then s.(sessions := s.sessions + [Session(p, now, LookingUp, None)]) else s
    case Advance(i) =>
      if i < |s.sessions| && !Waits(s, i)
      then State(Written(s.db, s.sessions[i]),
                 s.sessions[i := Moved(cat, s.db.rows, s.sessions[i])])
      else s
    case Abort(i) =>
      if i < |s.sessions| && !Finished(s.sessions[i])
      then s.(sessions := s.sessions[i := Ended(s.sessions[i])])
      else s
    case Sever(i) =>
      if i < |s.sessions| && s.sessions[i].pc.Committing?
      then State(Written(s.db, s.sessions[i]), s.sessions[i := Ended(s.sessions[i])])
      else s
  }

  function Run(cat: Catalog, s: State, acts: seq<Action>): State {
    if acts == [] then s else Step(cat, Run(cat, s, Init(acts)), Last(acts))
  }

  function Fresh(db: Db): State {
    State(db, [])
  }

  // ---------------------------------------------------------------- the invariant

  /** The table holds no row that this payload would call a duplicate. */
  predicate NotRecorded(rows: seq<Row>, p: Payload, storeId: Uuid, productId: Uuid) {
    Find(rows, p.eventId).Some? ==> !MatchesPayload(Find(rows, p.eventId).value, storeId, productId, p)
  }

  /** A refund between lock and commit: it holds its sale, which is the row it read. */
  predicate HoldsSale(rows: seq<Row>, t: Session, original: Row) {
    && t.payload.kind.Refund?
    && t.lock == Some(t.payload.kind.originalEventId)
    && Find(rows, t.payload.kind.originalEventId) == Some(original)
    && original.IsSale()
    && original.eventId == t.payload.kind.originalEventId
  }

  /** A refund that passed validation and is not committed yet. */
  ghost predicate Validated(rows: seq<Row>, t: Session, storeId: Uuid, productId: Uuid) {
    && t.payload.kind.Refund?
    && Find(rows, t.payload.kind.originalEventId).Some?
    && var original := Find(rows, t.payload.kind.originalEventId).value;
    && HoldsSale(rows, t, original)
    && original.storeId == storeId
    && original.productId == productId
    && Fits(rows, original, t.payload)
    && NotRecorded(rows, t.payload, storeId, productId)
    && t.payload.eventId != original.eventId
  }

  ghost predicate ReadyToInsert(cat: Catalog, rows: seq<Row>, t: Session, storeId: Uuid, productId: Uuid) {
    && cat.Resolves(t.payload, storeId, productId)
    && (t.payload.kind.Sale? ==> t.lock.None?)
    && (t.payload.kind.Refund? ==> Validated(rows, t, storeId, productId))
  }

  /** A limit refusal stays right: the sum only grows, and this refund is not part of it. */
  ghost predicate OverLimit(cat: Catalog, rows: seq<Row>, p: Payload, m: Measure) {
    && cat.Knows(p)
    && p.kind.Refund?
    && Find(rows, p.kind.originalEventId).Some?
    && var original := Find(rows, p.kind.originalEventId).value;
    && original.IsSale()
    && original.eventId == p.kind.originalEventId
    && Refunded(rows, original.eventId, m) + PayloadSize(m, p) > RowSize(m, original)
    && NotRecorded(rows, p, cat.storeIds[p.storeCode], cat.productIds[p.productSku])
  }

  /** What a verdict says about every table from its decision on. */
  ghost predicate Evidence(cat: Catalog, rows: seq<Row>, p: Payload, v: Verdict) {
    match v
    case Accepted(at) =>
      cat.Knows(p) &&
      Find(rows, p.eventId) == Some(RowFor(p, cat.storeIds[p.storeCode], cat.productIds[p.productSku], at))
    case Duplicate(at) =>
      cat.Knows(p) &&
      Find(rows, p.eventId) == Some(RowFor(p, cat.storeIds[p.storeCode], cat.productIds[p.productSku], at))
    case EventConflict =>
      && Find(rows, p.eventId).Some?
      && (cat.Knows(p) ==> NotRecorded(rows, p, cat.storeIds[p.storeCode], cat.productIds[p.productSku]))
    case UnknownStore => p.storeCode !in cat.storeIds
    case UnknownProduct => p.productSku !in cat.productIds
    case OriginalSaleNotFound => cat.Knows(p) && p.kind.Refund?
    case InvalidOriginalSale =>
      && cat.Knows(p) && p.kind.Refund?
      && Find(rows, p.kind.originalEventId).Some?
      && !Find(rows, p.kind.originalEventId).value.IsSale()
    case StoreMismatch =>
      && cat.Knows(p) && p.kind.Refund?
      && Find(rows, p.kind.originalEventId).Some?
      && Find(rows, p.kind.originalEventId).value.storeId != cat.storeIds[p.storeCode]
    case ProductMismatch =>
      && cat.Knows(p) && p.kind.Refund?
      && Find(rows, p.kind.originalEventId).Some?
      && Find(rows, p.kind.originalEventId).value.productId != cat.productIds[p.productSku]
    case QuantityLimitExceeded => OverLimit(cat, rows, p, Quantity)
    case AmountLimitExceeded => OverLimit(cat, rows, p, Amount)
    case InternalError => false
    case Aborted => true
  }

  ghost predicate SessionOk(cat: Catalog, rows: seq<Row>, t: Session) {
    && t.payload.Valid()
    && (t.lock.Some? ==> t.payload.kind.Refund? && t.lock.value == t.payload.kind.originalEventId)
    && match t.pc
       case LookingUp => t.lock.None?
       case FindingStore => t.lock.None?
       case FindingProduct(storeId) =>
         t.lock.None? && t.payload.storeCode in cat.storeIds && cat.storeIds[t.payload.storeCode] == storeId
       case Locking(storeId, productId, saleId) =>
         t.lock.None? && cat.Resolves(t.payload, storeId, productId) && t.payload.kind == Refund(saleId)
       case Rechecking(storeId, productId, original) =>
         cat.Resolves(t.payload, storeId, productId) && HoldsSale(rows, t, original)
       case Validating(storeId, productId, original) =>
         && cat.Resolves(t.payload, storeId, productId)
         && HoldsSale(rows, t, original)
         && NotRecorded(rows, t.payload, storeId, productId)
         && t.payload.eventId != original.eventId
       case Inserting(storeId, productId) => ReadyToInsert(cat, rows, t, storeId, productId)
       case Classifying(storeId, productId) =>
         ReadyToInsert(cat, rows, t, storeId, productId) && Find(rows, t.payload.eventId).Some?
       case UpdatingStore(storeId, productId) =>
         ReadyToInsert(cat, rows, t, storeId, productId) && Find(rows, t.payload.eventId).None?
       case Committing(storeId, productId) =>
         ReadyToInsert(cat, rows, t, storeId, productId) && Find(rows, t.payload.eventId).None?
       case Closing(v) => Evidence(cat, rows, t.payload, v) && !v.Accepted?
       case Done(v) => t.lock.None? && Evidence(cat, rows, t.payload, v) && (v.Accepted? ==> v.receivedAt == t.now)
  }

  /** What two different sessions never share. */
  predicate Apart(t: Session, u: Session) {
    && (t.lock.Some? ==> t.lock != u.lock)
    && (Pending(t) && Pending(u) ==> t.payload.eventId != u.payload.eventId)
    && (t.pc.Committing? && u.pc.Committing? ==> t.pc.storeId != u.pc.storeId)
    && (Finished(t) && Finished(u) && t.pc.verdict.Accepted? && u.pc.verdict.Accepted? ==>
          t.payload.eventId != u.payload.eventId)
  }

  ghost predicate Inv(cat: Catalog, s: State) {
    && cat.Valid()
    && Legal(cat, s.db.rows)
    && (forall i | 0 <= i < |s.sessions| :: SessionOk(cat, s.db.rows, s.sessions[i]))
    && (forall i, j | 0 <= i < |s.sessions| && 0 <= j < |s.sessions| && i != j ::
          Apart(s.sessions[i], s.sessions[j]))
  }

  lemma SessionIsOk(cat: Catalog, s: State, i: nat)
    requires Inv(cat, s) && i < |s.sessions|
    ensures cat.Valid() && Legal(cat, s.db.rows) && SessionOk(cat, s.db.rows, s.sessions[i])
  {
  }

  lemma AreApart(cat: Catalog, s: State, i: nat, j: nat)
    requires Inv(cat, s) && i < |s.sessions| && j < |s.sessions| && i != j
    ensures Apart(s.sessions[i], s.sessions[j])
  {
  }

  // ---------------------------------------------------------------- every step keeps it

  /** The row a committing session adds is admissible behind the committed rows. */
  lemma CommittedRowIsAdmissible(cat: Catalog, rows: seq<Row>, t: Session)
    requires cat.Valid() && Legal(cat, rows) && SessionOk(cat, rows, t) && t.pc.Committing?
    ensures Admissible(cat, rows, RowFor(t.payload, t.pc.storeId, t.pc.productId, t.now))
  {
    if t.payload.kind.Refund? {
      var original := Find(rows, t.payload.kind.originalEventId).value;
      AcceptedKeepsLimit(rows, original, RowFor(t.payload, t.pc.storeId, t.pc.productId, t.now), t.payload);
    }
  }

  lemma ClassifiedHasEvidence(cat: Catalog, rows: seq<Row>, p: Payload)
    requires cat.Valid() && Legal(cat, rows) && Find(rows, p.eventId).Some?
    ensures Evidence(cat, rows, p, ClassifyByCode(cat, Find(rows, p.eventId).value, p))
    ensures ClassifyByCode(cat, Find(rows, p.eventId).value, p).Duplicate?
            || ClassifyByCode(cat, Find(rows, p.eventId).value, p).EventConflict?
    ensures cat.Knows(p) ==>
              ClassifyByCode(cat, Find(rows, p.eventId).value, p)
              == ClassifyById(Find(rows, p.eventId).value, cat.storeIds[p.storeCode], cat.productIds[p.productSku], p)
  {
    var existing := Find(rows, p.eventId).value;
    FoundIsSound(cat, rows, p.eventId);
    if cat.Knows(p) {
      ClassificationIsPathIndependent(cat, existing, p, cat.storeIds[p.storeCode], cat.productIds[p.productSku]);
    }
  }

  /** The moving session itself, before its own commit changes the table: the early statements. */
  lemma LookupIsOk(cat: Catalog, rows: seq<Row>, t: Session)
    requires cat.Valid() && Legal(cat, rows) && SessionOk(cat, rows, t)
    requires t.pc.LookingUp? || t.pc.FindingStore? || t.pc.FindingProduct?
    ensures SessionOk(cat, rows, Moved(cat, rows, t))
  {
    if Find(rows, t.payload.eventId).Some? {
      ClassifiedHasEvidence(cat, rows, t.payload);
    }
  }

  lemma LockingIsOk(cat: Catalog, rows: seq<Row>, t: Session)
    requires cat.Valid() && Legal(cat, rows) && SessionOk(cat, rows, t) && t.pc.Locking?
    ensures SessionOk(cat, rows, Moved(cat, rows, t))
  {
    if Find(rows, t.pc.saleId).Some? {
      FoundIsSound(cat, rows, t.pc.saleId);
    }
  }

  lemma RecheckingIsOk(cat: Catalog, rows: seq<Row>, t: Session)
    requires cat.Valid() && Legal(cat, rows) && SessionOk(cat, rows, t)
    requires t.pc.Rechecking? || t.pc.Classifying?
    ensures SessionOk(cat, rows, Moved(cat, rows, t))
  {
    if Find(rows, t.payload.eventId).Some? {
      ClassifiedHasEvidence(cat, rows, t.payload);
    }
  }

  lemma ValidatingIsOk(cat: Catalog, rows: seq<Row>, t: Session)
    requires cat.Valid() && Legal(cat, rows) && SessionOk(cat, rows, t) && t.pc.Validating?
    ensures SessionOk(cat, rows, Moved(cat, rows, t))
  {
    NoErrorMeansFits(rows, t.pc.original, t.pc.storeId, t.pc.productId, t.payload);
  }

  lemma MovedIsOk(cat: Catalog, rows: seq<Row>, t: Session)
    requires cat.Valid() && Legal(cat, rows) && SessionOk(cat, rows, t) && !t.pc.Committing?
    ensures SessionOk(cat, rows, Moved(cat, rows, t))
  {
    match t.pc
    case LookingUp => LookupIsOk(cat, rows, t);
    case FindingStore => LookupIsOk(cat, rows, t);
    case FindingProduct(_) => LookupIsOk(cat, rows, t);
    case Locking(_, _, _) => LockingIsOk(cat, rows, t);
    case Rechecking(_, _, _) => RecheckingIsOk(cat, rows, t);
    case Validating(_, _, _) => ValidatingIsOk(cat, rows, t);
    case Classifying(_, _) => RecheckingIsOk(cat, rows, t);
    case _ =>
  }

  lemma EvidenceSurvivesCommit(cat: Catalog, rows: seq<Row>, t: Session, p: Payload, v: Verdict)
    requires cat.Valid() && Legal(cat, rows)
    requires SessionOk(cat, rows, t) && t.pc.Committing?
    requires Evidence(cat, rows, p, v)
    ensures Evidence(cat, rows + [RowFor(t.payload, t.pc.storeId, t.pc.productId, t.now)], p, v)
  {
    var row := RowFor(t.payload, t.pc.storeId, t.pc.productId, t.now);
    AppendRow(rows, row);
    if v.QuantityLimitExceeded? || v.AmountLimitExceeded? {
      var m := if v.QuantityLimitExceeded? then Quantity else Amount;
      assert RowSize(m, row) == PayloadSize(m, t.payload);
      // the same refund could not have passed the limit this one failed
      assert !(row.eventId == p.eventId
               && MatchesPayload(row, cat.storeIds[p.storeCode], cat.productIds[p.productSku], p));
    }
  }

  /** Another session's commit leaves this session's facts true. */
  lemma OthersCommitIsHarmless(cat: Catalog, rows: seq<Row>, t: Session, u: Session)
    requires cat.Valid() && Legal(cat, rows)
    requires SessionOk(cat, rows, t) && SessionOk(cat, rows, u) && Apart(t, u) && t.pc.Committing?
    ensures SessionOk(cat, rows + [RowFor(t.payload, t.pc.storeId, t.pc.productId, t.now)], u)
  {
    var row := RowFor(t.payload, t.pc.storeId, t.pc.productId, t.now);
    AppendRow(rows, row);
    if u.lock.Some? {
      assert !Refunds(row, u.lock.value);
    }
    if u.pc.Done? || u.pc.Closing? {
      EvidenceSurvivesCommit(cat, rows, t, u.payload, u.pc.verdict);
    } else if u.payload.kind.Refund? && Find(rows, u.payload.kind.originalEventId).Some? {
      var original := Find(rows, u.payload.kind.originalEventId).value;
      if u.lock.Some? && Fits(rows, original, u.payload) && original.eventId == u.lock.value {
        forall m: Measure
          ensures Refunded(rows + [row], original.eventId, m) + PayloadSize(m, u.payload) <= RowSize(m, original)
        {
          assert Refunded(rows, original.eventId, m) + PayloadSize(m, u.payload) <= RowSize(m, original);
        }
      }
    }
  }

  /** The committing session, once its row is in the table. */
  lemma CommitterIsOk(cat: Catalog, rows: seq<Row>, t: Session)
    requires cat.Valid() && Legal(cat, rows) && SessionOk(cat, rows, t) && t.pc.Committing?
    ensures SessionOk(cat, rows + [RowFor(t.payload, t.pc.storeId, t.pc.productId, t.now)], Moved(cat, rows, t))
  {
    AppendRow(rows, RowFor(t.payload, t.pc.storeId, t.pc.productId, t.now));
  }

  /** Waiting keeps sessions apart. */
  lemma MovedStaysApart(cat: Catalog, s: State, i: nat, j: nat)
    requires Inv(cat, s) && i < |s.sessions| && j < |s.sessions| && i != j && !Waits(s, i)
    ensures Apart(Moved(cat, s.db.rows, s.sessions[i]), s.sessions[j])
    ensures Apart(s.sessions[j], Moved(cat, s.db.rows, s.sessions[i]))
  {
    var t, u := s.sessions[i], s.sessions[j];
    assert Apart(t, u) && Apart(u, t);
    assert SessionOk(cat, s.db.rows, t) && SessionOk(cat, s.db.rows, u);
    assert !Blocks(t, u);
  }

  lemma AdvanceKeepsTable(cat: Catalog, s: State, i: nat)
    requires Inv(cat, s) && i < |s.sessions|
    ensures Legal(cat, Written(s.db, s.sessions[i]).rows)
  {
    var t := s.sessions[i];
    assert SessionOk(cat, s.db.rows, t);
    if t.pc.Committing? {
      CommittedRowIsAdmissible(cat, s.db.rows, t);
      AppendRow(s.db.rows, RowFor(t.payload, t.pc.storeId, t.pc.productId, t.now));
    }
  }

  lemma AdvanceKeepsSession(cat: Catalog, s: State, i: nat, j: nat)
    requires Inv(cat, s) && i < |s.sessions| && j < |s.sessions|
    ensures
      var u := if i == j then Moved(cat, s.db.rows, s.sessions[i]) else s.sessions[j];
      SessionOk(cat, Written(s.db, s.sessions[i]).rows, u)
  {
    var t, u := s.sessions[i], s.sessions[j];
    assert SessionOk(cat, s.db.rows, t) && SessionOk(cat, s.db.rows, u);
    if i == j {
      if t.pc.Committing? {
        CommitterIsOk(cat, s.db.rows, t);
      } else {
        MovedIsOk(cat, s.db.rows, t);
      }
    } else if t.pc.Committing? {
      assert Apart(t, u);
      OthersCommitIsHarmless(cat, s.db.rows, t, u);
    }
  }

  /** The table a commit leaves is in order for everybody but the committing session. */
  lemma SeverKeepsInv(cat: Catalog, s: State, i: nat)
    requires Inv(cat, s) && i < |s.sessions| && s.sessions[i].pc.Committing?
    ensures Inv(cat, Step(cat, s, Sever(i)))
  {
    AdvanceKeepsTable(cat, s, i);
    forall j | 0 <= j < |s.sessions| && j != i
      ensures SessionOk(cat, Step(cat, s, Sever(i)).db.rows, s.sessions[j])
    {
      AdvanceKeepsSession(cat, s, i, j);
    }
    forall j | 0 <= j < |s.sessions| && j != i
      ensures Apart(Ended(s.sessions[i]), s.sessions[j]) && Apart(s.sessions[j], Ended(s.sessions[i]))
    {
    }
    assert SessionOk(cat, s.db.rows, s.sessions[i]);
  }

  lemma AdvanceKeepsInv(cat: Catalog, s: State, i: nat)
    requires Inv(cat, s) && i < |s.sessions| && !Waits(s, i)
    ensures Inv(cat, Step(cat, s, Advance(i)))
  {
    hide Moved, Written, SessionOk, Apart, Legal, Waits;
    AdvanceKeepsTable(cat, s, i);
    forall j | 0 <= j < |s.sessions|
      ensures SessionOk(cat, Step(cat, s, Advance(i)).db.rows, Step(cat, s, Advance(i)).sessions[j])
    {
      AdvanceKeepsSession(cat, s, i, j);
    }
    forall j | 0 <= j < |s.sessions| && j != i
      ensures Apart(Moved(cat, s.db.rows, s.sessions[i]), s.sessions[j])
      ensures Apart(s.sessions[j], Moved(cat, s.db.rows, s.sessions[i]))
    {
      MovedStaysApart(cat, s, i, j);
    }
  }

  lemma StartKeepsInv(cat: Catalog, s: State, p: Payload, now: Instant)
    requires Inv(cat, s) && p.Valid()
    ensures Inv(cat, Step(cat, s, Start(p, now)))
  {
    hide Legal;
  }

  lemma AbortKeepsInv(cat: Catalog, s: State, i: nat)
    requires Inv(cat, s) && i < |s.sessions|
    ensures Inv(cat, Step(cat, s, Abort(i)))
  {
    hide Legal;
    SessionIsOk(cat, s, i);
  }

  lemma StepKeepsInv(cat: Catalog, s: State, a: Action)
    requires Inv(cat, s)
    ensures Inv(cat, Step(cat, s, a))
  {
    hide Inv, Moved, Written, Waits;
    match a
    case Start(p, now) => if p.Valid() { StartKeepsInv(cat, s, p, now); }
    case Abort(i) => if i < |s.sessions| { AbortKeepsInv(cat, s, i); }
    case Sever(i) => if i < |s.sessions| && s.sessions[i].pc.Committing? { SeverKeepsInv(cat, s, i); }
    case Advance(i) => if i < |s.sessions| && !Waits(s, i) { AdvanceKeepsInv(cat, s, i); }
  }

  /** Every reachable state satisfies the invariant. */
  lemma {:induction false} RunKeepsInv(cat: Catalog, s: State, acts: seq<Action>)
    requires Inv(cat, s)
    ensures Inv(cat, Run(cat, s, acts))
  {
    if acts != [] {
      RunKeepsInv(cat, s, Init(acts));
      StepKeepsInv(cat, Run(cat, s, Init(acts)), Last(acts));
    }
  }

  lemma FreshIsInv(cat: Catalog, db: Db)
    requires cat.Valid() && Legal(cat, db.rows)
    ensures Inv(cat, Fresh(db))
  {
  }
}
