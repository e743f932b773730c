/** Removing one verification run: which rows belong to it, the transaction that deletes them and
    restores store state, and the shutdown and restart around it. */
module Cleanup {
  import opened Events

  // ---------------------------------------------------------------- text

  predicate Plain(s: string) {
    forall c | c in s :: c != '%' && c != '_' && c != '\\'
  }

  /** The LIKE operator. */
  predicate Like(pattern: string, s: string)
    decreases |pattern|
  {
    if pattern == "" then s == ""
    else if pattern[0] == '%' then exists k | 0 <= k <= |s| :: Like(pattern[1..], s[k..])
    else if pattern[0] == '\\' then
      |pattern| > 1 && s != "" && s[0] == pattern[1] && Like(pattern[2..], s[1..])
    else s != "" && (pattern[0] == '_' || s[0] == pattern[0]) && Like(pattern[1..], s[1..])
  }

  function SourcePattern(runTag: string): string {
    "simulator-%:" + runTag + ":%"
  }

  lemma {:induction false} LikePlainPrefix(plain: string, rest: string, s: string)
    requires Plain(plain)
    ensures Like(plain + rest, s) <==> plain <= s && Like(rest, s[|plain|..])
  {
    if plain == "" {
      assert plain + rest == rest && s[0..] == s;
    } else {
      assert (plain + rest)[1..] == plain[1..] + rest;
      assert plain[0] in plain;
      if s != "" {
        assert forall c | c in plain[1..] :: c in plain;
        LikePlainPrefix(plain[1..], rest, s[1..]);
        if plain[1..] <= s[1..] {
          assert s[1..][|plain[1..]|..] == s[|plain|..];
        }
        assert plain <= s <==> s[0] == plain[0] && plain[1..] <= s[1..];
      }
    }
  }

  lemma LikeAnything(s: string)
    ensures Like("%", s)
  {
    assert Like("", s[|s|..]);
    assert "%"[1..] == "";
  }

  predicate Contains(s: string, part: string, k: nat) {
    k <= |s| && part <= s[k..]
  }

  lemma LikeContains(part: string, s: string)
    requires Plain(part)
    ensures Like("%" + (part + "%"), s) <==> exists k: nat :: Contains(s, part, k)
  {
    var pattern := "%" + (part + "%");
    assert pattern[1..] == part + "%";
    forall k: nat | k <= |s|
      ensures Like(pattern[1..], s[k..]) <==> Contains(s, part, k)
    {
      LikePlainPrefix(part, "%", s[k..]);
      if part <= s[k..] {
        LikeAnything(s[k..][|part|..]);
      }
    }
    if exists k: nat :: Contains(s, part, k) {
      var k: nat :| Contains(s, part, k);
      assert Like(pattern[1..], s[k..]);
    }
  }

  function Source(name: string, tag: string, host: string): string {
    "simulator-" + name + ":" + tag + ":" + host
  }

  lemma SourceContains(s: string, runTag: string, k: nat)
    requires "simulator-" <= s && Contains(s[|"simulator-"|..], ":" + runTag + ":", k)
    ensures exists name, host :: s == Source(name, runTag, host)
  {
    var part, rest := ":" + runTag + ":", s[|"simulator-"|..];
    assert rest == rest[..k] + part + rest[k..][|part|..];
    assert s == Source(rest[..k], runTag, rest[k..][|part|..]);
  }

  lemma ContainsSource(runTag: string, name: string, host: string)
    ensures "simulator-" <= Source(name, runTag, host)
    ensures Contains(Source(name, runTag, host)[|"simulator-"|..], ":" + runTag + ":", |name|)
  {
    var s, part := Source(name, runTag, host), ":" + runTag + ":";
    assert s == "simulator-" + (name + (part + host));
    assert s[|"simulator-"|..] == name + (part + host);
    assert s[|"simulator-"|..][|name|..] == part + host;
  }

  /** The pattern selects exactly the sources that name this run behind a simulator label. */
  lemma PatternMeaning(runTag: string, s: string)
    requires Plain(runTag)
    ensures Like(SourcePattern(runTag), s) <==> exists name, host :: s == Source(name, runTag, host)
  {
    hide Like;
    var part := ":" + runTag + ":";
    assert SourcePattern(runTag) == "simulator-" + ("%" + (part + "%"));
    LikePlainPrefix("simulator-", "%" + (part + "%"), s);
    if "simulator-" <= s {
      LikeContains(part, s[|"simulator-"|..]);
    }
    if Like(SourcePattern(runTag), s) {
      var k: nat :| Contains(s[|"simulator-"|..], part, k);
      SourceContains(s, runTag, k);
    }
    if name, host :| s == Source(name, runTag, host) {
      ContainsSource(runTag, name, host);
    }
  }

  predicate NoColon(s: string) {
    ':' !in s
  }

  lemma ColonsOfSource(name: string, tag: string, host: string)
    ensures
      var s := Source(name, tag, host);
      var first := |"simulator-"| + |name|;
      var second := first + 1 + |tag|;
      && second < |s| && s[first] == ':' && s[second] == ':' && s[first + 1..second] == tag
      && (NoColon(name) && NoColon(tag) && NoColon(host) ==>
            forall k | 0 <= k < |s| && s[k] == ':' :: k == first || k == second)
  {
    var s := Source(name, tag, host);
    assert s == "simulator-" + name + ":" + tag + ":" + host;
    assert NoColon("simulator-");
    var first := |"simulator-"| + |name|;
    assert s[first + 1..] == tag + ":" + host;
  }

  lemma SameSourceSameTag(name: string, tag: string, host: string, x: string, runTag: string, y: string)
    requires NoColon(name) && NoColon(tag) && NoColon(host)
    requires Source(name, tag, host) == Source(x, runTag, y)
    ensures tag == runTag
  {
    hide Source;
    ColonsOfSource(name, tag, host);
    ColonsOfSource(x, runTag, y);
  }

  /** A simulator's source belongs to exactly the run whose tag it carries. */
  lemma SourcesAreIsolated(runTag: string, name: string, tag: string, host: string)
    requires Plain(runTag) && NoColon(name) && NoColon(tag) && NoColon(host)
    ensures Like(SourcePattern(runTag), Source(name, tag, host)) <==> tag == runTag
  {
    hide Source, Like;
    PatternMeaning(runTag, Source(name, tag, host));
    if Like(SourcePattern(runTag), Source(name, tag, host)) {
      var x, y :| Source(name, tag, host) == Source(x, runTag, y);
      SameSourceSameTag(name, tag, host, x, runTag, y);
    }
  }

  // ---------------------------------------------------------------- literals

  function Doubled(s: string): string {
    if s == "" then "" else (if s[0] == '\'' then "''" else [s[0]]) + Doubled(s[1..])
  }

  function SqlLiteral(value: string): string {
    "'" + Doubled(value) + "'"
  }

  /** How the database reads on behind an opening quote: the value, and the text after the closing
      quote. */
  function ReadQuoted(text: string): Option<(string, string)> {
    if text == "" then None
    else if text[0] != '\'' then
      match ReadQuoted(text[1..])
      case None => None
      case Some(r) => Some(([text[0]] + r.0, r.1))
    else if |text| > 1 && text[1] == '\'' then
      match ReadQuoted(text[2..])
      case None => None
      case Some(r) => Some((['\''] + r.0, r.1))
    else Some(("", text[1..]))
  }

  /** Up to the closing quote. */
  lemma {:induction false} DoubledReadsBack(value: string, rest: string)
    requires rest == "" || rest[0] != '\''
    ensures ReadQuoted(Doubled(value) + "'" + rest) == Some((value, rest))
  {
    var text := Doubled(value) + "'" + rest;
    if value == "" {
      assert text == "'" + rest && text[1..] == rest;
    } else {
      var tail := Doubled(value[1..]) + "'" + rest;
      DoubledReadsBack(value[1..], rest);
      assert value == [value[0]] + value[1..];
      if value[0] == '\'' {
        assert text == "''" + tail && text[2..] == tail;
      } else {
        assert text == [value[0]] + tail && text[1..] == tail;
      }
    }
  }

  /** Every string reads back as itself, and the statement goes on right behind the literal. */
  lemma LiteralRoundTrip(value: string, rest: string)
    requires rest == "" || rest[0] != '\''
    ensures SqlLiteral(value)[0] == '\''
    ensures ReadQuoted(SqlLiteral(value)[1..] + rest) == Some((value, rest))
  {
    DoubledReadsBack(value, rest);
    assert SqlLiteral(value)[1..] == Doubled(value) + "'";
  }

  // ---------------------------------------------------------------- deleting rows

  predicate OfRun(runTag: string, row: Row) {
    Like(SourcePattern(runTag), row.sourceInstance)
  }

  function Survivors(rows: seq<Row>, doomed: Row -> bool): seq<Row> {
    if rows == [] then []
    else
      var kept := Survivors(Init(rows), doomed);
      if doomed(Last(rows)) then kept else kept + [Last(rows)]
  }

  /** A surviving row references a deleted one. */
  predicate Dangles(rows: seq<Row>, doomed: Row -> bool) {
    exists i, j | 0 <= i < |rows| && 0 <= j < |rows| ::
      !doomed(rows[i]) && doomed(rows[j]) && rows[i].originalEventId == Some(rows[j].eventId)
  }

  /** DELETE under ON DELETE RESTRICT. */
  function Delete(rows: seq<Row>, doomed: Row -> bool): Option<seq<Row>> {
    if Dangles(rows, doomed) then None else Some(Survivors(rows, doomed))
  }

  function Typed(runTag: string, eventType: EventType): Row -> bool {
    (row: Row) => OfRun(runTag, row) && row.eventType == eventType
  }

  function Whole(runTag: string): Row -> bool {
    (row: Row) => OfRun(runTag, row)
  }

  lemma {:induction false} SurvivorsAre(rows: seq<Row>, doomed: Row -> bool)
    ensures forall row :: row in Survivors(rows, doomed) <==> row in rows && !doomed(row)
  {
    if rows != [] {
      SurvivorsAre(Init(rows), doomed);
      assert forall row :: row in rows <==> row in Init(rows) || row == Last(rows);
    }
  }

  lemma SurvivorsAppend(rows: seq<Row>, row: Row, doomed: Row -> bool)
    ensures Survivors(rows + [row], doomed)
            == if doomed(row) then Survivors(rows, doomed) else Survivors(rows, doomed) + [row]
  {
    AppendRow(rows, row);
  }

  /** Deleting in two statements is deleting once. */
  lemma {:induction false} SurvivorsTwice(rows: seq<Row>, first: Row -> bool, second: Row -> bool, both: Row -> bool)
    requires forall row :: both(row) <==> first(row) || second(row)
    ensures Survivors(Survivors(rows, first), second) == Survivors(rows, both)
  {
    if rows != [] {
      SurvivorsTwice(Init(rows), first, second, both);
      if !first(Last(rows)) {
        SurvivorsAppend(Survivors(Init(rows), first), Last(rows), second);
      }
    }
  }

  lemma {:induction false} FindSurvivor(cat: Catalog, rows: seq<Row>, doomed: Row -> bool, id: Uuid)
    requires Legal(cat, rows)
    ensures Find(Survivors(rows, doomed), id)
            == if Find(rows, id).Some? && !doomed(Find(rows, id).value) then Find(rows, id) else None
  {
    if rows != [] {
      FindSurvivor(cat, Init(rows), doomed, id);
      if !doomed(Last(rows)) {
        AppendRow(Survivors(Init(rows), doomed), Last(rows));
      }
    }
  }

  lemma {:induction false} SurvivingSums(cat: Catalog, rows: seq<Row>, doomed: Row -> bool, id: Uuid, m: Measure)
    requires Legal(cat, rows)
    ensures Refunded(Survivors(rows, doomed), id, m) <= Refunded(rows, id, m)
  {
    if rows != [] {
      SurvivingSums(cat, Init(rows), doomed, id, m);
      if !doomed(Last(rows)) {
        AppendRow(Survivors(Init(rows), doomed), Last(rows));
      }
    }
  }

  /** What is left after a deletion that strands nothing satisfies every ingestion invariant. */
  lemma {:induction false} SurvivorsAreLegal(cat: Catalog, rows: seq<Row>, doomed: Row -> bool)
    requires Legal(cat, rows) && !Dangles(rows, doomed)
    ensures Legal(cat, Survivors(rows, doomed))
  {
    if rows != [] {
      assert forall i | 0 <= i < |Init(rows)| :: Init(rows)[i] == rows[i];
      SurvivorsAreLegal(cat, Init(rows), doomed);
      var row, kept := Last(rows), Survivors(Init(rows), doomed);
      if !doomed(row) {
        FindSurvivor(cat, Init(rows), doomed, row.eventId);
        if row.eventType.REFUND? {
          var saleId := row.originalEventId.value;
          var j := Found(Init(rows), saleId);
          assert !doomed(rows[|rows| - 1]) && rows[j].eventId == saleId;
          FindSurvivor(cat, Init(rows), doomed, saleId);
          forall m: Measure
            ensures Refunded(kept, saleId, m) + RowSize(m, row) <= RowSize(m, Find(kept, saleId).value)
          {
            SurvivingSums(cat, Init(rows), doomed, saleId, m);
          }
        }
        AppendRow(kept, row);
      }
    }
  }

  // ---------------------------------------------------------------- store state

  datatype StoreState = StoreState(lastSeenAt: Option<Instant>, updatedAt: Instant)

  datatype SnapshotEntry = SnapshotEntry(id: Uuid, state: StoreState)

  type Stores = map<Uuid, StoreState>

  function Restore(stores: Stores, snapshot: seq<SnapshotEntry>): Stores {
    if snapshot == [] then stores
    else
      var restored := Restore(stores, Init(snapshot));
      var entry := Last(snapshot);
      if entry.id in restored then restored[entry.id := entry.state] else restored
  }

  function Mismatches(stores: Stores, snapshot: seq<SnapshotEntry>): nat {
    if snapshot == [] then 0
    else
      Mismatches(stores, Init(snapshot))
      + if Last(snapshot).id in stores && stores[Last(snapshot).id] == Last(snapshot).state then 0 else 1
  }

  /** One entry per store, as a snapshot by primary key has. */
  predicate OnePerStore(snapshot: seq<SnapshotEntry>) {
    forall i, j | 0 <= i < j < |snapshot| :: snapshot[i].id != snapshot[j].id
  }

  lemma {:induction false} RestoredState(stores: Stores, snapshot: seq<SnapshotEntry>)
    requires OnePerStore(snapshot)
    ensures Restore(stores, snapshot).Keys == stores.Keys
    ensures forall i | 0 <= i < |snapshot| && snapshot[i].id in stores ::
              Restore(stores, snapshot)[snapshot[i].id] == snapshot[i].state
    ensures forall id | id in stores && (forall i | 0 <= i < |snapshot| :: snapshot[i].id != id) ::
              Restore(stores, snapshot)[id] == stores[id]
  {
    if snapshot != [] {
      RestoredState(stores, Init(snapshot));
      assert forall i | 0 <= i < |Init(snapshot)| :: Init(snapshot)[i] == snapshot[i];
    }
  }

  lemma {:induction false} NoMismatchMeans(stores: Stores, snapshot: seq<SnapshotEntry>)
    ensures Mismatches(stores, snapshot) == 0 <==>
            forall i | 0 <= i < |snapshot| :: snapshot[i].id in stores && stores[snapshot[i].id] == snapshot[i].state
  {
    if snapshot != [] {
      NoMismatchMeans(stores, Init(snapshot));
      assert forall i | 0 <= i < |Init(snapshot)| :: Init(snapshot)[i] == snapshot[i];
      assert snapshot[|snapshot| - 1] == Last(snapshot);
    }
  }

  /** After a restore nothing differs from the snapshot, exactly when no store of it is missing. */
  lemma RestoreMatchesExactly(stores: Stores, snapshot: seq<SnapshotEntry>)
    requires OnePerStore(snapshot)
    ensures Mismatches(Restore(stores, snapshot), snapshot) == 0 <==>
            forall i | 0 <= i < |snapshot| :: snapshot[i].id in stores
  {
    RestoredState(stores, snapshot);
    NoMismatchMeans(Restore(stores, snapshot), snapshot);
  }

  // ---------------------------------------------------------------- the transaction

  datatype Tables = Tables(rows: seq<Row>, stores: Stores)

  /** REFUND rows first, then SALE rows, then the restore; a violated reference rolls all back. */
  function Transaction(t: Tables, runTag: string, snapshot: seq<SnapshotEntry>): Option<Tables> {
    match Delete(t.rows, Typed(runTag, REFUND))
    case None => None
    case Some(rows) =>
      match Delete(rows, Typed(runTag, SALE))
      case None => None
      case Some(rows) => Some(Tables(rows, Restore(t.stores, snapshot)))
  }

  /** Some refund that is not of the run refers to a sale of the run. */
  predicate OutsideRefund(rows: seq<Row>, runTag: string) {
    exists i, j | 0 <= i < |rows| && 0 <= j < |rows| ::
      !OfRun(runTag, rows[i]) && OfRun(runTag, rows[j]) && rows[i].originalEventId == Some(rows[j].eventId)
  }

  lemma ReferencedIsSale(cat: Catalog, rows: seq<Row>, i: nat, j: nat)
    requires Legal(cat, rows) && i < |rows| && j < |rows|
    requires rows[i].originalEventId == Some(rows[j].eventId)
    ensures rows[i].eventType.REFUND? && rows[j].eventType.SALE?
  {
    FindAt(rows, i);
    OriginalIsUnique(cat, rows, rows[i].eventId);
    FoundIsSound(cat, rows, rows[i].eventId);
    OriginalIsUnique(cat, rows, rows[j].eventId);
  }

  /** No refund is referenced, so deleting refunds first strands nothing. */
  lemma RefundsGoFirst(cat: Catalog, rows: seq<Row>, runTag: string)
    requires Legal(cat, rows)
    ensures !Dangles(rows, Typed(runTag, REFUND))
  {
    hide OfRun;
    forall i, j | 0 <= i < |rows| && 0 <= j < |rows| && rows[i].originalEventId == Some(rows[j].eventId)
      ensures !Typed(runTag, REFUND)(rows[j])
    {
      ReferencedIsSale(cat, rows, i, j);
    }
  }

  lemma StrandedIsOutside(cat: Catalog, rows: seq<Row>, runTag: string)
    requires Legal(cat, rows) && Dangles(Survivors(rows, Typed(runTag, REFUND)), Typed(runTag, SALE))
    ensures OutsideRefund(rows, runTag)
  {
    hide OfRun;
    var refund, sale := Typed(runTag, REFUND), Typed(runTag, SALE);
    var kept := Survivors(rows, refund);
    SurvivorsAre(rows, refund);
    var i, j :| 0 <= i < |kept| && 0 <= j < |kept| &&
                !sale(kept[i]) && sale(kept[j]) && kept[i].originalEventId == Some(kept[j].eventId);
    assert kept[i] in kept && kept[j] in kept;
    var a :| 0 <= a < |rows| && rows[a] == kept[i];
    var b :| 0 <= b < |rows| && rows[b] == kept[j];
    ReferencedIsSale(cat, rows, a, b);
    assert !refund(rows[a]);
    assert !OfRun(runTag, rows[a]) && OfRun(runTag, rows[b]);
  }

  lemma OutsideIsStranded(cat: Catalog, rows: seq<Row>, runTag: string)
    requires Legal(cat, rows) && OutsideRefund(rows, runTag)
    ensures Dangles(Survivors(rows, Typed(runTag, REFUND)), Typed(runTag, SALE))
  {
    hide OfRun;
    var refund, sale := Typed(runTag, REFUND), Typed(runTag, SALE);
    var kept := Survivors(rows, refund);
    SurvivorsAre(rows, refund);
    var a, b :| 0 <= a < |rows| && 0 <= b < |rows| &&
                !OfRun(runTag, rows[a]) && OfRun(runTag, rows[b]) && rows[a].originalEventId == Some(rows[b].eventId);
    ReferencedIsSale(cat, rows, a, b);
    assert rows[a] in rows && rows[b] in rows && !refund(rows[a]) && !refund(rows[b]);
    var i :| 0 <= i < |kept| && kept[i] == rows[a];
    var j :| 0 <= j < |kept| && kept[j] == rows[b];
    assert !sale(kept[i]) && sale(kept[j]);
  }

  /** The transaction commits exactly when no refund from outside the run refers to one of its
      sales; it then removes exactly the run's rows, in one go, and leaves a legal table. */
  lemma TransactionSucceedsExactly(cat: Catalog, t: Tables, runTag: string, snapshot: seq<SnapshotEntry>)
    requires Legal(cat, t.rows)
    ensures Transaction(t, runTag, snapshot).Some? <==> !OutsideRefund(t.rows, runTag)
    ensures Transaction(t, runTag, snapshot).Some? ==>
              var t' := Transaction(t, runTag, snapshot).value;
              && t'.rows == Survivors(t.rows, Whole(runTag))
              && (forall row :: row in t'.rows <==> row in t.rows && !OfRun(runTag, row))
              && Legal(cat, t'.rows)
              && t'.stores == Restore(t.stores, snapshot)
  {
    hide OfRun;
    var refund, sale := Typed(runTag, REFUND), Typed(runTag, SALE);
    RefundsGoFirst(cat, t.rows, runTag);
    if Dangles(Survivors(t.rows, refund), sale) {
      StrandedIsOutside(cat, t.rows, runTag);
    }
    if OutsideRefund(t.rows, runTag) {
      OutsideIsStranded(cat, t.rows, runTag);
    }
    if Transaction(t, runTag, snapshot).Some? {
      SurvivorsTwice(t.rows, refund, sale, Whole(runTag));
      SurvivorsAre(t.rows, Whole(runTag));
      SurvivorsAreLegal(cat, t.rows, refund);
      SurvivorsAreLegal(cat, Survivors(t.rows, refund), sale);
    }
  }

  /** The opposite order fails as soon as any refund at all refers to a sale of the run. */
  lemma SalesFirstFailsExactly(cat: Catalog, rows: seq<Row>, runTag: string)
    requires Legal(cat, rows)
    ensures Delete(rows, Typed(runTag, SALE)).None? <==>
            exists i, j | 0 <= i < |rows| && 0 <= j < |rows| ::
              OfRun(runTag, rows[j]) && rows[i].originalEventId == Some(rows[j].eventId)
  {
    hide OfRun;
    var sale := Typed(runTag, SALE);
    forall i, j | 0 <= i < |rows| && 0 <= j < |rows| && rows[i].originalEventId == Some(rows[j].eventId)
      ensures OfRun(runTag, rows[j]) <==> !sale(rows[i]) && sale(rows[j])
    {
      ReferencedIsSale(cat, rows, i, j);
    }
  }
}
