/** Ingestion of notification events: handlers of deliveries and redeliveries, message inserts,
    reconciliations, dry runs and apply runs of the retention, interleaved in any way. A step is
    what happens between two awaits; a transaction is one step. */
module EventIngestion {
  import opened Options

  /** What a queue message says; its id is the notification id, so a redelivery says the same. */
  datatype Event = Event(messageId: int, body: int, tracked: bool)

  datatype Row = Row(notificationId: int, messageId: int, body: int)

  datatype Orphan = Orphan(row: Row, reconciled: bool)

  /** How far the handler of one delivery has come. */
  datatype Delivery =
    | Received(notificationId: int)
    | ParentFound(notificationId: int)
    | ParentMissing(notificationId: int)
    | Acknowledged(notificationId: int)
    | Thrown(notificationId: int)

  ghost predicate UniqueRows(rows: seq<Row>) {
    forall i, j :: 0 <= i < j < |rows| ==> rows[i].notificationId != rows[j].notificationId
  }

  ghost predicate UniqueOrphans(orphans: seq<Orphan>) {
    forall i, j :: 0 <= i < j < |orphans| ==> orphans[i].row.notificationId != orphans[j].row.notificationId
  }

  // ---------- upserts

  lemma UniqueCons(r: Row, rows: seq<Row>)
    ensures UniqueRows([r] + rows) <==> UniqueRows(rows) && forall x <- rows :: x.notificationId != r.notificationId
  {
    var all := [r] + rows;
    assert forall i :: 0 <= i < |rows| ==> all[i + 1] == rows[i];
    if UniqueRows(all) {
      forall i | 0 <= i < |rows|
        ensures rows[i].notificationId != r.notificationId
      {
        assert all[0].notificationId != all[i + 1].notificationId;
      }
    }
    assert forall i :: 0 <= i < |rows| ==> rows[i] in rows;
  }

  /** `upsert` by notification id: the row is updated where it stands, or appended. */
  function UpsertRow(rows: seq<Row>, r: Row): (after: seq<Row>)
    requires UniqueRows(rows)
    ensures forall x :: x in after <==> x == r || (x in rows && x.notificationId != r.notificationId)
    ensures UniqueRows(after)
  {
    if rows == [] then [r]
    else
      var rest := rows[1..];
      assert rows == [rows[0]] + rest;
      UniqueCons(rows[0], rest);
      if rows[0].notificationId == r.notificationId then
        UniqueCons(r, rest);
        [r] + rest
      else
        UniqueCons(rows[0], UpsertRow(rest, r));
        [rows[0]] + UpsertRow(rest, r)
  }

  lemma UniqueOrphanCons(o: Orphan, orphans: seq<Orphan>)
    ensures UniqueOrphans([o] + orphans) <==> UniqueOrphans(orphans) && forall x <- orphans :: x.row.notificationId != o.row.notificationId
  {
    var all := [o] + orphans;
    assert forall i :: 0 <= i < |orphans| ==> all[i + 1] == orphans[i];
    if UniqueOrphans(all) {
      forall i | 0 <= i < |orphans|
        ensures orphans[i].row.notificationId != o.row.notificationId
      {
        assert all[0].row.notificationId != all[i + 1].row.notificationId;
      }
    }
    assert forall i :: 0 <= i < |orphans| ==> orphans[i] in orphans;
  }

  /** The upsert into the orphan table; an update leaves `reconciledAt` as it is. */
  function UpsertOrphan(orphans: seq<Orphan>, r: Row): (after: seq<Orphan>)
    requires UniqueOrphans(orphans)
    ensures forall x <- after :: x.row == r || (x in orphans && x.row.notificationId != r.notificationId)
    ensures forall x <- orphans :: if x.row.notificationId == r.notificationId then Orphan(r, x.reconciled) in after else x in after
    ensures exists x <- after :: x.row == r
    ensures UniqueOrphans(after)
  {
    if orphans == [] then
      assert Orphan(r, false) in [Orphan(r, false)];
      [Orphan(r, false)]
    else
      var rest := orphans[1..];
      assert orphans == [orphans[0]] + rest;
      UniqueOrphanCons(orphans[0], rest);
      if orphans[0].row.notificationId == r.notificationId then
        var updated := Orphan(r, orphans[0].reconciled);
        UniqueOrphanCons(updated, rest);
        assert updated in [updated] + rest;
        [updated] + rest
      else
        UniqueOrphanCons(orphans[0], UpsertOrphan(rest, r));
        [orphans[0]] + UpsertOrphan(rest, r)
  }

  function Marked(orphans: seq<Orphan>, notificationId: int): (after: seq<Orphan>)
    ensures |after| == |orphans|
    ensures forall i :: 0 <= i < |orphans| ==>
            after[i] == if orphans[i].row.notificationId == notificationId then orphans[i].(reconciled := true) else orphans[i]
  {
    seq(|orphans|, i requires 0 <= i < |orphans| =>
      if orphans[i].row.notificationId == notificationId then orphans[i].(reconciled := true) else orphans[i])
  }

  /** The rows of the messages that a retention run removes, and the others. */
  function RowsOf(rows: seq<Row>, messageIds: set<int>, inside: bool): (r: seq<Row>)
    ensures forall x :: x in r <==> x in rows && (x.messageId in messageIds <==> inside)
    ensures UniqueRows(rows) ==> UniqueRows(r)
  {
    if rows == [] then []
    else
      var n := |rows| - 1;
      assert rows == rows[..n] + [rows[n]];
      var front := RowsOf(rows[..n], messageIds, inside);
      assert forall k :: 0 <= k < |front| ==> front[k] in front;
      if rows[n].messageId in messageIds <==> inside then front + [rows[n]] else front
  }

  // ---------- steps

  /** The part of an escrow file that matters here: a batch with its messages and their notifications. */
  datatype Escrow = Escrow(batch: int, messages: set<int>, rows: set<Row>)

  /** `messages` gives the batch of each stored message; `escrows` are the files that dry runs wrote. */
  datatype State = State(messages: map<int, int>, notifications: seq<Row>, orphans: seq<Orphan>, deliveries: seq<Delivery>, escrows: seq<Escrow>)

  /** An error of a save may also come after the row was written. */
  datatype Step =
    | Deliver(notificationId: int)
    | Lookup(d: nat, throws: bool)
    | Save(d: nat, throws: bool, written: bool)
    | Persist(d: nat, throws: bool, written: bool)
    | Insert(messageId: int, batch: int)
    | Reconcile(notificationId: int, throws: bool)
    | DryRun(batch: int)
    | Apply(k: nat)

  function RowOf(notificationId: int, e: Event): Row { Row(notificationId, e.messageId, e.body) }

  function MessagesOf(messages: map<int, int>, batch: int): set<int> { set m | m in messages && messages[m] == batch }

  function RowSet(rows: seq<Row>): set<Row> { set r | r in rows }

  predicate OpenOrphan(orphans: seq<Orphan>, messageIds: set<int>) {
    exists o <- orphans :: o.row.messageId in messageIds && !o.reconciled
  }

  /** When a step can happen: a handler goes on where it stands, and message ids are unique. */
  predicate Enabled(s: State, step: Step) {
    match step
    case Lookup(d, _) => d < |s.deliveries| && s.deliveries[d].Received?
    case Save(d, _, _) => d < |s.deliveries| && s.deliveries[d].ParentFound?
    case Persist(d, _, _) => d < |s.deliveries| && s.deliveries[d].ParentMissing?
    case Insert(messageId, _) => messageId !in s.messages
    case Apply(k) => k < |s.escrows|
    case _ => true
  }

  /** The escrow is still what the database holds for its batch, and no open orphan refers to it. */
  predicate Applies(s: State, e: Escrow) {
    && MessagesOf(s.messages, e.batch) == e.messages && RowSet(RowsOf(s.notifications, e.messages, true)) == e.rows
    && !OpenOrphan(s.orphans, e.messages)
  }

  function AfterLookup(eventOf: int -> Event, s: State, d: nat, throws: bool): State
    requires Enabled(s, Lookup(d, throws))
  {
    var n := s.deliveries[d].notificationId;
    s.(deliveries := s.deliveries[d :=
      if !eventOf(n).tracked then Acknowledged(n) else if throws then Thrown(n)
      else if eventOf(n).messageId in s.messages then ParentFound(n) else ParentMissing(n)])
  }

  /** When the parent has vanished since the lookup, the foreign key fails and the handler turns to
      the orphan table. */
  function AfterSave(eventOf: int -> Event, s: State, d: nat, throws: bool, written: bool): State
    requires Enabled(s, Save(d, throws, written)) && UniqueRows(s.notifications)
  {
    var n := s.deliveries[d].notificationId;
    var parent := eventOf(n).messageId in s.messages;
    s.(deliveries := s.deliveries[d := if throws then Thrown(n) else if parent then Acknowledged(n) else ParentMissing(n)],
       notifications := if parent && (!throws || written) then UpsertRow(s.notifications, RowOf(n, eventOf(n))) else s.notifications)
  }

  function AfterPersist(eventOf: int -> Event, s: State, d: nat, throws: bool, written: bool): State
    requires Enabled(s, Persist(d, throws, written)) && UniqueOrphans(s.orphans)
  {
    var n := s.deliveries[d].notificationId;
    s.(deliveries := s.deliveries[d := if throws then Thrown(n) else Acknowledged(n)],
       orphans := if !throws || written then UpsertOrphan(s.orphans, RowOf(n, eventOf(n))) else s.orphans)
  }

  function AfterReconcile(eventOf: int -> Event, s: State, notificationId: int, throws: bool): State
    requires UniqueRows(s.notifications)
  {
    var r := RowOf(notificationId, eventOf(notificationId));
    if throws || Orphan(r, false) !in s.orphans || r.messageId !in s.messages then s
    else s.(notifications := UpsertRow(s.notifications, r), orphans := Marked(s.orphans, notificationId))
  }

  function AfterDryRun(s: State, batch: int): State {
    var messageIds := MessagesOf(s.messages, batch);
    if OpenOrphan(s.orphans, messageIds) then s
    else s.(escrows := s.escrows + [Escrow(batch, messageIds, RowSet(RowsOf(s.notifications, messageIds, true)))])
  }

  function AfterApply(s: State, k: nat): State
    requires Enabled(s, Apply(k))
  {
    var e := s.escrows[k];
    if !Applies(s, e) then s
    else s.(messages := s.messages - e.messages, notifications := RowsOf(s.notifications, e.messages, false))
  }

  /** A step that cannot happen changes nothing. */
  function After(eventOf: int -> Event, s: State, step: Step): State
    requires UniqueRows(s.notifications) && UniqueOrphans(s.orphans)
  {
    if !Enabled(s, step) then s
    else
      match step
      case Deliver(n) => s.(deliveries := s.deliveries + [Received(n)])
      case Lookup(d, throws) => AfterLookup(eventOf, s, d, throws)
      case Save(d, throws, written) => AfterSave(eventOf, s, d, throws, written)
      case Persist(d, throws, written) => AfterPersist(eventOf, s, d, throws, written)
      case Insert(messageId, batch) => s.(messages := s.messages[messageId := batch])
      case Reconcile(n, throws) => AfterReconcile(eventOf, s, n, throws)
      case DryRun(batch) => AfterDryRun(s, batch)
      case Apply(k) => AfterApply(s, k)
  }

  // ---------- what never breaks

  /** A row is in the notifications, the orphans or an escrow. */
  ghost predicate Kept(row: Row, s: State) {
    || row in s.notifications
    || (exists o <- s.orphans :: o.row == row)
    || (exists e <- s.escrows :: row in e.rows)
  }

  ghost predicate Good(eventOf: int -> Event, s: State) {
    && UniqueRows(s.notifications) && UniqueOrphans(s.orphans)
    // rows say what their events say, and notifications have their parents
    && (forall x <- s.notifications :: x == RowOf(x.notificationId, eventOf(x.notificationId)) && x.messageId in s.messages)
    && (forall o <- s.orphans :: o.row == RowOf(o.row.notificationId, eventOf(o.row.notificationId)))
    // nothing acknowledged is lost
    && (forall d :: d in s.deliveries && d.Acknowledged? && eventOf(d.notificationId).tracked ==> Kept(RowOf(d.notificationId, eventOf(d.notificationId)), s))
  }

  lemma GoodLater(eventOf: int -> Event, s: State, t: State)
    requires Good(eventOf, s) && UniqueRows(t.notifications) && UniqueOrphans(t.orphans)
    requires forall x <- t.notifications :: x == RowOf(x.notificationId, eventOf(x.notificationId)) && x.messageId in t.messages
    requires forall o <- t.orphans :: o.row == RowOf(o.row.notificationId, eventOf(o.row.notificationId))
    requires forall row :: Kept(row, s) ==> Kept(row, t)
    requires forall d :: d in t.deliveries && d.Acknowledged? && eventOf(d.notificationId).tracked ==>
             d in s.deliveries || Kept(RowOf(d.notificationId, eventOf(d.notificationId)), t)
    ensures Good(eventOf, t)
  {
    hide Kept, UniqueRows, UniqueOrphans;
  }

  lemma LookupKeeps(eventOf: int -> Event, s: State, d: nat, throws: bool)
    requires Good(eventOf, s) && Enabled(s, Lookup(d, throws))
    ensures Good(eventOf, AfterLookup(eventOf, s, d, throws))
  {
    var t := AfterLookup(eventOf, s, d, throws);
    SameTables(s, t);
    Changed(s.deliveries, d, t.deliveries[d]);
    GoodLater(eventOf, s, t);
  }

  lemma SameTables(s: State, t: State)
    requires t.notifications == s.notifications && t.orphans == s.orphans && t.escrows == s.escrows
    ensures forall row :: Kept(row, s) <==> Kept(row, t)
  {
  }

  lemma Changed(deliveries: seq<Delivery>, d: nat, new': Delivery)
    requires d < |deliveries|
    ensures forall x :: x in deliveries[d := new'] ==> x in deliveries || x == new'
  {
  }

  /** An upsert of a row that says what its event says loses nothing. */
  lemma UpsertLosesNothing(eventOf: int -> Event, s: State, t: State, n: int)
    requires Good(eventOf, s) && t.notifications == UpsertRow(s.notifications, RowOf(n, eventOf(n))) && t.escrows == s.escrows
    requires forall o <- s.orphans :: exists p <- t.orphans :: p.row == o.row
    ensures forall row :: Kept(row, s) ==> Kept(row, t)
    ensures Kept(RowOf(n, eventOf(n)), t)
    ensures forall x <- t.notifications :: x == RowOf(x.notificationId, eventOf(x.notificationId))
  {
    hide UniqueRows, UniqueOrphans;
    forall row | Kept(row, s)
      ensures Kept(row, t)
    {
      if row in s.notifications && row.notificationId == n {
        assert row == RowOf(n, eventOf(n));
      }
    }
  }

  lemma SaveKeeps(eventOf: int -> Event, s: State, d: nat, throws: bool, written: bool)
    requires Good(eventOf, s) && Enabled(s, Save(d, throws, written))
    ensures Good(eventOf, AfterSave(eventOf, s, d, throws, written))
  {
    hide UniqueRows, UniqueOrphans;
    var n := s.deliveries[d].notificationId;
    var t := AfterSave(eventOf, s, d, throws, written);
    Changed(s.deliveries, d, t.deliveries[d]);
    if t.notifications == s.notifications { SameTables(s, t); }
    if eventOf(n).messageId in s.messages && (!throws || written) { UpsertLosesNothing(eventOf, s, t, n); }
    GoodLater(eventOf, s, t);
  }

  lemma PersistKeeps(eventOf: int -> Event, s: State, d: nat, throws: bool, written: bool)
    requires Good(eventOf, s) && Enabled(s, Persist(d, throws, written))
    ensures Good(eventOf, AfterPersist(eventOf, s, d, throws, written))
  {
    hide UniqueRows, UniqueOrphans;
    var n := s.deliveries[d].notificationId;
    var t := AfterPersist(eventOf, s, d, throws, written);
    Changed(s.deliveries, d, t.deliveries[d]);
    if throws && !written {
      SameTables(s, t);
    } else {
      forall row | Kept(row, s)
        ensures Kept(row, t)
      {
        if o :| o in s.orphans && o.row == row {
          assert o.row.notificationId == n ==> row == RowOf(n, eventOf(n));
        }
      }
    }
    GoodLater(eventOf, s, t);
  }

  /** Marking an orphan changes no row. */
  lemma MarkedRows(orphans: seq<Orphan>, notificationId: int)
    ensures UniqueOrphans(orphans) ==> UniqueOrphans(Marked(orphans, notificationId))
    ensures forall o <- orphans :: exists p <- Marked(orphans, notificationId) :: p.row == o.row
  {
    var after := Marked(orphans, notificationId);
    forall i | 0 <= i < |orphans|
      ensures after[i] in after && after[i].row == orphans[i].row
    {
    }
  }

  lemma MarkedSay(eventOf: int -> Event, orphans: seq<Orphan>, notificationId: int)
    requires forall o <- orphans :: o.row == RowOf(o.row.notificationId, eventOf(o.row.notificationId))
    ensures forall o <- Marked(orphans, notificationId) :: o.row == RowOf(o.row.notificationId, eventOf(o.row.notificationId))
  {
    forall i | 0 <= i < |orphans|
      ensures orphans[i] in orphans
    {
    }
  }

  lemma ReconcileKeeps(eventOf: int -> Event, s: State, notificationId: int, throws: bool)
    requires Good(eventOf, s)
    ensures Good(eventOf, AfterReconcile(eventOf, s, notificationId, throws))
  {
    hide UniqueRows, UniqueOrphans, Kept, Marked, UpsertRow;
    var t := AfterReconcile(eventOf, s, notificationId, throws);
    if t != s {
      MarkedSay(eventOf, s.orphans, notificationId);
      ReconcileLosesNothing(eventOf, s, t, notificationId);
      GoodLater(eventOf, s, t);
    }
  }

  lemma ReconcileLosesNothing(eventOf: int -> Event, s: State, t: State, n: int)
    requires Good(eventOf, s) && t.notifications == UpsertRow(s.notifications, RowOf(n, eventOf(n))) && t.escrows == s.escrows
    requires t.orphans == Marked(s.orphans, n)
    ensures forall row :: Kept(row, s) ==> Kept(row, t)
    ensures forall x <- t.notifications :: x == RowOf(x.notificationId, eventOf(x.notificationId))
    ensures UniqueOrphans(t.orphans)
  {
    hide UniqueRows, UniqueOrphans, Kept, Marked, UpsertRow;
    MarkedRows(s.orphans, n);
    UpsertLosesNothing(eventOf, s, t, n);
  }

  lemma DryRunKeeps(eventOf: int -> Event, s: State, batch: int)
    requires Good(eventOf, s)
    ensures Good(eventOf, AfterDryRun(s, batch))
  {
    hide UniqueRows, UniqueOrphans;
    var t := AfterDryRun(s, batch);
    assert forall e <- s.escrows :: e in t.escrows;
    GoodLater(eventOf, s, t);
  }

  lemma ApplyKeeps(eventOf: int -> Event, s: State, k: nat)
    requires Good(eventOf, s) && Enabled(s, Apply(k))
    ensures Good(eventOf, AfterApply(s, k))
  {
    hide UniqueRows, UniqueOrphans;
    var t, e := AfterApply(s, k), s.escrows[k];
    if Applies(s, e) {
      forall row | Kept(row, s)
        ensures Kept(row, t)
      {
        if row in s.notifications && row.messageId in e.messages {
          assert row in RowSet(RowsOf(s.notifications, e.messages, true)) && e in s.escrows;
        }
      }
    }
    GoodLater(eventOf, s, t);
  }

  lemma StepKeeps(eventOf: int -> Event, s: State, step: Step)
    requires Good(eventOf, s)
    ensures Good(eventOf, After(eventOf, s, step))
  {
    hide AfterLookup, AfterSave, AfterPersist, AfterReconcile, AfterDryRun, AfterApply, UniqueRows, UniqueOrphans;
    if Enabled(s, step) {
      match step
      case Deliver(_) => SameTables(s, After(eventOf, s, step)); GoodLater(eventOf, s, After(eventOf, s, step));
      case Lookup(d, throws) => LookupKeeps(eventOf, s, d, throws);
      case Save(d, throws, written) => SaveKeeps(eventOf, s, d, throws, written);
      case Persist(d, throws, written) => PersistKeeps(eventOf, s, d, throws, written);
      case Insert(_, _) => SameTables(s, After(eventOf, s, step)); GoodLater(eventOf, s, After(eventOf, s, step));
      case Reconcile(n, throws) => ReconcileKeeps(eventOf, s, n, throws);
      case DryRun(batch) => DryRunKeeps(eventOf, s, batch);
      case Apply(k) => ApplyKeeps(eventOf, s, k);
    }
  }

  // ---------- over whole runs

  function Start(messages: map<int, int>): State { State(messages, [], [], [], []) }

  /** The state after these steps, from a start without events. */
  ghost function Run(eventOf: int -> Event, messages: map<int, int>, steps: seq<Step>): (s: State)
    ensures Good(eventOf, s)
  {
    if steps == [] then Start(messages)
    else
      var before := Run(eventOf, messages, steps[..|steps| - 1]);
      StepKeeps(eventOf, before, steps[|steps| - 1]);
      After(eventOf, before, steps[|steps| - 1])
  }

  lemma StaysAcknowledged(eventOf: int -> Event, s: State, step: Step, n: int)
    requires Good(eventOf, s) && Acknowledged(n) in s.deliveries
    ensures Acknowledged(n) in After(eventOf, s, step).deliveries
  {
    hide UniqueRows, UniqueOrphans, AfterReconcile, AfterDryRun, AfterApply;
    var t := After(eventOf, s, step);
    var i :| 0 <= i < |s.deliveries| && s.deliveries[i] == Acknowledged(n);
    OtherSteps(eventOf, s, step);
    assert t.deliveries[i] == Acknowledged(n);
  }

  lemma OtherSteps(eventOf: int -> Event, s: State, step: Step)
    requires UniqueRows(s.notifications) && UniqueOrphans(s.orphans)
    ensures step.Reconcile? || step.DryRun? || step.Apply? ==> After(eventOf, s, step).deliveries == s.deliveries
  {
  }

  /** In every run, however the steps interleave: once a tracked event was acknowledged, it is kept
      in one of the three places from then on, with what it said, and there is never more than one
      row per notification id in a table. */
  lemma {:induction false} AcknowledgedIsKept(eventOf: int -> Event, messages: map<int, int>, steps: seq<Step>, i: nat, n: int)
    requires i <= |steps| && Acknowledged(n) in Run(eventOf, messages, steps[..i]).deliveries && eventOf(n).tracked
    ensures Acknowledged(n) in Run(eventOf, messages, steps).deliveries && Kept(RowOf(n, eventOf(n)), Run(eventOf, messages, steps))
    ensures UniqueRows(Run(eventOf, messages, steps).notifications) && UniqueOrphans(Run(eventOf, messages, steps).orphans)
    decreases |steps|
  {
    hide After, Kept, UniqueRows, UniqueOrphans;
    if i == |steps| {
      assert steps[..i] == steps;
    } else {
      var m := |steps| - 1;
      assert steps[..m][..i] == steps[..i];
      AcknowledgedIsKept(eventOf, messages, steps[..m], i, n);
      StaysAcknowledged(eventOf, Run(eventOf, messages, steps[..m]), steps[m], n);
    }
  }

  /** The fate of a delivery without errors: with its message stored the event ends in the
      notifications, otherwise in the orphans, and the other table stays as it was. */
  lemma LandsByParent(eventOf: int -> Event, s: State, d: nat)
    requires Good(eventOf, s) && d < |s.deliveries| && s.deliveries[d].Received?
    requires eventOf(s.deliveries[d].notificationId).tracked
    ensures var n := s.deliveries[d].notificationId;
            var looked := After(eventOf, s, Lookup(d, false));
            && Good(eventOf, looked) && looked == s.(deliveries := looked.deliveries)
            && (eventOf(n).messageId in s.messages ==>
                  var t := After(eventOf, looked, Save(d, false, true));
                  && looked.deliveries[d] == ParentFound(n)
                  && t.deliveries == s.deliveries[d := Acknowledged(n)] && t.orphans == s.orphans && t.messages == s.messages && t.escrows == s.escrows
                  && forall x :: x in t.notifications <==>
                       x == Row(n, eventOf(n).messageId, eventOf(n).body) || (x in s.notifications && x.notificationId != n))
            && (eventOf(n).messageId !in s.messages ==>
                  var t := After(eventOf, looked, Persist(d, false, true));
                  && looked.deliveries[d] == ParentMissing(n)
                  && t.deliveries == s.deliveries[d := Acknowledged(n)] && t.notifications == s.notifications && t.messages == s.messages
                  && t.escrows == s.escrows
                  && (exists o <- t.orphans :: o.row == Row(n, eventOf(n).messageId, eventOf(n).body))
                  && forall o: Orphan :: o.row.notificationId != n ==> (o in t.orphans <==> o in s.orphans))
  {
    hide UniqueRows, UniqueOrphans, UpsertRow, UpsertOrphan, Kept;
    StepKeeps(eventOf, s, Lookup(d, false));
  }

  /** An event that is not tracked is acknowledged and leaves no trace. */
  lemma UntrackedIsDropped(eventOf: int -> Event, s: State, d: nat, throws: bool)
    requires Good(eventOf, s) && d < |s.deliveries| && s.deliveries[d].Received?
    requires !eventOf(s.deliveries[d].notificationId).tracked
    ensures After(eventOf, s, Lookup(d, throws)) == s.(deliveries := s.deliveries[d := Acknowledged(s.deliveries[d].notificationId)])
  {
  }

  /** When the message vanishes between lookup and save, the event turns to the orphans and is not lost. */
  lemma VanishedParent(eventOf: int -> Event, s: State, d: nat)
    requires Good(eventOf, s) && d < |s.deliveries| && s.deliveries[d].ParentFound? && eventOf(s.deliveries[d].notificationId).messageId !in s.messages
    ensures var n := s.deliveries[d].notificationId;
            var t := After(eventOf, After(eventOf, s, Save(d, false, false)), Persist(d, false, true));
            && t.notifications == s.notifications && t.deliveries == s.deliveries[d := Acknowledged(n)]
            && exists o <- t.orphans :: o.row == Row(n, eventOf(n).messageId, eventOf(n).body)
  {
    hide UniqueRows, UniqueOrphans, UpsertRow, UpsertOrphan, Kept;
    StepKeeps(eventOf, s, Save(d, false, false));
  }

  /** An open orphan whose message is stored becomes a notification and is marked; an orphan whose
      message is missing stays open. */
  lemma {:induction false} ReconciledByParent(eventOf: int -> Event, s: State, n: int)
    requires Good(eventOf, s) && Orphan(Row(n, eventOf(n).messageId, eventOf(n).body), false) in s.orphans
    ensures var r, t := Row(n, eventOf(n).messageId, eventOf(n).body), After(eventOf, s, Reconcile(n, false));
            && (r.messageId in s.messages ==> && r in t.notifications && Orphan(r, true) in t.orphans && t.messages == s.messages
                                              && (forall x: Row :: x.notificationId != n ==> (x in t.notifications <==> x in s.notifications))
                                              && forall o: Orphan :: o.row.notificationId != n ==> (o in t.orphans <==> o in s.orphans))
            && (r.messageId !in s.messages ==> t == s)
  {
    hide UniqueRows, UniqueOrphans, UpsertRow, Kept, Marked;
    MarkedIs(s.orphans, Row(n, eventOf(n).messageId, eventOf(n).body));
    OthersUnmarked(s.orphans, n);
  }

  lemma OthersUnmarked(orphans: seq<Orphan>, n: int)
    ensures forall o: Orphan :: o.row.notificationId != n ==> (o in Marked(orphans, n) <==> o in orphans)
  {
    var after := Marked(orphans, n);
    forall i | 0 <= i < |orphans| && orphans[i].row.notificationId != n
      ensures orphans[i] in after
    {
      assert after[i] == orphans[i];
    }
    forall i | 0 <= i < |after| && after[i].row.notificationId != n
      ensures after[i] in orphans
    {
      assert after[i] == orphans[i];
    }
  }

  /** An open orphan of the batch keeps dry run and apply run from doing anything. */
  lemma OrphanBlocks(s: State, o: Orphan, batch: int, k: nat)
    requires o in s.orphans && o.reconciled == false
    ensures o.row.messageId in s.messages && s.messages[o.row.messageId] == batch ==> AfterDryRun(s, batch) == s
    ensures k < |s.escrows| && o.row.messageId in s.escrows[k].messages ==> AfterApply(s, k) == s
  {
  }

  /** Without one the escrow lists the batch's messages and exactly their notifications. */
  lemma EscrowLists(s: State, batch: int)
    requires forall o <- s.orphans :: o.row.messageId in s.messages && s.messages[o.row.messageId] == batch ==> o.reconciled
    ensures var t := AfterDryRun(s, batch);
            && t == s.(escrows := t.escrows) && |t.escrows| == |s.escrows| + 1 && t.escrows[..|s.escrows|] == s.escrows
            && var e := t.escrows[|s.escrows|];
               && e.batch == batch
               && (forall m :: m in e.messages <==> m in s.messages && s.messages[m] == batch)
               && forall x :: x in e.rows <==> x in s.notifications && x.messageId in s.messages && s.messages[x.messageId] == batch
  {
    assert !OpenOrphan(s.orphans, MessagesOf(s.messages, batch));
  }

  /** Right after it an apply run with this escrow goes through and takes exactly these rows away. */
  lemma ApplyAfterDryRun(s: State, batch: int)
    requires forall o <- s.orphans :: o.row.messageId in s.messages && s.messages[o.row.messageId] == batch ==> o.reconciled
    ensures var t := AfterApply(AfterDryRun(s, batch), |s.escrows|);
            && (forall m :: m in t.messages <==> m in s.messages && s.messages[m] != batch)
            && (forall m <- t.messages :: t.messages[m] == s.messages[m]) && t.orphans == s.orphans
            && forall x :: x in t.notifications <==> x in s.notifications && !(x.messageId in s.messages && s.messages[x.messageId] == batch)
  {
    EscrowLists(s, batch);
  }

  /** An apply run deletes either exactly the rows of its escrow or nothing, and nothing if a row was
      saved for the batch after the dry run. */
  lemma ApplyExactly(s: State, k: nat)
    requires Enabled(s, Apply(k))
    ensures var e, t := s.escrows[k], AfterApply(s, k);
            && (Applies(s, e) ==> RowSet(s.notifications) - RowSet(t.notifications) == e.rows && t.orphans == s.orphans)
            && ((exists x <- s.notifications :: x.messageId in e.messages && x !in e.rows) ==> t == s)
  {
    var e, t := s.escrows[k], AfterApply(s, k);
    var inside := RowsOf(s.notifications, e.messages, true);
    assert forall x :: x in inside <==> x in RowSet(inside);
    if Applies(s, e) {
      forall x
        ensures x in RowSet(s.notifications) - RowSet(t.notifications) <==> x in e.rows
      {
        assert x in t.notifications <==> x in s.notifications && x.messageId !in e.messages;
      }
    }
  }

  // ---------- the handler, the reconciliation and the retention runs

  datatype Reconciliation = Absent | ParentIsMissing | Reconciled | AlreadyReconciled

  class Ingestion {
    const eventOf: int -> Event
    var messages: map<int, int>
    var notifications: seq<Row>
    var orphans: seq<Orphan>
    var deliveries: seq<Delivery>
    var escrows: seq<Escrow>

    ghost function Now(): State
      reads this
    {
      State(messages, notifications, orphans, deliveries, escrows)
    }

    ghost predicate Valid()
      reads this
    {
      Good(eventOf, Now())
    }

    constructor (eventOf: int -> Event, messages: map<int, int>)
      ensures Valid() && this.eventOf == eventOf && Now() == Start(messages)
    {
      this.eventOf, this.messages := eventOf, messages;
      notifications, orphans, deliveries, escrows := [], [], [], [];
    }

    /** The queue hands out a message, for the first time or again. */
    method Receive(notificationId: int)
      requires Valid()
      modifies this`deliveries
      ensures Valid() && Now() == After(eventOf, old(Now()), Deliver(notificationId))
    {
      StepKeeps(eventOf, Now(), Deliver(notificationId));
      deliveries := deliveries + [Received(notificationId)];
    }

    /** The handler up to the answer of the parent lookup, or its error. Untracked events are
        acknowledged at once. */
    method LookUp(d: nat, throws: bool)
      requires Valid() && Enabled(Now(), Lookup(d, throws))
      modifies this`deliveries
      ensures Valid() && Now() == After(eventOf, old(Now()), Lookup(d, throws))
      ensures var n := old(deliveries[d].notificationId);
              deliveries[d] == if !eventOf(n).tracked then Acknowledged(n) else if throws then Thrown(n)
                               else if eventOf(n).messageId in messages then ParentFound(n) else ParentMissing(n)
    {
      hide UniqueRows, UniqueOrphans, Good;
      StepKeeps(eventOf, Now(), Lookup(d, throws));
      var n := deliveries[d].notificationId;
      if !eventOf(n).tracked {
        deliveries := deliveries[d := Acknowledged(n)];
      } else if throws {
        deliveries := deliveries[d := Thrown(n)];
      } else if eventOf(n).messageId in messages {
        deliveries := deliveries[d := ParentFound(n)];
      } else {
        deliveries := deliveries[d := ParentMissing(n)];
      }
    }

    /** The save of a notification whose parent was found. */
    method SaveNotification(d: nat, throws: bool, written: bool)
      requires Valid() && Enabled(Now(), Save(d, throws, written))
      modifies this`deliveries, this`notifications
      ensures Valid() && Now() == After(eventOf, old(Now()), Save(d, throws, written))
    {
      StepKeeps(eventOf, Now(), Save(d, throws, written));
      hide UniqueOrphans, Kept;
      var n := deliveries[d].notificationId;
      var r := RowOf(n, eventOf(n));
      if r.messageId !in messages {
        deliveries := deliveries[d := if throws then Thrown(n) else ParentMissing(n)];
        return;
      }
      if !throws || written { notifications := UpsertRow(notifications, r); }
      deliveries := deliveries[d := if throws then Thrown(n) else Acknowledged(n)];
    }

    /** `persistMissingParent`. */
    method PersistMissingParent(d: nat, throws: bool, written: bool)
      requires Valid() && Enabled(Now(), Persist(d, throws, written))
      modifies this`deliveries, this`orphans
      ensures Valid() && Now() == After(eventOf, old(Now()), Persist(d, throws, written))
    {
      StepKeeps(eventOf, Now(), Persist(d, throws, written));
      hide UniqueRows, Kept;
      var n := deliveries[d].notificationId;
      if !throws || written { orphans := UpsertOrphan(orphans, RowOf(n, eventOf(n))); }
      deliveries := deliveries[d := if throws then Thrown(n) else Acknowledged(n)];
    }

    /** A message row is stored. */
    method InsertMessage(messageId: int, batch: int)
      requires Valid() && Enabled(Now(), Insert(messageId, batch))
      modifies this`messages
      ensures Valid() && Now() == After(eventOf, old(Now()), Insert(messageId, batch))
    {
      StepKeeps(eventOf, Now(), Insert(messageId, batch));
      messages := messages[messageId := batch];
    }

    method FindOrphan(notificationId: int) returns (orphan: Option<Orphan>)
      ensures orphan.Some? ==> orphan.value in orphans && orphan.value.row.notificationId == notificationId
      ensures orphan.None? ==> forall o <- orphans :: o.row.notificationId != notificationId
    {
      var i := 0;
      while i < |orphans|
        invariant 0 <= i <= |orphans| && forall k :: 0 <= k < i ==> orphans[k].row.notificationId != notificationId
      {
        if orphans[i].row.notificationId == notificationId { return Some(orphans[i]); }
        i := i + 1;
      }
      orphan := None;
    }

    /** `reconcileNewsletterNotificationOrphan`: one transaction, dropped as a whole when it throws. */
    method ReconcileOrphan(notificationId: int, throws: bool) returns (result: Option<Reconciliation>)
      requires Valid()
      modifies this`notifications, this`orphans
      ensures Valid() && Now() == After(eventOf, old(Now()), Reconcile(notificationId, throws))
      ensures result.None? <==> throws
      ensures result == Some(Absent) ==> forall o <- orphans :: o.row.notificationId != notificationId
      ensures result == Some(AlreadyReconciled) ==> Orphan(RowOf(notificationId, eventOf(notificationId)), true) in orphans
      ensures result == Some(ParentIsMissing) ==>
              eventOf(notificationId).messageId !in messages && Orphan(RowOf(notificationId, eventOf(notificationId)), false) in orphans
      ensures result == Some(Reconciled) ==>
              && RowOf(notificationId, eventOf(notificationId)) in notifications
              && Orphan(RowOf(notificationId, eventOf(notificationId)), false) in old(orphans)
              && Orphan(RowOf(notificationId, eventOf(notificationId)), true) in orphans
    {
      ghost var r0 := RowOf(notificationId, eventOf(notificationId));
      ReconcileKeeps(eventOf, Now(), notificationId, throws);
      OneOrphan(orphans, r0);
      hide UniqueRows, UniqueOrphans, Kept, Marked;
      if throws { return None; }
      var orphan := FindOrphan(notificationId);
      if orphan.None? { return Some(Absent); }
      assert orphan.value.row == r0;
      if orphan.value.reconciled { return Some(AlreadyReconciled); }
      var r := orphan.value.row;
      if r.messageId !in messages { return Some(ParentIsMissing); }
      MarkedIs(orphans, r);
      notifications := UpsertRow(notifications, r);
      orphans := Marked(orphans, notificationId);
      result := Some(Reconciled);
    }

    /** A dry run for a batch: refused while an open orphan refers to one of its messages, otherwise
        an escrow of what the database holds for the batch. */
    method WriteEscrow(batch: int) returns (written: bool)
      requires Valid()
      modifies this`escrows
      ensures Valid() && Now() == After(eventOf, old(Now()), DryRun(batch))
      ensures written <==> |escrows| == |old(escrows)| + 1
    {
      StepKeeps(eventOf, Now(), DryRun(batch));
      hide Good, UniqueRows, UniqueOrphans;
      var messageIds := MessagesOf(messages, batch);
      if OpenOrphan(orphans, messageIds) { return false; }
      escrows := escrows + [Escrow(batch, messageIds, RowSet(RowsOf(notifications, messageIds, true)))];
      written := true;
    }

    /** An apply run with an escrow: what the database holds for the batch now is compared with the
        escrow, and deleted only if nothing differs and no open orphan refers to it. */
    method ApplyEscrow(k: nat) returns (applied: bool)
      requires Valid() && Enabled(Now(), Apply(k))
      modifies this`messages, this`notifications
      ensures Valid() && Now() == After(eventOf, old(Now()), Apply(k))
      ensures applied <==> Applies(old(Now()), escrows[k])
    {
      StepKeeps(eventOf, Now(), Apply(k));
      hide Good, UniqueRows, UniqueOrphans;
      var e := escrows[k];
      if MessagesOf(messages, e.batch) != e.messages { return false; }
      if RowSet(RowsOf(notifications, e.messages, true)) != e.rows { return false; }
      if OpenOrphan(orphans, e.messages) { return false; }
      notifications := RowsOf(notifications, e.messages, false);
      messages := messages - e.messages;
      applied := true;
    }
  }

  /** There is one orphan at most per notification id. */
  lemma OneOrphan(orphans: seq<Orphan>, r: Row)
    requires UniqueOrphans(orphans)
    ensures !(Orphan(r, true) in orphans && Orphan(r, false) in orphans)
  {
  }

  lemma MarkedIs(orphans: seq<Orphan>, r: Row)
    requires Orphan(r, false) in orphans
    ensures Orphan(r, true) in Marked(orphans, r.notificationId)
  {
    var i :| 0 <= i < |orphans| && orphans[i] == Orphan(r, false);
    assert Marked(orphans, r.notificationId)[i] == Orphan(r, true);
  }
}
