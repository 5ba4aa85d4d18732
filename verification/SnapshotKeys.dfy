/** Uniqueness of row ids and natural keys over a whole snapshot, kept in six growing sets. */
module SnapshotKeys {
  import opened Utf16
  import opened Options
  import opened StableSort
  import opened EscrowRecords
  import opened EscrowGroups
  import opened EscrowLoader

  // ---------- uniqueness of a concatenation

  lemma IdsConcat(a: seq<Record>, b: seq<Record>)
    ensures forall kind :: Ids(a + b, kind) == Ids(a, kind) + Ids(b, kind)
    ensures forall kind :: EscrowGroups.Keys(a + b, kind) == EscrowGroups.Keys(a, kind) + EscrowGroups.Keys(b, kind)
  {
    assert forall r :: r in a + b <==> r in a || r in b;
  }

  ghost predicate Apart(a: seq<Record>, b: seq<Record>) {
    forall r <- b :: Fresh(a, r.row)
  }

  lemma {:induction false} UniqueConcat(a: seq<Record>, b: seq<Record>)
    ensures UniqueRows(a + b) <==> UniqueRows(a) && UniqueRows(b) && Apart(a, b)
  {
    if b == [] {
      assert a + b == a;
    } else {
      var n := |b| - 1;
      var front, r := b[..n], b[n];
      assert b == front + [r] && a + b == (a + front) + [r];
      UniqueConcat(a, front);
      UniqueSnoc(a + front, r);
      UniqueSnoc(front, r);
      IdsConcat(a, front);
      assert Apart(a, b) <==> Apart(a, front) && Fresh(a, r.row) by {
        assert forall x :: x in b <==> x in front || x == r;
      }
    }
  }

  ghost predicate KeysApart(a: seq<Record>, b: seq<Record>) {
    forall kind :: Ids(a, kind) !! Ids(b, kind) && EscrowGroups.Keys(a, kind) !! EscrowGroups.Keys(b, kind)
  }

  lemma ApartByKeys(a: seq<Record>, b: seq<Record>)
    ensures Apart(a, b) <==> KeysApart(a, b)
  {
    forall r <- b
      ensures RowId(r.row) in Ids(b, KindOfRow(r.row))
      ensures NaturalKey(r.row).Some? ==> NaturalKey(r.row).value in EscrowGroups.Keys(b, KindOfRow(r.row))
    {
    }
  }

  // ---------- one kind of rows

  ghost predicate IsTable(records: seq<Record>, kind: Kind, ids: seq<Text>, keys: seq<Text>) {
    && |ids| == |keys| == |records|
    && forall i :: 0 <= i < |records| ==>
         KindOfRow(records[i].row) == kind && RowId(records[i].row) == ids[i] && NaturalKey(records[i].row) == Some(keys[i])
  }

  lemma UniqueTable(records: seq<Record>, kind: Kind, ids: seq<Text>, keys: seq<Text>)
    requires IsTable(records, kind, ids, keys)
    ensures UniqueRows(records) <==> NoDuplicates(ids) && NoDuplicates(keys)
  {
    hide KindOfRow, RowId, NaturalKey;
    forall i, j | 0 <= i < j < |records|
      ensures NoClash(records[i].row, records[j].row) <==> ids[i] != ids[j] && keys[i] != keys[j]
    {
    }
  }

  lemma TableKeys(records: seq<Record>, kind: Kind, ids: seq<Text>, keys: seq<Text>)
    requires IsTable(records, kind, ids, keys)
    ensures UniqueRows(records) <==> NoDuplicates(ids) && NoDuplicates(keys)
    ensures forall other :: Ids(records, other) == if other == kind then AsSet(ids) else {}
    ensures forall other :: EscrowGroups.Keys(records, other) == if other == kind then AsSet(keys) else {}
  {
    hide KindOfRow, RowId, NaturalKey, UniqueRows, NoDuplicates;
    UniqueTable(records, kind, ids, keys);
    forall i | 0 <= i < |records|
      ensures ids[i] in Ids(records, kind) && keys[i] in EscrowGroups.Keys(records, kind)
    {
      assert records[i] in records;
    }
    forall other
      ensures Ids(records, other) == if other == kind then AsSet(ids) else {}
      ensures EscrowGroups.Keys(records, other) == if other == kind then AsSet(keys) else {}
    {
    }
  }

  function NotificationIds(rows: seq<NotificationRow>): seq<Text> { seq(|rows|, i requires 0 <= i < |rows| => rows[i].notificationId) }

  function MessageKeys(rows: seq<MessageRow>): seq<Text> { seq(|rows|, i requires 0 <= i < |rows| => rows[i].messageId) }

  function ErrorKeys(rows: seq<ErrorRow>): seq<Text> { seq(|rows|, i requires 0 <= i < |rows| => rows[i].messageId) }

  /** The rows of a group are unique among themselves. */
  ghost predicate UniqueInGroup(g: Group) {
    && NoDuplicates(MessageRowIds(g.messages)) && NoDuplicates(MessageKeys(g.messages))
    && NoDuplicates(ErrorRowIds(g.errors)) && NoDuplicates(ErrorKeys(g.errors))
    && NoDuplicates(NotificationRowIds(g.notifications)) && NoDuplicates(NotificationIds(g.notifications))
  }

  ghost function GroupIds(g: Group, kind: Kind): set<Text> {
    match kind
    case BatchKind => {g.parent.id}
    case MessageKind => AsSet(MessageRowIds(g.messages))
    case ErrorKind => AsSet(ErrorRowIds(g.errors))
    case NotificationKind => AsSet(NotificationRowIds(g.notifications))
  }

  ghost function GroupKeys(g: Group, kind: Kind): set<Text> {
    match kind
    case BatchKind => {}
    case MessageKind => AsSet(MessageKeys(g.messages))
    case ErrorKind => AsSet(ErrorKeys(g.errors))
    case NotificationKind => AsSet(NotificationIds(g.notifications))
  }

  lemma ParentKeys(k: int, b: BatchRow)
    ensures var p := [Record(k, Batch(b))];
            UniqueRows(p) && forall kind :: Ids(p, kind) == (if kind == BatchKind then {b.id} else {}) && EscrowGroups.Keys(p, kind) == {}
  {
    var r := Record(k, Batch(b));
    assert forall x :: x in [r] <==> x == r;
    assert r in [r];
  }

  lemma GroupParts(k: int, g: Group)
    ensures UniqueRows(GroupRecords(k, g)) <==> UniqueInGroup(g)
    ensures forall kind :: Ids(GroupRecords(k, g), kind) == GroupIds(g, kind)
    ensures forall kind :: EscrowGroups.Keys(GroupRecords(k, g), kind) == GroupKeys(g, kind)
  {
    hide Ids, EscrowGroups.Keys, UniqueRows, NoDuplicates, AsSet;
    var p, m, e, n := [Record(k, Batch(g.parent))], MessageRecords(k, g.messages), ErrorRecords(k, g.errors), NotificationRecords(k, g.notifications);
    ParentKeys(k, g.parent);
    TableKeys(m, MessageKind, MessageRowIds(g.messages), MessageKeys(g.messages));
    TableKeys(e, ErrorKind, ErrorRowIds(g.errors), ErrorKeys(g.errors));
    TableKeys(n, NotificationKind, NotificationRowIds(g.notifications), NotificationIds(g.notifications));
    IdsConcat(p, m);
    IdsConcat(p + m, e);
    IdsConcat(p + m + e, n);
    UniqueConcat(p, m);
    UniqueConcat(p + m, e);
    UniqueConcat(p + m + e, n);
    ApartByKeys(p, m);
    ApartByKeys(p + m, e);
    ApartByKeys(p + m + e, n);
  }

  /** A further group keeps a snapshot unique exactly when it is unique in itself and shares no
      id and no key with the groups before. */
  lemma {:induction false} UniqueWithGroup(groups: seq<Group>, g: Group)
    ensures UniqueRows(Flatten(groups + [g])) <==>
            && UniqueRows(Flatten(groups)) && UniqueInGroup(g)
            && forall kind :: Ids(Flatten(groups), kind) !! GroupIds(g, kind) && EscrowGroups.Keys(Flatten(groups), kind) !! GroupKeys(g, kind)
    ensures forall kind :: Ids(Flatten(groups + [g]), kind) == Ids(Flatten(groups), kind) + GroupIds(g, kind)
    ensures forall kind :: EscrowGroups.Keys(Flatten(groups + [g]), kind) == EscrowGroups.Keys(Flatten(groups), kind) + GroupKeys(g, kind)
  {
    hide Ids, EscrowGroups.Keys, UniqueRows, UniqueInGroup, GroupIds, GroupKeys, Flatten, GroupRecords;
    FlattenSnoc(groups, g);
    GroupParts(|groups|, g);
    UniqueConcat(Flatten(groups), GroupRecords(|groups|, g));
    ApartByKeys(Flatten(groups), GroupRecords(|groups|, g));
    IdsConcat(Flatten(groups), GroupRecords(|groups|, g));
  }

  // ---------- the sets

  /** The loop bodies of `assertSnapshotUniqueKeys` for one table: ids and keys are remembered one
      by one, and a repeated one ends the run. */
  method RememberRows(rowIds: set<Text>, keys: set<Text>, ids: seq<Text>, naturals: seq<Text>)
    returns (ok: bool, rowIds': set<Text>, keys': set<Text>)
    requires |ids| == |naturals| && NoDuplicates(ids) && NoDuplicates(naturals)
    ensures ok <==> rowIds !! AsSet(ids) && keys !! AsSet(naturals)
    ensures ok ==> rowIds' == rowIds + AsSet(ids) && keys' == keys + AsSet(naturals)
  {
    rowIds', keys' := rowIds, keys;
    var i := 0;
    while i < |ids|
      invariant 0 <= i <= |ids|
      invariant rowIds' == rowIds + AsSet(ids[..i]) && keys' == keys + AsSet(naturals[..i])
      invariant rowIds !! AsSet(ids[..i]) && keys !! AsSet(naturals[..i])
    {
      assert ids[..i + 1] == ids[..i] + [ids[i]] && naturals[..i + 1] == naturals[..i] + [naturals[i]];
      assert ids[i] in ids && naturals[i] in naturals;
      if ids[i] in rowIds' { return false, rowIds', keys'; }
      rowIds' := rowIds' + {ids[i]};
      if naturals[i] in keys' { return false, rowIds', keys'; }
      keys' := keys' + {naturals[i]};
      i := i + 1;
    }
    assert ids[..i] == ids && naturals[..i] == naturals;
    ok := true;
  }

  class SnapshotUniqueKeys {
    var messageIds: set<Text>
    var messageRowIds: set<Text>
    var errorMessageIds: set<Text>
    var errorRowIds: set<Text>
    var notificationIds: set<Text>
    var notificationRowIds: set<Text>

    /** The sets hold the ids and keys of these records. */
    ghost predicate Holds(records: seq<Record>)
      reads this
    {
      && messageRowIds == Ids(records, MessageKind) && messageIds == EscrowGroups.Keys(records, MessageKind)
      && errorRowIds == Ids(records, ErrorKind) && errorMessageIds == EscrowGroups.Keys(records, ErrorKind)
      && notificationRowIds == Ids(records, NotificationKind) && notificationIds == EscrowGroups.Keys(records, NotificationKind)
    }

    constructor ()
      ensures Holds([])
    {
      messageIds, messageRowIds, errorMessageIds, errorRowIds, notificationIds, notificationRowIds := {}, {}, {}, {}, {}, {};
    }

    /** `assertSnapshotUniqueKeys`: the next group keeps the snapshot unique, given that its parent
        row is new. */
    method AssertUnique(g: Group, ghost groups: seq<Group>) returns (ok: bool)
      requires Holds(Flatten(groups)) && UniqueRows(Flatten(groups)) && UniqueInGroup(g) && g.parent.id !in Ids(Flatten(groups), BatchKind)
      modifies this
      ensures ok <==> UniqueRows(Flatten(groups + [g]))
      ensures ok ==> Holds(Flatten(groups + [g]))
    {
      hide Ids, EscrowGroups.Keys, UniqueRows, Flatten, AsSet, NoDuplicates;
      UniqueWithGroup(groups, g);
      NoBatchKeys(Flatten(groups));
      ghost var before := Flatten(groups);
      assert forall kind :: Ids(before, kind) !! GroupIds(g, kind) && EscrowGroups.Keys(before, kind) !! GroupKeys(g, kind) <==>
        match kind
        case BatchKind => true
        case MessageKind => messageRowIds !! GroupIds(g, MessageKind) && messageIds !! GroupKeys(g, MessageKind)
        case ErrorKind => errorRowIds !! GroupIds(g, ErrorKind) && errorMessageIds !! GroupKeys(g, ErrorKind)
        case NotificationKind => notificationRowIds !! GroupIds(g, NotificationKind) && notificationIds !! GroupKeys(g, NotificationKind);
      ok, messageRowIds, messageIds := RememberRows(messageRowIds, messageIds, MessageRowIds(g.messages), MessageKeys(g.messages));
      if !ok { return; }
      ok, errorRowIds, errorMessageIds := RememberRows(errorRowIds, errorMessageIds, ErrorRowIds(g.errors), ErrorKeys(g.errors));
      if !ok { return; }
      ok, notificationRowIds, notificationIds :=
        RememberRows(notificationRowIds, notificationIds, NotificationRowIds(g.notifications), NotificationIds(g.notifications));
    }
  }

  lemma NoBatchKeys(records: seq<Record>)
    ensures EscrowGroups.Keys(records, BatchKind) == {}
  {
  }
}
