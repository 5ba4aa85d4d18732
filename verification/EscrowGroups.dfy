/** The declarative reading of an escrow's records: groups numbered 0, 1, 2, ..., each a parent
    row followed by its messages, its errors and its notifications. */
module EscrowGroups {
  import opened Utf16
  import opened Options
  import opened EscrowRecords

  datatype Kind = BatchKind | MessageKind | ErrorKind | NotificationKind

  datatype Group = Group(parent: BatchRow, messages: seq<MessageRow>, errors: seq<ErrorRow>, notifications: seq<NotificationRow>)

  function KindOfRow(row: Row): Kind {
    match row
    case Batch(_) => BatchKind
    case Message(_) => MessageKind
    case Failed(_) => ErrorKind
    case Notification(_) => NotificationKind
  }

  function RowId(row: Row): Text {
    match row
    case Batch(r) => r.id
    case Message(r) => r.id
    case Failed(r) => r.id
    case Notification(r) => r.id
  }

  /** The second unique column of a table, where it has one. */
  function NaturalKey(row: Row): Option<Text> {
    match row
    case Batch(_) => None
    case Message(r) => Some(r.messageId)
    case Failed(r) => Some(r.messageId)
    case Notification(r) => Some(r.notificationId)
  }

  // ---------- from groups to records

  function MessageRecords(k: int, rows: seq<MessageRow>): seq<Record> {
    seq(|rows|, i requires 0 <= i < |rows| => Record(k, Message(rows[i])))
  }

  function ErrorRecords(k: int, rows: seq<ErrorRow>): seq<Record> {
    seq(|rows|, i requires 0 <= i < |rows| => Record(k, Failed(rows[i])))
  }

  function NotificationRecords(k: int, rows: seq<NotificationRow>): seq<Record> {
    seq(|rows|, i requires 0 <= i < |rows| => Record(k, Notification(rows[i])))
  }

  function GroupRecords(k: int, g: Group): seq<Record> {
    [Record(k, Batch(g.parent))] + MessageRecords(k, g.messages) + ErrorRecords(k, g.errors) + NotificationRecords(k, g.notifications)
  }

  function Flatten(groups: seq<Group>): seq<Record> {
    if groups == [] then []
    else Flatten(groups[..|groups| - 1]) + GroupRecords(|groups| - 1, groups[|groups| - 1])
  }

  // ---------- when the groups are valid

  ghost predicate Ascending(ids: seq<Text>) { forall i, j :: 0 <= i < j < |ids| ==> Less(ids[i], ids[j]) }

  function MessageRowIds(rows: seq<MessageRow>): (r: seq<Text>) { seq(|rows|, i requires 0 <= i < |rows| => rows[i].id) }

  function ErrorRowIds(rows: seq<ErrorRow>): (r: seq<Text>) { seq(|rows|, i requires 0 <= i < |rows| => rows[i].id) }

  function NotificationRowIds(rows: seq<NotificationRow>): (r: seq<Text>) { seq(|rows|, i requires 0 <= i < |rows| => rows[i].id) }

  function MessageIds(rows: seq<MessageRow>): set<Text> { set r | r in rows :: r.messageId }

  /** Ids ascend per table; messages and errors belong to the parent; notifications refer to
      messages of the group. */
  ghost predicate GroupOk(g: Group, siteId: Text) {
    && g.parent.siteId == siteId
    && Ascending(MessageRowIds(g.messages)) && Ascending(ErrorRowIds(g.errors)) && Ascending(NotificationRowIds(g.notifications))
    && (forall r <- g.messages :: r.newsletterBatchId == g.parent.id)
    && (forall r <- g.errors :: r.newsletterBatchId == g.parent.id)
    && (forall r <- g.notifications :: r.messageId in MessageIds(g.messages))
  }

  /** No two rows of one table share their id or their second unique column. */
  ghost predicate NoClash(a: Row, b: Row) {
    KindOfRow(a) == KindOfRow(b) ==> RowId(a) != RowId(b) && (NaturalKey(a).Some? ==> NaturalKey(a) != NaturalKey(b))
  }

  ghost predicate UniqueRows(records: seq<Record>) {
    forall i, j :: 0 <= i < j < |records| ==> NoClash(records[i].row, records[j].row)
  }

  ghost predicate GroupsOk(groups: seq<Group>, siteId: Text) {
    && (forall k :: 0 <= k < |groups| ==> GroupOk(groups[k], siteId))
    && UniqueRows(Flatten(groups))
  }

  /** What the rules say: ids of a table ascend within a batch, rows belong to their batch, a
      notification has its message, and every batch has the one tenant. */
  lemma {:induction false} GroupsMean(groups: seq<Group>, siteId: Text, k: nat)
    requires k < |groups| && GroupsOk(groups, siteId)
    ensures var g := groups[k];
            && g.parent.siteId == siteId
            && (forall i, j :: 0 <= i < j < |g.messages| ==> Less(g.messages[i].id, g.messages[j].id))
            && (forall i, j :: 0 <= i < j < |g.errors| ==> Less(g.errors[i].id, g.errors[j].id))
            && (forall i, j :: 0 <= i < j < |g.notifications| ==> Less(g.notifications[i].id, g.notifications[j].id))
            && (forall r <- g.messages :: r.newsletterBatchId == g.parent.id) && (forall r <- g.errors :: r.newsletterBatchId == g.parent.id)
            && forall n <- g.notifications :: exists m <- g.messages :: m.messageId == n.messageId
  {
    hide UniqueRows, Less, Flatten;
    var g := groups[k];
    assert GroupOk(g, siteId);
    assert forall i :: 0 <= i < |g.messages| ==> MessageRowIds(g.messages)[i] == g.messages[i].id;
    assert forall i :: 0 <= i < |g.errors| ==> ErrorRowIds(g.errors)[i] == g.errors[i].id;
    assert forall i :: 0 <= i < |g.notifications| ==> NotificationRowIds(g.notifications)[i] == g.notifications[i].id;
  }

  /** No row id twice in a table of the whole file, and no message id, error message id or notification
      id either. */
  lemma {:induction false} RowsDiffer(groups: seq<Group>, siteId: Text, i: nat, j: nat)
    requires i < j < |Flatten(groups)| && GroupsOk(groups, siteId)
    ensures var a, b := Flatten(groups)[i].row, Flatten(groups)[j].row;
            && (a.Batch? && b.Batch? ==> a.batch.id != b.batch.id)
            && (a.Message? && b.Message? ==> a.message.id != b.message.id && a.message.messageId != b.message.messageId)
            && (a.Failed? && b.Failed? ==> a.failure.id != b.failure.id && a.failure.messageId != b.failure.messageId)
            && (a.Notification? && b.Notification? ==>
                  a.notification.id != b.notification.id && a.notification.notificationId != b.notification.notificationId)
  {
    hide Flatten, GroupOk;
    assert NoClash(Flatten(groups)[i].row, Flatten(groups)[j].row);
  }

  // ---------- one record more

  function Last(groups: seq<Group>): Group
    requires groups != []
  {
    groups[|groups| - 1]
  }

  function Init(groups: seq<Group>): seq<Group>
    requires groups != []
  {
    groups[..|groups| - 1]
  }

  /** The groups with `r` put at the end, when `r` may stand there. */
  function Add(groups: seq<Group>, r: Record): Option<seq<Group>> {
    if r.row.Batch? then
      if r.manifestIndex == |groups| then Some(groups + [Group(r.row.batch, [], [], [])]) else None
    else if groups == [] || r.manifestIndex != |groups| - 1 then None
    else
      var g := Last(groups);
      match r.row
      case Message(m) =>
        if g.errors == [] && g.notifications == [] then Some(Init(groups) + [g.(messages := g.messages + [m])]) else None
      case Failed(e) =>
        if g.notifications == [] then Some(Init(groups) + [g.(errors := g.errors + [e])]) else None
      case Notification(n) => Some(Init(groups) + [g.(notifications := g.notifications + [n])])
  }

  lemma {:induction false} FlattenSnoc(groups: seq<Group>, g: Group)
    ensures Flatten(groups + [g]) == Flatten(groups) + GroupRecords(|groups|, g)
  {
    assert (groups + [g])[..|groups|] == groups;
  }

  lemma LastChanges(groups: seq<Group>, r: Record)
    requires Add(groups, r).Some? && !r.row.Batch?
    ensures groups != [] && Add(groups, r).value != []
    ensures groups == Init(groups) + [Last(groups)] && Add(groups, r).value == Init(groups) + [Last(Add(groups, r).value)]
  {
  }

  lemma {:induction false} FlattenAdd(groups: seq<Group>, r: Record)
    requires Add(groups, r).Some?
    ensures Flatten(Add(groups, r).value) == Flatten(groups) + [r]
  {
    hide Flatten, GroupRecords, Add;
    if r.row.Batch? {
      BatchAlone(groups, r);
      FlattenSnoc(groups, Group(r.row.batch, [], [], []));
    } else {
      LastChanges(groups, r);
      assert groups != [] && |Add(groups, r).value| == |groups|;
      var g, g' := Last(groups), Last(Add(groups, r).value);
      var k := |groups| - 1;
      FlattenSnoc(Init(groups), g);
      FlattenSnoc(Init(groups), g');
      GroupRecordsAdd(groups, r);
      RecordsAssoc(Flatten(Init(groups)), GroupRecords(k, g), [r]);
    }
  }

  lemma RecordsAssoc(a: seq<Record>, b: seq<Record>, c: seq<Record>)
    ensures (a + b) + c == a + (b + c)
  {
  }

  lemma BatchAlone(groups: seq<Group>, r: Record)
    requires Add(groups, r).Some? && r.row.Batch?
    ensures Add(groups, r).value == groups + [Group(r.row.batch, [], [], [])]
    ensures GroupRecords(|groups|, Group(r.row.batch, [], [], [])) == [r]
  {
  }

  lemma GroupRecordsAdd(groups: seq<Group>, r: Record)
    requires Add(groups, r).Some? && !r.row.Batch?
    ensures GroupRecords(|groups| - 1, Last(Add(groups, r).value)) == GroupRecords(|groups| - 1, Last(groups)) + [r]
  {
    hide GroupRecords;
    var g, g' := Last(groups), Last(Add(groups, r).value);
    var k := |groups| - 1;
    match r.row {
      case Message(m) => assert MessageRecords(k, g'.messages) == MessageRecords(k, g.messages) + [r];
      case Failed(e) => assert ErrorRecords(k, g'.errors) == ErrorRecords(k, g.errors) + [r];
      case Notification(n) => assert NotificationRecords(k, g'.notifications) == NotificationRecords(k, g.notifications) + [r];
    }
    GroupRecordsGrow(k, g, g', r);
  }

  lemma GroupRecordsGrow(k: int, g: Group, g': Group, r: Record)
    requires g'.parent == g.parent
    requires
      || (MessageRecords(k, g'.messages) == MessageRecords(k, g.messages) + [r] && g'.errors == g.errors == [] && g'.notifications == g.notifications == [])
      || (ErrorRecords(k, g'.errors) == ErrorRecords(k, g.errors) + [r] && g'.messages == g.messages && g'.notifications == g.notifications == [])
      || (NotificationRecords(k, g'.notifications) == NotificationRecords(k, g.notifications) + [r] && g'.messages == g.messages && g'.errors == g.errors)
    ensures GroupRecords(k, g') == GroupRecords(k, g) + [r]
  {
  }

  /** The groups of a record list, found record by record. */
  function GroupsOf(records: seq<Record>): Option<seq<Group>> {
    if records == [] then Some([])
    else
      var groups :- GroupsOf(records[..|records| - 1]);
      Add(groups, records[|records| - 1])
  }

  /** The last record of the groups, and the groups without it. */
  function LastRecord(groups: seq<Group>): Record
    requires groups != []
  {
    var k, g := |groups| - 1, Last(groups);
    if g.notifications != [] then Record(k, Notification(g.notifications[|g.notifications| - 1]))
    else if g.errors != [] then Record(k, Failed(g.errors[|g.errors| - 1]))
    else if g.messages != [] then Record(k, Message(g.messages[|g.messages| - 1]))
    else Record(k, Batch(g.parent))
  }

  function Drop(groups: seq<Group>): seq<Group>
    requires groups != []
  {
    var g := Last(groups);
    if g.notifications != [] then Init(groups) + [g.(notifications := g.notifications[..|g.notifications| - 1])]
    else if g.errors != [] then Init(groups) + [g.(errors := g.errors[..|g.errors| - 1])]
    else if g.messages != [] then Init(groups) + [g.(messages := g.messages[..|g.messages| - 1])]
    else Init(groups)
  }

  lemma AddAfterDrop(groups: seq<Group>)
    requires groups != []
    ensures Add(Drop(groups), LastRecord(groups)) == Some(groups)
  {
    var g := Last(groups);
    assert groups == Init(groups) + [g];
    if g.notifications != [] {
      assert g.notifications[..|g.notifications| - 1] + [g.notifications[|g.notifications| - 1]] == g.notifications;
    } else if g.errors != [] {
      assert g.errors[..|g.errors| - 1] + [g.errors[|g.errors| - 1]] == g.errors;
    } else if g.messages != [] {
      assert g.messages[..|g.messages| - 1] + [g.messages[|g.messages| - 1]] == g.messages;
    }
  }

  lemma {:induction false} GroupsOfFlatten(groups: seq<Group>)
    ensures GroupsOf(Flatten(groups)) == Some(groups)
    decreases |Flatten(groups)|
  {
    if groups != [] {
      var before, r := Drop(groups), LastRecord(groups);
      AddAfterDrop(groups);
      FlattenAdd(before, r);
      GroupsOfFlatten(before);
      assert Flatten(groups)[..|Flatten(groups)| - 1] == Flatten(before);
    }
  }

  lemma FlattenNothing()
    ensures Flatten([]) == []
  {
  }

  lemma {:induction false} FlattenGroupsOf(records: seq<Record>)
    requires GroupsOf(records).Some?
    ensures Flatten(GroupsOf(records).value) == records
  {
    hide Add, Flatten;
    FlattenNothing();
    if records != [] {
      var n := |records| - 1;
      FlattenGroupsOf(records[..n]);
      FlattenAdd(GroupsOf(records[..n]).value, records[n]);
      assert records == records[..n] + [records[n]];
    }
  }

  /** Which of the four tables comes first. */
  predicate ComesBefore(a: Row, b: Row) {
    match a
    case Batch(_) => !b.Batch?
    case Message(_) => !b.Batch?
    case Failed(_) => b.Failed? || b.Notification?
    case Notification(_) => b.Notification?
  }

  lemma GroupInOrder(k: int, g: Group, i: nat, j: nat)
    requires i < j < |GroupRecords(k, g)|
    ensures ComesBefore(GroupRecords(k, g)[i].row, GroupRecords(k, g)[j].row)
    ensures GroupRecords(k, g)[i].manifestIndex == GroupRecords(k, g)[j].manifestIndex == k
  {
  }

  /** The order of the records in a file: by batch, and within a batch the parent, then messages, then
      errors, then notifications. */
  lemma {:induction false} RecordOrder(groups: seq<Group>, i: nat, j: nat)
    requires i < j < |Flatten(groups)|
    ensures var a, b := Flatten(groups)[i], Flatten(groups)[j];
            && 0 <= a.manifestIndex <= b.manifestIndex < |groups| && (a.manifestIndex == b.manifestIndex ==> ComesBefore(a.row, b.row))
  {
    hide GroupRecords, ComesBefore;
    var n := |groups| - 1;
    var front, own := Flatten(groups[..n]), GroupRecords(n, groups[n]);
    if i >= |front| {
      GroupInOrder(n, groups[n], i - |front|, j - |front|);
    } else if j < |front| {
      RecordOrder(groups[..n], i, j);
    } else {
      IndexInRange(groups[..n], i);
      OwnIndex(n, groups[n], j - |front|);
    }
  }

  lemma OwnIndex(k: int, g: Group, i: nat)
    requires i < |GroupRecords(k, g)|
    ensures GroupRecords(k, g)[i].manifestIndex == k
  {
  }

  lemma {:induction false} IndexInRange(groups: seq<Group>, i: nat)
    requires i < |Flatten(groups)|
    ensures 0 <= Flatten(groups)[i].manifestIndex < |groups|
  {
    hide GroupRecords;
    var n := |groups| - 1;
    if i < |Flatten(groups[..n])| { IndexInRange(groups[..n], i); } else { OwnIndex(n, groups[n], i - |Flatten(groups[..n])|); }
  }

  /** A record list has at most one grouping, and GroupsOf finds it. */
  lemma {:induction false} GroupingExact(records: seq<Record>, groups: seq<Group>)
    ensures GroupsOf(records) == Some(groups) <==> Flatten(groups) == records
  {
    GroupsOfFlatten(groups);
    if GroupsOf(records) == Some(groups) { FlattenGroupsOf(records); }
  }

  // ---------- what one record more must satisfy

  ghost function Ids(records: seq<Record>, kind: Kind): set<Text> {
    set r | r in records && KindOfRow(r.row) == kind :: RowId(r.row)
  }

  ghost function Keys(records: seq<Record>, kind: Kind): set<Text> {
    set r | r in records && KindOfRow(r.row) == kind && NaturalKey(r.row).Some? :: NaturalKey(r.row).value
  }

  ghost predicate Fresh(records: seq<Record>, row: Row) {
    && RowId(row) !in Ids(records, KindOfRow(row))
    && (NaturalKey(row).Some? ==> NaturalKey(row).value !in Keys(records, KindOfRow(row)))
  }

  predicate Follows(ids: seq<Text>, id: Text) { ids != [] ==> Less(ids[|ids| - 1], id) }

  /** The conditions on a record beyond its place. */
  ghost predicate Fits(groups: seq<Group>, r: Record, siteId: Text)
    requires Add(groups, r).Some?
  {
    && Fresh(Flatten(groups), r.row)
    && match r.row
       case Batch(b) => b.siteId == siteId
       case Message(m) => Follows(MessageRowIds(Last(groups).messages), m.id) && m.newsletterBatchId == Last(groups).parent.id
       case Failed(e) => Follows(ErrorRowIds(Last(groups).errors), e.id) && e.newsletterBatchId == Last(groups).parent.id
       case Notification(n) => Follows(NotificationRowIds(Last(groups).notifications), n.id) && n.messageId in MessageIds(Last(groups).messages)
  }

  lemma UniqueSnoc(records: seq<Record>, r: Record)
    ensures UniqueRows(records + [r]) <==> UniqueRows(records) && Fresh(records, r.row)
  {
    var all := records + [r];
    if UniqueRows(all) {
      assert forall i :: 0 <= i < |records| ==> all[i] == records[i];
      forall x | x in records
        ensures NoClash(x.row, r.row)
      {
        var i :| 0 <= i < |records| && records[i] == x;
        assert NoClash(all[i].row, all[|records|].row);
      }
    }
    if UniqueRows(records) && Fresh(records, r.row) {
      forall i, j | 0 <= i < j < |all|
        ensures NoClash(all[i].row, all[j].row)
      {
        if j == |records| { assert records[i] in records; }
      }
    }
  }

  lemma AscendingSnoc(ids: seq<Text>, id: Text)
    ensures Ascending(ids + [id]) <==> Ascending(ids) && Follows(ids, id)
  {
    var all, n := ids + [id], |ids|;
    if Ascending(all) && n > 0 { assert Less(all[n - 1], all[n]); }
    assert forall i :: 0 <= i < n ==> ids[i] == all[i];
    if Ascending(ids) && Follows(ids, id) {
      forall i, j | 0 <= i < j <= n
        ensures Less(all[i], all[j])
      {
        assert all[i] == ids[i];
        if j < n {
          assert Less(ids[i], ids[j]);
        } else if i < n - 1 {
          assert Less(ids[i], ids[n - 1]);
          LessTransitive(ids[i], ids[n - 1], id);
        }
      }
    }
  }

  lemma {:induction false} GroupOkAdd(groups: seq<Group>, r: Record, siteId: Text)
    requires Add(groups, r).Some? && !r.row.Batch?
    requires Fresh(Flatten(groups), r.row)
    ensures GroupOk(Last(Add(groups, r).value), siteId) <==> GroupOk(Last(groups), siteId) && Fits(groups, r, siteId)
  {
    var g, g' := Last(groups), Last(Add(groups, r).value);
    match r.row {
      case Message(m) =>
        AscendingSnoc(MessageRowIds(g.messages), m.id);
        assert MessageRowIds(g'.messages) == MessageRowIds(g.messages) + [m.id];
        assert m in g'.messages;
      case Failed(e) =>
        AscendingSnoc(ErrorRowIds(g.errors), e.id);
        assert ErrorRowIds(g'.errors) == ErrorRowIds(g.errors) + [e.id];
        assert e in g'.errors;
      case Notification(n) =>
        AscendingSnoc(NotificationRowIds(g.notifications), n.id);
        assert NotificationRowIds(g'.notifications) == NotificationRowIds(g.notifications) + [n.id];
        assert n in g'.notifications;
    }
  }

  ghost predicate EachOk(groups: seq<Group>, siteId: Text) { forall k :: 0 <= k < |groups| ==> GroupOk(groups[k], siteId) }

  lemma EachOkSnoc(groups: seq<Group>, g: Group, siteId: Text)
    ensures EachOk(groups + [g], siteId) <==> EachOk(groups, siteId) && GroupOk(g, siteId)
  {
    hide GroupOk;
    var all := groups + [g];
    assert forall k :: 0 <= k < |groups| ==> all[k] == groups[k];
    assert all[|groups|] == g;
  }

  lemma EmptyGroupOk(parent: BatchRow, siteId: Text)
    ensures GroupOk(Group(parent, [], [], []), siteId) <==> parent.siteId == siteId
  {
    assert |MessageRowIds([])| == |ErrorRowIds([])| == |NotificationRowIds([])| == 0;
  }

  lemma {:induction false} EachOkAdd(groups: seq<Group>, r: Record, siteId: Text)
    requires Add(groups, r).Some? && Fresh(Flatten(groups), r.row)
    ensures EachOk(Add(groups, r).value, siteId) <==> EachOk(groups, siteId) && Fits(groups, r, siteId)
  {
    hide GroupOk, EachOk, Flatten, Fresh;
    var after := Add(groups, r).value;
    if r.row.Batch? {
      EachOkSnoc(groups, Group(r.row.batch, [], [], []), siteId);
      EmptyGroupOk(r.row.batch, siteId);
    } else {
      LastChanges(groups, r);
      EachOkSnoc(Init(groups), Last(groups), siteId);
      EachOkSnoc(Init(groups), Last(after), siteId);
      GroupOkAdd(groups, r, siteId);
    }
  }

  /** A record more keeps the groups valid exactly when it fits. */
  lemma GroupsOkAdd(groups: seq<Group>, r: Record, siteId: Text)
    requires Add(groups, r).Some?
    ensures GroupsOk(Add(groups, r).value, siteId) <==> GroupsOk(groups, siteId) && Fits(groups, r, siteId)
  {
    hide GroupOk, Flatten, Fresh, UniqueRows, Add;
    FlattenAdd(groups, r);
    UniqueSnoc(Flatten(groups), r);
    if Fresh(Flatten(groups), r.row) { EachOkAdd(groups, r, siteId); }
  }
}
