/** The database tables and what each SQL statement reads from or does to them. */
module Tables {
  import opened Prelude
  import opened Domain

  datatype Membership = Membership(tenant: Uuid, role: Role)
  datatype Category = Category(tenant: Option<Uuid>, active: bool)

  datatype Db = Db(
    users: map<Uuid, string>,
    members: map<Uuid, Membership>,
    categories: map<Uuid, Category>,
    reports: map<Uuid, Report>,
    items: map<Uuid, Item>,
    attachments: map<Uuid, Attachment>)

  const MAX_INT32 := 0x7FFF_FFFF

  /** Go's `int32(x)`: the low 32 bits, read as a signed number. */
  function ToInt32(x: int): int {
    (x + 0x8000_0000) % 0x1_0000_0000 - 0x8000_0000
  }

  /** The conversion is exact for the positive amounts the column can hold, and for no other positive amount. */
  lemma ToInt32Exact(x: int)
    requires x > 0
    ensures ToInt32(x) <= MAX_INT32
    ensures ToInt32(x) == x <==> x <= MAX_INT32
  {
  }

  // ----- Queries -----

  function FindReport(db: Db, t: Uuid, r: Uuid): Result<Report> {
    if r in db.reports && db.reports[r].tenant == t && db.reports[r].deletedAt.None?
    then Ok(db.reports[r]) else Err(ResourceNotFound)
  }

  function FindItem(db: Db, t: Uuid, r: Uuid, i: Uuid): Result<Item> {
    if i in LiveItems(db.items, t, r) then Ok(db.items[i]) else Err(ResourceNotFound)
  }

  function FindAttachment(db: Db, t: Uuid, r: Uuid, i: Uuid, a: Uuid): Result<Attachment> {
    if a in db.attachments && AttachmentOf(db.attachments[a], t, r) && db.attachments[a].item == i
    then Ok(db.attachments[a]) else Err(ResourceNotFound)
  }

  predicate CategoryVisible(db: Db, t: Uuid, c: Uuid) {
    c in db.categories && db.categories[c].active && db.categories[c].tenant in {None, Some(t)}
  }

  predicate HasApprover(db: Db, t: Uuid) {
    exists u :: u in db.members && db.members[u] == Membership(t, Approver)
  }

  /** A live item of report `r`, as every item query selects it. */
  predicate ItemOf(item: Item, t: Uuid, r: Uuid) {
    item.tenant == t && item.report == r && item.deletedAt.None?
  }

  predicate AttachmentOf(a: Attachment, t: Uuid, r: Uuid) {
    a.tenant == t && a.report == r && a.deletedAt.None?
  }

  function LiveItems(items: map<Uuid, Item>, t: Uuid, r: Uuid): map<Uuid, Item> {
    map k | k in items && ItemOf(items[k], t, r) :: items[k]
  }

  function LiveAttachments(atts: map<Uuid, Attachment>, t: Uuid, r: Uuid): map<Uuid, Attachment> {
    map k | k in atts && AttachmentOf(atts[k], t, r) :: atts[k]
  }

  function AmountColumn(items: map<Uuid, Item>): map<Uuid, int> {
    map k | k in items :: items[k].amount
  }

  /** COALESCE(SUM(amount), 0) over the live items of a report. */
  ghost function LiveTotal(items: map<Uuid, Item>, t: Uuid, r: Uuid): int {
    Sum(AmountColumn(LiveItems(items, t, r)))
  }

  /** What one item request does to a report's live items: store one row, new or not, or erase one. */
  datatype ItemChange = Put(id: Uuid, item: Item) | Drop(id: Uuid)

  function Changed(items: map<Uuid, Item>, change: ItemChange): map<Uuid, Item> {
    match change
    case Put(id, item) => items[id := item]
    case Drop(id) => items - {id}
  }

  // ----- Statements that change rows -----

  /** UpdateReportTotalAmount: recompute the stored total; no status, version or deletion guard. */
  ghost function Retotal(db: Db, t: Uuid, r: Uuid, stamp: Time): Result<Db> {
    if r in db.reports && db.reports[r].tenant == t then
      var sum := LiveTotal(db.items, t, r);
      if 0 <= sum <= MAX_INT32 then
        Ok(db.(reports := db.reports[r := db.reports[r].(total := sum, updatedAt := stamp)]))
      else Err(Internal)
    else Ok(db)
  }

  function EraseItem(items: map<Uuid, Item>, t: Uuid, r: Uuid, i: Uuid, stamp: Time): map<Uuid, Item> {
    map k | k in items ::
      if k == i && ItemOf(items[k], t, r) then items[k].(deletedAt := Some(stamp), updatedAt := stamp) else items[k]
  }

  function EraseItems(items: map<Uuid, Item>, t: Uuid, r: Uuid, stamp: Time): map<Uuid, Item> {
    map k | k in items ::
      if ItemOf(items[k], t, r) then items[k].(deletedAt := Some(stamp), updatedAt := stamp) else items[k]
  }

  function EraseAttachment(atts: map<Uuid, Attachment>, t: Uuid, r: Uuid, i: Uuid, a: Uuid,
                           stamp: Time): map<Uuid, Attachment>
  {
    map k | k in atts ::
      if k == a && atts[k].item == i && AttachmentOf(atts[k], t, r) then atts[k].(deletedAt := Some(stamp)) else atts[k]
  }

  function EraseAttachmentsOfItem(atts: map<Uuid, Attachment>, t: Uuid, r: Uuid, i: Uuid,
                                  stamp: Time): map<Uuid, Attachment>
  {
    map k | k in atts ::
      if atts[k].item == i && AttachmentOf(atts[k], t, r) then atts[k].(deletedAt := Some(stamp)) else atts[k]
  }

  function EraseAttachments(atts: map<Uuid, Attachment>, t: Uuid, r: Uuid, stamp: Time): map<Uuid, Attachment> {
    map k | k in atts ::
      if AttachmentOf(atts[k], t, r) then atts[k].(deletedAt := Some(stamp)) else atts[k]
  }
}
