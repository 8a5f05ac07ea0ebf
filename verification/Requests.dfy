/**
 What one authenticated request does to the tables when its transaction commits, as a function of the
 tables before it. The services in `Services.dfy` are proved against these functions.
 */
module Requests {
  import opened Prelude
  import opened Domain
  import opened Tables

  datatype Request =
    | CreateReport(title: string, periodStart: Date, periodEnd: Date, reference: Option<Uuid>)
    | UpdateReport(report: Uuid, title: string, periodStart: Date, periodEnd: Date, version: Time)
    | DeleteReport(report: Uuid)
    | SubmitReport(report: Uuid, version: Time)
    | CreateItem(report: Uuid, date: Date, amount: int, category: Uuid, description: string)
    | UpdateItem(report: Uuid, item: Uuid, date: Date, amount: int, category: Uuid, description: string, version: Time)
    | DeleteItem(report: Uuid, item: Uuid)
    | UploadAttachment(report: Uuid, item: Uuid, fileName: string, mime: Mime, content: seq<Byte>)
    | DeleteAttachment(report: Uuid, item: Uuid, attachment: Uuid)
    | ApproveReport(report: Uuid, comment: Option<string>, version: Time)
    | RejectReport(report: Uuid, reason: string, version: Time)
    | PayReport(report: Uuid, version: Time)

  datatype Response =
    | ReportRow(id: Uuid, report: Report)
    | ItemRow(id: Uuid, item: Item)
    | AttachmentRow(id: Uuid, attachment: Attachment)
    | NoContent

  /**
   What the world outside the program supplies to one request: the transaction's `now()`, the
   application clock, generated identifiers, and what `http.DetectContentType` says of an upload.
   */
  datatype Env = Env(stamp: Time, clock: Time, newId: Uuid, names: Names, sniffed: Mime)

  /** Identifiers generated for copies of items, listed by the item copied, and the other way round. */
  datatype Names = Names(copy: map<Uuid, Uuid>, original: map<Uuid, Uuid>) {
    predicate Valid() {
      && (forall k :: k in copy ==> copy[k] in original && original[copy[k]] == k)
      && (forall n :: n in original ==> original[n] in copy && copy[original[n]] == n)
    }
  }

  datatype Effect = Effect(db: Db, response: Response)

  const MAX_FILE_SIZE := 5 * 1024 * 1024

  // ----- File type detection -----

  predicate IsJpeg(b: seq<Byte>) { [0xFF, 0xD8, 0xFF] <= b }

  predicate IsPng(b: seq<Byte>) { [0x89, 0x50, 0x4E, 0x47, 0x0D, 0x0A, 0x1A, 0x0A] <= b }

  predicate IsPdf(b: seq<Byte>) { [0x25, 0x50, 0x44, 0x46] <= b }

  predicate AllowedMime(m: Mime) { m in {Jpeg, Png, Pdf} }

  /** The bytes carry the signature of the type. */
  predicate Matches(b: seq<Byte>, m: Mime) {
    match m
    case Jpeg => IsJpeg(b)
    case Png => IsPng(b)
    case Pdf => IsPdf(b)
    case Other(_) => false
  }

  /** `http.DetectContentType` names one of the three types only for bytes with that type's signature. */
  predicate Honest(sniffed: Mime, b: seq<Byte>) {
    AllowedMime(sniffed) ==> Matches(b, sniffed)
  }

  function DetectMime(content: seq<Byte>, sniffed: Mime): Mime {
    if content == [] then Other("")
    else if IsJpeg(content) then Jpeg
    else if IsPng(content) then Png
    else if IsPdf(content) then Pdf
    else sniffed
  }

  // ----- Guards shared by the services -----

  predicate RoleAllows(role: Role, req: Request) {
    match req
    case ApproveReport(_, _, _) => role == Approver
    case RejectReport(_, _, _) => role == Approver
    case PayReport(_, _) => role == Accounting
    case _ => true
  }

  /** Fetch, ownership check, draft check: the opening of every edit of a report's contents. */
  function Editable(db: Db, a: Actor, r: Uuid): Result<Report> {
    var row :- FindReport(db, a.tenant, r);
    if a.user != row.owner then Err(Forbidden)
    else if row.status != Draft then Err(ReportNotEditable)
    else Ok(row)
  }

  // ----- Reports -----

  function NewReport(a: Actor, title: string, start: Date, end: Date, reference: Option<Uuid>, total: int,
                     stamp: Time): Report
  {
    Report(a.tenant, a.user, title, start, end, Draft, total, reference,
           None, None, None, None, None, None, None, None, None, None, stamp, stamp, None)
  }

  function CopyOf(item: Item, t: Uuid, r: Uuid, stamp: Time): Item {
    Item(r, t, item.date, item.amount, item.category, item.description, stamp, stamp, None)
  }

  /** The rows the resubmission loop inserts: one copy of every item in `source`, under its new identifier. */
  function Copies(source: map<Uuid, Item>, names: Names, t: Uuid, r: Uuid, stamp: Time): map<Uuid, Item> {
    map n | n in names.original && names.original[n] in source :: CopyOf(source[names.original[n]], t, r, stamp)
  }

  /** The report a resubmission refers to must be the actor's own and rejected. */
  function CheckReference(db: Db, a: Actor, reference: Option<Uuid>): Result<()> {
    if reference.None? then Ok(())
    else
      var row :- FindReport(db, a.tenant, reference.value);
      if row.owner != a.user then Err(Forbidden)
      else if row.status != Rejected then Err(InvalidPeriod)
      else Ok(())
  }

  ghost function ServeCreateReport(db: Db, a: Actor, title: string, start: Date, end: Date, reference: Option<Uuid>,
                                   env: Env): Result<Effect>
  {
    var _ :- CheckReference(db, a, reference);
    if start > end then Err(Internal)  // CHECK (period_start <= period_end)
    else
      var source := if reference.None? then map[] else LiveItems(db.items, a.tenant, reference.value);
      var row := NewReport(a, title, start, end, reference, Sum(AmountColumn(source)), env.stamp);
      Ok(Effect(db.(reports := db.reports[env.newId := row],
                    items := db.items + Copies(source, env.names, a.tenant, env.newId, env.stamp)),
                ReportRow(env.newId, row)))
  }

  function ServeUpdateReport(db: Db, a: Actor, r: Uuid, title: string, start: Date, end: Date, version: Time,
                             env: Env): Result<Effect>
  {
    var row :- Editable(db, a, r);
    if row.updatedAt != version then Err(Conflict)
    else if start > end then Err(Internal)
    else
      var row' := row.(title := title, periodStart := start, periodEnd := end, updatedAt := env.stamp);
      Ok(Effect(db.(reports := db.reports[r := row']), ReportRow(r, row')))
  }

  function ServeDeleteReport(db: Db, a: Actor, r: Uuid, env: Env): Result<Effect> {
    var row :- FindReport(db, a.tenant, r);
    if a.user != row.owner then Err(Forbidden)
    else if row.status != Draft then Err(ReportNotDeletable)
    else
      Ok(Effect(db.(reports := db.reports[r := row.(deletedAt := Some(env.stamp), updatedAt := env.stamp)],
                    items := EraseItems(db.items, a.tenant, r, env.stamp),
                    attachments := EraseAttachments(db.attachments, a.tenant, r, env.stamp)),
                NoContent))
  }

  /** UpdateReportStatus writes every field of the transition except the recomputed total. */
  function StoreStatus(db: Db, r: Uuid, stored: Report, next: Report, stamp: Time): Effect {
    var row := next.(total := stored.total, updatedAt := stamp);
    Effect(db.(reports := db.reports[r := row]), ReportRow(r, row))
  }

  ghost function ServeSubmitReport(db: Db, a: Actor, r: Uuid, version: Time, env: Env): Result<Effect> {
    var row :- FindReport(db, a.tenant, r);
    if a.user != row.owner then Err(Forbidden)
    else if row.updatedAt != version then Err(Conflict)
    else
      var items := LiveItems(db.items, a.tenant, r);
      var next :- ToSubmitted(row, a.user, |items|, Sum(AmountColumn(items)), HasApprover(db, a.tenant), env.clock);
      Ok(StoreStatus(db, r, row, next, env.stamp))
  }

  function ServeApproveReport(db: Db, a: Actor, r: Uuid, comment: Option<string>, version: Time,
                              env: Env): Result<Effect>
  {
    var row :- FindReport(db, a.tenant, r);
    if a.user == row.owner then Err(SelfApprovalNotAllowed)
    else if row.updatedAt != version then Err(Conflict)
    else
      var next :- ToApproved(row, a.user, comment, env.clock);
      Ok(StoreStatus(db, r, row, next, env.stamp))
  }

  function ServeRejectReport(db: Db, a: Actor, r: Uuid, reason: string, version: Time, env: Env): Result<Effect> {
    var row :- FindReport(db, a.tenant, r);
    if a.user == row.owner then Err(SelfApprovalNotAllowed)
    else if row.updatedAt != version then Err(Conflict)
    else
      var next :- ToRejected(row, a.user, reason, env.clock);
      Ok(StoreStatus(db, r, row, next, env.stamp))
  }

  function ServePayReport(db: Db, a: Actor, r: Uuid, version: Time, env: Env): Result<Effect> {
    var row :- FindReport(db, a.tenant, r);
    if a.user == row.owner then Err(SelfPaymentNotAllowed)
    else if row.updatedAt != version then Err(Conflict)
    else
      var next :- ToPaid(row, a.user, env.clock);
      Ok(StoreStatus(db, r, row, next, env.stamp))
  }

  // ----- Items -----

  /** Store an item row and recompute the report total: the common end of item creation and update. */
  ghost function StoreItem(db: Db, t: Uuid, i: Uuid, item: Item, stamp: Time): Result<Effect> {
    if item.amount <= 0 then Err(Internal)  // CHECK (amount > 0), after the int32 conversion
    else
      var db' :- Retotal(db.(items := db.items[i := item]), t, item.report, stamp);
      Ok(Effect(db', ItemRow(i, item)))
  }

  ghost function ServeCreateItem(db: Db, a: Actor, r: Uuid, date: Date, amount: int, category: Uuid,
                                 description: string, env: Env): Result<Effect>
  {
    var _ :- Editable(db, a, r);
    if amount <= 0 then Err(InvalidAmount)
    else if !CategoryVisible(db, a.tenant, category) then Err(ResourceNotFound)
    else
      StoreItem(db, a.tenant, env.newId,
                Item(r, a.tenant, date, ToInt32(amount), category, description, env.stamp, env.stamp, None), env.stamp)
  }

  ghost function ServeUpdateItem(db: Db, a: Actor, r: Uuid, i: Uuid, date: Date, amount: int, category: Uuid,
                                 description: string,
                                 version: Time, env: Env): Result<Effect> {
    var _ :- Editable(db, a, r);
    var item :- FindItem(db, a.tenant, r, i);
    if amount <= 0 then Err(InvalidAmount)
    else if !CategoryVisible(db, a.tenant, category) then Err(ResourceNotFound)
    else if item.updatedAt != version then Err(Conflict)
    else
      StoreItem(db, a.tenant, i,
                item.(date := date, amount := ToInt32(amount), category := category, description := description,
                      updatedAt := env.stamp), env.stamp)
  }

  ghost function ServeDeleteItem(db: Db, a: Actor, r: Uuid, i: Uuid, env: Env): Result<Effect> {
    var _ :- Editable(db, a, r);
    var _ :- FindItem(db, a.tenant, r, i);
    var db' :- Retotal(db.(items := EraseItem(db.items, a.tenant, r, i, env.stamp),
                           attachments := EraseAttachmentsOfItem(db.attachments, a.tenant, r, i, env.stamp)),
                       a.tenant, r, env.stamp);
    Ok(Effect(db', NoContent))
  }

  // ----- Attachments -----

  /** Everything checked before the file is sent to storage; the key it is stored under. */
  function CheckUpload(db: Db, a: Actor, r: Uuid, i: Uuid, mime: Mime, content: seq<Byte>, env: Env): Result<Key> {
    var _ :- Editable(db, a, r);
    var _ :- FindItem(db, a.tenant, r, i);
    if |content| > MAX_FILE_SIZE then Err(FileTooLarge)
    else if !AllowedMime(mime) then Err(InvalidFileType)
    else if DetectMime(content, env.sniffed) != mime then Err(InvalidFileType)
    else Ok(Key(a.tenant, r, env.newId))
  }

  function ServeUploadAttachment(db: Db, a: Actor, r: Uuid, i: Uuid, fileName: string, mime: Mime, content: seq<Byte>,
                                 env: Env): Result<Effect>
  {
    var key :- CheckUpload(db, a, r, i, mime, content, env);
    var row := Attachment(i, r, a.tenant, fileName, |content|, mime, key, env.stamp, None);
    Ok(Effect(db.(attachments := db.attachments[env.newId := row]), AttachmentRow(env.newId, row)))
  }

  function ServeDeleteAttachment(db: Db, a: Actor, r: Uuid, i: Uuid, att: Uuid, env: Env): Result<Effect> {
    var _ :- Editable(db, a, r);
    var _ :- FindAttachment(db, a.tenant, r, i, att);
    Ok(Effect(db.(attachments := EraseAttachment(db.attachments, a.tenant, r, i, att, env.stamp)), NoContent))
  }

  // ----- Dispatch -----

  /** Generated identifiers were never used before and differ from each other. */
  predicate Fresh(db: Db, env: Env) {
    && env.newId !in db.reports && env.newId !in db.items && env.newId !in db.attachments
    && env.names.Valid() && db.items.Keys <= env.names.copy.Keys
    && (forall n :: n in env.names.original ==> n !in db.items)
  }

  ghost function Serve(db: Db, a: Actor, req: Request, env: Env): Result<Effect>
  {
    if !RoleAllows(a.role, req) then Err(Forbidden)
    else
      match req
      case CreateReport(title, start, end, reference) => ServeCreateReport(db, a, title, start, end, reference, env)
      case UpdateReport(r, title, start, end, version) => ServeUpdateReport(db, a, r, title, start, end, version, env)
      case DeleteReport(r) => ServeDeleteReport(db, a, r, env)
      case SubmitReport(r, version) => ServeSubmitReport(db, a, r, version, env)
      case CreateItem(r, date, amount, category, description) =>
        ServeCreateItem(db, a, r, date, amount, category, description, env)
      case UpdateItem(r, i, date, amount, category, description, version) =>
        ServeUpdateItem(db, a, r, i, date, amount, category, description, version, env)
      case DeleteItem(r, i) => ServeDeleteItem(db, a, r, i, env)
      case UploadAttachment(r, i, fileName, mime, content) =>
        ServeUploadAttachment(db, a, r, i, fileName, mime, content, env)
      case DeleteAttachment(r, i, att) => ServeDeleteAttachment(db, a, r, i, att, env)
      case ApproveReport(r, comment, version) => ServeApproveReport(db, a, r, comment, version, env)
      case RejectReport(r, reason, version) => ServeRejectReport(db, a, r, reason, version, env)
      case PayReport(r, version) => ServePayReport(db, a, r, version, env)
  }

  /** The object an upload leaves in storage, whether or not its row is then committed. */
  function StoredObject(db: Db, a: Actor, req: Request, env: Env): map<Key, seq<Byte>> {
    match req
    case UploadAttachment(r, i, _, mime, content) =>
      var key := CheckUpload(db, a, r, i, mime, content, env);
      if key.Ok? then map[key.value := content] else map[]
    case _ => map[]
  }
}
