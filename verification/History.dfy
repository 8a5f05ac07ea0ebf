/**
 Where every stored value comes from: in every state of every run a row holds what committed requests
 entered, the last one counting.
 */
module History {
  import opened Prelude
  import opened Domain
  import opened Tables
  import opened Requests
  import opened Invariant
  import opened Runs

  /** A run with the event of each step. */
  ghost predicate IsHistory(ws: seq<World>, es: seq<Event>) {
    && |ws| == |es| + 1 && Init(ws[0])
    && forall i: nat :: i < |es| ==> StepAt(ws, es, i)
  }

  ghost predicate StepAt(ws: seq<World>, es: seq<Event>, i: nat)
    requires |ws| == |es| + 1 && i < |es|
  {
    Step(ws[i], es[i], ws[i + 1])
  }

  lemma HistoryIsRun(ws: seq<World>, es: seq<Event>)
    requires IsHistory(ws, es)
    ensures IsRun(ws)
  {
    forall i: nat | i + 1 < |ws| ensures StepsAt(ws, i) {
      assert StepAt(ws, es, i);
    }
  }

  predicate Committed(e: Event) {
    e.Handled? && e.committed
  }

  // ----- The rows a request leaves -----

  predicate OnContents(req: Request) {
    req.CreateItem? || req.UpdateItem? || req.DeleteItem? || req.UploadAttachment? || req.DeleteAttachment?
  }

  predicate IsDecision(req: Request) {
    req.SubmitReport? || req.ApproveReport? || req.RejectReport? || req.PayReport?
  }

  predicate SameEntries(row: Report, row': Report) {
    row' == row.(total := row'.total, updatedAt := row'.updatedAt)
  }

  /** Requests on items and attachments recompute totals and move versions, no more. */
  lemma ContentsKeepRows(db: Db, a: Actor, req: Request, env: Env)
    requires OnContents(req) && Serve(db, a, req, env).Ok?
    ensures var reports := Serve(db, a, req, env).value.db.reports;
            && reports.Keys == db.reports.Keys
            && forall r :: r in reports ==> SameEntries(db.reports[r], reports[r])
  {
    match req
    case CreateItem(_, _, _, _, _) =>
    case UpdateItem(_, _, _, _, _, _, _) =>
    case DeleteItem(_, _) =>
    case UploadAttachment(_, _, _, _, _) =>
    case DeleteAttachment(_, _, _) =>
  }

  predicate OnlyRow(reports: map<Uuid, Report>, reports': map<Uuid, Report>, r: Uuid) {
    reports'.Keys == reports.Keys + {r} && forall q :: q in reports && q != r ==> reports'[q] == reports[q]
  }

  /** A decision changes the decision fields of one row. */
  lemma DecisionMovesRow(db: Db, a: Actor, req: Request, env: Env)
    requires IsDecision(req) && Serve(db, a, req, env).Ok?
    ensures var db' := Serve(db, a, req, env).value.db;
            && req.report in db.reports && OnlyRow(db.reports, db'.reports, req.report)
            && db'.items == db.items && db'.attachments == db.attachments
            && var row, row' := db.reports[req.report], db'.reports[req.report];
               && DiffersInDecision(row, row'.(updatedAt := row.updatedAt))
               && Edge(row.status, row'.status)
               && DecisionEntered(row, row', a, req, env)
  {
    match req
    case SubmitReport(_, _) =>
    case ApproveReport(_, _, _) =>
    case RejectReport(_, _, _) =>
    case PayReport(_, _) =>
  }

  /** The marks the request leaves, beside those that were there. */
  predicate DecisionEntered(row: Report, row': Report, a: Actor, req: Request, env: Env) {
    && (if req.SubmitReport? then
          row'.status == Submitted && row'.submittedBy == Some(a.user) && row'.submittedAt == Some(env.clock)
        else row'.submittedBy == row.submittedBy && row'.submittedAt == row.submittedAt)
    && (if req.ApproveReport? then
          && row'.status == Approved && row'.approvedBy == Some(a.user) && row'.approvedAt == Some(env.clock)
          && row'.approvalComment == req.comment
        else
          && row'.approvedBy == row.approvedBy && row'.approvedAt == row.approvedAt
          && row'.approvalComment == row.approvalComment)
    && (if req.RejectReport? then
          && row'.status == Rejected && row'.rejectedBy == Some(a.user) && row'.rejectedAt == Some(env.clock)
          && row'.rejectionReason == Some(req.reason)
        else
          && row'.rejectedBy == row.rejectedBy && row'.rejectedAt == row.rejectedAt
          && row'.rejectionReason == row.rejectionReason)
    && (if req.PayReport? then
          row'.status == Paid && row'.paidBy == Some(a.user) && row'.paidAt == Some(env.clock)
        else row'.paidBy == row.paidBy && row'.paidAt == row.paidAt)
  }

  /** What requests on a draft itself leave of its row. */
  predicate DraftRowEntered(reports: map<Uuid, Report>, reports': map<Uuid, Report>, a: Actor, req: Request, env: Env) {
    var r := if req.CreateReport? then env.newId else if req.UpdateReport? || req.DeleteReport? then req.report else 0;
    && r in reports' && OnlyRow(reports, reports', r)
    && (req.CreateReport? ==>
          && r !in reports
          && reports'[r] == Report(a.tenant, a.user, req.title, req.periodStart, req.periodEnd, Draft,
                                   reports'[r].total, req.reference, None, None, None, None, None,
                                   None, None, None, None, None, env.stamp, env.stamp, None))
    && (req.UpdateReport? ==>
          && r in reports
          && reports'[r] == reports[r].(title := req.title, periodStart := req.periodStart,
                                        periodEnd := req.periodEnd, updatedAt := env.stamp))
    && (req.DeleteReport? ==>
          && r in reports && reports[r].deletedAt == None
          && reports'[r] == reports[r].(deletedAt := Some(env.stamp), updatedAt := env.stamp))
  }

  lemma DraftRowAfter(db: Db, a: Actor, req: Request, env: Env)
    requires (req.CreateReport? || req.UpdateReport? || req.DeleteReport?) && Serve(db, a, req, env).Ok?
    requires Fresh(db, env)
    ensures DraftRowEntered(db.reports, Serve(db, a, req, env).value.db.reports, a, req, env)
  {
    match req
    case CreateReport(_, _, _, _) =>
    case UpdateReport(_, _, _, _, _) =>
    case DeleteReport(_) =>
  }

  /** What any event leaves of the report rows. */
  predicate RowsEntered(reports: map<Uuid, Report>, e: Event, reports': map<Uuid, Report>) {
    if !Committed(e) then reports' == reports
    else if OnContents(e.req) then
      reports'.Keys == reports.Keys && forall r :: r in reports' ==> SameEntries(reports[r], reports'[r])
    else if IsDecision(e.req) then
      && e.req.report in reports && OnlyRow(reports, reports', e.req.report)
      && DiffersInDecision(reports[e.req.report],
                           reports'[e.req.report].(updatedAt := reports[e.req.report].updatedAt))
      && Edge(reports[e.req.report].status, reports'[e.req.report].status)
      && DecisionEntered(reports[e.req.report], reports'[e.req.report], e.actor, e.req, e.env)
    else DraftRowEntered(reports, reports', e.actor, e.req, e.env)
  }

  lemma RowsAfter(w: World, e: Event, w': World)
    requires Step(w, e, w')
    ensures RowsEntered(w.db.reports, e, w'.db.reports)
  {
    if Committed(e) {
      if OnContents(e.req) {
        ContentsKeepRows(w.db, e.actor, e.req, e.env);
      } else if IsDecision(e.req) {
        DecisionMovesRow(w.db, e.actor, e.req, e.env);
      } else {
        DraftRowAfter(w.db, e.actor, e.req, e.env);
      }
    }
  }

  // ----- Title and period -----

  predicate Creates(e: Event, r: Uuid) {
    Committed(e) && e.req.CreateReport? && e.env.newId == r
  }

  /** The request says what the report's title and period are to be. */
  predicate EntersTerms(e: Event, r: Uuid) {
    Creates(e, r) || (Committed(e) && e.req.UpdateReport? && e.req.report == r)
  }

  predicate SameTerms(row: Report, row': Report) {
    row'.title == row.title && row'.periodStart == row.periodStart && row'.periodEnd == row.periodEnd
  }

  predicate TermsEntered(row: Report, e: Event)
    requires e.Handled? && (e.req.CreateReport? || e.req.UpdateReport?)
  {
    row.title == e.req.title && row.periodStart == e.req.periodStart && row.periodEnd == e.req.periodEnd
  }

  predicate OriginEntered(row: Report, e: Event)
    requires e.Handled? && e.req.CreateReport?
  {
    && row.owner == e.actor.user && row.tenant == e.actor.tenant && row.reference == e.req.reference
    && row.createdAt == e.env.stamp
  }

  /** What one event does to a report's origin and terms. */
  predicate ReportStepped(w: World, e: Event, w': World, r: Uuid) {
    && (r in w'.db.reports <==> r in w.db.reports || Creates(e, r))
    && (Creates(e, r) ==> r !in w.db.reports && OriginEntered(w'.db.reports[r], e))
    && (EntersTerms(e, r) ==> r in w'.db.reports && TermsEntered(w'.db.reports[r], e))
    && (r in w.db.reports ==>
          var row, row' := w.db.reports[r], w'.db.reports[r];
          && (!EntersTerms(e, r) ==> SameTerms(row, row'))
          && row'.owner == row.owner && row'.tenant == row.tenant && row'.reference == row.reference
          && row'.createdAt == row.createdAt)
  }

  lemma ReportEntered(w: World, e: Event, w': World, r: Uuid)
    requires RowsEntered(w.db.reports, e, w'.db.reports)
    ensures ReportStepped(w, e, w', r)
  {
  }

  lemma ReportStep(w: World, e: Event, w': World, r: Uuid)
    requires Step(w, e, w')
    ensures ReportStepped(w, e, w', r)
  {
    RowsAfter(w, e, w');
    ReportEntered(w, e, w', r);
  }

  lemma ReportStepAt(ws: seq<World>, es: seq<Event>, j: nat, r: Uuid)
    requires IsHistory(ws, es) && j < |es|
    ensures ReportStepped(ws[j], es[j], ws[j + 1], r)
  {
    assert StepAt(ws, es, j);
    ReportStep(ws[j], es[j], ws[j + 1], r);
  }

  /** Every report was created by a request, and shows who made it and when. */
  lemma {:induction false} ReportsAreCreated(ws: seq<World>, es: seq<Event>, j: nat, r: Uuid)
    requires IsHistory(ws, es) && j < |ws|
    ensures r in ws[j].db.reports <==> exists i :: 0 <= i < j && Creates(es[i], r)
    ensures forall i :: 0 <= i < j && Creates(es[i], r) ==> OriginEntered(ws[j].db.reports[r], es[i])
  {
    if j > 0 {
      ReportsAreCreated(ws, es, j - 1, r);
      ReportStepAt(ws, es, j - 1, r);
    }
  }

  /** A report shows the title and period entered last. */
  lemma {:induction false} TermsAreEntered(ws: seq<World>, es: seq<Event>, i: nat, j: nat, r: Uuid)
    requires IsHistory(ws, es) && i < j < |ws|
    requires EntersTerms(es[i], r) && forall k :: i < k < j ==> !EntersTerms(es[k], r)
    ensures r in ws[j].db.reports && TermsEntered(ws[j].db.reports[r], es[i])
  {
    ReportStepAt(ws, es, j - 1, r);
    if i < j - 1 {
      TermsAreEntered(ws, es, i, j - 1, r);
    }
  }

  // ----- Decisions -----

  /** The request moves the report into the status. */
  predicate Decides(e: Event, r: Uuid, s: Status) {
    && Committed(e)
    && match s
       case Draft => false
       case Submitted => e.req.SubmitReport? && e.req.report == r
       case Approved => e.req.ApproveReport? && e.req.report == r
       case Rejected => e.req.RejectReport? && e.req.report == r
       case Paid => e.req.PayReport? && e.req.report == r
  }

  /** Who decided, when, and in what words. */
  datatype Signature = Signature(who: Option<Uuid>, time: Option<Time>, words: Option<string>)

  function SignatureIn(row: Report, s: Status): Signature {
    match s
    case Draft => Signature(None, None, None)
    case Submitted => Signature(row.submittedBy, row.submittedAt, None)
    case Approved => Signature(row.approvedBy, row.approvedAt, row.approvalComment)
    case Rejected => Signature(row.rejectedBy, row.rejectedAt, row.rejectionReason)
    case Paid => Signature(row.paidBy, row.paidAt, None)
  }

  function SignatureOf(e: Event): Signature
    requires e.Handled?
  {
    Signature(Some(e.actor.user), Some(e.env.clock),
              if e.req.ApproveReport? then e.req.comment
              else if e.req.RejectReport? then Some(e.req.reason)
              else None)
  }

  /** What one event does to the marks of a decision. */
  predicate DecisionStepped(w: World, e: Event, w': World, r: Uuid, s: Status) {
    && (Decides(e, r, s) ==>
          && r in w.db.reports && r in w'.db.reports && Edge(w.db.reports[r].status, s)
          && w'.db.reports[r].status == s && SignatureIn(w'.db.reports[r], s) == SignatureOf(e))
    && (r in w.db.reports && !Decides(e, r, s) ==>
          r in w'.db.reports && SignatureIn(w'.db.reports[r], s) == SignatureIn(w.db.reports[r], s))
    && (r !in w.db.reports && r in w'.db.reports ==>
          SignatureIn(w'.db.reports[r], s) == Signature(None, None, None))
  }

  lemma DecisionMarked(w: World, e: Event, w': World, r: Uuid, s: Status)
    requires RowsEntered(w.db.reports, e, w'.db.reports)
    ensures DecisionStepped(w, e, w', r, s)
  {
  }

  lemma DecisionStep(w: World, e: Event, w': World, r: Uuid, s: Status)
    requires Step(w, e, w')
    ensures DecisionStepped(w, e, w', r, s)
  {
    RowsAfter(w, e, w');
    DecisionMarked(w, e, w', r, s);
  }

  lemma DecisionStepAt(ws: seq<World>, es: seq<Event>, j: nat, r: Uuid, s: Status)
    requires IsHistory(ws, es) && j < |es|
    ensures DecisionStepped(ws[j], es[j], ws[j + 1], r, s)
  {
    assert StepAt(ws, es, j);
    DecisionStep(ws[j], es[j], ws[j + 1], r, s);
  }

  lemma FieldsMatchAt(ws: seq<World>, es: seq<Event>, j: nat, r: Uuid)
    requires IsHistory(ws, es) && j < |ws|
    ensures r in ws[j].db.reports ==> FieldsMatchStatus(ws[j].db.reports[r])
  {
    HistoryIsRun(ws, es);
    Reachable(ws, j);
    if r in ws[j].db.reports {
      assert ReportOk(ws[j].db, r);
    }
  }

  /** A report that bears the marks of a decision cannot get there again. */
  lemma DecidedOnce(row: Report, s: Status)
    requires FieldsMatchStatus(row) && s != Draft && SignatureIn(row, s).who.Some?
    ensures !Edge(row.status, s)
  {
  }

  /**
   A report bears the marks of a decision exactly if a request made it, and for good they are that request's:
   its actor, its time and its words.
   */
  lemma {:induction false} DecisionsAreEntered(ws: seq<World>, es: seq<Event>, j: nat, r: Uuid, s: Status)
    requires IsHistory(ws, es) && j < |ws| && s != Draft
    ensures forall i :: 0 <= i < j && Decides(es[i], r, s) ==>
              r in ws[j].db.reports && SignatureIn(ws[j].db.reports[r], s) == SignatureOf(es[i])
    ensures r in ws[j].db.reports && SignatureIn(ws[j].db.reports[r], s) != Signature(None, None, None) ==>
              exists i :: 0 <= i < j && Decides(es[i], r, s)
  {
    if j > 0 {
      DecisionsAreEntered(ws, es, j - 1, r, s);
      DecisionStepAt(ws, es, j - 1, r, s);
      FieldsMatchAt(ws, es, j - 1, r);
      if r in ws[j - 1].db.reports && SignatureIn(ws[j - 1].db.reports[r], s).who.Some? {
        DecidedOnce(ws[j - 1].db.reports[r], s);
      }
    }
  }

  // ----- Items -----

  /** In state w the request copies a live item of the report it resubmits to the new item k. */
  predicate CopiesItem(w: World, e: Event, k: Uuid) {
    && Committed(e) && e.req.CreateReport? && e.req.reference.Some? && k in e.env.names.original
    && var o := e.env.names.original[k];
       && o in w.db.items && w.db.items[o].report == e.req.reference.value
       && w.db.items[o].tenant == e.actor.tenant && w.db.items[o].deletedAt == None
  }

  /** The request says what the item is to hold. */
  predicate EntersItem(w: World, e: Event, k: Uuid) {
    || (Committed(e) && e.req.CreateItem? && e.env.newId == k)
    || (Committed(e) && e.req.UpdateItem? && e.req.item == k)
    || CopiesItem(w, e, k)
  }

  predicate SameEntry(item: Item, item': Item) {
    && item'.date == item.date && item'.amount == item.amount && item'.category == item.category
    && item'.description == item.description
  }

  /** The item holds what the request said, or what the copied item held. */
  predicate ItemEntered(w: World, e: Event, k: Uuid, item: Item) {
    && e.Handled?
    && (e.req.CreateItem? || e.req.UpdateItem? ==>
          && item.date == e.req.date && item.category == e.req.category && item.description == e.req.description
          && (e.req.amount <= 0x7FFF_FFFF ==> item.amount == e.req.amount)
          && item.report == e.req.report && item.tenant == e.actor.tenant)
    && (CopiesItem(w, e, k) ==>
          && SameEntry(w.db.items[e.env.names.original[k]], item)
          && item.report == e.env.newId && item.tenant == e.actor.tenant)
  }

  predicate SameRow(item: Item, item': Item) {
    item' == item.(updatedAt := item'.updatedAt, deletedAt := item'.deletedAt)
  }

  /** The request stores one row: a new one, or one that was there. */
  lemma StoredItemRow(db: Db, a: Actor, req: Request, env: Env)
    requires (req.CreateItem? || req.UpdateItem?) && Serve(db, a, req, env).Ok?
    ensures var items, k := Serve(db, a, req, env).value.db.items, if req.CreateItem? then env.newId else req.item;
            && k in items && items == db.items[k := items[k]]
            && (req.UpdateItem? ==> FindItem(db, a.tenant, req.report, k).Ok?)
            && items[k].date == req.date && items[k].category == req.category
            && items[k].description == req.description && items[k].amount == ToInt32(req.amount) && req.amount > 0
            && items[k].report == req.report && items[k].tenant == a.tenant && items[k].deletedAt == None
  {
    match req
    case CreateItem(_, _, _, _, _) =>
    case UpdateItem(_, _, _, _, _, _, _) =>
  }

  /** The other requests erase item rows or leave them alone, but for the copies of a resubmission. */
  lemma KeptItemRows(db: Db, a: Actor, req: Request, env: Env)
    requires !req.CreateItem? && !req.UpdateItem? && !req.CreateReport? && Serve(db, a, req, env).Ok?
    ensures var items := Serve(db, a, req, env).value.db.items;
            items.Keys == db.items.Keys && forall k :: k in items ==> SameRow(db.items[k], items[k])
  {
    if IsDecision(req) {
      DecisionMovesRow(db, a, req, env);
    } else {
      match req
      case UpdateReport(_, _, _, _, _) =>
      case DeleteReport(_) =>
      case DeleteItem(_, _) =>
      case UploadAttachment(_, _, _, _, _) =>
      case DeleteAttachment(_, _, _) =>
    }
  }

  lemma CopiedItemRows(db: Db, a: Actor, req: Request, env: Env, k: Uuid)
    requires req.CreateReport? && Serve(db, a, req, env).Ok? && Fresh(db, env)
    ensures var items := Serve(db, a, req, env).value.db.items;
            && (k in db.items ==> k in items && items[k] == db.items[k])
            && (k !in db.items && k in items ==>
                  && req.reference.Some? && k in env.names.original
                  && env.names.original[k] in LiveItems(db.items, a.tenant, req.reference.value))
            && (req.reference.Some? && k in env.names.original
                && env.names.original[k] in LiveItems(db.items, a.tenant, req.reference.value) ==>
                  && k !in db.items && k in items
                  && items[k] == CopyOf(db.items[env.names.original[k]], a.tenant, env.newId, env.stamp))
  {
  }

  /** What one event does to what an item holds. */
  predicate ItemStepped(w: World, e: Event, w': World, k: Uuid) {
    && (k in w'.db.items <==> k in w.db.items || EntersItem(w, e, k))
    && (EntersItem(w, e, k) ==> k in w'.db.items && ItemEntered(w, e, k, w'.db.items[k]))
    && (k in w.db.items ==>
          && w'.db.items[k].report == w.db.items[k].report && w'.db.items[k].tenant == w.db.items[k].tenant
          && (!EntersItem(w, e, k) ==> SameEntry(w.db.items[k], w'.db.items[k])))
  }

  lemma ItemStep(w: World, e: Event, w': World, k: Uuid)
    requires Step(w, e, w')
    ensures ItemStepped(w, e, w', k)
  {
    if Committed(e) {
      if e.req.CreateReport? {
        CopiedItemRows(w.db, e.actor, e.req, e.env, k);
      } else if e.req.CreateItem? || e.req.UpdateItem? {
        StoredItemRow(w.db, e.actor, e.req, e.env);
        ToInt32Exact(e.req.amount);
      } else {
        KeptItemRows(w.db, e.actor, e.req, e.env);
      }
    }
  }

  lemma ItemStepAt(ws: seq<World>, es: seq<Event>, j: nat, k: Uuid)
    requires IsHistory(ws, es) && j < |es|
    ensures ItemStepped(ws[j], es[j], ws[j + 1], k)
  {
    assert StepAt(ws, es, j);
    ItemStep(ws[j], es[j], ws[j + 1], k);
  }

  /** Every item was entered by a request. */
  lemma {:induction false} ItemsAreCreated(ws: seq<World>, es: seq<Event>, j: nat, k: Uuid)
    requires IsHistory(ws, es) && j < |ws|
    ensures k in ws[j].db.items <==> exists i :: 0 <= i < j && EntersItem(ws[i], es[i], k)
  {
    if j > 0 {
      ItemsAreCreated(ws, es, j - 1, k);
      ItemStepAt(ws, es, j - 1, k);
    }
  }

  /** An item holds what the last request that entered it said. */
  lemma {:induction false} ItemsAreEntered(ws: seq<World>, es: seq<Event>, i: nat, j: nat, k: Uuid)
    requires IsHistory(ws, es) && i < j < |ws|
    requires EntersItem(ws[i], es[i], k) && forall m :: i < m < j ==> !EntersItem(ws[m], es[m], k)
    ensures k in ws[j].db.items && ItemEntered(ws[i], es[i], k, ws[j].db.items[k])
  {
    ItemStepAt(ws, es, j - 1, k);
    if i < j - 1 {
      ItemsAreEntered(ws, es, i, j - 1, k);
    }
  }

  // ----- Attachments -----

  predicate Uploads(e: Event, k: Uuid) {
    Committed(e) && e.req.UploadAttachment? && e.env.newId == k
  }

  predicate FileEntered(e: Event, att: Attachment)
    requires e.Handled? && e.req.UploadAttachment?
  {
    && att.item == e.req.item && att.report == e.req.report && att.tenant == e.actor.tenant
    && att.fileName == e.req.fileName && att.mime == e.req.mime && att.fileSize == |e.req.content|
    && att.createdAt == e.env.stamp
  }

  lemma NewFileRow(db: Db, a: Actor, req: Request, env: Env)
    requires req.UploadAttachment? && Serve(db, a, req, env).Ok?
    ensures var files, k := Serve(db, a, req, env).value.db.attachments, env.newId;
            && k in files && files == db.attachments[k := files[k]]
            && files[k].item == req.item && files[k].report == req.report && files[k].tenant == a.tenant
            && files[k].fileName == req.fileName && files[k].mime == req.mime && files[k].fileSize == |req.content|
            && files[k].createdAt == env.stamp && files[k].deletedAt == None
            && FindItem(db, a.tenant, req.report, req.item).Ok?
  {
  }

  lemma KeptFileRows(db: Db, a: Actor, req: Request, env: Env)
    requires !req.UploadAttachment? && Serve(db, a, req, env).Ok?
    ensures var files := Serve(db, a, req, env).value.db.attachments;
            && files.Keys == db.attachments.Keys
            && forall k :: k in files ==> files[k] == db.attachments[k].(deletedAt := files[k].deletedAt)
  {
    if req.DeleteReport? || req.DeleteItem? || req.DeleteAttachment? {
      match req
      case DeleteReport(_) =>
      case DeleteItem(_, _) =>
      case DeleteAttachment(_, _, _) =>
    } else {
      NoAttachmentTouched(db, a, req, env);
    }
  }

  /** What one event does to an attachment row. */
  predicate FileStepped(w: World, e: Event, w': World, k: Uuid) {
    && (k in w'.db.attachments <==> k in w.db.attachments || Uploads(e, k))
    && (Uploads(e, k) ==> k !in w.db.attachments && FileEntered(e, w'.db.attachments[k]))
    && (k in w.db.attachments ==>
          w'.db.attachments[k] == w.db.attachments[k].(deletedAt := w'.db.attachments[k].deletedAt))
  }

  lemma FileStep(w: World, e: Event, w': World, k: Uuid)
    requires Step(w, e, w')
    ensures FileStepped(w, e, w', k)
  {
    if Committed(e) {
      if e.req.UploadAttachment? {
        NewFileRow(w.db, e.actor, e.req, e.env);
      } else {
        KeptFileRows(w.db, e.actor, e.req, e.env);
      }
    }
  }

  lemma FileStepAt(ws: seq<World>, es: seq<Event>, j: nat, k: Uuid)
    requires IsHistory(ws, es) && j < |es|
    ensures FileStepped(ws[j], es[j], ws[j + 1], k)
  {
    assert StepAt(ws, es, j);
    FileStep(ws[j], es[j], ws[j + 1], k);
  }

  /** Every attachment was uploaded by a request and describes its file as that request did. */
  lemma {:induction false} FilesAreEntered(ws: seq<World>, es: seq<Event>, j: nat, k: Uuid)
    requires IsHistory(ws, es) && j < |ws|
    ensures k in ws[j].db.attachments <==> exists i :: 0 <= i < j && Uploads(es[i], k)
    ensures forall i :: 0 <= i < j && Uploads(es[i], k) ==> FileEntered(es[i], ws[j].db.attachments[k])
  {
    if j > 0 {
      FilesAreEntered(ws, es, j - 1, k);
      FileStepAt(ws, es, j - 1, k);
    }
  }

  lemma StoredContent(w: World, e: Event, w': World, k: Uuid)
    requires Step(w, e, w') && Uploads(e, k)
    ensures k in w'.db.attachments
    ensures w'.db.attachments[k].key in w'.objects && w'.objects[w'.db.attachments[k].key] == e.req.content
  {
    NewFileRow(w.db, e.actor, e.req, e.env);
    UploadedFileStored(w, e, w');
    AttachmentRowsAfter(w.db, e.actor, e.req, e.env, k);
  }

  lemma ObjectStays(w: World, e: Event, w': World, key: Key)
    requires Step(w, e, w') && key in w.objects
    ensures key in w'.objects && w'.objects[key] == w.objects[key]
  {
    if e.Handled? {
      ObjectsOnlyGrow(w, e, w', key);
    }
  }

  /** The file under an attachment's key is, for good, the one uploaded. */
  lemma {:induction false} FilesStay(ws: seq<World>, es: seq<Event>, i: nat, j: nat, k: Uuid)
    requires IsHistory(ws, es) && i < j < |ws| && Uploads(es[i], k)
    ensures k in ws[j].db.attachments
    ensures ws[j].db.attachments[k].key in ws[j].objects
    ensures ws[j].objects[ws[j].db.attachments[k].key] == es[i].req.content
  {
    FileStepAt(ws, es, j - 1, k);
    assert StepAt(ws, es, j - 1);
    if i < j - 1 {
      FilesStay(ws, es, i, j - 1, k);
      ObjectStays(ws[j - 1], es[j - 1], ws[j], ws[j - 1].db.attachments[k].key);
    } else {
      StoredContent(ws[i], es[i], ws[j], k);
    }
  }

  // ----- Categories -----

  /** The item's category is everybody's or its tenant's own. */
  predicate CategoryOk(db: Db, item: Item) {
    && item.category in db.categories && db.categories[item.category].active
    && (db.categories[item.category].tenant == None || db.categories[item.category].tenant == Some(item.tenant))
  }

  lemma CategoryAfter(db: Db, a: Actor, req: Request, env: Env, k: Uuid)
    requires Serve(db, a, req, env).Ok? && Fresh(db, env) && forall j :: j in db.items ==> CategoryOk(db, db.items[j])
    requires k in Serve(db, a, req, env).value.db.items
    ensures CategoryOk(db, Serve(db, a, req, env).value.db.items[k])
  {
    if req.CreateReport? {
      CopiedItemRows(db, a, req, env, k);
    } else if req.CreateItem? || req.UpdateItem? {
      StoredItemRow(db, a, req, env);
      StoredCategory(db, a, req, env);
    } else {
      KeptItemRows(db, a, req, env);
    }
  }

  lemma StoredCategory(db: Db, a: Actor, req: Request, env: Env)
    requires (req.CreateItem? || req.UpdateItem?) && Serve(db, a, req, env).Ok?
    ensures req.category in db.categories && db.categories[req.category].active
    ensures db.categories[req.category].tenant == None || db.categories[req.category].tenant == Some(a.tenant)
  {
  }

  lemma CategoriesStay(w: World, e: Event, w': World)
    requires WorldOk(w) && Step(w, e, w')
    ensures w'.db.categories == w.db.categories
  {
    if Committed(e) {
      ServeTouches(w.db, e.actor, e.req, e.env);
    }
  }

  /** In every reachable state no item has another tenant's category. */
  lemma {:induction false} CategoriesAreOwn(ws: seq<World>, es: seq<Event>, j: nat, k: Uuid)
    requires IsHistory(ws, es) && j < |ws| && k in ws[j].db.items
    ensures CategoryOk(ws[j].db, ws[j].db.items[k])
    decreases j
  {
    if j > 0 {
      HistoryIsRun(ws, es);
      Reachable(ws, j - 1);
      assert StepAt(ws, es, j - 1);
      CategoriesStay(ws[j - 1], es[j - 1], ws[j]);
      var db := ws[j - 1].db;
      forall i | i in db.items ensures CategoryOk(db, db.items[i]) {
        CategoriesAreOwn(ws, es, j - 1, i);
      }
      if Committed(es[j - 1]) {
        CategoryAfter(ws[j - 1].db, es[j - 1].actor, es[j - 1].req, es[j - 1].env, k);
      }
    }
  }
}
