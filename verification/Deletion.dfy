/** Which rows are live: in every state of every run, exactly those that no committed request deleted. */
module Deletion {
  import opened Prelude
  import opened Domain
  import opened Tables
  import opened Requests
  import opened Invariant
  import opened Runs
  import opened History

  predicate DeletesReport(e: Event, r: Uuid) {
    Committed(e) && e.req.DeleteReport? && e.req.report == r
  }

  /** A request on the item itself, or on its report. */
  predicate DeletesItem(e: Event, k: Uuid, r: Uuid) {
    DeletesReport(e, r) || (Committed(e) && e.req.DeleteItem? && e.req.item == k && e.req.report == r)
  }

  /** A request on the attachment, on its item, or on its report. */
  predicate DeletesFile(e: Event, k: Uuid, i: Uuid, r: Uuid) {
    DeletesItem(e, i, r) || (Committed(e) && e.req.DeleteAttachment? && e.req.attachment == k)
  }

  predicate LiveReportStepped(w: World, e: Event, w': World, r: Uuid) {
    && (DeletesReport(e, r) ==> r in w.db.reports && w.db.reports[r].deletedAt == None)
    && (r in w.db.reports ==>
          && r in w'.db.reports
          && (w'.db.reports[r].deletedAt == None <==> w.db.reports[r].deletedAt == None && !DeletesReport(e, r)))
    && (r !in w.db.reports && r in w'.db.reports ==> w'.db.reports[r].deletedAt == None)
  }

  lemma ReportErased(w: World, e: Event, w': World, r: Uuid)
    requires RowsEntered(w.db.reports, e, w'.db.reports)
    ensures LiveReportStepped(w, e, w', r)
  {
  }

  lemma LiveReportStep(w: World, e: Event, w': World, r: Uuid)
    requires Step(w, e, w')
    ensures LiveReportStepped(w, e, w', r)
  {
    RowsAfter(w, e, w');
    ReportErased(w, e, w', r);
  }

  lemma LiveReportStepAt(ws: seq<World>, es: seq<Event>, j: nat, r: Uuid)
    requires IsHistory(ws, es) && j < |es|
    ensures LiveReportStepped(ws[j], es[j], ws[j + 1], r)
  {
    assert StepAt(ws, es, j);
    LiveReportStep(ws[j], es[j], ws[j + 1], r);
  }

  /** A report is live exactly if no request deleted it. */
  lemma {:induction false} ReportLiveIffNotDeleted(ws: seq<World>, es: seq<Event>, j: nat, r: Uuid)
    requires IsHistory(ws, es) && j < |ws|
    ensures r !in ws[j].db.reports ==> forall i :: 0 <= i < j ==> !DeletesReport(es[i], r)
    ensures r in ws[j].db.reports ==>
              (ws[j].db.reports[r].deletedAt == None <==> forall i :: 0 <= i < j ==> !DeletesReport(es[i], r))
  {
    if j > 0 {
      ReportLiveIffNotDeleted(ws, es, j - 1, r);
      LiveReportStepAt(ws, es, j - 1, r);
    }
  }

  /** What deletions do to an item row. */
  lemma ErasedItemRows(db: Db, a: Actor, req: Request, env: Env, k: Uuid)
    requires (req.DeleteReport? || req.DeleteItem?) && Serve(db, a, req, env).Ok? && k in db.items
    ensures var items := Serve(db, a, req, env).value.db.items;
            && k in items
            && (if ItemOf(db.items[k], a.tenant, req.report) && (req.DeleteReport? || req.item == k)
                then items[k].deletedAt.Some? else items[k] == db.items[k])
    ensures req.DeleteItem? ==> FindItem(db, a.tenant, req.report, req.item).Ok?
    ensures FindReport(db, a.tenant, req.report).Ok?
  {
    match req
    case DeleteReport(_) =>
    case DeleteItem(_, _) =>
  }

  lemma UnerasedItemRows(db: Db, a: Actor, req: Request, env: Env)
    requires IsDecision(req) || req.UpdateReport? || req.UploadAttachment? || req.DeleteAttachment?
    requires Serve(db, a, req, env).Ok?
    ensures Serve(db, a, req, env).value.db.items == db.items
  {
    if IsDecision(req) {
      DecisionMovesRow(db, a, req, env);
    }
  }

  /** A new item is live, and so is its report. */
  lemma NewItemStep(w: World, e: Event, w': World, k: Uuid)
    requires Step(w, e, w') && k !in w.db.items && k in w'.db.items
    ensures w'.db.items[k].deletedAt == None
    ensures var r := w'.db.items[k].report; r in w.db.reports ==> w.db.reports[r].deletedAt == None
    ensures Committed(e) && !DeletesReport(e, w'.db.items[k].report)
  {
    ItemStep(w, e, w', k);
    if e.req.CreateReport? {
      CopiedItemRows(w.db, e.actor, e.req, e.env, k);
      DraftRowAfter(w.db, e.actor, e.req, e.env);
    } else if e.req.CreateItem? {
      StoredItemRow(w.db, e.actor, e.req, e.env);
    }
  }

  predicate LiveItemStepped(w: World, e: Event, w': World, k: Uuid)
    requires k in w.db.items
  {
    && k in w'.db.items && w'.db.items[k].report == w.db.items[k].report
    && (w'.db.items[k].deletedAt == None <==>
          w.db.items[k].deletedAt == None && !DeletesItem(e, k, w.db.items[k].report))
  }

  lemma LiveItemStep(w: World, e: Event, w': World, k: Uuid)
    requires Step(w, e, w') && Inv(w.db) && k in w.db.items
    ensures LiveItemStepped(w, e, w', k)
  {
    if Committed(e) {
      LiveItemAfter(w.db, e.actor, e.req, e.env, k);
    }
  }

  lemma LiveItemAfter(db: Db, a: Actor, req: Request, env: Env, k: Uuid)
    requires Inv(db) && k in db.items && Serve(db, a, req, env).Ok? && Fresh(db, env)
    ensures var items, r := Serve(db, a, req, env).value.db.items, db.items[k].report;
            && k in items && items[k].report == r
            && (items[k].deletedAt == None <==>
                  && db.items[k].deletedAt == None
                  && !(req.DeleteReport? && req.report == r)
                  && !(req.DeleteItem? && req.item == k && req.report == r))
  {
    if req.CreateReport? {
      CopiedItemRows(db, a, req, env, k);
    } else if req.CreateItem? || req.UpdateItem? {
      StoredItemRow(db, a, req, env);
    } else if req.DeleteReport? || req.DeleteItem? {
      ErasedItemAfter(db, a, req, env, k);
    } else {
      UnerasedItemRows(db, a, req, env);
    }
  }

  lemma ErasedItemAfter(db: Db, a: Actor, req: Request, env: Env, k: Uuid)
    requires Inv(db) && k in db.items && Serve(db, a, req, env).Ok? && (req.DeleteReport? || req.DeleteItem?)
    ensures var items, r := Serve(db, a, req, env).value.db.items, db.items[k].report;
            && k in items && items[k].report == r
            && (items[k].deletedAt == None <==>
                  && db.items[k].deletedAt == None
                  && !(req.DeleteReport? && req.report == r)
                  && !(req.DeleteItem? && req.item == k && req.report == r))
  {
    ErasedItemRows(db, a, req, env, k);
    KeptItemRows(db, a, req, env);
    SameTenant(db, k);
  }

  lemma SameTenant(db: Db, k: Uuid)
    requires Inv(db) && k in db.items
    ensures db.items[k].report in db.reports && db.items[k].tenant == db.reports[db.items[k].report].tenant
  {
    assert ReportOk(db, db.items[k].report);
  }

  lemma LiveItemStepAt(ws: seq<World>, es: seq<Event>, j: nat, k: Uuid)
    requires IsHistory(ws, es) && j < |es| && k in ws[j].db.items
    ensures LiveItemStepped(ws[j], es[j], ws[j + 1], k)
  {
    HistoryIsRun(ws, es);
    Reachable(ws, j);
    assert StepAt(ws, es, j);
    LiveItemStep(ws[j], es[j], ws[j + 1], k);
  }

  /** No request deletes an item before it is there. */
  lemma {:induction false} DeletedItemIsThere(ws: seq<World>, es: seq<Event>, i: nat, j: nat, k: Uuid)
    requires IsHistory(ws, es) && i < j < |ws| && Committed(es[i]) && es[i].req.DeleteItem? && es[i].req.item == k
    ensures k in ws[j].db.items
  {
    ItemStepAt(ws, es, j - 1, k);
    if i < j - 1 {
      DeletedItemIsThere(ws, es, i, j - 1, k);
    } else {
      assert StepAt(ws, es, i);
      ErasedItem(ws[i].db, es[i].actor, es[i].req, es[i].env);
    }
  }

  lemma ErasedItem(db: Db, a: Actor, req: Request, env: Env)
    requires req.DeleteItem? && Serve(db, a, req, env).Ok?
    ensures req.item in db.items
  {
  }

  lemma NewItemNeverDeleted(ws: seq<World>, es: seq<Event>, j: nat, k: Uuid)
    requires IsHistory(ws, es) && j + 1 < |ws| && k !in ws[j].db.items && k in ws[j + 1].db.items
    ensures ws[j + 1].db.items[k].deletedAt == None
    ensures forall i :: 0 <= i <= j ==> !DeletesItem(es[i], k, ws[j + 1].db.items[k].report)
  {
    var r := ws[j + 1].db.items[k].report;
    assert StepAt(ws, es, j);
    NewItemStep(ws[j], es[j], ws[j + 1], k);
    ReportLiveIffNotDeleted(ws, es, j, r);
    ItemStep(ws[j], es[j], ws[j + 1], k);
    forall i | 0 <= i < j ensures !DeletesItem(es[i], k, r) {
      if Committed(es[i]) && es[i].req.DeleteItem? && es[i].req.item == k {
        DeletedItemIsThere(ws, es, i, j, k);
      }
    }
  }

  /** An item is live exactly if no request deleted it or its report. */
  lemma {:induction false} ItemLiveIffNotDeleted(ws: seq<World>, es: seq<Event>, j: nat, k: Uuid)
    requires IsHistory(ws, es) && j < |ws| && k in ws[j].db.items
    ensures ws[j].db.items[k].deletedAt == None <==>
            forall i :: 0 <= i < j ==> !DeletesItem(es[i], k, ws[j].db.items[k].report)
  {
    if j > 0 {
      if k in ws[j - 1].db.items {
        ItemLiveIffNotDeleted(ws, es, j - 1, k);
        LiveItemStepAt(ws, es, j - 1, k);
      } else {
        NewItemNeverDeleted(ws, es, j - 1, k);
      }
    }
  }

  /** What deletions do to an attachment row. */
  lemma ErasedFileRows(db: Db, a: Actor, req: Request, env: Env, k: Uuid)
    requires (req.DeleteReport? || req.DeleteItem? || req.DeleteAttachment?) && Serve(db, a, req, env).Ok?
    requires k in db.attachments
    ensures var files := Serve(db, a, req, env).value.db.attachments;
            && k in files
            && (if AttachmentOf(db.attachments[k], a.tenant, req.report)
                   && (req.DeleteItem? ==> req.item == db.attachments[k].item)
                   && (req.DeleteAttachment? ==> req.item == db.attachments[k].item && req.attachment == k)
                then files[k].deletedAt.Some? else files[k] == db.attachments[k])
    ensures FindReport(db, a.tenant, req.report).Ok?
    ensures req.DeleteAttachment? ==> FindAttachment(db, a.tenant, req.report, req.item, req.attachment).Ok?
  {
    match req
    case DeleteReport(_) =>
    case DeleteItem(_, _) =>
    case DeleteAttachment(_, _, _) =>
  }

  lemma LiveFileAfter(db: Db, a: Actor, req: Request, env: Env, k: Uuid)
    requires Inv(db) && k in db.attachments && Serve(db, a, req, env).Ok? && Fresh(db, env)
    ensures var files, i := Serve(db, a, req, env).value.db.attachments, db.attachments[k].item;
            var r := db.attachments[k].report;
            && k in files && files[k].item == i && files[k].report == r
            && (files[k].deletedAt == None <==>
                  && db.attachments[k].deletedAt == None
                  && !(req.DeleteReport? && req.report == r)
                  && !(req.DeleteItem? && req.item == i && req.report == r)
                  && !(req.DeleteAttachment? && req.attachment == k))
  {
    if req.UploadAttachment? {
      NewFileRow(db, a, req, env);
    } else if req.DeleteReport? || req.DeleteItem? || req.DeleteAttachment? {
      ErasedFileAfter(db, a, req, env, k);
    } else {
      NoAttachmentTouched(db, a, req, env);
    }
  }

  lemma ErasedFileAfter(db: Db, a: Actor, req: Request, env: Env, k: Uuid)
    requires (req.DeleteReport? || req.DeleteItem? || req.DeleteAttachment?) && Serve(db, a, req, env).Ok?
    requires Inv(db) && k in db.attachments
    ensures var files, i := Serve(db, a, req, env).value.db.attachments, db.attachments[k].item;
            var r := db.attachments[k].report;
            && k in files && files[k].item == i && files[k].report == r
            && (files[k].deletedAt == None <==>
                  && db.attachments[k].deletedAt == None
                  && !(req.DeleteReport? && req.report == r)
                  && !(req.DeleteItem? && req.item == i && req.report == r)
                  && !(req.DeleteAttachment? && req.attachment == k))
  {
    ErasedFileRows(db, a, req, env, k);
    KeptFileRows(db, a, req, env);
    assert ReportOk(db, db.attachments[k].report);
    assert AttachmentOk(db.items, db.attachments[k].report, db.reports[db.attachments[k].report].tenant, k,
                        db.attachments[k]);
  }

  /** A new attachment is live, under a live item. */
  lemma NewFileAfter(db: Db, a: Actor, req: Request, env: Env, k: Uuid)
    requires Serve(db, a, req, env).Ok? && k !in db.attachments && k in Serve(db, a, req, env).value.db.attachments
    ensures req.UploadAttachment? && k == env.newId
    ensures var file := Serve(db, a, req, env).value.db.attachments[k];
            && file.deletedAt == None && file.item == req.item && file.report == req.report
            && FindItem(db, a.tenant, file.report, file.item).Ok?
  {
    if req.UploadAttachment? {
      NewFileRow(db, a, req, env);
    } else {
      KeptFileRows(db, a, req, env);
    }
  }

  lemma LiveFileStepAt(ws: seq<World>, es: seq<Event>, j: nat, k: Uuid)
    requires IsHistory(ws, es) && j < |es| && k in ws[j].db.attachments
    ensures var file := ws[j].db.attachments[k];
            && k in ws[j + 1].db.attachments
            && ws[j + 1].db.attachments[k].item == file.item && ws[j + 1].db.attachments[k].report == file.report
            && (ws[j + 1].db.attachments[k].deletedAt == None <==>
                  file.deletedAt == None && !DeletesFile(es[j], k, file.item, file.report))
  {
    HistoryIsRun(ws, es);
    Reachable(ws, j);
    assert StepAt(ws, es, j);
    if Committed(es[j]) {
      LiveFileAfter(ws[j].db, es[j].actor, es[j].req, es[j].env, k);
    }
  }

  /** No request deletes an attachment before it is there. */
  lemma {:induction false} DeletedFileIsThere(ws: seq<World>, es: seq<Event>, i: nat, j: nat, k: Uuid)
    requires IsHistory(ws, es) && i < j < |ws|
    requires Committed(es[i]) && es[i].req.DeleteAttachment? && es[i].req.attachment == k
    ensures k in ws[j].db.attachments
  {
    FileStepAt(ws, es, j - 1, k);
    if i < j - 1 {
      DeletedFileIsThere(ws, es, i, j - 1, k);
    } else {
      assert StepAt(ws, es, i);
      ErasedFile(ws[i].db, es[i].actor, es[i].req, es[i].env);
    }
  }

  lemma ErasedFile(db: Db, a: Actor, req: Request, env: Env)
    requires req.DeleteAttachment? && Serve(db, a, req, env).Ok?
    ensures req.attachment in db.attachments
  {
  }

  lemma NewFileNeverDeleted(ws: seq<World>, es: seq<Event>, j: nat, k: Uuid)
    requires IsHistory(ws, es) && j + 1 < |ws| && k !in ws[j].db.attachments && k in ws[j + 1].db.attachments
    ensures var file := ws[j + 1].db.attachments[k];
            && file.deletedAt == None
            && forall i :: 0 <= i <= j ==> !DeletesFile(es[i], k, file.item, file.report)
  {
    assert StepAt(ws, es, j);
    NewFileAfter(ws[j].db, es[j].actor, es[j].req, es[j].env, k);
    var file := ws[j + 1].db.attachments[k];
    ItemLiveIffNotDeleted(ws, es, j, file.item);
    forall i | 0 <= i < j ensures !DeletesFile(es[i], k, file.item, file.report) {
      if Committed(es[i]) && es[i].req.DeleteAttachment? && es[i].req.attachment == k {
        DeletedFileIsThere(ws, es, i, j, k);
      }
    }
  }

  /** An attachment is live exactly if no request deleted it, its item or its report. */
  lemma {:induction false} FileLiveIffNotDeleted(ws: seq<World>, es: seq<Event>, j: nat, k: Uuid)
    requires IsHistory(ws, es) && j < |ws| && k in ws[j].db.attachments
    ensures var file := ws[j].db.attachments[k];
            file.deletedAt == None <==> forall i :: 0 <= i < j ==> !DeletesFile(es[i], k, file.item, file.report)
  {
    if j > 0 {
      if k in ws[j - 1].db.attachments {
        FileLiveIffNotDeleted(ws, es, j - 1, k);
        LiveFileStepAt(ws, es, j - 1, k);
      } else {
        NewFileNeverDeleted(ws, es, j - 1, k);
      }
    }
  }
}
