/**
 The tables as mutable state: one method per SQL statement, and the repositories built from them.
 Any statement may fail with `Internal`; `faults` counts the failures that are not of the statement's own
 making, so that a call during which it stands still did exactly what was asked;
 what a multi-statement method had already changed is undone by the transaction wrapper, not here.
 */
module Persistence {
  import opened Prelude
  import opened Domain
  import opened Tables
  import opened Requests

  class Database {
    var users: map<Uuid, string>
    var members: map<Uuid, Membership>
    var categories: map<Uuid, Category>
    var reports: map<Uuid, Report>
    var items: map<Uuid, Item>
    var attachments: map<Uuid, Attachment>
    ghost var faults: nat  // how many statements have failed for reasons of their own

    constructor (db: Db)
      ensures State() == db && faults == 0
    {
      faults := 0;
      users, members, categories := db.users, db.members, db.categories;
      reports, items, attachments := db.reports, db.items, db.attachments;
    }

    function State(): Db
      reads this
    {
      Db(users, members, categories, reports, items, attachments)
    }

    /** Whether the next statement fails is up to the environment. */
    method Fails() returns (failed: bool)
      modifies this`faults
      ensures failed <==> faults > old(faults)
      ensures faults >= old(faults)
    {
      failed := *;
      if failed {
        faults := faults + 1;
      }
    }

    /** ROLLBACK to the tables as they were at BEGIN. */
    method Rollback(db: Db)
      modifies this
      ensures State() == db && faults == old(faults)
    {
      users, members, categories := db.users, db.members, db.categories;
      reports, items, attachments := db.reports, db.items, db.attachments;
    }

    // ----- Statements -----

    method InsertReport(id: Uuid, row: Report) returns (res: Result<()>)
      modifies this`reports, this`faults
      ensures faults >= old(faults)
      ensures res.Ok? ==> row.periodStart <= row.periodEnd && reports == old(reports)[id := row]
      ensures res.Err? ==>
                && res.error == Internal && reports == old(reports)
                && (faults > old(faults) || row.periodStart > row.periodEnd)
    {
      var failed := Fails();
      if failed || row.periodStart > row.periodEnd {
        return Err(Internal);
      }
      reports := reports[id := row];
      return Ok(());
    }

    /** UPDATE ... WHERE updated_at = version RETURNING: no row means the version moved. */
    method UpdateReport(t: Uuid, r: Uuid, title: string, start: Date, end: Date, version: Time, stamp: Time)
      returns (res: Result<Report>)
      modifies this`reports, this`faults
      ensures faults >= old(faults)
      ensures res.Ok? ==> FindReport(old(State()), t, r).Ok? && old(reports[r].updatedAt) == version && start <= end
                          && res.value == old(reports[r]).(title := title, periodStart := start, periodEnd := end,
                                                           updatedAt := stamp)
                          && reports == old(reports)[r := res.value]
      ensures res.Err? ==> res.error in {Internal, Conflict} && reports == old(reports)
      ensures res == Err(Conflict) ==> !(FindReport(old(State()), t, r).Ok? && old(reports[r].updatedAt) == version)
      ensures res == Err(Internal) && faults == old(faults) ==>
                FindReport(old(State()), t, r).Ok? && old(reports[r].updatedAt) == version && start > end
    {
      var failed := Fails();
      if failed {
        return Err(Internal);
      }
      if !FindReport(State(), t, r).Ok? || reports[r].updatedAt != version {
        return Err(Conflict);
      }
      if start > end {
        return Err(Internal);
      }
      var row := reports[r].(title := title, periodStart := start, periodEnd := end, updatedAt := stamp);
      reports := reports[r := row];
      return Ok(row);
    }

    /** UpdateReportStatus: the decision fields of `next`, guarded by the version it was read at. */
    method UpdateReportStatus(t: Uuid, r: Uuid, next: Report, stamp: Time) returns (res: Result<Report>)
      modifies this`reports, this`faults
      ensures faults >= old(faults)
      ensures res.Ok? ==> FindReport(old(State()), t, r).Ok? && old(reports[r].updatedAt) == next.updatedAt
                          && res.value == WithDecision(old(reports[r]), next, stamp)
                          && reports == old(reports)[r := res.value]
      ensures res.Err? ==> res.error in {Internal, Conflict} && reports == old(reports)
      ensures res == Err(Conflict) ==>
                !(FindReport(old(State()), t, r).Ok? && old(reports[r].updatedAt) == next.updatedAt)
      ensures res == Err(Internal) ==> faults > old(faults)
    {
      var failed := Fails();
      if failed {
        return Err(Internal);
      }
      if !FindReport(State(), t, r).Ok? || reports[r].updatedAt != next.updatedAt {
        return Err(Conflict);
      }
      var row := WithDecision(reports[r], next, stamp);
      reports := reports[r := row];
      return Ok(row);
    }

    static function WithDecision(row: Report, next: Report, stamp: Time): Report {
      row.(status := next.status,
           submittedBy := next.submittedBy, submittedAt := next.submittedAt,
           approvedBy := next.approvedBy, approvedAt := next.approvedAt, approvalComment := next.approvalComment,
           rejectedBy := next.rejectedBy, rejectedAt := next.rejectedAt, rejectionReason := next.rejectionReason,
           paidBy := next.paidBy, paidAt := next.paidAt, updatedAt := stamp)
    }

    static function Erased(row: Report, stamp: Time): Report {
      row.(deletedAt := Some(stamp), updatedAt := stamp)
    }

    method SoftDeleteReport(t: Uuid, r: Uuid, stamp: Time) returns (res: Result<()>)
      modifies this`reports, this`faults
      ensures faults >= old(faults)
      ensures res.Err? ==> res.error == Internal && faults > old(faults) && reports == old(reports)
      ensures res.Ok? ==> reports == if FindReport(old(State()), t, r).Ok?
                                     then old(reports)[r := Erased(old(reports[r]), stamp)]
                                     else old(reports)
    {
      var failed := Fails();
      if failed {
        return Err(Internal);
      }
      if FindReport(State(), t, r).Ok? {
        reports := reports[r := reports[r].(deletedAt := Some(stamp), updatedAt := stamp)];
      }
      return Ok(());
    }

    /** SELECT SUM(amount): add up the selected rows in whatever order they come. */
    method SumAmounts(rows: map<Uuid, Item>) returns (sum: int)
      ensures sum == Sum(AmountColumn(rows))
    {
      sum := 0;
      var left := rows;
      while left != map[]
        invariant sum + Sum(AmountColumn(left)) == Sum(AmountColumn(rows))
        decreases |left|
      {
        var k :| k in left;
        SumRemove(AmountColumn(left), k);
        assert AmountColumn(left) - {k} == AmountColumn(left - {k});
        sum := sum + left[k].amount;
        left := left - {k};
      }
      assert AmountColumn(left) == map[];
    }

    method UpdateReportTotalAmount(t: Uuid, r: Uuid, stamp: Time) returns (res: Result<()>)
      modifies this`reports, this`faults
      ensures faults >= old(faults)
      ensures res.Ok? ==> Retotal(old(State()), t, r, stamp) == Ok(State())
      ensures res.Err? ==>
                && res.error == Internal && reports == old(reports)
                && (faults > old(faults) || Retotal(old(State()), t, r, stamp) == Err(Internal))
    {
      var failed := Fails();
      if failed {
        return Err(Internal);
      }
      if r in reports && reports[r].tenant == t {
        var sum := SumAmounts(LiveItems(items, t, r));
        if sum < 0 || sum > MAX_INT32 {
          return Err(Internal);
        }
        reports := reports[r := reports[r].(total := sum, updatedAt := stamp)];
      }
      return Ok(());
    }

    method InsertItem(id: Uuid, row: Item) returns (res: Result<()>)
      modifies this`items, this`faults
      ensures faults >= old(faults)
      ensures res.Ok? ==> row.amount > 0 && items == old(items)[id := row]
      ensures res.Err? ==> res.error == Internal && (faults > old(faults) || row.amount <= 0) && items == old(items)
    {
      var failed := Fails();
      if failed || row.amount <= 0 {
        return Err(Internal);
      }
      items := items[id := row];
      return Ok(());
    }

    method UpdateItem(i: Uuid, row: Item, stamp: Time) returns (res: Result<Item>)
      modifies this`items, this`faults
      ensures faults >= old(faults)
      ensures res.Ok? ==>
                && FindItem(old(State()), row.tenant, row.report, i).Ok? && old(items[i].updatedAt) == row.updatedAt
                && row.amount > 0
                && res.value == old(items[i]).(date := row.date, amount := row.amount, category := row.category,
                                               description := row.description, updatedAt := stamp)
                && items == old(items)[i := res.value]
      ensures res.Err? ==> res.error in {Internal, Conflict} && items == old(items)
      ensures res == Err(Conflict) ==>
                !(FindItem(old(State()), row.tenant, row.report, i).Ok? && old(items[i].updatedAt) == row.updatedAt)
      ensures res == Err(Internal) && faults == old(faults) ==>
                && FindItem(old(State()), row.tenant, row.report, i).Ok? && old(items[i].updatedAt) == row.updatedAt
                && row.amount <= 0
    {
      var failed := Fails();
      if failed {
        return Err(Internal);
      }
      if !FindItem(State(), row.tenant, row.report, i).Ok? || items[i].updatedAt != row.updatedAt {
        return Err(Conflict);
      }
      if row.amount <= 0 {
        return Err(Internal);
      }
      var stored := items[i].(date := row.date, amount := row.amount, category := row.category,
                              description := row.description, updatedAt := stamp);
      items := items[i := stored];
      return Ok(stored);
    }

    method SoftDeleteItem(t: Uuid, r: Uuid, i: Uuid, stamp: Time) returns (res: Result<()>)
      modifies this`items, this`faults
      ensures faults >= old(faults)
      ensures res.Ok? ==> items == EraseItem(old(items), t, r, i, stamp)
      ensures res.Err? ==> res.error == Internal && faults > old(faults) && items == old(items)
    {
      var failed := Fails();
      if failed {
        return Err(Internal);
      }
      items := EraseItem(items, t, r, i, stamp);
      return Ok(());
    }

    method SoftDeleteItemsByReport(t: Uuid, r: Uuid, stamp: Time) returns (res: Result<()>)
      modifies this`items, this`faults
      ensures faults >= old(faults)
      ensures res.Ok? ==> items == EraseItems(old(items), t, r, stamp)
      ensures res.Err? ==> res.error == Internal && faults > old(faults) && items == old(items)
    {
      var failed := Fails();
      if failed {
        return Err(Internal);
      }
      items := EraseItems(items, t, r, stamp);
      return Ok(());
    }

    method InsertAttachment(id: Uuid, row: Attachment) returns (res: Result<()>)
      modifies this`attachments, this`faults
      ensures faults >= old(faults)
      ensures res.Ok? ==> attachments == old(attachments)[id := row]
      ensures res.Err? ==> res.error == Internal && faults > old(faults) && attachments == old(attachments)
    {
      var failed := Fails();
      if failed {
        return Err(Internal);
      }
      attachments := attachments[id := row];
      return Ok(());
    }

    method SoftDeleteAttachment(t: Uuid, r: Uuid, i: Uuid, a: Uuid, stamp: Time) returns (res: Result<()>)
      modifies this`attachments, this`faults
      ensures faults >= old(faults)
      ensures res.Ok? ==> attachments == EraseAttachment(old(attachments), t, r, i, a, stamp)
      ensures res.Err? ==> res.error == Internal && faults > old(faults) && attachments == old(attachments)
    {
      var failed := Fails();
      if failed {
        return Err(Internal);
      }
      attachments := EraseAttachment(attachments, t, r, i, a, stamp);
      return Ok(());
    }

    method SoftDeleteAttachmentsByItem(t: Uuid, r: Uuid, i: Uuid, stamp: Time) returns (res: Result<()>)
      modifies this`attachments, this`faults
      ensures faults >= old(faults)
      ensures res.Ok? ==> attachments == EraseAttachmentsOfItem(old(attachments), t, r, i, stamp)
      ensures res.Err? ==> res.error == Internal && faults > old(faults) && attachments == old(attachments)
    {
      var failed := Fails();
      if failed {
        return Err(Internal);
      }
      attachments := EraseAttachmentsOfItem(attachments, t, r, i, stamp);
      return Ok(());
    }

    method SoftDeleteAttachmentsByReport(t: Uuid, r: Uuid, stamp: Time) returns (res: Result<()>)
      modifies this`attachments, this`faults
      ensures faults >= old(faults)
      ensures res.Ok? ==> attachments == EraseAttachments(old(attachments), t, r, stamp)
      ensures res.Err? ==> res.error == Internal && faults > old(faults) && attachments == old(attachments)
    {
      var failed := Fails();
      if failed {
        return Err(Internal);
      }
      attachments := EraseAttachments(attachments, t, r, stamp);
      return Ok(());
    }

    // ----- Repositories -----

    method GetReport(t: Uuid, r: Uuid) returns (res: Result<Report>)
      modifies this`faults
      ensures faults >= old(faults)
      ensures (res == Err(Internal) && faults > old(faults)) || res == FindReport(State(), t, r)
    {
      var failed := Fails();
      return if failed then Err(Internal) else FindReport(State(), t, r);
    }

    method GetItem(t: Uuid, r: Uuid, i: Uuid) returns (res: Result<Item>)
      modifies this`faults
      ensures faults >= old(faults)
      ensures (res == Err(Internal) && faults > old(faults)) || res == FindItem(State(), t, r, i)
    {
      var failed := Fails();
      return if failed then Err(Internal) else FindItem(State(), t, r, i);
    }

    method GetAttachment(t: Uuid, r: Uuid, i: Uuid, a: Uuid) returns (res: Result<Attachment>)
      modifies this`faults
      ensures faults >= old(faults)
      ensures (res == Err(Internal) && faults > old(faults)) || res == FindAttachment(State(), t, r, i, a)
    {
      var failed := Fails();
      return if failed then Err(Internal) else FindAttachment(State(), t, r, i, a);
    }

    method GetCategory(t: Uuid, c: Uuid) returns (res: Result<()>)
      modifies this`faults
      ensures faults >= old(faults)
      ensures || (res == Err(Internal) && faults > old(faults))
              || res == (if CategoryVisible(State(), t, c) then Ok(()) else Err(ResourceNotFound))
    {
      var failed := Fails();
      return if failed then Err(Internal) else if CategoryVisible(State(), t, c) then Ok(()) else Err(ResourceNotFound);
    }

    method TenantHasApprover(t: Uuid) returns (res: Result<bool>)
      modifies this`faults
      ensures faults >= old(faults)
      ensures (res == Err(Internal) && faults > old(faults)) || res == Ok(HasApprover(State(), t))
    {
      var failed := Fails();
      return if failed then Err(Internal) else Ok(HasApprover(State(), t));
    }

    /** The live items of a report, oldest first; rows of one transaction share a stamp and come in any order. */
    method ListItems(t: Uuid, r: Uuid) returns (res: Result<seq<Uuid>>)
      modifies this`faults
      ensures faults >= old(faults)
      ensures res.Err? ==> res.error == Internal && faults > old(faults)
      ensures res.Ok? ==> IsListing(res.value, LiveItems(items, t, r))
    {
      var failed := Fails();
      if failed {
        return Err(Internal);
      }
      var rows, listed := LiveItems(items, t, r), [];
      var left := rows.Keys;
      while left != {}
        invariant left <= rows.Keys && faults >= old(faults)
        invariant forall k :: k in listed <==> k in rows && k !in left
        invariant forall i, j :: 0 <= i < j < |listed| ==> listed[i] != listed[j]
        invariant forall i, j :: 0 <= i < j < |listed| ==> rows[listed[i]].createdAt <= rows[listed[j]].createdAt
        invariant forall i, k :: 0 <= i < |listed| && k in left ==> rows[listed[i]].createdAt <= rows[k].createdAt
      {
        var k := Oldest(rows, left);
        listed := listed + [k];
        left := left - {k};
      }
      return Ok(listed);
    }

    static method Oldest(rows: map<Uuid, Item>, keys: set<Uuid>) returns (oldest: Uuid)
      requires keys != {} && keys <= rows.Keys
      ensures oldest in keys && forall k :: k in keys ==> rows[oldest].createdAt <= rows[k].createdAt
    {
      oldest :| oldest in keys;
      var left := keys - {oldest};
      while left != {}
        invariant left <= keys && oldest in keys
        invariant forall k :: k in keys && k !in left ==> rows[oldest].createdAt <= rows[k].createdAt
      {
        var k :| k in left;
        if rows[k].createdAt < rows[oldest].createdAt {
          oldest := k;
        }
        left := left - {k};
      }
    }

    /** itemRepo.Create: insert, then recompute the report total. */
    method CreateItem(id: Uuid, t: Uuid, r: Uuid, date: Date, amount: int, category: Uuid, description: string,
                      stamp: Time)
      returns (res: Result<Item>)
      modifies this`items, this`reports, this`faults
      ensures faults >= old(faults)
      ensures res.Err? ==>
        && res.error == Internal
        && (faults > old(faults)
            || StoreItem(old(State()), t, id,
                         Item(r, t, date, ToInt32(amount), category, description, stamp, stamp, None), stamp)
               == Err(Internal))
      ensures res.Ok? ==>
        && res.value == Item(r, t, date, ToInt32(amount), category, description, stamp, stamp, None)
        && items == old(items)[id := res.value]
        && (r in old(reports) && old(reports)[r].tenant == t ==>
              reports == old(reports)[r := old(reports)[r].(total := LiveTotal(items, t, r), updatedAt := stamp)])
        && StoreItem(old(State()), t, id, res.value, stamp) == Ok(Effect(State(), ItemRow(id, res.value)))
    {
      var row := Item(r, t, date, ToInt32(amount), category, description, stamp, stamp, None);
      var _ :- InsertItem(id, row);
      var _ :- UpdateReportTotalAmount(t, r, stamp);
      return Ok(row);
    }

    static function Replaced(stored: Item, row: Item, stamp: Time): Item {
      stored.(date := row.date, amount := ToInt32(row.amount), category := row.category,
              description := row.description, updatedAt := stamp)
    }

    /** itemRepo.Update: versioned update, then recompute the report total. */
    method ReplaceItem(i: Uuid, row: Item, stamp: Time) returns (res: Result<Item>)
      modifies this`items, this`reports, this`faults
      ensures faults >= old(faults)
      ensures res.Err? ==> res.error in {Internal, Conflict}
      ensures res == Err(Conflict) ==>
                !(FindItem(old(State()), row.tenant, row.report, i).Ok? && old(items[i].updatedAt) == row.updatedAt)
      ensures res == Err(Internal) && faults == old(faults) ==>
        && FindItem(old(State()), row.tenant, row.report, i).Ok? && old(items[i].updatedAt) == row.updatedAt
        && StoreItem(old(State()), row.tenant, i, Replaced(old(items[i]), row, stamp), stamp) == Err(Internal)
      ensures res.Ok? ==>
        && FindItem(old(State()), row.tenant, row.report, i).Ok? && old(items[i].updatedAt) == row.updatedAt
        && res.value == Replaced(old(items[i]), row, stamp)
        && StoreItem(old(State()), row.tenant, i, res.value, stamp) == Ok(Effect(State(), ItemRow(i, res.value)))
    {
      var updated :- UpdateItem(i, row.(amount := ToInt32(row.amount)), stamp);
      var _ :- UpdateReportTotalAmount(row.tenant, row.report, stamp);
      return Ok(updated);
    }

    /** itemRepo.SoftDelete: attachments first, then the item, then the report total. */
    method DeleteItem(t: Uuid, r: Uuid, i: Uuid, stamp: Time) returns (res: Result<()>)
      modifies this`items, this`attachments, this`reports, this`faults
      ensures faults >= old(faults)
      ensures res.Err? ==>
        && res.error == Internal
        && (faults > old(faults)
            || Retotal(old(State()).(items := EraseItem(old(items), t, r, i, stamp),
                                     attachments := EraseAttachmentsOfItem(old(attachments), t, r, i, stamp)),
                    t, r, stamp)
               == Err(Internal))
      ensures res.Ok? ==>
        Retotal(old(State()).(items := EraseItem(old(items), t, r, i, stamp),
                              attachments := EraseAttachmentsOfItem(old(attachments), t, r, i, stamp)),
                    t, r, stamp) == Ok(State())
    {
      var _ :- SoftDeleteAttachmentsByItem(t, r, i, stamp);
      var _ :- SoftDeleteItem(t, r, i, stamp);
      var _ :- UpdateReportTotalAmount(t, r, stamp);
      return Ok(());
    }

    /** reportRepo.SoftDelete: the cascade over items and attachments, then the report. */
    method DeleteReport(t: Uuid, r: Uuid, stamp: Time) returns (res: Result<()>)
      modifies this`items, this`attachments, this`reports, this`faults
      ensures faults >= old(faults)
      ensures res.Err? ==> res.error == Internal && faults > old(faults)
      ensures res.Ok? ==>
        && items == EraseItems(old(items), t, r, stamp)
        && attachments == EraseAttachments(old(attachments), t, r, stamp)
        && reports == if FindReport(old(State()), t, r).Ok?
                      then old(reports)[r := Erased(old(reports[r]), stamp)]
                      else old(reports)
    {
      var _ :- SoftDeleteItemsByReport(t, r, stamp);
      var _ :- SoftDeleteAttachmentsByReport(t, r, stamp);
      var _ :- SoftDeleteReport(t, r, stamp);
      return Ok(());
    }
  }

  /** A list of a table's keys, each once, oldest row first. */
  ghost predicate IsListing(keys: seq<Uuid>, rows: map<Uuid, Item>) {
    && (forall k :: k in keys <==> k in rows)
    && (forall i, j :: 0 <= i < j < |keys| ==> keys[i] != keys[j])
    && (forall i, j :: 0 <= i < j < |keys| ==> rows[keys[i]].createdAt <= rows[keys[j]].createdAt)
  }
}
