/**
 Entities and the report life cycle: draft -> submitted -> approved or rejected, approved -> paid.

 `Report`, `Item` and `Attachment` are table rows. `ExpenseReport` is the entity the services fetch,
 change in place and write back.
 */
module Domain {
  import opened Prelude
  import Text

  type Uuid = nat
  type Time = int
  type Date = int
  type Byte = bv8

  datatype Status = Draft | Submitted | Approved | Rejected | Paid
  datatype Role = Admin | Approver | Member | Accounting

  datatype Error =
    | InvalidStateTransition
    | SelfApprovalNotAllowed
    | SelfPaymentNotAllowed
    | EmptyReportSubmission
    | NoApproverInTenant
    | MissingRejectionReason
    | ReportNotEditable
    | ReportNotDeletable
    | InvalidPeriod
    | InvalidAmount
    | ResourceNotFound
    | Forbidden
    | Conflict
    | InvalidFileType
    | FileTooLarge
    | Internal  // any failing statement, including a violated CHECK constraint

  datatype Result<+T> = Ok(value: T) | Err(error: Error) {
    predicate IsFailure() { Err? }
    function PropagateFailure<U>(): Result<U> requires Err? { Err(error) }
    function Extract(): T requires Ok? { value }
  }

  datatype Actor = Actor(user: Uuid, tenant: Uuid, role: Role)

  datatype Report = Report(
    tenant: Uuid, owner: Uuid, title: string, periodStart: Date, periodEnd: Date,
    status: Status, total: int, reference: Option<Uuid>,
    submittedBy: Option<Uuid>, submittedAt: Option<Time>,
    approvedBy: Option<Uuid>, approvedAt: Option<Time>, approvalComment: Option<string>,
    rejectedBy: Option<Uuid>, rejectedAt: Option<Time>, rejectionReason: Option<string>,
    paidBy: Option<Uuid>, paidAt: Option<Time>,
    createdAt: Time, updatedAt: Time, deletedAt: Option<Time>)

  datatype Item = Item(
    report: Uuid, tenant: Uuid, date: Date, amount: int, category: Uuid, description: string,
    createdAt: Time, updatedAt: Time, deletedAt: Option<Time>)

  datatype Mime = Jpeg | Png | Pdf | Other(name: string)

  /** The storage key {tenant}/{report}/{attachment}. */
  datatype Key = Key(tenant: Uuid, report: Uuid, attachment: Uuid)

  datatype Attachment = Attachment(
    item: Uuid, report: Uuid, tenant: Uuid, fileName: string, fileSize: int, mime: Mime, key: Key,
    createdAt: Time, deletedAt: Option<Time>)

  // ----- State transitions as functions of the row -----

  function ToSubmitted(r: Report, actor: Uuid, itemCount: nat, total: int, hasApprover: bool,
                       now: Time): Result<Report>
  {
    if r.status != Draft then Err(InvalidStateTransition)
    else if itemCount == 0 then Err(EmptyReportSubmission)
    else if !hasApprover then Err(NoApproverInTenant)
    else Ok(r.(status := Submitted, submittedAt := Some(now), submittedBy := Some(actor), total := total))
  }

  function ToApproved(r: Report, actor: Uuid, comment: Option<string>, now: Time): Result<Report> {
    if r.status != Submitted then Err(InvalidStateTransition)
    else if actor == r.owner then Err(SelfApprovalNotAllowed)
    else Ok(r.(status := Approved, approvedAt := Some(now), approvedBy := Some(actor), approvalComment := comment))
  }

  function ToRejected(r: Report, actor: Uuid, reason: string, now: Time): Result<Report> {
    if r.status != Submitted then Err(InvalidStateTransition)
    else if actor == r.owner then Err(SelfApprovalNotAllowed)
    else if Text.TrimSpace(reason) == "" then Err(MissingRejectionReason)
    else Ok(r.(status := Rejected, rejectedAt := Some(now), rejectedBy := Some(actor), rejectionReason := Some(reason)))
  }

  function ToPaid(r: Report, actor: Uuid, now: Time): Result<Report> {
    if r.status != Approved then Err(InvalidStateTransition)
    else if actor == r.owner then Err(SelfPaymentNotAllowed)
    else Ok(r.(status := Paid, paidAt := Some(now), paidBy := Some(actor)))
  }

  /** An in-place transition did what its row function says: the new row and no error, or that error and no change. */
  predicate Applied(spec: Result<Report>, before: Report, after: Report, res: Result<()>) {
    if spec.Ok? then res == Ok(()) && after == spec.value else res == Err(spec.error) && after == before
  }

  /** The edges of the life cycle. */
  predicate Edge(before: Status, after: Status) {
    || (before == Draft && after == Submitted)
    || (before == Submitted && after in {Approved, Rejected})
    || (before == Approved && after == Paid)
  }

  predicate Final(s: Status) { s in {Rejected, Paid} }

  /**
   The status alone says which of the submitted, approved, rejected and paid fields are set; a report
   is never both approved and rejected, the submitter is the owner, and neither the decider nor the
   payer is the owner.
   */
  predicate FieldsMatchStatus(r: Report) {
    && (r.submittedBy.Some? <==> r.status != Draft) && (r.submittedAt.Some? <==> r.status != Draft)
    && (r.approvedBy.Some? <==> r.status in {Approved, Paid}) && (r.approvedAt.Some? <==> r.status in {Approved, Paid})
    && (r.approvalComment.Some? ==> r.status in {Approved, Paid})
    && (r.rejectedBy.Some? <==> r.status == Rejected) && (r.rejectedAt.Some? <==> r.status == Rejected)
    && (r.rejectionReason.Some? <==> r.status == Rejected)
    && (r.rejectionReason.Some? ==> Text.TrimSpace(r.rejectionReason.value) != "")
    && (r.paidBy.Some? <==> r.status == Paid) && (r.paidAt.Some? <==> r.status == Paid)
    && (r.submittedBy.Some? ==> r.submittedBy.value == r.owner)
    && (r.approvedBy.Some? ==> r.approvedBy.value != r.owner)
    && (r.rejectedBy.Some? ==> r.rejectedBy.value != r.owner)
    && (r.paidBy.Some? ==> r.paidBy.value != r.owner)
  }

  function Amounts(items: seq<Item>): int {
    if items == [] then 0 else Amounts(items[..|items| - 1]) + items[|items| - 1].amount
  }

  /** The entity fetched by a service: its methods change it in place. */
  class ExpenseReport {
    const reportId: Uuid
    const tenant: Uuid
    const owner: Uuid
    var title: string
    var periodStart: Date
    var periodEnd: Date
    var status: Status
    var total: int
    const reference: Option<Uuid>
    var submittedBy: Option<Uuid>
    var submittedAt: Option<Time>
    var approvedBy: Option<Uuid>
    var approvedAt: Option<Time>
    var approvalComment: Option<string>
    var rejectedBy: Option<Uuid>
    var rejectedAt: Option<Time>
    var rejectionReason: Option<string>
    var paidBy: Option<Uuid>
    var paidAt: Option<Time>
    const createdAt: Time
    const updatedAt: Time
    var deletedAt: Option<Time>

    constructor (id: Uuid, r: Report)
      ensures reportId == id && Row() == r
    {
      reportId := id;
      tenant, owner, title, periodStart, periodEnd := r.tenant, r.owner, r.title, r.periodStart, r.periodEnd;
      status, total, reference := r.status, r.total, r.reference;
      submittedBy, submittedAt := r.submittedBy, r.submittedAt;
      approvedBy, approvedAt, approvalComment := r.approvedBy, r.approvedAt, r.approvalComment;
      rejectedBy, rejectedAt, rejectionReason := r.rejectedBy, r.rejectedAt, r.rejectionReason;
      paidBy, paidAt := r.paidBy, r.paidAt;
      createdAt, updatedAt, deletedAt := r.createdAt, r.updatedAt, r.deletedAt;
    }

    function Row(): Report
      reads this
    {
      Report(tenant, owner, title, periodStart, periodEnd, status, total, reference,
             submittedBy, submittedAt, approvedBy, approvedAt, approvalComment,
             rejectedBy, rejectedAt, rejectionReason, paidBy, paidAt, createdAt, updatedAt, deletedAt)
    }

    method Submit(actor: Uuid, items: seq<Item>, hasApprover: bool, now: Time) returns (res: Result<()>)
      modifies this
      ensures Applied(ToSubmitted(old(Row()), actor, |items|, Amounts(items), hasApprover, now), old(Row()), Row(), res)
    {
      if status != Draft {
        return Err(InvalidStateTransition);
      }
      if |items| == 0 {
        return Err(EmptyReportSubmission);
      }
      if !hasApprover {
        return Err(NoApproverInTenant);
      }
      var sum := 0;
      for i := 0 to |items|
        invariant sum == Amounts(items[..i])
      {
        assert items[..i + 1][..i] == items[..i];
        sum := sum + items[i].amount;
      }
      assert items[..|items|] == items;
      status := Submitted;
      submittedAt := Some(now);
      submittedBy := Some(actor);
      total := sum;
      return Ok(());
    }

    method Approve(actor: Uuid, comment: Option<string>, now: Time) returns (res: Result<()>)
      modifies this
      ensures Applied(ToApproved(old(Row()), actor, comment, now), old(Row()), Row(), res)
    {
      if status != Submitted {
        return Err(InvalidStateTransition);
      }
      if actor == owner {
        return Err(SelfApprovalNotAllowed);
      }
      status := Approved;
      approvedAt := Some(now);
      approvedBy := Some(actor);
      approvalComment := comment;
      return Ok(());
    }

    method Reject(actor: Uuid, reason: string, now: Time) returns (res: Result<()>)
      modifies this
      ensures Applied(ToRejected(old(Row()), actor, reason, now), old(Row()), Row(), res)
    {
      if status != Submitted {
        return Err(InvalidStateTransition);
      }
      if actor == owner {
        return Err(SelfApprovalNotAllowed);
      }
      if Text.TrimSpace(reason) == "" {
        return Err(MissingRejectionReason);
      }
      status := Rejected;
      rejectedAt := Some(now);
      rejectedBy := Some(actor);
      rejectionReason := Some(reason);
      return Ok(());
    }

    method MarkAsPaid(actor: Uuid, now: Time) returns (res: Result<()>)
      modifies this
      ensures Applied(ToPaid(old(Row()), actor, now), old(Row()), Row(), res)
    {
      if status != Approved {
        return Err(InvalidStateTransition);
      }
      if actor == owner {
        return Err(SelfPaymentNotAllowed);
      }
      status := Paid;
      paidAt := Some(now);
      paidBy := Some(actor);
      return Ok(());
    }

    method Delete(now: Time) returns (res: Result<()>)
      modifies this
      ensures res == (if old(status) == Draft then Ok(()) else Err(ReportNotDeletable))
      ensures Row() == if res.Ok? then old(Row()).(deletedAt := Some(now)) else old(Row())
    {
      if status != Draft {
        return Err(ReportNotDeletable);
      }
      deletedAt := Some(now);
      return Ok(());
    }

    method CanEdit() returns (res: Result<()>)
      ensures res == (if status == Draft then Ok(()) else Err(ReportNotEditable))
    {
      if status != Draft {
        return Err(ReportNotEditable);
      }
      return Ok(());
    }
  }

  /** The row with its decision columns taken from another row: what a transition may change. */
  predicate DiffersInDecision(r: Report, next: Report) {
    r == next.(status := r.status, total := r.total,
               submittedBy := r.submittedBy, submittedAt := r.submittedAt,
               approvedBy := r.approvedBy, approvedAt := r.approvedAt, approvalComment := r.approvalComment,
               rejectedBy := r.rejectedBy, rejectedAt := r.rejectedAt, rejectionReason := r.rejectionReason,
               paidBy := r.paidBy, paidAt := r.paidAt)
  }
}
