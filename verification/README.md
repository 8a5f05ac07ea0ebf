# Expense reports: a verified model

A Dafny 4.11 model of a multi-tenant expense-report service (Go, PostgreSQL, a TypeScript browser
client), and proofs about all its runs. `dafny verify dfyconfig.toml` checks everything.

## What is modelled

**The store.** `Domain` has the report entity whose methods change it in place, `Tables` the rows and the
meaning of each SQL statement, `Persistence` the tables as mutable state with one method per statement and
the repositories built from them, `Services` the service methods, their routing and the transaction around a
request. `Requests.Serve` says what one committed request does to the tables. Every service method is proved to answer
exactly as it says when no statement fails, and as it says or `Internal` when one does;
`Services.HandleInTransaction` is one step of `Runs`.
`Guards` says exactly which requests are served, in terms of rows seen beforehand. `Invariant` and `Runs` prove what
all runs keep, starting from empty tables; `History` and `Deletion` where every stored value comes from and which rows
are live, `Approvers` who can decide. `Isolation` compares two runs.

`RoundTrips` relates a request to the next one, and `Resubmission` says what a resubmission carries over.

**What is read.** `Ordering`, `Paging`, `TiedPages`, `Listings` and `Dashboard` are the ordered, paged and
counted views of the tables, and `TiedRun` a run that ends in a list with a tie.

**Optimistic locking.** `Locking` is a finer model of one report: any number of clients whose reads and
guarded writes interleave under READ COMMITTED. `Totals` goes further down, to the statements that
recompute a report's total. `Serial` ties both to the requests they split up.

**Sessions.** `RefreshServer` interleaves the read, revoke and insert statements of refreshes, `RefreshClient`
composes it with the browser's single `refreshPromise`, and `TokenLineage` follows token families through
histories of calls served one after the other.

**At the edge.** `RateLimit` is the token-bucket store with background eviction, `ClientAddress` the choice of
the client address from `X-Forwarded-For`.

## Assumptions

- One authenticated request is one atomic step of `Runs`, because the middleware commits its transaction below
  status 400 and rolls it back otherwise. Object storage is outside the transaction, and COMMIT may fail after the answer was sent.
- Any SQL statement or upload may fail; the ghost counter `faults` says whether one did. A failure, a violated CHECK and an `int` overflow are all `Internal`.
- A list of more than 2^31 - 1 rows fails in its count query (`COUNT(*)::int`).
- Generated identifiers are new. `http.DetectContentType` names JPEG, PNG or PDF only for bytes with that signature.
- Users and memberships are provisioned and then never changed: no repository method changes a role.
- In `Locking`, distinct transactions get distinct `now()` stamps; this is what makes `updated_at` a version.
- In `Totals`, as in PostgreSQL, a statement sees what was committed when it started, also after waiting for a row;
  inserting an item does not wait for its report's row.
- Amounts are converted to `int32` as Go does. Dates are numbered 31 to a month, and times are numbers.
- In `RateLimit`, a lookup and its decision are one step, cleanup ticks are atomic, and arithmetic is exact.
- Refresh tokens are opaque and cannot be forged; a token's claimed user is the user of its row.

## Where the code and its words differ

- Amounts are validated as positive only; on creation and on update alike, those above 2^31 - 1 and only those are
  stored as other amounts (`Resubmission.AmountStored`, `Resubmission.AmountUpdated`, `Resubmission.AmountMisstored`).
- The own, pending and payable lists are ordered by a time alone. Their pages show every row once, whatever order
  tied rows come in, exactly when no tie crosses a page end (`TiedPages.ShownOnceIffNoTieAtPageEnd`). Submission times
  come from the application clock, and a reachable state has such a tie (`TiedRun.PendingCanTie`).
- The rate limit is described as `limit` requests per window; a window can see at least twice that
  (`RateLimit.BoundIsAttained`).
- Item changes and deletion check the draft status on an earlier read and are written without a guard, so the freeze
  after submission is a property of atomic requests, not of interleaved ones (`Locking.StaleEditSlipsIn`).
- The stored total is recomputed after every item request. Interleaved requests can leave an amount out of it
  (`Totals.AmountCanBeLost`); it is right exactly when the last request's statement saw the sum committed before it
  (`Totals.TotalIsSumIffSawSum`).
- A reused refresh token is to end all the user's sessions. It does exactly when the sweep's statement, whose failure is
  only logged, went through or no session was left (`TokenLineage.FailedSweepLeavesSessions`).
- Refresh tokens rotate, so that each is good for one exchange. Two exchanges of one token can both hand out a new
  one exactly when both once stood between their check and their revocation (`RefreshServer.UsedTwiceIffBothChecked`).
- A password reset revokes every session, but a refresh already past its check survives it (`RefreshServer.ResetEndsSessions`).
- Of a forwarded-for header in several lines the first is read. The address selected is the proxies' own for every client
  exactly when every proxy extends that line (`ClientAddress.ClientLinesAreIgnored`).

## Model

| member | source | states |
|---|---|---|
| Domain.ExpenseReport.Submit | internal/domain/report.go:18-41 | the in-place submission does what `ToSubmitted` says with the sum of the items, and on an error changes nothing |
| Services.CreateReport | internal/service/report_service.go:47-105 | statement by statement, the insert, copy loop and reload answer and change the tables exactly as the one-step specification says when no statement fails; when one does, they do so or answer `Internal` |
| Services.SubmitReport | internal/service/report_service.go:240-280 | same for submission: version check, approver check, item listing, guarded update |
| Services.UpdateItem | internal/service/item_service.go:100-146 | same for an item edit with its versioned update and total recomputation |
| Services.UploadAttachment | internal/service/attachment_service.go:56-118 | same for uploads, where the upload may fail too; the storage object appears exactly when the upload went through, whether or not the row follows |
| Services.HandleInTransaction | internal/middleware/tenant.go:31-70 | a whole request is one step of `Runs`; when nothing failed, the specified success is committed and the specified error answered; a request that does not commit leaves every table as it was, and an error is the specified one unless something failed: BEGIN, set_config, a statement, an upload, COMMIT, or the handler by a panic |
| Guards.CreationServed | internal/service/report_service.go:47-72 | a new report is served if and only if its period is possible and its reference, if any, is the actor's own rejected report; each failing guard gives its own error |
| Guards.UpdateServed | internal/service/report_service.go:183-216 | served if and only if found, own, draft, at the given version, with a possible period; the first failing guard names the error |
| Guards.DeletionServed | internal/service/report_service.go:220-236 | served if and only if found, own and draft |
| Guards.SubmissionServed | internal/service/report_service.go:240-280 | a submission is served if and only if the report is found, own, at the given version, a draft, has a live item, and its tenant an approver, with the specified error for each failing guard |
| Guards.ApprovalServed | internal/service/workflow_service.go:161-188 | served if and only if the actor is an approver and not the owner, and the report is found, at the given version and submitted |
| Guards.RejectionServed | internal/service/workflow_service.go:191-218 | likewise, with a reason that has a character other than white space |
| Guards.PaymentServed | internal/service/workflow_service.go:275-302 | served if and only if the actor is in accounting and not the owner, and the report is found, at the given version and approved |
| Guards.ItemCreationServed | internal/service/item_service.go:46-89 | an item is served if and only if its report is editable, its category active and the tenant's or everybody's, and its amount, as converted, positive and within the total's range |
| Guards.ItemUpdateServed | internal/service/item_service.go:100-146 | likewise for an item that is there, at its given version |
| Guards.ItemDeletionServed | internal/service/item_service.go:154-179 | an item that is there under an editable report can always be deleted |
| Guards.UploadServed | internal/service/attachment_service.go:56-92 | a file is taken if and only if it is at most 5 MB and starts with the bytes of its claimed type, under a live item of an editable report |
| Guards.AttachmentDeletionServed | internal/service/attachment_service.go:226-250 | served if and only if the attachment is there under an editable report |
| Invariant.ServeTouches | internal/service/report_service.go:183-280 | every committed request changes one report of the actor's tenant and the rows under it, moves it along at most one edge, never touches a final report, and leaves that report consistent |
| Invariant.ServeKeepsInv | internal/repository/postgres/item_repo.go:26-145 | every kind of request keeps the whole cross-table invariant |
| Runs.Reachable | internal/middleware/tenant.go:46-69 | tables, reference graph and object storage are consistent in every state of every run |
| Runs.StoredTotalIsItemSum | internal/repository/postgres/sqlcgen/expense_reports.sql.go:961-973 | in every reachable state a live report's stored total is the sum of its live items' amounts |
| Runs.SubmitRecomputesStoredTotal | internal/domain/report.go:29-39 | the total computed by a submission, which the status update never writes, always equals the stored one that overwrites it |
| Runs.LiveRowsNest | internal/repository/postgres/item_repo.go:120-145 | a live attachment implies a live item, a live item a live report, all of one tenant |
| Runs.AttachmentsAreStored | internal/service/attachment_service.go:56-118 | no dangling rows: every attachment row has its object under its own key, with the row's size, at most 5 MB, and the signature of the row's type |
| Runs.DutiesAreSeparate | internal/domain/report.go:35-112 | the status determines which decision fields are set; owner, decider and payer are pairwise different people |
| Runs.ReferencesAreSound | internal/service/report_service.go:49-62 | resubmission references point to live rejected reports of the same tenant and owner, and never form a cycle |
| Runs.FrozenForever | internal/service/item_service.go:59-61 | after a report leaves draft, its title, period, total, live items and live attachments are the same in every later state and it is never deleted |
| Runs.PaidAmountIsSubmittedSum | internal/repository/postgres/sqlcgen/expense_reports.sql.go:878-896 | the amount carried to payment is the sum of the non-empty items present when the report was submitted |
| Approvers.SubmittedHasApprover | internal/domain/report.go:15-26 | in every reachable state a report that has left draft belongs to a tenant with an approver |
| Approvers.ApprovableIffOtherApprover | internal/service/workflow_service.go:161-188 | a submitted report can be approved by somebody if and only if its tenant has an approver other than its owner |
| History.ReportsAreCreated | internal/repository/postgres/report_repo.go:26-50 | in every run a report exists if and only if a committed request created it, and shows that request's actor, tenant, reference and time |
| History.TermsAreEntered | internal/service/report_service.go:183-216 | title and period are those of the last committed request that entered them |
| History.DecisionsAreEntered | internal/domain/report.go:18-113 | the marks of a submission, approval, rejection or payment are there if and only if a committed request made that decision, and are forever that request's actor, time, comment or reason |
| History.ItemsAreCreated | internal/service/item_service.go:46-89 | an item exists if and only if a committed request entered it, or copied it in a resubmission |
| History.ItemsAreEntered | internal/service/item_service.go:100-146 | an item holds the date, amount (up to 2^31 - 1), category and description of the last committed request that entered it, or of the item it was copied from |
| History.FilesAreEntered | internal/service/attachment_service.go:95-118 | an attachment exists if and only if a committed upload stored it, and describes that file |
| History.FilesStay | internal/service/attachment_service.go:95-110 | the stored file under an attachment's key is the one uploaded, in every later state |
| History.CategoriesAreOwn | internal/service/item_service.go:70-73 | no item ever has another tenant's category |
| Deletion.ReportLiveIffNotDeleted | internal/service/report_service.go:220-236 | in every run a report is live if and only if no committed request deleted it |
| Deletion.ItemLiveIffNotDeleted | internal/repository/postgres/item_repo.go:120-145 | an item is live if and only if no committed request deleted it or its report |
| Deletion.FileLiveIffNotDeleted | internal/service/attachment_service.go:226-250 | an attachment is live if and only if no committed request deleted it, its item or its report |
| Resubmission.ResubmissionCopiesContents | internal/service/report_service.go:77-102 | the new draft has the rejected report's items as a multiset of date, amount, category and description, the same total and no attachments; the source and everything under it stays as it was |
| Resubmission.AmountStored | internal/repository/postgres/item_repo.go:35-50 | a created item carries the requested amount if and only if it is at most 2^31 - 1 |
| Resubmission.AmountUpdated | internal/repository/postgres/item_repo.go:89-118 | so does an updated one |
| Resubmission.AmountMisstored | internal/domain/item.go:7-12 | a concrete accepted request whose stored amount is not the requested one |
| RoundTrips.DeleteUndoesCreate | internal/repository/postgres/item_repo.go:120-145 | deleting a just created item always succeeds and restores the live items, the attachments and the stored total |
| RoundTrips.DeleteUndoesUpload | internal/service/attachment_service.go:226-250 | deleting a just uploaded attachment restores the live attachments; neither request moves the report's version |
| RoundTrips.OldVersionsAreRefused | internal/service/report_service.go:199-204 | once a request on a report's row or items has committed, every request made from the earlier version is refused, whoever makes it |
| Isolation.NonInterference | internal/repository/postgres/sqlcgen/expense_reports.sql.go:267-272 | on two stores that look the same to a tenant, its request gives the same answer and stores that look the same to it |
| Isolation.OtherTenantsUntouched | internal/repository/postgres/sqlcgen/expense_items.sql.go:76-82 | a request changes nothing any other tenant can see |
| Isolation.RunSeenByTenant | internal/repository/postgres/sqlcgen/attachments.sql.go:58-65 | a whole run, seen from one tenant, is the run with all other tenants' requests removed, which can itself happen |
| Isolation.AnswerSeenByTenant | internal/service/item_service.go:46-89 | after any run a tenant's request is answered as if the other tenants did not exist |
| Isolation.ReadsSeenByTenant | internal/service/report_service.go:108-179 | opened reports, lists, counts and monthly totals depend on the tenant's own rows alone |
| Ordering.SortedUnique | internal/repository/postgres/sqlcgen/expense_reports.sql.go:317 | with a unique key there is only one list in descending order |
| Ordering.Sort | internal/repository/postgres/sqlcgen/expense_reports.sql.go:317 | repeated selection yields that list, with every row once |
| Paging.TakePage | internal/repository/postgres/report_repo.go:67-79 | the clamped limits, offset and int32 conversion give exactly the specified slice, or the error of a negative offset |
| Paging.PagesPartition | internal/service/report_service.go:426-443 | for a page size up to 100, pages 1 to total_pages joined are the list, and only an empty list has an empty page |
| Paging.PageShows | internal/repository/postgres/report_repo.go:67-79 | whatever numbers are asked for, a page within the list holds its 20 rows by default, 100 at most, starting where the pages before it end |
| Paging.AcceptedParameters | internal/handler/workflow.go:91-122 | the handlers accept exactly the page sizes 1 to 100 and the positive page numbers |
| Paging.AcceptedPagesPartition | internal/handler/workflow.go:106-122 | for every page size a handler accepts, the announced pages partition the list, also where the service passes the size on unclamped |
| Paging.FooterMatchesPage | frontend/src/components/ui/AppPaginationFooter.tsx:80-84 | the range "start - end" shown is the range of rows on the page |
| Paging.AnnouncedPagesCover | internal/service/workflow_service.go:67-84 | the service functions taken alone: without a clamp the announced pages cover the list if and only if the size is at most 100 or 100 rows a page are enough |
| TiedPages.ShownOnceIffNoTieAtPageEnd | internal/repository/postgres/sqlcgen/expense_reports.sql.go:641-650 | with an order by time alone, the separately queried pages show every row exactly once under all tie orders if and only if no two equal times stand across a page end; where one does, a row can be missing from all pages |
| TiedRun.PendingCanTie | internal/repository/postgres/sqlcgen/expense_reports.sql.go:449-458 | a run from empty tables in which two reports are submitted at one clock time, after which the pages of the pending list need not show each report once, and can miss one |
| Listings.ListAllReports | internal/service/report_service.go:141-179 | each answer is the asked page of the one ordered, filtered list, each row described field by field and with no submitter but its owner; it is given whenever no statement fails |
| Listings.AllReportsInOrder | internal/repository/postgres/sqlcgen/expense_reports.sql.go:309-319 | that list holds exactly the live reports asked for, later submissions first, unsubmitted ones last, ties by later creation and then greater identifier |
| Listings.ListAllPagesPartition | internal/repository/postgres/sqlcgen/expense_reports.sql.go:309-319 | the pages of any filtered list, for any page size asked, partition it; the count query equals its length |
| Listings.ViewableIsListed | internal/service/authorizer.go:44-72 | in every reachable state a report can be opened if and only if it stands on a list of the actor's role |
| Listings.WhoMayOpen | internal/service/authorizer.go:44-72 | a report opens to its owner, Admin and Accounting, and to approvers if it is pending or they decided it; to others it is not found or forbidden |
| Listings.ApproverSeesPages | internal/repository/postgres/sqlcgen/expense_reports.sql.go:449-458 | for an approver, what some page of the own, pending or processed list shows can be opened, each page queried separately with its own order of ties; the converse holds where no tie crosses a page end |
| Listings.OwnOrderedByCreation | internal/repository/postgres/sqlcgen/expense_reports.sql.go:641-650 | own reports stand latest creation first, however ties come |
| Listings.PendingOrderedBySubmission | internal/repository/postgres/sqlcgen/expense_reports.sql.go:449-458 | pending reports, which all have a submission time, stand latest submission first |
| Listings.ListProcessed | internal/service/workflow_service.go:91-136 | the loop with its name cache shows, row by row, the page of the ordered list with the actor's decision, and the list's pagination |
| Listings.ProcessedPagesPartition | internal/service/workflow_service.go:138-155 | for every page size accepted, the announced pages of the processed list partition it |
| Listings.ProcessedListIsSound | internal/repository/postgres/sqlcgen/expense_reports.sql.go:516-524 | every processed row has a real decision of the actor, its time and a status that fits, and the rows descend by the time shown and then the identifier, although SQL sorts by COALESCE |
| Dashboard.StatusesAddUp | internal/repository/postgres/report_repo.go:243-270 | the grouped counts of the five statuses add up to the number of live reports |
| Dashboard.UsersAddUp | internal/service/dashboard_service.go:159-176 | the tenant's count of a status is the sum of its users' own counts |
| Dashboard.CountByStatus | internal/repository/postgres/report_repo.go:243-270 | the loop over the grouped rows builds exactly the grouped counts |
| Dashboard.PendingApprovalCount | internal/service/dashboard_service.go:122-142 | the difference of two grouped counts is the number of pending rows that are not the approver's own, hence never negative; it is answered whenever no statement fails and the counts fit |
| Dashboard.MonthlySummaryIsPaidItems | internal/repository/postgres/sqlcgen/expense_reports.sql.go:714-724 | in every reachable state the monthly totals are, month by month and together, the item amounts of exactly the paid reports in the window; the summary fails exactly when a month does not fit the cast |
| Dashboard.PaidLately | internal/repository/postgres/sqlcgen/expense_reports.sql.go:714-724 | the window holds exactly the tenant's paid reports that start in one of the last months asked for, or later |
| Locking.CommitIsCurrent | internal/repository/postgres/sqlcgen/expense_reports.sql.go:878-896 | under any interleaving a guarded write that commits was computed from the committed row, and a submission from the committed, non-empty items |
| Locking.StatusesFormPath | internal/domain/report.go:18-113 | under any interleaving the committed statuses form a path of the life cycle |
| Locking.WhoseEvents | internal/service/authorizer.go:33-90 | under any interleaving submissions, edits, item changes and deletions are the owner's, and approvals, rejections and payments never |
| Locking.OneCommitPerVersion | internal/repository/postgres/sqlcgen/expense_reports.sql.go:819-829 | after any write of the row, item changes included, no guarded write computed from the overwritten version commits; of all guarded writes computed from one version at most one does |
| Locking.FrozenIffEditsMeetDraft | internal/repository/postgres/sqlcgen/expense_reports.sql.go:800-807 | under interleaving, contents are frozen after draft if and only if every effective item change or deletion finds the report in draft at its commit |
| Locking.GuardedEditsFreeze | internal/repository/postgres/sqlcgen/expense_reports.sql.go:961-973 | a version guard on item changes and deletion would be enough for that, under any interleaving |
| Locking.StaleEditSlipsIn | internal/service/item_service.go:46-89 | as they are not, whatever one item request could do to a draft it can still do after the submission, with the total recomputed: the interleaving is given |
| Totals.TotalIsSumIffSawSum | internal/repository/postgres/sqlcgen/expense_reports.sql.go:961-973 | under any interleaving of creations, updates and deletions, the stored total is the sum of the items if and only if the statement of the last request to commit saw the sum committed just before it |
| Totals.AddedTotalIffSawItems | internal/repository/postgres/item_repo.go:26-58 | where items are only added, the total is right after a commit if and only if its statement saw every committed item, and is never too high |
| Totals.SumsAloneAreRight | internal/repository/postgres/sqlcgen/expense_reports.sql.go:961-973 | if each statement had the report's row to itself before taking its sum, the total would be right in every state of every interleaving |
| Totals.AmountCanBeLost | internal/repository/postgres/item_repo.go:26-58 | from any report, two interleaved item creations that both commit and leave the first amount out of the total |
| Serial.DecisionIsRequest | internal/repository/postgres/sqlcgen/expense_reports.sql.go:878-896 | a client of `Locking` that reads, decides and writes with nobody in between succeeds exactly when the request does, and leaves the same row |
| Serial.ItemRequestIsChange | internal/repository/postgres/item_repo.go:26-145 | creating, updating or deleting an item is one change of `Locking` and `Totals`: one row stored or dropped, and the total set to the sum |
| RefreshServer.RaceForksSession | internal/service/auth_service.go:244-304 | two refreshes with one token can both succeed on the server: the run is given |
| RefreshServer.UsedTwiceIffBothChecked | internal/service/auth_service.go:252-306 | in a run, two exchanges of one token can both issue a successor, from some state on without any further check, login or request, if and only if both once were past their check and not yet at their revocation |
| RefreshServer.ResetEndsSessions | internal/service/auth_service.go:470-497 | after a committed reset a live token can come up without a login if and only if some refresh was past its check |
| RefreshClient.Browser.RefreshAccessToken | frontend/src/api/client.ts:47-55 | joins the refresh under way or starts one, as the tab's transition says |
| RefreshClient.Browser.FinishRefresh | frontend/src/api/client.ts:26-44 | a success stores the new token, any failure clears the store, and the promise settles accordingly |
| RefreshClient.Browser.ContinueCall | frontend/src/api/client.ts:89-104 | the leader clears the promise; each waiting call fetches again or gives up |
| RefreshClient.ContinuedAsRefreshed | frontend/src/api/client.ts:89-107 | a waiting call whose refresh succeeded fetches a second time, one whose refresh failed is over after one fetch; no other call, token or promise changes |
| RefreshClient.UnauthorizedWaits | frontend/src/api/client.ts:47-55 | a 401 makes the call wait for the refresh under way, or start one, which fails at once without a stored token |
| RefreshClient.TokenFollowsAnswers | frontend/src/api/client.ts:26-44 | a delivered success stores the issued token, any failure clears it, and nothing else but a login changes it |
| RefreshClient.FetchesTwiceIffRefreshed | frontend/src/api/client.ts:79-112 | in every run a call fetches twice if and only if the refresh it waited for brought a new token before it went on |
| RefreshClient.OneRefreshAtATime | frontend/src/api/client.ts:17-55 | in the composed system at most one refresh is under way |
| RefreshClient.NoTokenIsReused | internal/service/auth_service.go:252-261 | no token is presented twice, and the reuse branch is unreachable |
| RefreshClient.SentTokenIsUnspent | frontend/src/stores/auth.ts:63-92 | the token the tab sends has never been presented and is not revoked |
| RefreshClient.AtMostTwoFetches | frontend/src/api/client.ts:79-112 | no call fetches its own path more than twice |
| RefreshClient.WaitingCallsCanContinue | frontend/src/api/client.ts:47-55 | no call waits for a promise that nobody can settle |
| TokenLineage.TokenService.Refresh | internal/service/auth_service.go:228-308 | statement by statement, the service makes the ledger's full transition when none fails, and otherwise the transition with the failures that occurred, or none at all |
| TokenLineage.IssuedTokenIsLive | internal/repository/postgres/sqlcgen/refresh_tokens.sql.go:13-24 | in every history an issued token is new, stored, unrevoked, and of the user and login it continues |
| TokenLineage.AnswerFollowsRow | internal/service/auth_service.go:241-306 | a completed refresh issues if and only if its token is stored and live, and revokes it; unknown and revoked tokens have their own errors, on logout too; a login always issues |
| TokenLineage.LiveUntilEnded | internal/service/auth_service.go:313-345 | a live token stays live exactly until a refresh or logout with it, a reset of its user, or a sweep of its user |
| TokenLineage.OneLiveTokenPerFamily | internal/service/auth_service.go:263-304 | in every serial history a login's family has at most one unrevoked token, its newest |
| TokenLineage.RevocationIsFinal | internal/repository/postgres/refresh_token_repo.go:52-74 | tokens are never forgotten and revocation is monotone |
| TokenLineage.ExchangedAtMostOnce | internal/service/auth_service.go:252-306 | each refresh token yields a new pair at most once in a history |
| TokenLineage.SignedOutUntilLogin | internal/service/auth_service.go:470-497 | after a committed reset or a successful sweep the user has no live token until the next login, whatever else happens |
| RateLimit.Store.Hit | internal/middleware/ratelimit.go:43-54 | lookup, lazy creation and spending on shared mutable entries follow the bucket function and change no other key |
| RateLimit.Store.Cleanup | internal/middleware/ratelimit.go:57-69 | the deletion loop removes exactly the entries last seen before the cutoff |
| RateLimit.EvictionIsInvisible | internal/middleware/ratelimit.go:32-69 | on every schedule the store decides every request as one that never evicts |
| RateLimit.AdmissionBound | internal/middleware/ratelimit.go:115-128 | after any history, any interval of length T admits at most limit + T / (window / limit) requests of a key |
| RateLimit.AdmittedIffBoundAllows | internal/middleware/ratelimit.go:32-54 | after any history, evictions included, a request is admitted if and only if, counted with the requests of its key admitted since any earlier one, it stays within limit + T / (window / limit) |
| RateLimit.FreeRequestsAreAdmitted | internal/middleware/ratelimit.go:32-40 | with a limit above the window in nanoseconds every request is admitted |
| RateLimit.TickEvictsIdle | internal/middleware/ratelimit.go:57-69 | a tick keeps exactly the keys seen within the last two windows |
| RateLimit.BoundIsAttained | internal/middleware/ratelimit.go:32-40 | the bound is reached for every T, and for one window it is at least twice the limit |
| ClientAddress.SplitJoins | internal/middleware/logger.go:120 | splitting cuts at every comma and nowhere else |
| ClientAddress.RemoteIP | internal/middleware/logger.go:110-140 | the appending loop and its fallbacks select the n-th usable part from the end of the header's first line, or the socket address |
| Text.TrimSpaceCuts | internal/middleware/logger.go:121 | trimming takes white space off both ends and nothing else, and leaves none there |
| Text.TrimSpaceOf | internal/middleware/logger.go:121 | a text that neither starts nor ends with white space is what trimming leaves of it, however much is put around it |
| ClientAddress.ClientTextIsIgnored | internal/middleware/logger.go:110-140 | for every text the client sent, the address selected is the first of the n the proxies appended, without the white space written around it |
| ClientAddress.ClientLinesAreIgnored | internal/middleware/logger.go:117-140 | whatever lines a client sends, the address selected is the one the outermost proxy saw, if and only if every proxy extends the first line |
| ClientAddress.TooFewPartsFallBack | internal/middleware/logger.go:128-136 | for any header, blank parts included: with fewer usable parts than proxies, an absent header or no proxy the socket address is used |

## Left out

- READ COMMITTED interleavings of whole runs: the claims of `Runs` are for atomic requests; what interleaving does to one report's status, freeze and total is `Locking` and `Totals`.
- JWT signing and verification, Argon2id, SHA-256, UUID generation: foreign calls, taken as opaque tokens and new identifiers. Token expiry is not modelled; an expired token is refused before any table is read.
- Real S3, pgx, connection pools and row-level security: storage and tables are maps, and isolation is proved of the WHERE clauses themselves.
- HTTP handlers and request validation (but for the page parameters), error-to-status mapping, CORS, security headers, configuration: plumbing. Text length limits and foreign keys appear only as statements that may fail.
- Assembling detail answers (names of people and categories, presigned download links): a response here is the stored row.
- Downloading and listing attachments, tenant and member lists, recent reports, payable list: single queries that would only add easy members.
- The loops of `ListMyReports`, `ListPendingReports` and `ListPayableReports`, which repeat those of the two lists modelled; their selections appear as sets, or as any enumeration of them.
- The case-insensitive name filter (ILIKE) of the workflow lists, date formatting and time zones.
- Items created in one transaction tie in `created_at`; the identifiers given to copies are therefore listed by the item copied, which fixes no order.
- RefreshClient.NoTokenIsReused: logout, password reset, page reload and a second tab during a refresh are not part of the composition. The access token and `sessionStorage` are not modelled.
- TokenLineage.SignedOutUntilLogin: calls are served one after the other; what interleaving does to a reset is `RefreshServer.ResetEndsSessions`.
- TokenLineage.ExchangedAtMostOnce: likewise for serial calls; interleaved, the exact condition is `RefreshServer.UsedTwiceIffBothChecked`.
- Locking.GuardedEditsFreeze: one direction only, since an edit on a moved version that still meets the draft does no harm; the exact condition is `Locking.FrozenIffEditsMeetDraft`.
- RateLimit.AdmissionBound: needs a price of at least one nanosecond, that is `limit` at most `window`; beyond that the code's rate is infinite (`RateLimit.FreeRequestsAreAdmitted`).
- Rate-limit headers, the gap between looking up a bucket and using it, and floating-point rounding inside `x/time/rate`.
- Frontend pages, forms and query hooks; seed data, whose rows bypass the transitions.
