# Document and ingestion lifecycle, modelled in Dafny

This project models the core of a document-management service: the document
store (`DocumentsService`), the ingestion engine (`IngestionService`) and the
user store (`UsersService`). Each service is a Dafny class whose repositories
are maps from id to record. Each operation is a method whose contract gives
the result and the new state of the tables in terms of the old ones.

- `common.dfy`: option and result types, the error kinds the services throw (NotFound, Forbidden, BadRequest, Conflict, and InternalError for a TypeError), roles and the request's actor.
- `paging.dfy`: `skip = (page - 1) * limit`, `take = limit`, defaulting to page 1 and limit 10. It proves that consecutive pages tile the listing.
- `entities.dfy`: the `Document` and `IngestionProcess` records and their status enumerations, which default to `Pending`. It also states the process life cycle as a step relation.
- `documents.dfy`: the document store. It covers create, lookup with NotFound checked before Forbidden, the mutation rules for Viewer, Editor and Admin, partial update, delete with file removal, the unauthorised status setter and scoped listing.
- `ingestion.dfy`: the ingestion engine. It covers guarded creation of a run, lookup, cancellation, scoped listing and the worker step. The worker is an explicit method here. The source launches it without awaiting it.
- `users.dfy`: the user store. It covers registration with an e-mail conflict check and default role, lookups without the password, partial update, delete and password change.
- `scenarios.dfy`: client runs built on fresh stores. They show what callers can conclude from the contracts alone.

Environment inputs are parameters:
- the clock (`now`, `startedAt`, `completedAt`);
- the uuid file name of an upload (`generatedName`);
- bcrypt's salted hash of a password;
- the text extractor (`extract: string -> Extraction`, which may fail);
- the database's sort order for list queries (`order`, every stored id once).

bcrypt's comparison is the `passwordMatches` function that a `UsersService` is built with. Record ids are counters, standing in for database-generated uuids.

The controllers restrict create, update, delete and cancel to Admin and Editor (`src/documents/documents.controller.ts:35,56,66`, `src/ingestion/ingestion.controller.ts:29,51`). `DocumentsService.Create`, `IngestionService.CreateIngestionProcess` and `IngestionService.CancelProcess` carry that restriction as `requires actor.role != Viewer`, because the services themselves do not check it. `Update` and `Delete` of documents check the Viewer role inside the service, so they have no such precondition. For them, the model proves that a Viewer is always refused.

Where the design description and the code disagree, the model follows the code:
- the duplicate-run check looks only for a `Running` process, not a `Pending` one;
- state conflicts and the ingestion permission error are `BadRequest`, not `Conflict` or `Forbidden`;
- there is no per-document lock;
- the worker does not check whether a process is already terminal before writing to it;
- a user's wrong current password is `Conflict`.

The code does not maintain "a document is `Processing` exactly when one active run refers to it". `Scenarios.TwoActiveRunsOfOneDocument` exhibits two active runs of one document. So the model proves per-operation contracts, not that invariant.

## Model

| member | source | states |
|---|---|---|
| `Paging.PageOf` | src/documents/documents.service.ts:93-94 | the page has at most `limit` rows, and its row i is row `(page-1)*limit + i` of the listing |
| `Paging.FirstPagesArePrefix` | src/ingestion/ingestion.service.ts:106-107 | pages 1..n read in turn give exactly the first `n*limit` rows: nothing skipped, nothing repeated |
| `Paging.NextPageStart` | src/documents/documents.service.ts:93-94 | each page starts `limit` rows after the page before it |
| `Paging.ListsEachOnceSize` | src/users/users.service.ts:72-84 | a sort order that lists every row of a table once is exactly as long as the table |
| `Paging.RowIsOnItsPage` | src/users/users.service.ts:71-84 | every row k of a listing is on page `k / limit + 1` at position `k % limit` |
| `Entities.LifeCycleShape` | src/entities/ingestion-process.entity.ts:11-16 | each status is either active (Pending, Running) or terminal (Completed, Failed); no step leaves a terminal status |
| `Documents.Patched` | src/documents/documents.service.ts:131-135 | a patch never changes the id, creator, file path, file name, MIME type or size |
| `Documents.PatchedFieldwise` | src/documents/documents.service.ts:131-135 | each patchable field takes the patch's value when it is non-null and keeps its old value otherwise |
| `Documents.PatchedIdempotent` | src/documents/documents.service.ts:131-135 | an all-null patch is the identity; applying a patch twice equals applying it once |
| `Documents.DocumentsService.Create` | src/documents/documents.service.ts:33-54 | writes the upload under `uploads/documents`; adds exactly one new record, owned by the actor, with status Pending and no extracted text |
| `Documents.DocumentsService.FindById` | src/documents/documents.service.ts:101-117 | NotFound exactly when the id is absent, whoever asks; Forbidden exactly when the document exists and the actor is neither Admin nor its creator; otherwise the stored record |
| `Documents.DocumentsService.AuthorizeMutation` | src/documents/documents.service.ts:119-129 | succeeds exactly for an Admin, or for an Editor who created the document; always fails for a Viewer; an existing document is refused with Forbidden and a missing one with NotFound |
| `Documents.DocumentsService.Update` | src/documents/documents.service.ts:119-139 | after the mutation check, stores and returns the patched record; on refusal the table is unchanged |
| `Documents.DocumentsService.Delete` | src/documents/documents.service.ts:141-161 | after the mutation check, removes the document's file and then exactly that record; on refusal nothing changes |
| `Documents.DocumentsService.UpdateStatus` | src/documents/documents.service.ts:163-172 | NotFound for a missing id; otherwise only `status` changes |
| `Documents.DocumentsService.Select` | src/documents/documents.service.ts:72-89 | keeps exactly the documents in the actor's scope that match the status filter and, for an Admin only, the creator filter |
| `Documents.DocumentsService.SelectAppend` | src/documents/documents.service.ts:72-89 | filtering a concatenation of listings filters each in turn, so the filter keeps the database's order |
| `Documents.DocumentsService.SelectKeepsOrder` | src/documents/documents.service.ts:72-89 | a matching entry at position i of the order is the filtered listing's row numbered by the matches before it |
| `Documents.DocumentsService.SelectCount` | src/documents/documents.service.ts:72-89 | over an order without repeats, the filter keeps exactly one row per matching id |
| `Documents.DocumentsService.SelectCountsMatches` | src/documents/documents.service.ts:72-89 | over an order of the whole table, the filtered listing is as long as the set of matching stored documents |
| `Documents.DocumentsService.FindAll` | src/documents/documents.service.ts:56-99 | the total is the number of matching stored documents; the page is the `skip`/`take` slice of the order-preserving filtered listing, with its exact length; every row is stored and matches |
| `Documents.DocumentsService.ListingIsOwnForNonAdmin` | src/documents/documents.service.ts:72-74 | a non-Admin's listing holds only documents it created |
| `Documents.DocumentsService.ReadAgreesWithListing` | src/documents/documents.service.ts:101-117 | a stored document is in the actor's unfiltered listing exactly when FindById returns it |
| `Ingestion.TransitionsFollowLifeCycle` | src/ingestion/ingestion.service.ts:148-150 | start, finish, abort and cancel are life-cycle steps; cancellation records the fixed message and the completion time; finishing records the result |
| `Ingestion.IngestionService.CreateIngestionProcess` | src/ingestion/ingestion.service.ts:31-75 | fails like the document lookup; fails with BadRequest, creating nothing, if the document is Processing or one of its runs is Running; otherwise adds exactly one Pending process for the document, returns it, and sets the document to Processing |
| `Ingestion.IngestionService.FindByIdAsWritten` | src/ingestion/ingestion.service.ts:114-134 | as written: NotFound for a missing id; any other non-Admin request fails with an internal error |
| `Ingestion.IngestionService.FindById` | src/ingestion/ingestion.service.ts:120-133 | NotFound exactly when the id is absent; a BadRequest permission error exactly when the actor is not Admin and did not create the process's document; an Admin always gets an existing process |
| `Ingestion.IngestionService.FindByIdAsWrittenRejectsOwner` | src/ingestion/ingestion.service.ts:124-131 | for an Editor who owns the document, the intended lookup returns the process but the code as written fails |
| `Ingestion.IngestionService.CancelProcess` | src/ingestion/ingestion.service.ts:136-158 | on the corrected lookup `FindById`: fails with its error; a terminal process is refused with BadRequest, and a process whose document is gone with an internal error (reading the missing document's id throws), each changing nothing; otherwise the active process becomes Failed with "Process cancelled by user" and a completion time, and its document becomes Pending |
| `Ingestion.IngestionService.CancelProcessAsWritten` | src/ingestion/ingestion.service.ts:136-158 | the same cancellation on the lookup as written: every non-Admin cancelling a stored process gets an internal error and nothing changes |
| `Ingestion.WorkerStepOutcome` | src/ingestion/ingestion.service.ts:171-206 | a worker run on a stored process with a document leaves process and document in matching terminal statuses, one step from Running; on success the document's text is the result's; no other record changes |
| `Ingestion.IngestionService.ProcessDocument` | src/ingestion/ingestion.service.ts:160-208 | a missing process changes nothing; on successful extraction the document becomes Completed with the text and the process Completed with start time, completion time and result; on failure the process becomes Failed with the error's message and the document Failed; the status the process was in is never consulted |
| `Ingestion.IngestionService.ProcessDocumentChecked` | src/ingestion/ingestion.service.ts:171-191 | corrected worker: a terminal process and all records are left unchanged; a missing or active process gets exactly the worker step of ProcessDocument on both tables, and an active one ends in a terminal status reachable by life-cycle steps |
| `Ingestion.IngestionService.Select` | src/ingestion/ingestion.service.ts:92-102 | keeps exactly the processes of documents the actor created (all of them for an Admin) that match the document and status filters |
| `Ingestion.IngestionService.SelectAppend` | src/ingestion/ingestion.service.ts:92-102 | filtering a concatenation of listings filters each in turn, so the filter keeps the database's order |
| `Ingestion.IngestionService.SelectKeepsOrder` | src/ingestion/ingestion.service.ts:92-102 | a matching entry at position i of the order is the filtered listing's row numbered by the matches before it |
| `Ingestion.IngestionService.SelectCount` | src/ingestion/ingestion.service.ts:92-102 | over an order without repeats, the filter keeps exactly one row per matching id |
| `Ingestion.IngestionService.SelectCountsMatches` | src/ingestion/ingestion.service.ts:92-102 | over an order of the whole table, the filtered listing is as long as the set of matching stored processes |
| `Ingestion.IngestionService.FindAll` | src/ingestion/ingestion.service.ts:77-112 | the total is the number of matching stored processes; the page is the `skip`/`take` slice of the order-preserving filtered listing, with its exact length; every row is stored and matches |
| `Ingestion.IngestionService.ReadAgreesWithListing` | src/ingestion/ingestion.service.ts:92-94 | a stored process is in the actor's unfiltered listing exactly when FindById returns it |
| `Users.WithoutPassword` | src/users/users.service.ts:45-54 | the selected columns are the stored user minus its password |
| `Users.Patched` | src/users/users.service.ts:92-96 | a patch never changes the id or the stored password |
| `Users.PatchedFieldwise` | src/users/users.service.ts:92-96 | each patchable field takes the patch's value when it is non-null and keeps its old value otherwise; an all-null patch is the identity |
| `Users.UsersService.FindByEmail` | src/users/users.service.ts:64-68 | returns a stored user with that address, password included, and nothing exactly when no user has it |
| `Users.UsersService.Create` | src/users/users.service.ts:19-40 | Conflict and no new user when the address is taken; otherwise one new user with the hashed password and the given role (Viewer by default); the returned user has no password; keeps addresses unique |
| `Users.UsersService.FindById` | src/users/users.service.ts:42-62 | NotFound exactly when the id is absent; otherwise the stored user without its password |
| `Users.UsersService.FindAll` | src/users/users.service.ts:70-87 | for an order listing every user once: exactly `min(limit, users - skip)` users (none past the end), row i being user `(page-1)*limit + i` of the sort order without its password |
| `Users.UsersService.Update` | src/users/users.service.ts:89-98 | NotFound for a missing id; otherwise the stored user is patched and keeps its password hash; the returned user has no password |
| `Users.UsersService.Delete` | src/users/users.service.ts:100-103 | NotFound for a missing id; otherwise removes exactly that user |
| `Users.UsersService.ChangePassword` | src/users/users.service.ts:105-128 | NotFound for a missing user; Conflict, with the stored hash unchanged, when the current password does not match; otherwise stores the new hash, which the new password then matches |
| `Scenarios.IngestionRoundTrip` | src/ingestion/ingestion.service.ts:58-74 | upload, ingestion request, worker: the process ends terminal and the document in the matching status; on success the process's result carries the document's text |
| `Scenarios.SecondRequestIsRefused` | src/ingestion/ingestion.service.ts:40-42 | a second request right after a successful one fails with BadRequest and creates no process |
| `Scenarios.CancelThenRetry` | src/ingestion/ingestion.service.ts:148-157 | an Admin's cancellation of a Pending run yields Failed with the cancellation message and a Pending document, and a new request then succeeds |
| `Scenarios.TwoActiveRunsOfOneDocument` | src/ingestion/ingestion.service.ts:45-56 | the duplicate check accepts a second active run of a document when the first is Pending |
| `Scenarios.OwnerCannotCancelAsWritten` | src/ingestion/ingestion.service.ts:136-137 | as written, the owning Editor's cancellation fails with an internal error and the run stays Pending; the corrected cancellation succeeds |
| `Scenarios.CancelledRunIsRevived` | src/ingestion/ingestion.service.ts:171-191 | as written (cancelled by an Admin, the one role whose cancel goes through), the worker turns the cancelled run into Completed and its document into Completed |
| `Scenarios.CancelledRunStaysCancelled` | src/ingestion/ingestion.service.ts:136-158 | with the checked worker, a cancelled run stays Failed with the cancellation message and its document stays Pending |
| `Scenarios.RegisterThenChangePassword` | src/users/users.service.ts:19-40 | a registration succeeds with the default role and no returned password; a second one with the same address gets Conflict; the registered password then unlocks a password change |

## Left out

- Controllers, modules and dependency injection: only their role restrictions are kept, as preconditions.
- The auth service, the seed script and the database configuration: these are JWT signing, bcrypt calls and environment set-up.
- `src/entities/user.entity.ts` and `src/dto/auth.dto.ts` are not part of this model. So the user patch covers the columns the lookups select (e-mail, names, role, active flag), and a new user's `isActive` is taken to start `true`.
- Asynchrony: the worker is launched without being awaited, and requests can race. The model is sequential, and the worker runs only when a caller invokes it.
- Text search (`ILIKE` over title and description) and the choice of sort column and direction. The sort order is the `order` parameter.
- Paging.PageOf: a page below 1 or a limit below 1 is not modelled. Neither is validated, the database rejects a negative offset, and TypeORM treats a zero `take` as no limit.
- Documents.DocumentsService.FindAll: requires page and limit of at least 1, as for Paging.PageOf.
- Ingestion.IngestionService.FindAll: requires page and limit of at least 1, as for Paging.PageOf.
- Users.UsersService.FindAll: requires page and limit of at least 1, as for Paging.PageOf.
- Creation and update timestamps are not modelled. The process's `result.processedAt` is the completion time handed to the worker.
- The contents of uploaded files are not modelled: the upload directory is the set of stored file paths. The creation of the directory is not modelled either.
- The text of `extractTextFromFile` embeds the file size and a wall-clock time. It is an abstract function that may fail.
- Failures of the database itself are not modelled: a `save` or `remove` that throws, and the foreign key from processes to documents that would refuse the removal of a document with runs. The model's delete always removes the record. The worker treats a process whose document is gone the way the code does: reading the file path throws, the process becomes Failed with that TypeError's message, and the document write in the error handler throws again. A cancellation of such a process fails with an internal error, as reading the missing document's id does.
- Ingestion.IngestionService.FindById: with the process's document gone, a non-Admin gets the permission error, where the code would throw on the missing document.
- Error messages are not modelled, only error kinds, except the cancellation message and the worker's error message, which are stored.
- Users.UsersService.Create: requires that the given hash matches the password under `passwordMatches`. This is bcrypt's guarantee about its own hashes.
- Users.UsersService.ChangePassword: requires the same of the new hash.

## Findings

| source | as written | input that shows it | evidently intended | confidence | as-written member | corrected member |
|---|---|---|---|---|---|---|
| src/ingestion/ingestion.service.ts:114-131 | The process is loaded with `relations: ['document']` only, then the code reads `process.document.createdBy.id`. The creator relation is not loaded, so for any non-Admin the read throws a TypeError. The request fails as an internal error, and so does every non-Admin `cancelProcess` (`CancelProcessAsWritten`). | An Editor asks for, or cancels, a process of a document it created (`FindByIdAsWrittenRejectsOwner`, `OwnerCannotCancelAsWritten`). | The owner gets the process; any other non-Admin gets the permission error. | not executed; high: `Document.createdBy` is a plain many-to-one relation, not eager | Ingestion.IngestionService.FindByIdAsWritten | Ingestion.IngestionService.FindById |
| src/ingestion/ingestion.service.ts:171-191 | The worker writes Running and then Completed into the process, and Completed into the document, without reading the process's current status. | Create a run, let an Admin cancel it, then let the already-scheduled worker extract successfully (`CancelledRunIsRevived`): the cancelled run ends Completed and its document Completed. | A cancelled run keeps its Failed status, and its document stays Pending for re-ingestion. | not executed; medium: inferred from `cancelProcess` resetting the document to Pending | Scenarios.CancelledRunIsRevived | Ingestion.IngestionService.ProcessDocumentChecked |
