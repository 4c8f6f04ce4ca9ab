/** Client runs of the services, each on freshly built stores, showing what
    callers can conclude from the operations' contracts alone. */
module Scenarios {
  import opened Common
  import opened Entities
  import opened Documents
  import opened Ingestion
  import opened Users

  /** An Editor uploads a document and starts its ingestion, then the worker
      runs: process and document end in the same terminal status, and on
      success the process's result carries the text stored on the document. */
  method IngestionRoundTrip(editor: Actor, file: UploadedFile, extract: string -> Extraction, startedAt: Time, completedAt: Time)
    returns (processStatus: IngestionStatus, documentStatus: DocumentStatus,
             result: Option<ProcessResult>, extractedText: Option<string>)
    requires editor.role == Editor
    ensures IsTerminal(processStatus)
    ensures processStatus == IngestionStatus.Completed <==> documentStatus == DocumentStatus.Completed
    ensures processStatus == IngestionStatus.Failed <==> documentStatus == DocumentStatus.Failed
    ensures processStatus == IngestionStatus.Completed ==>
      result.Some? && extractedText == Some(result.value.extractedText)
  {
    var store := new DocumentsService();
    var engine := new IngestionService(store);
    var document := store.Create(CreateDocumentDto("report", None), file, "upload", editor);
    assert !HasRunning(map[], document.id);
    var created := engine.CreateIngestionProcess(CreateIngestionProcessDto(document.id, None), editor);
    var id := created.value.id;
    engine.ProcessDocument(id, extract, startedAt, completedAt);
    var process := engine.processes[id];
    var stored := store.documents[document.id];
    processStatus, documentStatus := process.status, stored.status;
    result, extractedText := process.result, stored.extractedText;
  }

  /** A second request for the same document right after a successful one is
      refused, and the first process is the only one. */
  method SecondRequestIsRefused(editor: Actor, file: UploadedFile)
    returns (first: Result<IngestionProcess>, second: Result<IngestionProcess>, count: nat)
    requires editor.role == Editor
    ensures first.Ok? && first.value.status == IngestionStatus.Pending
    ensures second == Err(BadRequest)
    ensures count == 1
  {
    var store := new DocumentsService();
    var engine := new IngestionService(store);
    var document := store.Create(CreateDocumentDto("report", None), file, "upload", editor);
    assert !HasRunning(map[], document.id);
    first := engine.CreateIngestionProcess(CreateIngestionProcessDto(document.id, None), editor);
    second := engine.CreateIngestionProcess(CreateIngestionProcessDto(document.id, None), editor);
    count := |engine.processes|;
  }

  /** An Admin cancels a Pending process before the worker starts: the process
      is Failed with the cancellation message, the document is Pending again,
      and a new ingestion of it is accepted at once. */
  method CancelThenRetry(editor: Actor, admin: Actor, file: UploadedFile, now: Time)
    returns (cancelled: Result<IngestionProcess>, documentStatus: DocumentStatus, retry: Result<IngestionProcess>)
    requires editor.role == Editor && admin.role == Admin
    ensures cancelled.Ok? && cancelled.value.status == IngestionStatus.Failed
    ensures cancelled.value.errorMessage == Some(CancelMessage) && cancelled.value.completedAt == Some(now)
    ensures documentStatus == DocumentStatus.Pending
    ensures retry.Ok? && retry.value.status == IngestionStatus.Pending && retry.value.id != cancelled.value.id
  {
    var store := new DocumentsService();
    var engine := new IngestionService(store);
    var document := store.Create(CreateDocumentDto("report", None), file, "upload", editor);
    assert !HasRunning(map[], document.id);
    var created := engine.CreateIngestionProcess(CreateIngestionProcessDto(document.id, None), editor);
    cancelled := engine.CancelProcess(created.value.id, admin, now);
    documentStatus := store.documents[document.id].status;
    assert !HasRunning(engine.processes, document.id) by {
      forall k | k in engine.processes ensures engine.processes[k].status != IngestionStatus.Running {
      }
    }
    retry := engine.CreateIngestionProcess(CreateIngestionProcessDto(document.id, None), editor);
  }

  /** Two active runs of one document: the duplicate check looks only for a
      Running process, so once the owner patches the document's status back
      to Pending a second Pending process is accepted beside the first. */
  method TwoActiveRunsOfOneDocument(editor: Actor, file: UploadedFile)
    returns (first: Result<IngestionProcess>, second: Result<IngestionProcess>)
    requires editor.role == Editor
    ensures first.Ok? && second.Ok? && first.value.id != second.value.id
    ensures first.value.document == second.value.document
    ensures IsActive(first.value.status) && IsActive(second.value.status)
  {
    var store := new DocumentsService();
    var engine := new IngestionService(store);
    var document := store.Create(CreateDocumentDto("report", None), file, "upload", editor);
    assert !HasRunning(map[], document.id);
    first := engine.CreateIngestionProcess(CreateIngestionProcessDto(document.id, None), editor);
    var patch := DocumentPatch(None, None, Some(DocumentStatus.Pending), None, None);
    var _ := store.Update(document.id, patch, editor);
    assert !HasRunning(engine.processes, document.id) by {
      forall k | k in engine.processes ensures engine.processes[k].status != IngestionStatus.Running {
      }
    }
    second := engine.CreateIngestionProcess(CreateIngestionProcessDto(document.id, None), editor);
  }

  /** As written, the Editor who owns a document cannot cancel its run: the
      lookup fails with an internal error and the run stays Pending. The
      corrected lookup lets the same request through. */
  method OwnerCannotCancelAsWritten(editor: Actor, file: UploadedFile)
    returns (asWritten: Result<IngestionProcess>, statusAfter: IngestionStatus, corrected: Result<IngestionProcess>)
    requires editor.role == Editor
    ensures asWritten == Err(InternalError)
    ensures statusAfter == IngestionStatus.Pending
    ensures corrected.Ok? && corrected.value.status == IngestionStatus.Failed
  {
    var store := new DocumentsService();
    var engine := new IngestionService(store);
    var document := store.Create(CreateDocumentDto("report", None), file, "upload", editor);
    assert !HasRunning(map[], document.id);
    var created := engine.CreateIngestionProcess(CreateIngestionProcessDto(document.id, None), editor);
    var id := created.value.id;
    asWritten := engine.CancelProcessAsWritten(id, editor, 1);
    statusAfter := engine.processes[id].status;
    corrected := engine.CancelProcess(id, editor, 1);
  }

  /** The worker as written, run after an Admin's cancellation (it was
      scheduled before the cancel arrived): the cancelled process ends
      Completed and its document Completed, undoing the cancellation. */
  method CancelledRunIsRevived(editor: Actor, admin: Actor, file: UploadedFile)
    returns (processStatus: IngestionStatus, documentStatus: DocumentStatus)
    requires editor.role == Editor && admin.role == Admin
    ensures processStatus == IngestionStatus.Completed
    ensures documentStatus == DocumentStatus.Completed
  {
    var store := new DocumentsService();
    var engine := new IngestionService(store);
    var document := store.Create(CreateDocumentDto("report", None), file, "upload", editor);
    assert !HasRunning(map[], document.id);
    var created := engine.CreateIngestionProcess(CreateIngestionProcessDto(document.id, None), editor);
    var id := created.value.id;
    var cancelled := engine.CancelProcessAsWritten(id, admin, 1);
    assert cancelled.Ok?;
    engine.ProcessDocument(id, path => Extracted("text"), 2, 3);
    processStatus := engine.processes[id].status;
    documentStatus := store.documents[document.id].status;
  }

  /** The same run with the checked worker: the cancellation stands. */
  method CancelledRunStaysCancelled(editor: Actor, file: UploadedFile)
    returns (process: IngestionProcess, documentStatus: DocumentStatus)
    requires editor.role == Editor
    ensures process.status == IngestionStatus.Failed && process.errorMessage == Some(CancelMessage)
    ensures documentStatus == DocumentStatus.Pending
  {
    var store := new DocumentsService();
    var engine := new IngestionService(store);
    var document := store.Create(CreateDocumentDto("report", None), file, "upload", editor);
    assert !HasRunning(map[], document.id);
    var created := engine.CreateIngestionProcess(CreateIngestionProcessDto(document.id, None), editor);
    var id := created.value.id;
    var _ := engine.CancelProcess(id, editor, 1);
    engine.ProcessDocumentChecked(id, path => Extracted("text"), 2, 3);
    process := engine.processes[id];
    documentStatus := store.documents[document.id].status;
  }

  /** A user registers, a second registration with the same address is
      refused, and the first password then unlocks a password change. */
  method RegisterThenChangePassword(
    passwordMatches: (string, string) -> bool, dto: RegisterDto, hashed: string,
    newPassword: string, hashedNew: string)
    returns (registered: Result<User>, duplicate: Result<User>, changed: Outcome)
    requires passwordMatches(dto.password, hashed) && passwordMatches(newPassword, hashedNew)
    ensures registered.Ok? && registered.value.password == None
    ensures registered.value.role == dto.role.GetOr(Viewer)
    ensures duplicate == Err(Conflict)
    ensures changed == Done
  {
    var service := new UsersService(passwordMatches);
    registered := service.Create(dto, hashed);
    duplicate := service.Create(dto, hashed);
    changed := service.ChangePassword(registered.value.id, dto.password, newPassword, hashedNew);
  }
}
