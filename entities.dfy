/** The persisted records of the document store and the ingestion engine:
    their status enumerations and fields. Creation and update timestamps
    maintained by the database are not part of the model. */
module Entities {
  import opened Common

  type DocumentId = nat
  type ProcessId = nat

  /** Processing status of a document; `Pending` is the column default. */
  datatype DocumentStatus = Pending | Processing | Completed | Failed

  /** Execution status of one ingestion run; `Pending` is the column default. */
  datatype IngestionStatus = Pending | Running | Completed | Failed

  datatype Document = Document(
    id: DocumentId,
    title: string,
    description: Option<string>,
    fileName: string,
    filePath: string,
    mimeType: string,
    size: nat,
    status: DocumentStatus,
    extractedText: Option<string>,
    metadata: Option<Json>,
    createdBy: UserId)

  /** The JSON value the worker stores in `result` on success. */
  datatype ProcessResult = ProcessResult(extractedText: string, processedAt: Time)

  datatype IngestionProcess = IngestionProcess(
    id: ProcessId,
    document: DocumentId,
    status: IngestionStatus,
    errorMessage: Option<string>,
    result: Option<ProcessResult>,
    configuration: Option<Json>,
    startedAt: Option<Time>,
    completedAt: Option<Time>)

  /** Active processes are the ones that may still change. */
  predicate IsActive(s: IngestionStatus) {
    s == IngestionStatus.Pending || s == IngestionStatus.Running
  }

  predicate IsTerminal(s: IngestionStatus) {
    s == IngestionStatus.Completed || s == IngestionStatus.Failed
  }

  /** One edge of the process life cycle: Pending -> Running -> Completed or
      Failed, and cancellation of an active process to Failed. */
  predicate Step(from: IngestionStatus, to: IngestionStatus) {
    match from
    case Pending => to == IngestionStatus.Running || to == IngestionStatus.Failed
    case Running => to == IngestionStatus.Completed || to == IngestionStatus.Failed
    case Completed => false
    case Failed => false
  }

  /** Statuses reachable in zero or more life-cycle steps. */
  predicate Reachable(from: IngestionStatus, to: IngestionStatus) {
    from == to || Step(from, to) || (from == IngestionStatus.Pending && Step(IngestionStatus.Running, to))
  }

  /** Every status is active or terminal, never both; no edge leaves a
      terminal status, and every edge out of an active status ends either
      in Running or in a terminal status. */
  lemma LifeCycleShape(from: IngestionStatus, to: IngestionStatus)
    ensures IsActive(from) != IsTerminal(from)
    ensures IsTerminal(from) ==> !Step(from, to)
    ensures Step(from, to) ==> IsActive(from) && (to == IngestionStatus.Running || IsTerminal(to))
    ensures IsTerminal(from) && Reachable(from, to) ==> to == from
  {
  }
}
