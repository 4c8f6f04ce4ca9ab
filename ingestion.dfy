/** The ingestion engine: ingestion process records keyed by id, the guarded
    creation of a run, cancellation, listing, and the background worker step
    that writes the terminal state into the process and its document. */
module Ingestion {
  import opened Common
  import opened Entities
  import opened Paging
  import opened Documents

  const CancelMessage: string := "Process cancelled by user"

  /** The TypeError the worker raises when the process's document row is gone
      and it reads the file path of a null document. */
  const MissingDocumentMessage: string := "Cannot read properties of null (reading 'filePath')"

  datatype CreateIngestionProcessDto = CreateIngestionProcessDto(documentId: DocumentId, configuration: Option<Json>)

  /** List filters; the sort column is not modelled. */
  datatype ProcessQuery = ProcessQuery(
    documentId: Option<DocumentId>,
    status: Option<IngestionStatus>,
    page: Option<int>,
    limit: Option<int>)

  datatype ProcessPage = ProcessPage(processes: seq<IngestionProcess>, total: nat)

  /** What the text extractor yields for a file path: the text, or the
      message of the error it threw. */
  datatype Extraction = Extracted(text: string) | ExtractionError(message: string)

  /** The record transitions of a run. */
  function Started(p: IngestionProcess, at: Time): IngestionProcess {
    p.(status := IngestionStatus.Running, startedAt := Some(at))
  }

  function Finished(p: IngestionProcess, text: string, at: Time): IngestionProcess {
    p.(status := IngestionStatus.Completed, completedAt := Some(at), result := Some(ProcessResult(text, at)))
  }

  function Aborted(p: IngestionProcess, message: string, at: Time): IngestionProcess {
    p.(status := IngestionStatus.Failed, errorMessage := Some(message), completedAt := Some(at))
  }

  function Cancelled(p: IngestionProcess, at: Time): IngestionProcess {
    Aborted(p, CancelMessage, at)
  }

  /** The transitions keep the identity, the document link and the
      configuration, and each follows the life cycle: starting is a step out
      of Pending, finishing and aborting are steps out of Running, and a
      cancellation is a step out of either active status. */
  lemma TransitionsFollowLifeCycle(p: IngestionProcess, text: string, message: string, at: Time)
    ensures var s := Started(p, at);
      s.id == p.id && s.document == p.document && s.configuration == p.configuration
      && (p.status == IngestionStatus.Pending ==> Step(p.status, s.status))
    ensures Step(IngestionStatus.Running, Finished(p, text, at).status)
    ensures Step(IngestionStatus.Running, Aborted(p, message, at).status)
    ensures IsActive(p.status) ==> Step(p.status, Cancelled(p, at).status)
    ensures Finished(p, text, at).result == Some(ProcessResult(text, at))
    ensures Cancelled(p, at).errorMessage == Some(CancelMessage) && Cancelled(p, at).completedAt == Some(at)
  {
  }

  /** Whether some process of the document is in the Running status (the only
      status the duplicate check looks at). */
  predicate HasRunning(processes: map<ProcessId, IngestionProcess>, documentId: DocumentId) {
    exists id :: id in processes && processes[id].document == documentId
      && processes[id].status == IngestionStatus.Running
  }

  /** The outcome of a cancellation, given the process the lookup `found`:
      the lookup's error; BadRequest for a terminal process; an internal
      error when the process's document is gone (reading its id throws);
      otherwise the process is cancelled and its document is Pending again.
      Every refusal leaves both tables as they were. */
  predicate CancelStep(
    processes: map<ProcessId, IngestionProcess>, documents: map<DocumentId, Document>,
    found: Result<IngestionProcess>, id: ProcessId, now: Time, r: Result<IngestionProcess>,
    processes': map<ProcessId, IngestionProcess>, documents': map<DocumentId, Document>)
  {
    if found.Err? then
      r == found && processes' == processes && documents' == documents
    else if !IsActive(found.value.status) then
      r == Err(BadRequest) && processes' == processes && documents' == documents
    else if found.value.document !in documents then
      r == Err(InternalError) && processes' == processes && documents' == documents
    else
      var docId := found.value.document;
      && r == Ok(Cancelled(found.value, now))
      && processes' == processes[id := r.value]
      && documents' == documents[docId := documents[docId].(status := DocumentStatus.Pending)]
  }

  /** What one run of the worker does to the two tables. A missing process
      changes nothing. Otherwise the process is started; if its document is
      gone, reading the file path throws and the process is Failed with that
      error; else the extractor's outcome is written to both records: the
      text and Completed, or the error's message and Failed. */
  predicate WorkerStep(
    processes: map<ProcessId, IngestionProcess>, documents: map<DocumentId, Document>,
    processId: ProcessId, extract: string -> Extraction, startedAt: Time, completedAt: Time,
    processes': map<ProcessId, IngestionProcess>, documents': map<DocumentId, Document>)
  {
    if processId !in processes then
      processes' == processes && documents' == documents
    else
      var p := Started(processes[processId], startedAt);
      var docId := p.document;
      if docId !in documents then
        processes' == processes[processId := Aborted(p, MissingDocumentMessage, completedAt)]
        && documents' == documents
      else
        var d := documents[docId];
        match extract(d.filePath)
        case Extracted(text) =>
          && processes' == processes[processId := Finished(p, text, completedAt)]
          && documents' == documents[docId := d.(extractedText := Some(text), status := DocumentStatus.Completed)]
        case ExtractionError(message) =>
          && processes' == processes[processId := Aborted(p, message, completedAt)]
          && documents' == documents[docId := d.(status := DocumentStatus.Failed)]
  }

  /** A worker run on a stored process whose document exists leaves both in
      matching terminal statuses, reached from Running, with the extracted
      text on the document and in the process's result on success; no other
      process or document changes. */
  lemma WorkerStepOutcome(
    processes: map<ProcessId, IngestionProcess>, documents: map<DocumentId, Document>,
    processId: ProcessId, extract: string -> Extraction, startedAt: Time, completedAt: Time,
    processes': map<ProcessId, IngestionProcess>, documents': map<DocumentId, Document>)
    requires WorkerStep(processes, documents, processId, extract, startedAt, completedAt, processes', documents')
    requires processId in processes && processes[processId].document in documents
    ensures var docId := processes[processId].document;
      && processId in processes' && docId in documents'
      && Step(IngestionStatus.Running, processes'[processId].status)
      && (processes'[processId].status == IngestionStatus.Completed <==> documents'[docId].status == DocumentStatus.Completed)
      && (processes'[processId].status == IngestionStatus.Failed <==> documents'[docId].status == DocumentStatus.Failed)
      && (processes'[processId].status == IngestionStatus.Completed ==>
            processes'[processId].result.Some?
            && documents'[docId].extractedText == Some(processes'[processId].result.value.extractedText))
      && processes'.Keys == processes.Keys && documents'.Keys == documents.Keys
      && (forall id :: id in processes && id != processId ==> processes'[id] == processes[id])
      && (forall id :: id in documents && id != docId ==> documents'[id] == documents[id])
  {
  }

  class IngestionService {
    /** The ingestion_processes table. */
    var processes: map<ProcessId, IngestionProcess>
    /** Id generator standing in for the database's uuid column. */
    var nextId: nat
    /** The document service; its table is also the documents repository the
        worker writes to directly. */
    const documentsService: DocumentsService

    ghost predicate Valid()
      reads this, documentsService
    {
      && documentsService.Valid()
      && forall id :: id in processes ==> processes[id].id == id && id < nextId
    }

    constructor (documentsService: DocumentsService)
      requires documentsService.Valid()
      ensures Valid() && processes == map[] && this.documentsService == documentsService
    {
      this.documentsService := documentsService;
      processes := map[];
      nextId := 0;
    }

    /** Whether the document still exists and the actor created it. */
    predicate OwnsDocument(documentId: DocumentId, actor: Actor)
      reads documentsService
    {
      documentId in documentsService.documents
      && documentsService.documents[documentId].createdBy == actor.id
    }

    /** Starts a run for a document: the actor must be able to read the
        document, the document must not be processing and no run of it may be
        Running. The new process is Pending, the document becomes Processing;
        the worker step is left to the caller. */
    method CreateIngestionProcess(dto: CreateIngestionProcessDto, actor: Actor)
      returns (r: Result<IngestionProcess>)
      requires Valid() && actor.role != Viewer
      modifies this, documentsService
      ensures Valid()
      ensures documentsService.files == old(documentsService.files)
      ensures documentsService.nextId == old(documentsService.nextId)
      ensures var found := old(documentsService.FindById(dto.documentId, actor));
        if found.Err? then
          r == Err(found.error) && processes == old(processes)
          && documentsService.documents == old(documentsService.documents)
        else if found.value.status == DocumentStatus.Processing || HasRunning(old(processes), dto.documentId) then
          r == Err(BadRequest) && processes == old(processes)
          && documentsService.documents == old(documentsService.documents)
        else
          && r.Ok? && r.value.id !in old(processes)
          && r.value == IngestionProcess(r.value.id, dto.documentId, IngestionStatus.Pending,
                                         None, None, dto.configuration, None, None)
          && processes == old(processes)[r.value.id := r.value]
          && documentsService.documents ==
               old(documentsService.documents)[dto.documentId := found.value.(status := DocumentStatus.Processing)]
    {
      var document := documentsService.FindById(dto.documentId, actor);
      if document.Err? {
        return Err(document.error);
      }
      if document.value.status == DocumentStatus.Processing {
        return Err(BadRequest);
      }
      if HasRunning(processes, dto.documentId) {
        return Err(BadRequest);
      }
      var process := IngestionProcess(nextId, dto.documentId, IngestionStatus.Pending,
                                      None, None, dto.configuration, None, None);
      processes := processes[nextId := process];
      nextId := nextId + 1;
      var _ := documentsService.UpdateStatus(dto.documentId, DocumentStatus.Processing);
      r := Ok(process);
    }

    /** findById as the code is written: it loads the process with its
        document but not the document's creator, so for every non-Admin the
        ownership test dereferences an unloaded relation and throws. */
    function FindByIdAsWritten(id: ProcessId, actor: Actor): (r: Result<IngestionProcess>)
      reads this
      ensures r == Err(NotFound) <==> id !in processes
      ensures r.Ok? <==> id in processes && actor.role == Admin
      ensures id in processes && actor.role != Admin ==> r == Err(InternalError)
      ensures r.Ok? ==> r.value == processes[id]
    {
      if id !in processes then Err(NotFound)
      else if actor.role != Admin then Err(InternalError)
      else Ok(processes[id])
    }

    /** Looks a process up for the actor: NotFound for a missing id, then a
        BadRequest permission error unless the actor is Admin or created the
        process's document. */
    function FindById(id: ProcessId, actor: Actor): (r: Result<IngestionProcess>)
      reads this, documentsService
      ensures r == Err(NotFound) <==> id !in processes
      ensures r == Err(BadRequest) <==>
        id in processes && actor.role != Admin && !OwnsDocument(processes[id].document, actor)
      ensures r.Ok? <==> id in processes && (actor.role == Admin || OwnsDocument(processes[id].document, actor))
      ensures r.Ok? ==> r.value == processes[id]
    {
      if id !in processes then Err(NotFound)
      else if actor.role != Admin && !OwnsDocument(processes[id].document, actor) then Err(BadRequest)
      else Ok(processes[id])
    }

    /** The two lookups agree for an Admin; an Editor who owns the document
        gets its process from FindById but an internal error as written. */
    lemma FindByIdAsWrittenRejectsOwner(id: ProcessId, actor: Actor)
      requires id in processes && actor.role == Editor
      requires OwnsDocument(processes[id].document, actor)
      ensures FindById(id, actor) == Ok(processes[id])
      ensures FindByIdAsWritten(id, actor) == Err(InternalError)
    {
    }

    /** Cancels an active process found by the corrected lookup: it becomes
        Failed with the cancellation message and a completion time, and its
        document goes back to Pending. A terminal process is refused and
        nothing changes. */
    method CancelProcess(id: ProcessId, actor: Actor, now: Time) returns (r: Result<IngestionProcess>)
      requires Valid() && actor.role != Viewer
      modifies this, documentsService
      ensures Valid() && nextId == old(nextId)
      ensures documentsService.files == old(documentsService.files)
      ensures documentsService.nextId == old(documentsService.nextId)
      ensures CancelStep(old(processes), old(documentsService.documents), old(FindById(id, actor)), id, now, r,
                         processes, documentsService.documents)
    {
      var process := FindById(id, actor);
      if process.Err? {
        return process;
      }
      if process.value.status != IngestionStatus.Pending && process.value.status != IngestionStatus.Running {
        return Err(BadRequest);
      }
      var cancelled := Cancelled(process.value, now);
      if process.value.document !in documentsService.documents {
        // Reading the id of the missing document throws before anything is saved.
        return Err(InternalError);
      }
      var _ := documentsService.UpdateStatus(process.value.document, DocumentStatus.Pending);
      processes := processes[id := cancelled];
      r := Ok(cancelled);
    }

    /** cancelProcess as the code is written, on top of the lookup as
        written: every non-Admin gets that lookup's error and nothing
        changes; an Admin's cancellation proceeds as CancelProcess's. */
    method CancelProcessAsWritten(id: ProcessId, actor: Actor, now: Time) returns (r: Result<IngestionProcess>)
      requires Valid() && actor.role != Viewer
      modifies this, documentsService
      ensures Valid() && nextId == old(nextId)
      ensures documentsService.files == old(documentsService.files)
      ensures documentsService.nextId == old(documentsService.nextId)
      ensures CancelStep(old(processes), old(documentsService.documents), old(FindByIdAsWritten(id, actor)), id, now, r,
                         processes, documentsService.documents)
      ensures actor.role != Admin && id in old(processes) ==> r == Err(InternalError)
    {
      var process := FindByIdAsWritten(id, actor);
      if process.Err? {
        return process;
      }
      r := CancelProcess(id, actor, now);
    }

    /** The background worker, run once for a process id. A missing process is
        ignored. Otherwise the process is started, the document's file is
        handed to the extractor, and both records receive matching terminal
        states. It does not look at the status the process is in. */
    method ProcessDocument(processId: ProcessId, extract: string -> Extraction, startedAt: Time, completedAt: Time)
      requires Valid()
      modifies this, documentsService
      ensures Valid() && nextId == old(nextId)
      ensures documentsService.files == old(documentsService.files)
      ensures documentsService.nextId == old(documentsService.nextId)
      ensures WorkerStep(old(processes), old(documentsService.documents), processId, extract, startedAt, completedAt,
                         processes, documentsService.documents)
    {
      if processId !in processes {
        return;
      }
      var process := Started(processes[processId], startedAt);
      processes := processes[processId := process];
      if process.document !in documentsService.documents {
        // Reading the file path of the missing document throws; the handler
        // records the failure on the process and then throws again when it
        // writes the document's status.
        processes := processes[processId := Aborted(process, MissingDocumentMessage, completedAt)];
        return;
      }
      var document := documentsService.documents[process.document];
      match extract(document.filePath) {
        case Extracted(text) =>
          documentsService.documents := documentsService.documents[process.document :=
            document.(extractedText := Some(text), status := DocumentStatus.Completed)];
          processes := processes[processId := Finished(process, text, completedAt)];
        case ExtractionError(message) =>
          processes := processes[processId := Aborted(process, message, completedAt)];
          documentsService.documents := documentsService.documents[process.document :=
            document.(status := DocumentStatus.Failed)];
      }
    }

    /** The worker step with the missing check-before-write: a process that
        is already terminal (cancelled, say) is left alone; any other process
        is run as ProcessDocument runs it. */
    method ProcessDocumentChecked(processId: ProcessId, extract: string -> Extraction, startedAt: Time, completedAt: Time)
      requires Valid()
      modifies this, documentsService
      ensures Valid() && nextId == old(nextId)
      ensures documentsService.files == old(documentsService.files)
      ensures documentsService.nextId == old(documentsService.nextId)
      ensures processId in old(processes) && IsTerminal(old(processes)[processId].status) ==>
        processes == old(processes) && documentsService.documents == old(documentsService.documents)
      ensures processId !in old(processes) || IsActive(old(processes)[processId].status) ==>
        WorkerStep(old(processes), old(documentsService.documents), processId, extract, startedAt, completedAt,
                   processes, documentsService.documents)
      ensures processId in old(processes) && IsActive(old(processes)[processId].status) ==>
        && processId in processes
        && Reachable(old(processes)[processId].status, processes[processId].status)
        && IsTerminal(processes[processId].status)
        && processes == old(processes)[processId := processes[processId]]
      ensures forall id :: id in old(processes) ==>
        id in processes && (IsTerminal(old(processes)[id].status) ==> processes[id] == old(processes)[id])
    {
      if processId in processes && IsTerminal(processes[processId].status) {
        return;
      }
      ProcessDocument(processId, extract, startedAt, completedAt);
    }

    /** The processes `findAll` keeps: those of documents the actor created
        (all of them for an Admin), narrowed by the document and status
        filters. The joins are outer joins, so a process whose document is
        gone is seen only by an Admin and never matches a document filter. */
    predicate MatchesQuery(p: IngestionProcess, q: ProcessQuery, actor: Actor)
      reads documentsService
    {
      && (actor.role == Admin || OwnsDocument(p.document, actor))
      && (q.documentId.Some? ==> p.document == q.documentId.value && p.document in documentsService.documents)
      && (q.status.Some? ==> p.status == q.status.value)
    }

    /** The processes of `order` that the query keeps, in that order. */
    function Select(order: seq<ProcessId>, q: ProcessQuery, actor: Actor): (r: seq<IngestionProcess>)
      reads this, documentsService
      requires forall i :: 0 <= i < |order| ==> order[i] in processes
      ensures |r| <= |order|
      ensures forall p :: p in r ==> p in processes.Values && MatchesQuery(p, q, actor)
      ensures forall i :: 0 <= i < |order| && MatchesQuery(processes[order[i]], q, actor) ==>
        processes[order[i]] in r
    {
      if order == [] then []
      else
        var rest := Select(order[1..], q, actor);
        assert forall i :: 1 <= i < |order| ==> order[i] == order[1..][i - 1];
        var p := processes[order[0]];
        if MatchesQuery(p, q, actor) then [p] + rest else rest
    }

    /** The ids of the stored processes the query keeps. */
    function MatchingIds(q: ProcessQuery, actor: Actor): set<ProcessId>
      reads this, documentsService
    {
      set id | id in processes && MatchesQuery(processes[id], q, actor)
    }

    /** The ids listed in `order` whose processes the query keeps. */
    function MatchingIn(order: seq<ProcessId>, q: ProcessQuery, actor: Actor): set<ProcessId>
      reads this, documentsService
    {
      set id | id in order && id in processes && MatchesQuery(processes[id], q, actor)
    }

    /** Filtering a concatenation filters each part in turn. */
    lemma {:induction false} SelectAppend(a: seq<ProcessId>, b: seq<ProcessId>, q: ProcessQuery, actor: Actor)
      requires forall i :: 0 <= i < |a| ==> a[i] in processes
      requires forall i :: 0 <= i < |b| ==> b[i] in processes
      ensures Select(a + b, q, actor) == Select(a, q, actor) + Select(b, q, actor)
    {
      if a != [] {
        assert (a + b)[1..] == a[1..] + b;
        SelectAppend(a[1..], b, q, actor);
      } else {
        assert a + b == b;
      }
    }

    /** Select keeps the order of `order`: a kept entry comes right after the
        entries kept before it. */
    lemma SelectKeepsOrder(order: seq<ProcessId>, i: nat, q: ProcessQuery, actor: Actor)
      requires forall j :: 0 <= j < |order| ==> order[j] in processes
      requires i < |order| && MatchesQuery(processes[order[i]], q, actor)
      ensures var before := |Select(order[..i], q, actor)|;
        before < |Select(order, q, actor)| && Select(order, q, actor)[before] == processes[order[i]]
    {
      assert order == order[..i] + order[i..];
      SelectAppend(order[..i], order[i..], q, actor);
      assert order[i..][1..] == order[i + 1..];
    }

    /** Over a listing without repeats, the filter keeps one row per matching id. */
    lemma {:induction false} SelectCount(order: seq<ProcessId>, q: ProcessQuery, actor: Actor)
      requires forall i :: 0 <= i < |order| ==> order[i] in processes
      requires forall i, j :: 0 <= i < j < |order| ==> order[i] != order[j]
      ensures |Select(order, q, actor)| == |MatchingIn(order, q, actor)|
    {
      if order != [] {
        var rest := order[1..];
        SelectCount(rest, q, actor);
        assert order[0] !in rest by {
          forall j | 0 <= j < |rest| ensures rest[j] != order[0] {
            assert rest[j] == order[j + 1];
          }
        }
        if MatchesQuery(processes[order[0]], q, actor) {
          assert MatchingIn(order, q, actor) == MatchingIn(rest, q, actor) + {order[0]};
        } else {
          assert MatchingIn(order, q, actor) == MatchingIn(rest, q, actor);
        }
      } else {
        assert MatchingIn(order, q, actor) == {};
      }
    }

    /** Over a listing of the whole table, the filter keeps one row per
        matching stored process. */
    lemma SelectCountsMatches(order: seq<ProcessId>, q: ProcessQuery, actor: Actor)
      requires ListsEachOnce(order, processes.Keys)
      ensures |Select(order, q, actor)| == |MatchingIds(q, actor)|
    {
      SelectCount(order, q, actor);
      assert MatchingIn(order, q, actor) == MatchingIds(q, actor);
    }

    /** One page of the processes the actor may list, with the number of
        matching processes over all pages. `order` is the table as the
        database sorts it: every stored id exactly once. */
    function FindAll(q: ProcessQuery, actor: Actor, order: seq<ProcessId>): (r: ProcessPage)
      reads this, documentsService
      requires ValidPaging(q.page, q.limit)
      requires ListsEachOnce(order, processes.Keys)
      ensures r.total == |Select(order, q, actor)| == |MatchingIds(q, actor)|
      ensures var skip := Skip(EffectivePage(q.page), EffectiveLimit(q.limit));
        && |r.processes| == (if skip >= r.total then 0 else Min(EffectiveLimit(q.limit), r.total - skip))
        && forall i :: 0 <= i < |r.processes| ==> r.processes[i] == Select(order, q, actor)[skip + i]
      ensures forall p :: p in r.processes ==> p in processes.Values && MatchesQuery(p, q, actor)
    {
      var rows := Select(order, q, actor);
      var page := PageOf(rows, EffectivePage(q.page), EffectiveLimit(q.limit));
      SelectCountsMatches(order, q, actor);
      assert forall p :: p in page ==> p in rows;
      ProcessPage(page, |rows|)
    }

    /** Reading a process by id and listing without filters agree: a stored
        process is in the actor's unfiltered listing exactly when FindById
        returns it. */
    lemma {:induction false} ReadAgreesWithListing(id: ProcessId, actor: Actor, order: seq<ProcessId>)
      requires Valid()
      requires forall i :: 0 <= i < |order| ==> order[i] in processes
      requires forall k :: k in processes ==> k in order
      requires id in processes
      ensures FindById(id, actor).Ok? <==> processes[id] in Select(order, ProcessQuery(None, None, None, None), actor)
    {
      var q := ProcessQuery(None, None, None, None);
      var rows := Select(order, q, actor);
      if processes[id] in rows {
        assert MatchesQuery(processes[id], q, actor);
      } else {
        var i :| 0 <= i < |order| && order[i] == id;
        assert !MatchesQuery(processes[order[i]], q, actor);
      }
    }
  }
}
