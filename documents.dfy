/** The document store: records keyed by id, the set of stored upload files,
    and the ownership and role rules that gate reading and mutation. */
module Documents {
  import opened Common
  import opened Entities
  import opened Paging

  /** Directory the uploads are written to. */
  const UploadPath: string := "uploads/documents"

  datatype CreateDocumentDto = CreateDocumentDto(title: string, description: Option<string>)

  /** The multipart upload: its original name, MIME type and byte size. */
  datatype UploadedFile = UploadedFile(originalName: string, mimeType: string, size: nat)

  /** A partial update: `None` stands for a field that is absent, `undefined`
      or `null`, all of which leave the stored field as it was. */
  datatype DocumentPatch = DocumentPatch(
    title: Option<string>,
    description: Option<string>,
    status: Option<DocumentStatus>,
    extractedText: Option<string>,
    metadata: Option<Json>)

  /** List filters; text search and the sort column are not modelled. */
  datatype DocumentQuery = DocumentQuery(
    status: Option<DocumentStatus>,
    createdBy: Option<UserId>,
    page: Option<int>,
    limit: Option<int>)

  datatype DocumentPage = DocumentPage(documents: seq<Document>, total: nat)

  /** The patch applied field by field, skipping absent values. */
  function Patched(d: Document, p: DocumentPatch): (r: Document)
    ensures r.id == d.id && r.createdBy == d.createdBy && r.filePath == d.filePath
    ensures r.fileName == d.fileName && r.mimeType == d.mimeType && r.size == d.size
  {
    d.(title := p.title.GetOr(d.title),
       description := if p.description.Some? then p.description else d.description,
       status := p.status.GetOr(d.status),
       extractedText := if p.extractedText.Some? then p.extractedText else d.extractedText,
       metadata := if p.metadata.Some? then p.metadata else d.metadata)
  }

  /** What each field of a patched document holds: the patch's value where it
      has one, the old value everywhere else. */
  lemma PatchedFieldwise(d: Document, p: DocumentPatch)
    ensures var r := Patched(d, p);
      && (p.title.Some? ==> r.title == p.title.value) && (p.title.None? ==> r.title == d.title)
      && (p.description.Some? ==> r.description == p.description) && (p.description.None? ==> r.description == d.description)
      && (p.status.Some? ==> r.status == p.status.value) && (p.status.None? ==> r.status == d.status)
      && (p.extractedText.Some? ==> r.extractedText == p.extractedText) && (p.extractedText.None? ==> r.extractedText == d.extractedText)
      && (p.metadata.Some? ==> r.metadata == p.metadata) && (p.metadata.None? ==> r.metadata == d.metadata)
  {
  }

  /** An empty patch changes nothing, and applying a patch twice is the same
      as applying it once. */
  lemma PatchedIdempotent(d: Document, p: DocumentPatch)
    ensures Patched(d, DocumentPatch(None, None, None, None, None)) == d
    ensures Patched(Patched(d, p), p) == Patched(d, p)
  {
  }

  /** Read scope: Admin sees every document, anyone else only its own. */
  predicate InReadScope(d: Document, actor: Actor) {
    actor.role == Admin || d.createdBy == actor.id
  }

  /** Who may update or delete a document: Admin, or an Editor who created it. */
  predicate MayMutate(d: Document, actor: Actor) {
    actor.role == Admin || (actor.role == Editor && d.createdBy == actor.id)
  }

  /** The rows `findAll` keeps before paging. The creator filter of the query
      applies only to an Admin. */
  predicate MatchesQuery(d: Document, q: DocumentQuery, actor: Actor) {
    && InReadScope(d, actor)
    && (q.status.Some? ==> d.status == q.status.value)
    && (q.createdBy.Some? && actor.role == Admin ==> d.createdBy == q.createdBy.value)
  }

  /** A query with no filters and default paging. */
  const NoFilter := DocumentQuery(None, None, None, None)

  class DocumentsService {
    /** The documents table. */
    var documents: map<DocumentId, Document>
    /** The upload directory: paths of the files that exist. */
    var files: set<string>
    /** Id generator standing in for the database's uuid column. */
    var nextId: nat

    ghost predicate Valid()
      reads this
    {
      forall id :: id in documents ==> documents[id].id == id && id < nextId
    }

    constructor ()
      ensures Valid() && documents == map[] && files == {}
    {
      documents := map[];
      files := {};
      nextId := 0;
    }

    /** Stores the upload under a generated name (the uuid plus the original
        extension) and persists a new document owned by the actor. Viewers
        are turned away by the controller before this runs. */
    method Create(dto: CreateDocumentDto, file: UploadedFile, generatedName: string, actor: Actor)
      returns (d: Document)
      requires Valid() && actor.role != Viewer
      modifies this
      ensures Valid()
      ensures d.id !in old(documents) && documents == old(documents)[d.id := d]
      ensures d.title == dto.title && d.description == dto.description
      ensures d.fileName == file.originalName && d.mimeType == file.mimeType && d.size == file.size
      ensures d.filePath == UploadPath + "/" + generatedName && files == old(files) + {d.filePath}
      ensures d.createdBy == actor.id && d.status == DocumentStatus.Pending
      ensures d.extractedText == None && d.metadata == None
    {
      var filePath := UploadPath + "/" + generatedName;
      files := files + {filePath};
      d := Document(nextId, dto.title, dto.description, file.originalName, filePath,
                    file.mimeType, file.size, DocumentStatus.Pending, None, None, actor.id);
      documents := documents[nextId := d];
      nextId := nextId + 1;
    }

    /** Looks a document up for the actor: a missing id is NotFound whoever
        asks; an existing document the actor neither owns nor may see as
        Admin is Forbidden. */
    function FindById(id: DocumentId, actor: Actor): (r: Result<Document>)
      reads this
      ensures r == Err(NotFound) <==> id !in documents
      ensures r == Err(Forbidden) <==> id in documents && !InReadScope(documents[id], actor)
      ensures r.Ok? <==> id in documents && InReadScope(documents[id], actor)
      ensures r.Ok? ==> r.value == documents[id]
    {
      if id !in documents then Err(NotFound)
      else if actor.role != Admin && documents[id].createdBy != actor.id then Err(Forbidden)
      else Ok(documents[id])
    }

    /** The checks `update` and `delete` make before touching anything:
        the lookup of FindById, then Viewer and Editor-non-owner rejection. */
    function AuthorizeMutation(id: DocumentId, actor: Actor): (r: Result<Document>)
      reads this
      ensures r.Ok? <==> id in documents && MayMutate(documents[id], actor)
      ensures r.Ok? ==> r.value == documents[id]
      ensures id !in documents <==> r == Err(NotFound)
      ensures r.Err? && id in documents ==> r.error == Forbidden
      ensures actor.role == Viewer ==> r.Err?
    {
      var found := FindById(id, actor);
      if found.Err? then found
      else if actor.role == Viewer || (actor.role == Editor && found.value.createdBy != actor.id) then Err(Forbidden)
      else found
    }

    /** Applies the non-null fields of the patch to a document the actor may
        mutate and saves it. */
    method Update(id: DocumentId, patch: DocumentPatch, actor: Actor) returns (r: Result<Document>)
      requires Valid()
      modifies this
      ensures Valid() && files == old(files) && nextId == old(nextId)
      ensures var auth := old(AuthorizeMutation(id, actor));
        if auth.Err? then r == auth && documents == old(documents)
        else r == Ok(Patched(auth.value, patch)) && documents == old(documents)[id := r.value]
    {
      var document := AuthorizeMutation(id, actor);
      if document.Err? {
        return document;
      }
      var updated := Patched(document.value, patch);
      documents := documents[id := updated];
      r := Ok(updated);
    }

    /** Removes the stored file if it is there, then the record. */
    method Delete(id: DocumentId, actor: Actor) returns (r: Outcome)
      requires Valid()
      modifies this
      ensures Valid() && nextId == old(nextId)
      ensures var auth := old(AuthorizeMutation(id, actor));
        if auth.Err? then r == Fail(auth.error) && documents == old(documents) && files == old(files)
        else r == Done && documents == old(documents) - {id} && files == old(files) - {auth.value.filePath}
    {
      var document := AuthorizeMutation(id, actor);
      if document.Err? {
        return Fail(document.error);
      }
      if document.value.filePath in files {
        files := files - {document.value.filePath};
      }
      documents := documents - {id};
      r := Done;
    }

    /** Sets the status of a document, with no authorization: only the
        ingestion engine calls it. */
    method UpdateStatus(id: DocumentId, status: DocumentStatus) returns (r: Result<Document>)
      requires Valid()
      modifies this
      ensures Valid() && files == old(files) && nextId == old(nextId)
      ensures id !in old(documents) ==> r == Err(NotFound) && documents == old(documents)
      ensures id in old(documents) ==>
        r == Ok(old(documents)[id].(status := status)) && documents == old(documents)[id := r.value]
    {
      if id !in documents {
        return Err(NotFound);
      }
      var document := documents[id].(status := status);
      documents := documents[id := document];
      r := Ok(document);
    }

    /** The documents of `order` that the query keeps, in that order. */
    function Select(order: seq<DocumentId>, q: DocumentQuery, actor: Actor): (r: seq<Document>)
      reads this
      requires forall i :: 0 <= i < |order| ==> order[i] in documents
      ensures |r| <= |order|
      ensures forall d :: d in r ==> d in documents.Values && MatchesQuery(d, q, actor)
      ensures forall i :: 0 <= i < |order| && MatchesQuery(documents[order[i]], q, actor) ==>
        documents[order[i]] in r
    {
      if order == [] then []
      else
        var rest := Select(order[1..], q, actor);
        assert forall i :: 1 <= i < |order| ==> order[i] == order[1..][i - 1];
        var d := documents[order[0]];
        if MatchesQuery(d, q, actor) then [d] + rest else rest
    }

    /** The ids of the stored documents the query keeps. */
    function MatchingIds(q: DocumentQuery, actor: Actor): set<DocumentId>
      reads this
    {
      set id | id in documents && MatchesQuery(documents[id], q, actor)
    }

    /** The ids listed in `order` whose documents the query keeps. */
    function MatchingIn(order: seq<DocumentId>, q: DocumentQuery, actor: Actor): set<DocumentId>
      reads this
    {
      set id | id in order && id in documents && MatchesQuery(documents[id], q, actor)
    }

    /** Filtering a concatenation filters each part in turn. */
    lemma {:induction false} SelectAppend(a: seq<DocumentId>, b: seq<DocumentId>, q: DocumentQuery, actor: Actor)
      requires forall i :: 0 <= i < |a| ==> a[i] in documents
      requires forall i :: 0 <= i < |b| ==> b[i] in documents
      ensures Select(a + b, q, actor) == Select(a, q, actor) + Select(b, q, actor)
    {
      if a != [] {
        assert (a + b)[1..] == a[1..] + b;
        SelectAppend(a[1..], b, q, actor);
      } else {
        assert a + b == b;
      }
    }

    /** Select keeps the order of `order`: a kept entry comes right after the
        entries kept before it. */
    lemma SelectKeepsOrder(order: seq<DocumentId>, i: nat, q: DocumentQuery, actor: Actor)
      requires forall j :: 0 <= j < |order| ==> order[j] in documents
      requires i < |order| && MatchesQuery(documents[order[i]], q, actor)
      ensures var before := |Select(order[..i], q, actor)|;
        before < |Select(order, q, actor)| && Select(order, q, actor)[before] == documents[order[i]]
    {
      assert order == order[..i] + order[i..];
      SelectAppend(order[..i], order[i..], q, actor);
      assert order[i..][1..] == order[i + 1..];
    }

    /** Over a listing without repeats, the filter keeps one row per matching id. */
    lemma {:induction false} SelectCount(order: seq<DocumentId>, q: DocumentQuery, actor: Actor)
      requires forall i :: 0 <= i < |order| ==> order[i] in documents
      requires forall i, j :: 0 <= i < j < |order| ==> order[i] != order[j]
      ensures |Select(order, q, actor)| == |MatchingIn(order, q, actor)|
    {
      if order != [] {
        var rest := order[1..];
        SelectCount(rest, q, actor);
        assert order[0] !in rest by {
          forall j | 0 <= j < |rest| ensures rest[j] != order[0] {
            assert rest[j] == order[j + 1];
          }
        }
        if MatchesQuery(documents[order[0]], q, actor) {
          assert MatchingIn(order, q, actor) == MatchingIn(rest, q, actor) + {order[0]};
        } else {
          assert MatchingIn(order, q, actor) == MatchingIn(rest, q, actor);
        }
      } else {
        assert MatchingIn(order, q, actor) == {};
      }
    }

    /** Over a listing of the whole table, the filter keeps one row per
        matching stored document. */
    lemma SelectCountsMatches(order: seq<DocumentId>, q: DocumentQuery, actor: Actor)
      requires ListsEachOnce(order, documents.Keys)
      ensures |Select(order, q, actor)| == |MatchingIds(q, actor)|
    {
      SelectCount(order, q, actor);
      assert MatchingIn(order, q, actor) == MatchingIds(q, actor);
    }

    /** One page of the documents the actor may list, with the number of
        matching documents over all pages. `order` is the table as the
        database sorts it: every stored id exactly once. */
    function FindAll(q: DocumentQuery, actor: Actor, order: seq<DocumentId>): (r: DocumentPage)
      reads this
      requires ValidPaging(q.page, q.limit)
      requires ListsEachOnce(order, documents.Keys)
      ensures r.total == |Select(order, q, actor)| == |MatchingIds(q, actor)|
      ensures var skip := Skip(EffectivePage(q.page), EffectiveLimit(q.limit));
        && |r.documents| == (if skip >= r.total then 0 else Min(EffectiveLimit(q.limit), r.total - skip))
        && forall i :: 0 <= i < |r.documents| ==> r.documents[i] == Select(order, q, actor)[skip + i]
      ensures forall d :: d in r.documents ==> d in documents.Values && MatchesQuery(d, q, actor)
    {
      var rows := Select(order, q, actor);
      var page := PageOf(rows, EffectivePage(q.page), EffectiveLimit(q.limit));
      SelectCountsMatches(order, q, actor);
      assert forall d :: d in page ==> d in rows;
      DocumentPage(page, |rows|)
    }

    /** A non-Admin's listing holds only its own documents. */
    lemma ListingIsOwnForNonAdmin(q: DocumentQuery, actor: Actor, order: seq<DocumentId>)
      requires ValidPaging(q.page, q.limit)
      requires ListsEachOnce(order, documents.Keys)
      requires actor.role != Admin
      ensures forall d :: d in FindAll(q, actor, order).documents ==> d.createdBy == actor.id
    {
    }

    /** Reading by id and listing without filters agree: a stored document is
        in the actor's unfiltered listing exactly when FindById returns it. */
    lemma {:induction false} ReadAgreesWithListing(id: DocumentId, actor: Actor, order: seq<DocumentId>)
      requires Valid()
      requires forall i :: 0 <= i < |order| ==> order[i] in documents
      requires forall k :: k in documents ==> k in order
      requires id in documents
      ensures FindById(id, actor).Ok? <==> documents[id] in Select(order, NoFilter, actor)
    {
      var rows := Select(order, NoFilter, actor);
      if documents[id] in rows {
        assert MatchesQuery(documents[id], NoFilter, actor);
      } else {
        var i :| 0 <= i < |order| && order[i] == id;
        assert !MatchesQuery(documents[order[i]], NoFilter, actor);
      }
    }
  }
}
