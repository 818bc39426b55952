/** The document route: the upload size limit, the stored file name built from
    the upload instant and the sanitised original name, the caller's document
    list, and the delete that only the document's owner may perform. Writing the
    file to disk is outside the model. */
module Upload {
  import opened Common

  /** 10 MiB: a file of exactly this size is accepted. */
  const MaxUploadBytes: nat := 10 * 1024 * 1024

  predicate TooLarge(size: nat)
  {
    size > MaxUploadBytes
  }

  /** A character the pattern `[^a-zA-Z0-9.-]` leaves alone. */
  predicate IsSafeChar(c: char)
  {
    ('a' <= c <= 'z') || ('A' <= c <= 'Z') || ('0' <= c <= '9') || c == '.' || c == '-'
  }

  /** Every character outside `[a-zA-Z0-9.-]` becomes "_". */
  function SanitizeFileName(name: string): (r: string)
    ensures |r| == |name|
    ensures forall i :: 0 <= i < |name| ==> (IsSafeChar(name[i]) ==> r[i] == name[i])
    ensures forall i :: 0 <= i < |name| ==> (!IsSafeChar(name[i]) ==> r[i] == '_')
    ensures forall i :: 0 <= i < |r| ==> IsSafeChar(r[i]) || r[i] == '_'
    decreases |name|
  {
    if name == [] then []
    else
      var rest := SanitizeFileName(name[1..]);
      assert forall i :: 1 <= i < |name| ==> name[i] == name[1..][i - 1];
      [if IsSafeChar(name[0]) then name[0] else '_'] + rest
  }

  /** Sanitising twice changes nothing more. */
  lemma {:induction false} SanitizeIdempotent(name: string)
    ensures SanitizeFileName(SanitizeFileName(name)) == SanitizeFileName(name)
    decreases |name|
  {
    if name != [] {
      var once := SanitizeFileName(name);
      SanitizeIdempotent(name[1..]);
      assert once[1..] == SanitizeFileName(name[1..]);
    }
  }

  /** A name made only of allowed characters is kept as it is. */
  lemma SanitizeKeepsSafeNames(name: string)
    requires forall i :: 0 <= i < |name| ==> IsSafeChar(name[i])
    ensures SanitizeFileName(name) == name
  {
  }

  /** `${timestamp}_${sanitised}`. */
  function StoredFileName(timestamp: nat, name: string): string
  {
    DecimalString(timestamp) + ("_" + SanitizeFileName(name))
  }

  function FileUrl(fileName: string): string
  {
    "/uploads/" + fileName
  }

  /** The stored name holds no path separator, so it names a file directly inside
      the uploads directory, and its URL is that directory's prefix plus the name. */
  lemma StoredFileNameStaysInDirectory(timestamp: nat, name: string)
    ensures var f := StoredFileName(timestamp, name);
      forall i :: 0 <= i < |f| ==> f[i] != '/' && f[i] != '\\'
    ensures "/uploads/" <= FileUrl(StoredFileName(timestamp, name))
  {
    var d, s := DecimalString(timestamp), SanitizeFileName(name);
    var f := StoredFileName(timestamp, name);
    forall i | 0 <= i < |f| ensures f[i] != '/' && f[i] != '\\' {
      CharOfConcat(d, "_" + s, i);
      if i > |d| {
        CharOfConcat("_", s, i - |d|);
      }
    }
  }

  /** The stored name gives back the upload instant and the sanitised name, so
      uploads at different instants never share a stored name. */
  lemma StoredFileNameReadBack(t: nat, name: string, t': nat, name': string)
    requires StoredFileName(t, name) == StoredFileName(t', name')
    ensures t == t' && SanitizeFileName(name) == SanitizeFileName(name')
  {
    NumeralPrefixUnique(t, "_" + SanitizeFileName(name), t', "_" + SanitizeFileName(name'));
    assert SanitizeFileName(name) == ("_" + SanitizeFileName(name))[1..];
    assert SanitizeFileName(name') == ("_" + SanitizeFileName(name'))[1..];
  }

  // ---------------------------------------------------------------------------
  // The document table.

  datatype UploadedFile = UploadedFile(name: string, size: nat, mimeType: string)

  datatype Document = Document(
    id: nat,
    userId: nat,
    docType: string,
    name: string,
    description: Option<string>,
    fileUrl: string,
    fileName: string,
    fileSize: nat,
    mimeType: string)

  datatype UploadResponse = NoFile | FileTooLarge | Uploaded(document: Document)

  datatype DeleteResponse = MissingId | DocumentNotFound | Deleted

  /** The position of the document with this id. */
  function IndexOfDocument(docs: seq<Document>, id: nat): (r: Option<nat>)
    ensures r.Some? ==> r.value < |docs| && docs[r.value].id == id
    ensures r.Some? ==> forall j :: 0 <= j < r.value ==> docs[j].id != id
    ensures r.None? <==> forall j :: 0 <= j < |docs| ==> docs[j].id != id
    decreases |docs|
  {
    if docs == [] then None
    else if docs[0].id == id then Some(0)
    else
      match IndexOfDocument(docs[1..], id)
      case None => None
      case Some(k) => Some(k + 1)
  }

  /** The caller's documents, newest first. */
  function OwnedNewestFirst(docs: seq<Document>, userId: nat): (r: seq<Document>)
    ensures forall d :: d in r <==> d in docs && d.userId == userId
    ensures |r| <= |docs|
    decreases |docs|
  {
    if docs == [] then []
    else
      var last := docs[|docs| - 1];
      var older := docs[..|docs| - 1];
      assert docs == older + [last];
      (if last.userId == userId then [last] else []) + OwnedNewestFirst(older, userId)
  }

  predicate IdsDescending(docs: seq<Document>)
  {
    forall i, j :: 0 <= i < j < |docs| ==> docs[i].id > docs[j].id
  }

  /** With ids issued in creation order, the list runs from the largest id down. */
  lemma {:induction false} OwnedNewestFirstDescending(docs: seq<Document>, userId: nat)
    requires forall i, j :: 0 <= i < j < |docs| ==> docs[i].id < docs[j].id
    ensures IdsDescending(OwnedNewestFirst(docs, userId))
    decreases |docs|
  {
    if docs != [] {
      var last := docs[|docs| - 1];
      var older := docs[..|docs| - 1];
      assert forall k :: 0 <= k < |older| ==> older[k] == docs[k];
      OwnedNewestFirstDescending(older, userId);
      var rest := OwnedNewestFirst(older, userId);
      if last.userId == userId {
        forall d | d in rest ensures d.id < last.id {
          var k :| 0 <= k < |older| && older[k] == d;
        }
        PrependLarger(last, rest);
      }
    }
  }

  lemma PrependLarger(d: Document, rest: seq<Document>)
    requires IdsDescending(rest)
    requires forall e :: e in rest ==> e.id < d.id
    ensures IdsDescending([d] + rest)
  {
    var r := [d] + rest;
    forall i, j | 0 <= i < j < |r| ensures r[i].id > r[j].id {
      assert r[j] == rest[j - 1];
      if i > 0 {
        assert r[i] == rest[i - 1];
      }
    }
  }

  class DocumentTable {
    var documents: seq<Document>
    var nextId: nat

    /** Ids are issued in creation order, so they are unique. */
    ghost predicate Valid()
      reads this
    {
      (forall i :: 0 <= i < |documents| ==> documents[i].id < nextId) &&
      (forall i, j :: 0 <= i < j < |documents| ==> documents[i].id < documents[j].id)
    }

    constructor ()
      ensures Valid() && documents == []
    {
      documents, nextId := [], 0;
    }

    /** POST: no file, or one over the limit, writes nothing; otherwise the
        document row is recorded under the stored name. */
    method Upload(userId: nat, file: Option<UploadedFile>, docType: string, description: Option<string>,
                  timestamp: nat)
      returns (r: UploadResponse)
      requires Valid()
      modifies this
      ensures Valid()
      ensures file.None? ==> r == NoFile && documents == old(documents)
      ensures file.Some? && TooLarge(file.value.size) ==> r == FileTooLarge && documents == old(documents)
      ensures file.Some? && !TooLarge(file.value.size) ==>
        var f := file.value;
        var stored := StoredFileName(timestamp, f.name);
        r == Uploaded(Document(old(nextId), userId, docType, f.name, OrNull(description),
                               FileUrl(stored), stored, f.size, f.mimeType)) &&
        documents == old(documents) + [r.document]
    {
      if file.None? {
        return NoFile;
      }
      var f := file.value;
      if f.size > MaxUploadBytes {
        return FileTooLarge;
      }
      var originalName := SanitizeFileName(f.name);
      var fileName := DecimalString(timestamp) + ("_" + originalName);
      var document := Document(nextId, userId, docType, f.name, OrNull(description),
                               "/uploads/" + fileName, fileName, f.size, f.mimeType);
      documents := documents + [document];
      nextId := nextId + 1;
      return Uploaded(document);
    }

    method FindDocument(id: nat) returns (found: Option<nat>)
      ensures found == IndexOfDocument(documents, id)
    {
      var i := 0;
      while i < |documents|
        invariant 0 <= i <= |documents|
        invariant forall j :: 0 <= j < i ==> documents[j].id != id
      {
        if documents[i].id == id {
          FirstDocumentMatch(documents, id, i);
          return Some(i);
        }
        i := i + 1;
      }
      return None;
    }

    /** DELETE: without an id nothing happens; a document that is missing or
        belongs to someone else is reported as not found and kept; otherwise the
        document is removed and every other one kept, in order. */
    method Delete(userId: nat, id: Option<nat>) returns (r: DeleteResponse)
      requires Valid()
      modifies this`documents
      ensures Valid()
      ensures id.None? ==> r == MissingId && documents == old(documents)
      ensures id.Some? ==>
        var found := IndexOfDocument(old(documents), id.value);
        if found.None? || old(documents)[found.value].userId != userId then
          r == DocumentNotFound && documents == old(documents)
        else
          r == Deleted &&
          documents == old(documents)[..found.value] + old(documents)[found.value + 1..]
    {
      if id.None? {
        return MissingId;
      }
      var found := FindDocument(id.value);
      if found.None? || documents[found.value].userId != userId {
        return DocumentNotFound;
      }
      var i := found.value;
      documents := documents[..i] + documents[i + 1..];
      return Deleted;
    }

    /** GET: exactly the caller's documents, newest first. */
    function Get(userId: nat): (r: seq<Document>)
      reads this
      requires Valid()
      ensures forall d :: d in r <==> d in documents && d.userId == userId
      ensures forall i, j :: 0 <= i < j < |r| ==> r[i].id > r[j].id
    {
      OwnedNewestFirstDescending(documents, userId);
      OwnedNewestFirst(documents, userId)
    }
  }

  lemma FirstDocumentMatch(docs: seq<Document>, id: nat, i: nat)
    requires i < |docs| && docs[i].id == id
    requires forall j :: 0 <= j < i ==> docs[j].id != id
    ensures IndexOfDocument(docs, id) == Some(i)
  {
  }

  /** A delete by the owner removes exactly that document: with unique ids, no row
      with that id is left and every other row is still there. */
  lemma DeleteRemovesOnlyTarget(docs: seq<Document>, i: nat)
    requires i < |docs|
    requires forall a, b :: 0 <= a < b < |docs| ==> docs[a].id < docs[b].id
    ensures var after := docs[..i] + docs[i + 1..];
      |after| == |docs| - 1 &&
      (forall d :: d in after ==> d.id != docs[i].id) &&
      (forall d :: d in docs && d.id != docs[i].id ==> d in after) &&
      multiset(after) + multiset{docs[i]} == multiset(docs)
  {
    var after := docs[..i] + docs[i + 1..];
    assert docs == docs[..i] + [docs[i]] + docs[i + 1..];
    forall d | d in after ensures d.id != docs[i].id {
      var k :| 0 <= k < |after| && after[k] == d;
      if k < i {
        assert after[k] == docs[k];
      } else {
        assert after[k] == docs[k + 1];
      }
    }
  }
}
