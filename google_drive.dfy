/**
 * The parts of src/googleDrive.js that compute something: the text
 * extraction of `readDoc`, the insertion request of `writeToDoc`, the folder
 * metadata of `createFolder`, and the Drive query strings and document URLs.
 *
 * The Docs and Drive API calls are oracles: `Err(m)` is a call that threw.
 */
module GoogleDrive {
  import opened Base
  import opened JsStrings

  // ---------------------------------------------------------------- document body

  /** `textRun`; an empty `content` is falsy and is skipped like a missing one. */
  datatype TextRun = TextRun(content: string)

  datatype ParagraphElement = ParagraphElement(textRun: Option<TextRun>)

  /** `paragraph.elements`, which may be missing. */
  datatype Paragraph = Paragraph(elements: Option<seq<ParagraphElement>>)

  /** An entry of `body.content`: a paragraph or some other element (a table, a section break...). */
  datatype StructuralElement = StructuralElement(paragraph: Option<Paragraph>, endIndex: int)

  /** What `textElement` adds to the text. */
  function RunText(e: ParagraphElement): string {
    if e.textRun.Some? && e.textRun.value.content != "" then e.textRun.value.content else ""
  }

  /** The text of a paragraph's elements, in order. */
  function RunsText(es: seq<ParagraphElement>): string {
    if es == [] then "" else RunsText(es[..|es| - 1]) + RunText(es[|es| - 1])
  }

  /** `paragraph.elements || []`. */
  function ElementsOf(p: Paragraph): seq<ParagraphElement> {
    if p.elements.Some? then p.elements.value else []
  }

  /** What one structural element adds: its runs when it is a paragraph, nothing otherwise. */
  function ElementText(e: StructuralElement): string {
    if e.paragraph.Some? then RunsText(ElementsOf(e.paragraph.value)) else ""
  }

  /** The text `readDoc` accumulates over `content`, before trimming. */
  function BodyText(content: seq<StructuralElement>): string {
    if content == [] then "" else BodyText(content[..|content| - 1]) + ElementText(content[|content| - 1])
  }

  /** The nested loops of `readDoc`: `text +=` every non-empty run of every paragraph. */
  method ExtractText(content: seq<StructuralElement>) returns (text: string)
    ensures text == BodyText(content)
  {
    text := "";
    var i := 0;
    while i < |content|
      invariant 0 <= i <= |content|
      invariant text == BodyText(content[..i])
    {
      var element := content[i];
      if element.paragraph.Some? {
        text := AppendRuns(text, ElementsOf(element.paragraph.value));
      }
      assert content[..i + 1][..i] == content[..i];
      i := i + 1;
    }
    assert content[..i] == content;
  }

  /** The inner loop of `readDoc`: `text +=` every non-empty run of one paragraph. */
  method AppendRuns(text0: string, elements: seq<ParagraphElement>) returns (text: string)
    ensures text == text0 + RunsText(elements)
  {
    text := text0;
    var j := 0;
    while j < |elements|
      invariant 0 <= j <= |elements|
      invariant text == text0 + RunsText(elements[..j])
    {
      var textElement := elements[j];
      if textElement.textRun.Some? && textElement.textRun.value.content != "" {
        text := text + textElement.textRun.value.content;
      }
      assert elements[..j + 1][..j] == elements[..j];
      j := j + 1;
    }
    assert elements[..j] == elements;
  }

  /** Every non-empty run of every paragraph, in document order: the reference reading. */
  function Runs(content: seq<StructuralElement>): seq<string> {
    if content == [] then []
    else
      var e := content[0];
      (if e.paragraph.Some? then ParagraphRuns(ElementsOf(e.paragraph.value)) else []) + Runs(content[1..])
  }

  function ParagraphRuns(es: seq<ParagraphElement>): seq<string> {
    if es == [] then []
    else (if RunText(es[0]) != "" then [RunText(es[0])] else []) + ParagraphRuns(es[1..])
  }

  /** Concatenation of a list of strings. */
  function Concat(parts: seq<string>): string {
    if parts == [] then "" else parts[0] + Concat(parts[1..])
  }

  lemma {:induction false} ConcatAppend(a: seq<string>, b: seq<string>)
    ensures Concat(a + b) == Concat(a) + Concat(b)
  {
    if a == [] {
      assert a + b == b;
    } else {
      assert (a + b)[1..] == a[1..] + b;
      ConcatAppend(a[1..], b);
    }
  }

  lemma {:induction false} RunsTextAppend(a: seq<ParagraphElement>, b: seq<ParagraphElement>)
    ensures RunsText(a + b) == RunsText(a) + RunsText(b)
    decreases |b|
  {
    if b == [] {
      assert a + b == a;
    } else {
      var init, last := b[..|b| - 1], b[|b| - 1];
      assert (a + b)[..|a + b| - 1] == a + init && (a + b)[|a + b| - 1] == last;
      assert RunsText(a + b) == RunsText(a + init) + RunText(last);
      assert RunsText(b) == RunsText(init) + RunText(last);
      RunsTextAppend(a, init);
      ConcatAssoc(RunsText(a), RunsText(init), RunText(last));
    }
  }

  /** Text accumulation distributes over the document: the text of two parts is the two texts joined. */
  lemma {:induction false} BodyTextAppend(a: seq<StructuralElement>, b: seq<StructuralElement>)
    ensures BodyText(a + b) == BodyText(a) + BodyText(b)
    decreases |b|
  {
    if b == [] {
      assert a + b == a;
    } else {
      assert (a + b)[..|a + b| - 1] == a + b[..|b| - 1];
      BodyTextAppend(a, b[..|b| - 1]);
    }
  }

  /** A paragraph's runs, joined, are its text. */
  lemma {:induction false} ParagraphRunsText(es: seq<ParagraphElement>)
    ensures Concat(ParagraphRuns(es)) == RunsText(es)
  {
    if es != [] {
      ParagraphRunsText(es[1..]);
      assert es == [es[0]] + es[1..];
      RunsTextAppend([es[0]], es[1..]);
      assert RunsText([es[0]]) == RunText(es[0]) by {
        assert [es[0]][..0] == [];
      }
      ConcatAppend(if RunText(es[0]) != "" then [RunText(es[0])] else [], ParagraphRuns(es[1..]));
    }
  }

  /** The accumulated text is exactly the non-empty runs of the paragraphs, concatenated in document order. */
  lemma {:induction false} BodyTextIsRuns(content: seq<StructuralElement>)
    ensures BodyText(content) == Concat(Runs(content))
  {
    if content != [] {
      var e := content[0];
      BodyTextIsRuns(content[1..]);
      assert content == [e] + content[1..];
      BodyTextAppend([e], content[1..]);
      assert BodyText([e]) == ElementText(e) by {
        assert [e][..0] == [];
      }
      if e.paragraph.Some? {
        ParagraphRunsText(ElementsOf(e.paragraph.value));
      }
      ConcatAppend(if e.paragraph.Some? then ParagraphRuns(ElementsOf(e.paragraph.value)) else [], Runs(content[1..]));
    }
  }

  /** Elements that are not paragraphs contribute nothing. */
  lemma NonParagraphsAddNothing(content: seq<StructuralElement>, e: StructuralElement)
    requires e.paragraph.None?
    ensures BodyText(content + [e]) == BodyText(content)
    ensures BodyText([e] + content) == BodyText(content)
  {
    assert (content + [e])[..|content|] == content;
    BodyTextAppend([e], content);
    assert BodyText([e]) == "" by {
      assert [e][..0] == [];
    }
  }

  // ---------------------------------------------------------------- URLs and queries

  const DocUrlPrefix := "https://docs.google.com/document/d/"
  const DocUrlSuffix := "/edit"

  /** `https://docs.google.com/document/d/${id}/edit`. */
  function DocUrl(id: string): string {
    DocUrlPrefix + id + DocUrlSuffix
  }

  /** Reads the id back out of a document URL. */
  function DocIdOf(url: string): Option<string> {
    if |url| >= |DocUrlPrefix| + |DocUrlSuffix| && url[..|DocUrlPrefix|] == DocUrlPrefix &&
       url[|url| - |DocUrlSuffix|..] == DocUrlSuffix
    then Some(url[|DocUrlPrefix|..|url| - |DocUrlSuffix|])
    else None
  }

  /** The URL names its document: the id comes back out, so different ids give different URLs. */
  lemma DocUrlRoundTrip(id: string)
    ensures DocIdOf(DocUrl(id)) == Some(id)
  {
    var u := DocUrl(id);
    assert u[..|DocUrlPrefix|] == DocUrlPrefix;
    assert u[|u| - |DocUrlSuffix|..] == DocUrlSuffix;
    assert u[|DocUrlPrefix|..|u| - |DocUrlSuffix|] == id;
  }

  lemma DocUrlInjective(a: string, b: string)
    requires DocUrl(a) == DocUrl(b)
    ensures a == b
  {
    DocUrlRoundTrip(a);
    DocUrlRoundTrip(b);
  }

  const NameContains := "name contains '"
  const NotTrashed := "' and trashed=false"
  const DocMimeClause := "mimeType='application/vnd.google-apps.document' and "

  /** The `q` of `searchFiles`: `name contains '${query}' and trashed=false`. */
  function SearchFilesQuery(query: string): string {
    NameContains + query + NotTrashed
  }

  /** The `q` of `searchDocs`: the same search, restricted to Google Docs. */
  function SearchDocsQuery(query: string): string {
    DocMimeClause + NameContains + query + NotTrashed
  }

  /** The `q` of `listDocs`. */
  const ListDocsQuery := "mimeType='application/vnd.google-apps.document' and trashed=false"

  /** Reads back the text between the quotes of a `searchFiles` query. */
  function QueryTextOf(q: string): Option<string> {
    if |q| >= |NameContains| + |NotTrashed| && q[..|NameContains|] == NameContains &&
       q[|q| - |NotTrashed|..] == NotTrashed
    then Some(q[|NameContains|..|q| - |NotTrashed|])
    else None
  }

  /**
   * The query text is embedded verbatim between single quotes, next to
   * "trashed=false", and comes back out unchanged.
   */
  lemma SearchFilesQueryRoundTrip(query: string)
    ensures QueryTextOf(SearchFilesQuery(query)) == Some(query)
    ensures SearchFilesQuery(query)[|NameContains| - 1] == '\''
    ensures SearchFilesQuery(query)[|NameContains| + |query|] == '\''
    ensures Includes(SearchFilesQuery(query), "trashed=false")
  {
    var q := SearchFilesQuery(query);
    SlicesOfConcat(NameContains, query, NotTrashed);
    assert OccursAt(q, "trashed=false", |q| - 13) by {
      assert NotTrashed[6..] == "trashed=false";
      assert q[|q| - 13..] == q[|q| - |NotTrashed|..][6..];
    }
    IncludesIff(q, "trashed=false");
  }

  /** The Docs search is the file search behind the Docs MIME type clause, so it embeds the text the same way. */
  lemma SearchDocsQueryIsFilesQuery(query: string)
    ensures SearchDocsQuery(query) == DocMimeClause + SearchFilesQuery(query)
    ensures QueryTextOf(SearchDocsQuery(query)[|DocMimeClause|..]) == Some(query)
  {
    SearchFilesQueryRoundTrip(query);
    assert SearchDocsQuery(query) == DocMimeClause + SearchFilesQuery(query);
    assert (DocMimeClause + SearchFilesQuery(query))[|DocMimeClause|..] == SearchFilesQuery(query);
  }

  /** The three pieces of a concatenation are its slices. */
  lemma SlicesOfConcat(x: string, y: string, z: string)
    ensures var q := x + y + z;
            q[..|x|] == x && q[|q| - |z|..] == z && q[|x|..|q| - |z|] == y
  {
  }

  /** The Docs listing keeps the MIME type clause and the trash filter of the search, with no name filter. */
  lemma ListDocsQueryShape()
    ensures ListDocsQuery == DocMimeClause + "trashed=false"
  {
  }

  // ---------------------------------------------------------------- readDoc

  /** `response.data` of `documents.get`. */
  datatype Document = Document(documentId: string, title: string, content: seq<StructuralElement>)

  /** The `document` object `readDoc` returns. */
  datatype ReadDocument = ReadDocument(id: string, title: string, content: string, url: string)

  /** `readDoc`: the extracted text, trimmed, and the URL of the document the API returned. */
  function ReadDoc(get: Result<Document>): (r: Envelope<ReadDocument>)
    ensures r.success <==> get.Ok?
    ensures r.success ==> r.payload.Some? &&
                          r.payload.value.content == Trim(Concat(Runs(get.value.content))) &&
                          DocIdOf(r.payload.value.url) == Some(get.value.documentId)
    ensures !r.success ==> r.error == Some(get.message) && r.message == "Failed to read Google Doc"
  {
    match get
    case Err(m) => Failed(m, "Failed to read Google Doc")
    case Ok(doc) =>
      BodyTextIsRuns(doc.content);
      DocUrlRoundTrip(doc.documentId);
      Succeeded(ReadDocument(doc.documentId, doc.title, Trim(BodyText(doc.content)), DocUrl(doc.documentId)),
                "Document read successfully")
  }

  // ---------------------------------------------------------------- writeToDoc

  /** An `insertText` request: where, and what. */
  datatype InsertText = InsertText(index: int, text: string)

  /** The `batchUpdate` call `writeToDoc` makes. */
  datatype BatchUpdate = BatchUpdate(documentId: string, requests: seq<InsertText>)

  /** What `writeToDoc` returned, and the update it sent, if any. */
  datatype WriteOutcome = WriteOutcome(envelope: Envelope<string>, sent: Option<BatchUpdate>)

  /**
   * `writeToDoc`: the end index is read from the last content element before
   * the location is looked at, so an empty body fails even for "start"
   * (`content[-1]` is `undefined`). The payload is the document URL.
   */
  function WriteToDoc(documentId: string, text: string, location: string,
                      get: Result<seq<StructuralElement>>, batch: BatchUpdate -> Result<()>): WriteOutcome {
    match get
    case Err(m) => WriteOutcome(Failed(m, "Failed to write to Google Doc"), None)
    case Ok(content) =>
      if content == [] then
        WriteOutcome(Failed("Cannot read properties of undefined (reading 'endIndex')", "Failed to write to Google Doc"), None)
      else
        var endIndex := content[|content| - 1].endIndex;
        var insertIndex := if location == "start" then 1 else endIndex - 1;
        var update := BatchUpdate(documentId, [InsertText(insertIndex, text + "\n")]);
        match batch(update)
        case Err(m) => WriteOutcome(Failed(m, "Failed to write to Google Doc"), Some(update))
        case Ok(_) => WriteOutcome(Envelope(true, Some(DocUrl(documentId)), None, "Text added to document successfully"), Some(update))
  }

  /**
   * Any update sent is one `insertText` of the text plus a newline, at index 1
   * for "start" and otherwise just before the last element's end; an empty
   * body sends nothing.
   */
  lemma WriteToDocRequest(documentId: string, text: string, location: string,
                          content: seq<StructuralElement>, batch: BatchUpdate -> Result<()>)
    ensures var w := WriteToDoc(documentId, text, location, Ok(content), batch);
            (content == [] <==> w.sent.None?) &&
            (w.sent.Some? ==>
               w.sent.value.documentId == documentId && |w.sent.value.requests| == 1 &&
               w.sent.value.requests[0].text == text + "\n" &&
               w.sent.value.requests[0].index == (if location == "start" then 1 else content[|content| - 1].endIndex - 1))
    ensures content == [] ==> !WriteToDoc(documentId, text, location, Ok(content), batch).envelope.success
  {
  }

  /** A successful write reports the URL of the document it wrote to. */
  lemma WriteToDocUrl(documentId: string, text: string, location: string,
                      content: seq<StructuralElement>, batch: BatchUpdate -> Result<()>)
    requires WriteToDoc(documentId, text, location, Ok(content), batch).envelope.success
    ensures DocIdOf(WriteToDoc(documentId, text, location, Ok(content), batch).envelope.payload.value) == Some(documentId)
  {
    DocUrlRoundTrip(documentId);
  }

  // ---------------------------------------------------------------- createFolder

  const FolderMimeType := "application/vnd.google-apps.folder"

  /** `fileMetadata`; `parents` is `None` when the object lacks the field. */
  datatype FolderMetadata = FolderMetadata(name: string, mimeType: string, parents: Option<seq<string>>)

  /** The metadata of a new folder: always the folder type, a parent exactly when one is given. */
  function NewFolderMetadata(folderName: string, parentFolderId: string): (r: FolderMetadata)
    ensures r.name == folderName && r.mimeType == FolderMimeType
    ensures r.parents.Some? <==> parentFolderId != ""
    ensures r.parents.Some? ==> r.parents.value == [parentFolderId]
  {
    FolderMetadata(folderName, FolderMimeType, if parentFolderId != "" then Some([parentFolderId]) else None)
  }

  /** The construction of `fileMetadata` as written: the literal, then `parents` when a parent is given. */
  method BuildFolderMetadata(folderName: string, parentFolderId: string) returns (metadata: FolderMetadata)
    ensures metadata == NewFolderMetadata(folderName, parentFolderId)
  {
    metadata := FolderMetadata(folderName, FolderMimeType, None);
    if parentFolderId != "" {
      metadata := metadata.(parents := Some([parentFolderId]));
    }
  }
}
