/**
 * Documents and their ingestion: reading `.md` / `.txt` files from a directory listing,
 * and prefixing each chunk with a file-name label. The three services derive that label
 * differently (`||`, `??`, or the last segment of the source path).
 */
module Documents {
  import opened Wrappers
  import opened Text

  /** The metadata the loaders attach: `source` (the file path) and `file_name`. */
  datatype Metadata = Metadata(source: Option<string>, fileName: Option<string>)

  datatype Document = Document(pageContent: string, metadata: Metadata)

  /** One directory entry: its name and its contents, or None when reading it fails. */
  datatype FileEntry = FileEntry(name: string, contents: Option<string>)

  /** `file.endsWith(".md") || file.endsWith(".txt")`. */
  predicate IsDocFile(name: string) {
    EndsWith(name, ".md") || EndsWith(name, ".txt")
  }

  /** `path.join(dir, file)` for a plain file name. */
  function JoinPath(dir: string, file: string): string {
    dir + "/" + file
  }

  /** The document a readable document file becomes. */
  function FileDocument(dir: string, name: string, contents: string): Document {
    Document(contents, Metadata(Some(JoinPath(dir, name)), Some(name)))
  }

  /**
   * The documents read from a directory listing: one per `.md` / `.txt` entry that could be
   * read, in listing order; other entries and unreadable files are skipped.
   */
  function LoadedDocuments(dir: string, files: seq<FileEntry>): (r: seq<Document>)
    ensures |r| <= |files|
    ensures forall d :: d in r ==>
              exists f :: f in files && IsDocFile(f.name) && f.contents.Some?
                          && d == FileDocument(dir, f.name, f.contents.value)
    ensures forall f :: f in files && IsDocFile(f.name) && f.contents.Some? ==>
              FileDocument(dir, f.name, f.contents.value) in r
  {
    if files == [] then []
    else
      var front := files[..|files| - 1];
      var f := files[|files| - 1];
      assert files == front + [f];
      LoadedDocuments(dir, front)
        + (if IsDocFile(f.name) && f.contents.Some? then [FileDocument(dir, f.name, f.contents.value)] else [])
  }

  /** The loader loop shared by the three services: filter by extension, read, push. */
  method LoadDocuments(dir: string, files: seq<FileEntry>) returns (documents: seq<Document>)
    ensures documents == LoadedDocuments(dir, files)
  {
    documents := [];
    var i := 0;
    while i < |files|
      invariant 0 <= i <= |files|
      invariant documents == LoadedDocuments(dir, files[..i])
    {
      var file := files[i];
      assert files[..i + 1] == files[..i] + [file];
      if EndsWith(file.name, ".md") || EndsWith(file.name, ".txt") {
        match file.contents
        case Some(content) =>
          documents := documents + [FileDocument(dir, file.name, content)];
        case None =>
      }
      i := i + 1;
    }
    assert files[..i] == files;
  }

  /** `doc.metadata.file_name || "unknown"`: a missing or empty name gives "unknown". */
  function OrLabel(m: Metadata): (r: string)
    ensures m.fileName.Some? && m.fileName.value != "" ==> r == m.fileName.value
    ensures m.fileName.None? || m.fileName == Some("") ==> r == "unknown"
  {
    match m.fileName
    case Some(name) => if name != "" then name else "unknown"
    case None => "unknown"
  }

  /** `doc.metadata.file_name ?? "unknown"`: only a missing name gives "unknown". */
  function NullishLabel(m: Metadata): (r: string)
    ensures m.fileName.Some? ==> r == m.fileName.value
    ensures m.fileName.None? ==> r == "unknown"
  {
    match m.fileName
    case Some(name) => name
    case None => "unknown"
  }

  /** The two default rules disagree exactly on an empty file name. */
  lemma LabelsDifferOnEmptyName(m: Metadata)
    ensures OrLabel(m) != NullishLabel(m) <==> m.fileName == Some("")
  {
  }

  /** The text after the last `/` (the whole string when there is none). */
  function LastSegment(s: string): (r: string)
    ensures |r| <= |s| && r == s[|s| - |r|..]
    ensures '/' !in r
    ensures |r| < |s| ==> s[|s| - |r| - 1] == '/'
  {
    if s == [] || s[|s| - 1] == '/' then []
    else LastSegment(s[..|s| - 1]) + [s[|s| - 1]]
  }

  /** `doc.metadata.source?.split("/").pop() || "unknown"`. */
  function SourceLabel(m: Metadata): (r: string)
    ensures m.source.None? ==> r == "unknown"
    ensures m.source.Some? && LastSegment(m.source.value) != "" ==> r == LastSegment(m.source.value)
    ensures m.source.Some? && LastSegment(m.source.value) == "" ==> r == "unknown"
    ensures r != ""
  {
    match m.source
    case None => "unknown"
    case Some(source) => if LastSegment(source) != "" then LastSegment(source) else "unknown"
  }

  /** The last segment of `dir/name` is `name` itself, for a name without `/`. */
  lemma {:induction false} LastSegmentOfJoin(dir: string, name: string)
    requires '/' !in name
    ensures LastSegment(JoinPath(dir, name)) == name
    decreases |name|
  {
    var p := JoinPath(dir, name);
    if name != [] {
      var front := name[..|name| - 1];
      LastSegmentOfJoin(dir, front);
      assert p[..|p| - 1] == JoinPath(dir, front);
    }
  }

  /**
   * For a loaded document the path-derived label and the `||` label coincide: both are
   * the file name (a document file name is never empty).
   */
  lemma SourceLabelOfLoaded(dir: string, name: string, contents: string)
    requires '/' !in name && IsDocFile(name)
    ensures SourceLabel(FileDocument(dir, name, contents).metadata) == name
    ensures OrLabel(FileDocument(dir, name, contents).metadata) == name
  {
    LastSegmentOfJoin(dir, name);
  }

  /** `tag + "\n" + content`: the prefixed chunk text, from which the chunk can be read back. */
  function Prefixed(tag: string, content: string): (r: string)
    ensures |r| == |tag| + 1 + |content|
    ensures r[..|tag|] == tag && r[|tag|] == '\n' && r[|tag| + 1..] == content
  {
    tag + "\n" + content
  }

  /**
   * The `splitDocs.map(...)` step: each chunk keeps its metadata and gets its tag and a
   * newline in front of its text; the number and order of chunks are unchanged.
   */
  function PrefixChunks(chunks: seq<Document>, tag: Metadata -> string): (r: seq<Document>)
    ensures |r| == |chunks|
    ensures forall i :: 0 <= i < |r| ==>
              r[i].metadata == chunks[i].metadata
              && r[i].pageContent == Prefixed(tag(chunks[i].metadata), chunks[i].pageContent)
  {
    if chunks == [] then []
    else
      var c := chunks[0];
      [Document(Prefixed(tag(c.metadata), c.pageContent), c.metadata)] + PrefixChunks(chunks[1..], tag)
  }
}
