/** The document store of core/data_management.py: the Chroma directory,
    which exists or not and holds parallel lists of ids, metadata and chunk
    texts; clearing it, listing it with content snippets, and adding text
    files split into chunks, each chunk tagged with its file's base name. */
module DataManagement {
  import opened Wrappers
  import opened Text

  /** A chunk's metadata dictionary. */
  type Metadata = map<string, string>

  /** The metadata key under which a chunk records its file. */
  const SourceKey: string := "source"

  /** Snippets keep this many characters of a longer text. */
  const SnippetLength: nat := 200
  const Ellipsis: string := "..."

  /** The snippet shown for a stored chunk: the text itself when it has at
      most 200 characters, otherwise its first 200 characters and `"..."`. */
  function Snippet(content: string): (r: string)
    ensures |content| <= SnippetLength ==> r == content
    ensures |content| > SnippetLength ==> |r| == SnippetLength + 3
                                          && r[..SnippetLength] == content[..SnippetLength]
                                          && EndsWith(r, Ellipsis)
  {
    if |content| > SnippetLength then content[..SnippetLength] + Ellipsis else content
  }

  /** A snippet of a snippet is the snippet: the 203 characters of a cut
      text are cut again at the same place. */
  lemma SnippetIdempotent(content: string)
    ensures Snippet(Snippet(content)) == Snippet(content)
  {
    if |content| > SnippetLength {
      var s := Snippet(content);
      assert s[..SnippetLength] == content[..SnippetLength];
    }
  }

  /** One entry of `list_chroma_documents`. */
  datatype DocInfo = DocInfo(id: string, metadata: Metadata, contentSnippet: string)

  /** The listing of a store whose parallel lists are `ids`, `metas` and
      `docs`: entry `i` takes all three from position `i`. */
  function DocInfos(ids: seq<string>, metas: seq<Metadata>, docs: seq<string>): (r: seq<DocInfo>)
    requires |ids| == |metas| == |docs|
    ensures |r| == |docs|
    ensures forall i :: 0 <= i < |docs| ==> r[i] == DocInfo(ids[i], metas[i], Snippet(docs[i]))
  {
    if docs == [] then []
    else [DocInfo(ids[0], metas[0], Snippet(docs[0]))] + DocInfos(ids[1..], metas[1..], docs[1..])
  }

  /** Chunks added after the existing ones are listed after them. */
  lemma DocInfosAppend(ids: seq<string>, metas: seq<Metadata>, docs: seq<string>,
                       ids': seq<string>, metas': seq<Metadata>, docs': seq<string>)
    requires |ids| == |metas| == |docs| && |ids'| == |metas'| == |docs'|
    ensures DocInfos(ids + ids', metas + metas', docs + docs')
            == DocInfos(ids, metas, docs) + DocInfos(ids', metas', docs')
  {
    var all := DocInfos(ids + ids', metas + metas', docs + docs');
    var split := DocInfos(ids, metas, docs) + DocInfos(ids', metas', docs');
    forall i | 0 <= i < |all|
      ensures all[i] == split[i]
    {
      if i >= |docs| {
        var k := i - |docs|;
        assert (ids + ids')[i] == ids'[k] && (metas + metas')[i] == metas'[k];
        assert (docs + docs')[i] == docs'[k];
      }
    }
  }

  /** `os.path.basename(path)`: the longest end of `path` without a `/`. */
  function Basename(path: string): (r: string)
    ensures |r| <= |path| && r == path[|path| - |r|..]
    ensures forall k :: |path| - |r| <= k < |path| ==> path[k] != '/'
    ensures |r| < |path| ==> path[|path| - |r| - 1] == '/'
  {
    if path == [] || path[|path| - 1] == '/' then []
    else Basename(path[..|path| - 1]) + [path[|path| - 1]]
  }

  /** A langchain `Document` as `add_custom_documents` builds it: a chunk
      of text whose metadata is `{"source": source}`. */
  datatype Document = Document(pageContent: string, source: string)

  /** The metadata dictionary of a chunk from `source`. */
  function SourceMetadata(source: string): Metadata
  {
    map[SourceKey := source]
  }

  /** The chunks one path contributes: nothing if it is not an existing
      file, otherwise the splitter's pieces of its text, in the splitter's
      order, each tagged with the file's base name. */
  function FileChunks(files: map<string, string>, split: string -> seq<string>, path: string): (r: seq<Document>)
    ensures path !in files ==> r == []
    ensures path in files ==> |r| == |split(files[path])|
    ensures path in files ==> forall k :: 0 <= k < |r| ==>
              r[k] == Document(split(files[path])[k], Basename(path))
  {
    if path !in files then []
    else
      var pieces := split(files[path]);
      seq(|pieces|, k requires 0 <= k < |pieces| => Document(pieces[k], Basename(path)))
  }

  /** `all_chunks` after the loop over `paths`: the chunks of each path, in
      path order. */
  function AllChunks(files: map<string, string>, split: string -> seq<string>, paths: seq<string>): seq<Document>
  {
    if paths == [] then []
    else AllChunks(files, split, paths[..|paths| - 1]) + FileChunks(files, split, paths[|paths| - 1])
  }

  /** One more path adds its chunks at the end. */
  lemma AllChunksSnoc(files: map<string, string>, split: string -> seq<string>, p: seq<string>, path: string)
    ensures AllChunks(files, split, p + [path]) == AllChunks(files, split, p) + FileChunks(files, split, path)
  {
    assert (p + [path])[..|p|] == p;
  }

  /** Adding two lists of files one after the other gathers the chunks of
      the first list, then those of the second. */
  lemma {:induction false} AllChunksAppend(files: map<string, string>, split: string -> seq<string>,
                                           p: seq<string>, q: seq<string>)
    ensures AllChunks(files, split, p + q) == AllChunks(files, split, p) + AllChunks(files, split, q)
    decreases |q|
  {
    if q == [] {
      assert p + q == p;
    } else {
      var q', last := q[..|q| - 1], q[|q| - 1];
      assert q == q' + [last];
      assert p + q == (p + q') + [last];
      AllChunksAppend(files, split, p, q');
      AllChunksSnoc(files, split, p + q', last);
      AllChunksSnoc(files, split, q', last);
      ConcatAssoc(AllChunks(files, split, p), AllChunks(files, split, q'), FileChunks(files, split, last));
    }
  }

  /** A path that is not an existing file is skipped: it contributes no
      chunk wherever it appears in the list. */
  lemma MissingFileSkipped(files: map<string, string>, split: string -> seq<string>,
                           p: seq<string>, path: string, q: seq<string>)
    requires path !in files
    ensures AllChunks(files, split, p + [path] + q) == AllChunks(files, split, p + q)
  {
    AllChunksAppend(files, split, p + [path], q);
    AllChunksAppend(files, split, p, [path]);
    AllChunksAppend(files, split, p, q);
    assert [path][..0] == [];
  }

  /** Every chunk comes from an existing file in the list and carries that
      file's base name as its source. */
  lemma {:induction false} ChunkSources(files: map<string, string>, split: string -> seq<string>,
                                        paths: seq<string>, i: nat)
    requires i < |AllChunks(files, split, paths)|
    ensures exists j :: 0 <= j < |paths| && paths[j] in files
                        && AllChunks(files, split, paths)[i].source == Basename(paths[j])
                        && AllChunks(files, split, paths)[i].pageContent in split(files[paths[j]])
  {
    var n := |paths| - 1;
    var front := AllChunks(files, split, paths[..n]);
    var all := AllChunks(files, split, paths);
    if i < |front| {
      ChunkSources(files, split, paths[..n], i);
      var j :| 0 <= j < n && paths[..n][j] in files
               && front[i].source == Basename(paths[..n][j])
               && front[i].pageContent in split(files[paths[..n][j]]);
      assert all[i] == front[i];
      assert paths[j] == paths[..n][j];
    } else {
      var k := i - |front|;
      assert all[i] == FileChunks(files, split, paths[n])[k];
      assert split(files[paths[n]])[k] == all[i].pageContent;
    }
  }

  /** The `texts` list: each chunk's text. */
  function Texts(chunks: seq<Document>): (r: seq<string>)
    ensures |r| == |chunks| && forall i :: 0 <= i < |chunks| ==> r[i] == chunks[i].pageContent
  {
    seq(|chunks|, i requires 0 <= i < |chunks| => chunks[i].pageContent)
  }

  /** The `metadatas` list: a new dictionary holding each chunk's source. */
  function Metadatas(chunks: seq<Document>): (r: seq<Metadata>)
    ensures |r| == |chunks|
    ensures forall i :: 0 <= i < |chunks| ==> r[i] == SourceMetadata(chunks[i].source)
  {
    seq(|chunks|, i requires 0 <= i < |chunks| => SourceMetadata(chunks[i].source))
  }

  /** The `ids` list: one `str(uuid.uuid4())` per chunk. */
  function Ids(chunks: seq<Document>, uuid4: nat -> string): (r: seq<string>)
    ensures |r| == |chunks| && forall i :: 0 <= i < |chunks| ==> r[i] == uuid4(i)
  {
    seq(|chunks|, i requires 0 <= i < |chunks| => uuid4(i))
  }

  /** The Chroma directory at `CHROMA_PATH`: whether it exists, and the
      parallel lists `db.get()` returns. */
  class ChromaStore {
    var present: bool
    var ids: seq<string>
    var metadatas: seq<Metadata>
    var documents: seq<string>

    /** The three lists are parallel, and a missing directory holds
        nothing. */
    ghost predicate Valid()
      reads this
    {
      |ids| == |metadatas| == |documents|
      && (!present ==> documents == [])
    }

    constructor (present: bool, ids: seq<string>, metadatas: seq<Metadata>, documents: seq<string>)
      requires |ids| == |metadatas| == |documents| && (!present ==> documents == [])
      ensures Valid()
      ensures this.present == present && this.ids == ids
      ensures this.metadatas == metadatas && this.documents == documents
    {
      this.present := present;
      this.ids := ids;
      this.metadatas := metadatas;
      this.documents := documents;
    }

    /** `clear_database()`: afterwards the directory is gone; when it was
        already gone nothing changes. */
    method ClearDatabase()
      requires Valid()
      modifies this
      ensures Valid() && !present
      ensures documents == [] && ids == [] && metadatas == []
      ensures !old(present) ==> ids == old(ids) && metadatas == old(metadatas) && documents == old(documents)
    {
      if present {
        present, ids, metadatas, documents := false, [], [], [];
      }
    }

    /** `list_chroma_documents()`: nothing when the directory does not
        exist, otherwise one entry per stored chunk, in store order, each
        entry's id and metadata taken from its chunk's position. */
    method ListChromaDocuments() returns (docsInfo: seq<DocInfo>)
      requires Valid()
      ensures !present ==> docsInfo == []
      ensures present ==> docsInfo == DocInfos(ids, metadatas, documents)
    {
      if !present {
        return [];
      }
      docsInfo := [];
      for i := 0 to |documents|
        invariant |docsInfo| == i
        invariant forall j :: 0 <= j < i ==> docsInfo[j] == DocInfo(ids[j], metadatas[j], Snippet(documents[j]))
      {
        var snippet := Snippet(documents[i]);
        docsInfo := docsInfo + [DocInfo(ids[i], metadatas[i], snippet)];
      }
    }

    /** `add_custom_documents(paths)`: the directory is created if needed,
        and the chunks of the existing files among `paths` are appended to
        the store, with their base names as sources and one new id each.
        `files` maps each existing file's path to its text, `split` is the
        text splitter and `uuid4(k)` the id drawn for the `k`-th chunk. */
    method AddCustomDocuments(paths: seq<string>, files: map<string, string>,
                              split: string -> seq<string>, uuid4: nat -> string)
      requires Valid()
      modifies this
      ensures Valid() && present
      ensures documents == old(documents) + Texts(AllChunks(files, split, paths))
      ensures metadatas == old(metadatas) + Metadatas(AllChunks(files, split, paths))
      ensures ids == old(ids) + Ids(AllChunks(files, split, paths), uuid4)
    {
      if !present {
        present := true;
      }
      var allChunks: seq<Document> := [];
      for i := 0 to |paths|
        invariant allChunks == AllChunks(files, split, paths[..i])
      {
        assert paths[..i + 1][..i] == paths[..i];
        var fp := paths[i];
        if fp !in files {
          continue;
        }
        var text := files[fp];
        var chunks := split(text);
        for k := 0 to |chunks|
          invariant allChunks == AllChunks(files, split, paths[..i]) + FileChunks(files, split, fp)[..k]
        {
          assert FileChunks(files, split, fp)[..k + 1] == FileChunks(files, split, fp)[..k] + [Document(chunks[k], Basename(fp))];
          allChunks := allChunks + [Document(chunks[k], Basename(fp))];
        }
        assert FileChunks(files, split, fp)[..|chunks|] == FileChunks(files, split, fp);
      }
      assert paths[..|paths|] == paths;
      var texts := Texts(allChunks);
      var metas := Metadatas(allChunks);
      var newIds := Ids(allChunks, uuid4);
      ids, metadatas, documents := ids + newIds, metadatas + metas, documents + texts;
    }
  }
}
