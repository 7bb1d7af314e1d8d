/** Loading documents from a list of sources and splitting them into chunks.
    The loaders, the directory test and the text splitter are library or
    file-system code and are supplied as functions. */
module DocumentProcessing {
  import opened Wrappers
  import opened Documents
  import opened Text

  const DefaultChunkSize := 500
  const DefaultChunkOverlap := 50

  /** `Path(src).is_dir()` and the four loaders, keyed by the source string. */
  datatype Loaders = Loaders(
    isDir: string -> bool,
    fromUrl: string -> seq<Document>,
    fromTxt: string -> seq<Document>,
    fromPdf: string -> seq<Document>,
    fromPdfDirectory: string -> seq<Document>)

  /** `RecursiveCharacterTextSplitter(chunk_size, chunk_overlap)` */
  datatype TextSplitter = RecursiveCharacterTextSplitter(chunkSize: int, chunkOverlap: int)

  /** `text_splitter.split_documents(documents)` */
  type Split = (TextSplitter, seq<Document>) -> seq<Document>

  predicate IsUrl(src: string) {
    "http://" <= src || "https://" <= src
  }

  /** The last index of `c` in `s`, or -1. */
  function LastIndexOf(s: string, c: char): (i: int)
    ensures -1 <= i < |s|
  {
    if s == [] then -1
    else if s[|s| - 1] == c then |s| - 1
    else LastIndexOf(s[..|s| - 1], c)
  }

  function StripTrailingSlashes(s: string): string {
    if s != [] && s[|s| - 1] == '/' then StripTrailingSlashes(s[..|s| - 1]) else s
  }

  /** `Path(src).name`: the last component of the path. */
  function Name(src: string): string {
    var p := StripTrailingSlashes(src);
    p[LastIndexOf(p, '/') + 1..]
  }

  /** `Path(src).suffix`: from the last dot of the name, when that dot is
      neither its first nor its last character; otherwise empty. */
  function Suffix(src: string): string {
    var name := Name(src);
    var i := LastIndexOf(name, '.');
    if 0 < i < |name| - 1 then name[i..] else ""
  }

  /** `Path(src).suffix.lower() == '.txt'` */
  predicate IsTxt(src: string) {
    AsciiLower(Suffix(src)) == ".txt"
  }

  /** `Path(src).suffix.lower() == '.pdf'` */
  predicate IsPdf(src: string) {
    AsciiLower(Suffix(src)) == ".pdf"
  }

  function UnsupportedMessage(src: string): string {
    "unsupported source type " + src + ".use url, text or pdf."
  }

  /** What the URL loader contributes for `src`: nothing unless it is a URL. */
  function UrlDocs(src: string, io: Loaders): seq<Document> {
    if IsUrl(src) then io.fromUrl(src) else []
  }

  /** The documents one source contributes: the URL loader's when it is a
      URL, followed by those of the loader the path checks select. */
  function SourceDocs(src: string, io: Loaders): Result<seq<Document>, Error> {
    var fromUrl := UrlDocs(src, io);
    if io.isDir(src) then Success(fromUrl + io.fromPdfDirectory(src))
    else if IsTxt(src) then Success(fromUrl + io.fromTxt(src))
    else if IsPdf(src) then Success(fromUrl + io.fromPdf(src))
    else Failure(ValueError(UnsupportedMessage(src)))
  }

  /** How one source is dispatched. A URL is loaded and then still goes
      through the path checks, so being a URL never makes a source acceptable;
      a directory wins over the suffix; the suffix is compared without regard
      to case; anything else raises with the source in the message. */
  lemma SourceDispatch(src: string, io: Loaders)
    ensures SourceDocs(src, io).Failure? <==> !io.isDir(src) && !IsTxt(src) && !IsPdf(src)
    ensures SourceDocs(src, io).Failure? ==>
              SourceDocs(src, io).error == ValueError(UnsupportedMessage(src))
    ensures io.isDir(src) ==> SourceDocs(src, io) == Success(UrlDocs(src, io) + io.fromPdfDirectory(src))
    ensures !io.isDir(src) && IsTxt(src) ==> SourceDocs(src, io) == Success(UrlDocs(src, io) + io.fromTxt(src))
    ensures !io.isDir(src) && IsPdf(src) ==> SourceDocs(src, io) == Success(UrlDocs(src, io) + io.fromPdf(src))
    ensures IsUrl(src) && SourceDocs(src, io).Success? ==>
              SourceDocs(src, io).value[..|io.fromUrl(src)|] == io.fromUrl(src)
  {
  }

  /** What one source yields: its documents, or the error it raises. */
  type SourceLoader = string -> Result<seq<Document>, Error>

  /** The dispatch `load_from_documents` applies to each source. */
  function Dispatch(io: Loaders): SourceLoader {
    src => SourceDocs(src, io)
  }

  /** All sources, left to right; the first source that raises stops the
      load. */
  function LoadAll(sources: seq<string>, load: SourceLoader): Result<seq<Document>, Error> {
    if sources == [] then Success([])
    else match load(sources[0])
      case Failure(e) => Failure(e)
      case Success(first) =>
        match LoadAll(sources[1..], load)
        case Failure(e) => Failure(e)
        case Success(rest) => Success(first + rest)
  }

  /** Loading `a + b` is loading `a`, then `b`, and concatenating. */
  lemma {:induction false} LoadAllAppend(a: seq<string>, b: seq<string>, load: SourceLoader)
    ensures LoadAll(a + b, load) ==
              if LoadAll(a, load).Failure? then LoadAll(a, load)
              else if LoadAll(b, load).Failure? then LoadAll(b, load)
              else Success(LoadAll(a, load).value + LoadAll(b, load).value)
  {
    if a == [] {
      assert a + b == b;
      if LoadAll(b, load).Success? {
        assert [] + LoadAll(b, load).value == LoadAll(b, load).value;
      }
    } else {
      assert (a + b)[0] == a[0];
      assert (a + b)[1..] == a[1..] + b;
      LoadAllAppend(a[1..], b, load);
      var head := load(a[0]);
      if head.Success? && LoadAll(a[1..], load).Success? && LoadAll(b, load).Success? {
        var x, y, z := head.value, LoadAll(a[1..], load).value, LoadAll(b, load).value;
        assert x + (y + z) == (x + y) + z;
      }
    }
  }

  /** One more source at the end: its documents go after all earlier ones. */
  lemma LoadAllSnoc(prefix: seq<string>, src: string, load: SourceLoader)
    requires LoadAll(prefix, load).Success?
    ensures LoadAll(prefix + [src], load) ==
              if load(src).Failure? then load(src)
              else Success(LoadAll(prefix, load).value + load(src).value)
  {
    LoadAllAppend(prefix, [src], load);
    assert [src][1..] == [];
    if load(src).Success? {
      var v := load(src).value;
      assert LoadAll([src], load) == Success(v + []);
      assert v + [] == v;
    }
  }

  function Flatten(parts: seq<seq<Document>>): seq<Document> {
    if parts == [] then [] else parts[0] + Flatten(parts[1..])
  }

  /** When no source raises, the result is each source's documents,
      concatenated in the order of the sources. */
  lemma {:induction false} AllSupportedConcatenates(sources: seq<string>, load: SourceLoader)
    requires forall i :: 0 <= i < |sources| ==> load(sources[i]).Success?
    ensures LoadAll(sources, load) ==
              Success(Flatten(seq(|sources|, i requires 0 <= i < |sources| => load(sources[i]).value)))
  {
    if sources != [] {
      AllSupportedConcatenates(sources[1..], load);
      var parts := seq(|sources|, i requires 0 <= i < |sources| => load(sources[i]).value);
      assert parts[1..] == seq(|sources| - 1, i requires 0 <= i < |sources| - 1 => load(sources[1..][i]).value);
    }
  }

  /** Once the sources before `i` loaded, a raising `sources[i]` is the
      outcome of the whole load. */
  lemma UnsupportedStopsLoad(sources: seq<string>, i: nat, load: SourceLoader)
    requires i < |sources| && LoadAll(sources[..i], load).Success?
    requires load(sources[i]).Failure?
    ensures LoadAll(sources, load) == load(sources[i])
  {
    LoadAllSnoc(sources[..i], sources[i], load);
    assert sources[..i + 1] == sources[..i] + [sources[i]];
    LoadAllAppend(sources[..i + 1], sources[i + 1..], load);
    assert sources[..i + 1] + sources[i + 1..] == sources;
  }

  /** The first source that raises decides the outcome, whatever follows it,
      and no list is returned; with the dispatch of `load_from_documents` that
      is the first unsupported source and its message. */
  lemma {:induction false} FirstUnsupportedRaises(sources: seq<string>, io: Loaders, j: nat)
    requires j < |sources| && SourceDocs(sources[j], io).Failure?
    requires forall i :: 0 <= i < j ==> SourceDocs(sources[i], io).Success?
    ensures LoadAll(sources, Dispatch(io)) == Failure(ValueError(UnsupportedMessage(sources[j])))
  {
    FirstFailureRaises(sources, Dispatch(io), j);
    SourceDispatch(sources[j], io);
  }

  lemma {:induction false} FirstFailureRaises(sources: seq<string>, load: SourceLoader, j: nat)
    requires j < |sources| && load(sources[j]).Failure?
    requires forall i :: 0 <= i < j ==> load(sources[i]).Success?
    ensures LoadAll(sources, load) == load(sources[j])
  {
    if j > 0 {
      FirstFailureRaises(sources[1..], load, j - 1);
    }
  }

  /** A URL that is not a directory and has no `.txt` or `.pdf` suffix is
      rejected even though the URL loader accepted it. */
  lemma UrlWithoutFileSuffixRaises(io: Loaders)
    requires !io.isDir("https://example.com/page")
    ensures IsUrl("https://example.com/page")
    ensures SourceDocs("https://example.com/page", io).Failure?
  {
    var src := "https://example.com/page";
    assert src == "https://example.com" + ['/'] + "page";
    LastIndexOfLastOccurrence("https://example.com", '/', "page");
    assert Name(src) == "page";
  }

  /** The last `c` is found even when other copies of `c` precede it. */
  lemma {:induction false} LastIndexOfLastOccurrence(p: string, c: char, q: string)
    requires forall k :: 0 <= k < |q| ==> q[k] != c
    ensures LastIndexOf(p + [c] + q, c) == |p|
  {
    if q != [] {
      var s := p + [c] + q;
      assert s[..|s| - 1] == p + [c] + q[..|q| - 1];
      LastIndexOfLastOccurrence(p, c, q[..|q| - 1]);
    }
  }

  /** One step of the load loop: after the URL documents and then the
      documents of the selected loader are appended, the list holds what
      loading the sources so far plus `src` yields. */
  lemma LoadStep(prefix: seq<string>, src: string, io: Loaders, before: seq<Document>, added: seq<Document>)
    requires LoadAll(prefix, Dispatch(io)) == Success(before)
    requires SourceDocs(src, io) == Success(UrlDocs(src, io) + added)
    ensures LoadAll(prefix + [src], Dispatch(io)) == Success((before + UrlDocs(src, io)) + added)
  {
    LoadAllSnoc(prefix, src, Dispatch(io));
    assert before + (UrlDocs(src, io) + added) == (before + UrlDocs(src, io)) + added;
  }

  class DocumentProcessor {
    const chunkSize: int
    const chunkOverlap: int
    const textSplitter: TextSplitter := RecursiveCharacterTextSplitter(chunkSize, chunkOverlap)

    constructor(chunkSize: int := DefaultChunkSize, chunkOverlap: int := DefaultChunkOverlap)
      ensures this.chunkSize == chunkSize && this.chunkOverlap == chunkOverlap
      ensures textSplitter == RecursiveCharacterTextSplitter(chunkSize, chunkOverlap)
    {
      this.chunkSize := chunkSize;
      this.chunkOverlap := chunkOverlap;
    }

    /** `load_from_documents`: grows one list source by source and raises on
        the first unsupported source. */
    method LoadFromDocuments(sources: seq<string>, io: Loaders) returns (r: Result<seq<Document>, Error>)
      ensures r == LoadAll(sources, Dispatch(io))
    {
      var docs: seq<Document> := [];
      for i := 0 to |sources|
        invariant LoadAll(sources[..i], Dispatch(io)) == Success(docs)
      {
        var src := sources[i];
        ghost var before := docs;
        if IsUrl(src) {
          docs := docs + io.fromUrl(src);
        }
        ghost var afterUrl := docs;
        assert afterUrl == before + UrlDocs(src, io);
        ghost var added: seq<Document>;
        if io.isDir(src) {
          added := io.fromPdfDirectory(src);
          docs := docs + io.fromPdfDirectory(src);
        } else if IsTxt(src) {
          added := io.fromTxt(src);
          docs := docs + io.fromTxt(src);
        } else if IsPdf(src) {
          added := io.fromPdf(src);
          docs := docs + io.fromPdf(src);
        } else {
          UnsupportedStopsLoad(sources, i, Dispatch(io));
          return Failure(ValueError(UnsupportedMessage(src)));
        }
        assert SourceDocs(src, io) == Success(UrlDocs(src, io) + added);
        LoadStep(sources[..i], src, io, before, added);
        assert sources[..i + 1] == sources[..i] + [src];
      }
      assert sources[..|sources|] == sources;
      return Success(docs);
    }

    /** `split_documents` */
    method SplitDocuments(documents: seq<Document>, split: Split) returns (chunks: seq<Document>)
      ensures chunks == split(RecursiveCharacterTextSplitter(chunkSize, chunkOverlap), documents)
    {
      chunks := split(textSplitter, documents);
    }

    /** `process_documents`: load, then split; a load error propagates. */
    method ProcessDocuments(urls: seq<string>, io: Loaders, split: Split) returns (r: Result<seq<Document>, Error>)
      ensures r.Failure? <==> LoadAll(urls, Dispatch(io)).Failure?
      ensures r.Failure? ==> r == LoadAll(urls, Dispatch(io))
      ensures r.Success? ==> r.value == split(RecursiveCharacterTextSplitter(chunkSize, chunkOverlap), LoadAll(urls, Dispatch(io)).value)
    {
      var docs := LoadFromDocuments(urls, io);
      if docs.Failure? {
        return docs;
      }
      var chunks := SplitDocuments(docs.value, split);
      return Success(chunks);
    }
  }
}
