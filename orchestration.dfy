/**
 * The control flow of llama_modular_rag/main.py: `run_optimized_rag`, which
 * answers from the query cache when it holds a truthy result and otherwise
 * opens or builds the vector store, runs the pipeline from `{"query": query}`
 * and caches what it returns; and the script entry, which rejects a missing
 * PDF or a blank query and shows the first reference excerpts of the answer.
 */
module Orchestration {
  import opened Wrappers
  import opened Errors
  import opened Strings
  import opened Paths
  import opened Digest
  import opened State
  import opened Files
  import opened Caching
  import opened DataLoader

  /**
   * What the run depends on and the model does not compute: the cache and
   * vector-store roots, md5, `str.encode`, the PDF loader, the text splitter
   * and the pipeline that `build_rag_graph` assembles over a store.
   */
  datatype Environment = Environment(
    cacheDir: string,
    vectorDbPath: string,
    md5: seq<byte> -> HexDigest,
    encode: string -> seq<byte>,
    loadPdf: (string, seq<byte>) -> seq<Document>,
    splitDocuments: (seq<Document>, nat, nat) -> seq<Document>,
    pipeline: (VectorStore, RAGState) -> Result<RAGState, Error>)

  /** The file the cache keeps the result of `query` in. */
  function QueryFile(env: Environment, query: string): (path: string)
    ensures Basename(path) == CacheKey(env.md5, env.encode, query) + PickleSuffix
  {
    CacheFile(env.cacheDir, CacheKey(env.md5, env.encode, query))
  }

  /** A cached value that answers without a run: present and truthy. */
  predicate IsHit(cached: Option<RAGState>)
  {
    cached.Some? && Truthy(cached.value)
  }

  /**
   * `run_optimized_rag`. On a hit the cached state is returned and neither the
   * store nor the pipeline is touched. On a miss (no entry, or a falsy one) a
   * missing PDF raises; otherwise the pipeline runs on the store from the
   * state holding only the query. Its result is cached under the query and
   * returned; when the pipeline raises, the error propagates and nothing is
   * cached.
   */
  method RunOptimizedRag(disk: Disk, env: Environment, pdfPath: string, query: string) returns (r: Result<RAGState, Error>)
    modifies disk
    ensures disk.files == old(disk.files)
    ensures var cached := Lookup(old(disk.pickles), QueryFile(env, query));
            IsHit(cached) ==>
              && r == Success(cached.value)
              && disk.pickles == old(disk.pickles) && disk.dirs == old(disk.dirs) + {env.cacheDir}
    ensures var cached := Lookup(old(disk.pickles), QueryFile(env, query));
            !IsHit(cached) && pdfPath !in old(disk.files) ==>
              && r == Failure(FileNotFound(pdfPath))
              && disk.pickles == old(disk.pickles) && disk.dirs == old(disk.dirs) + {env.cacheDir}
    ensures var cached := Lookup(old(disk.pickles), QueryFile(env, query));
            !IsHit(cached) && pdfPath in old(disk.files) ==>
              var bytes := old(disk.files)[pdfPath];
              var dir := StoreDirectory(env.vectorDbPath, pdfPath, env.md5(bytes));
              var existed := old(disk.Exists(dir)) || dir == env.cacheDir;
              var store := StoreFor(existed, env.vectorDbPath, pdfPath, bytes, env.md5, env.loadPdf, env.splitDocuments);
              && r == env.pipeline(store, InitialState(query))
              && disk.pickles == (if r.Success? then old(disk.pickles)[QueryFile(env, query) := r.value] else old(disk.pickles))
              && disk.dirs == (if existed then old(disk.dirs) + {env.cacheDir} else old(disk.dirs) + {env.cacheDir} + {dir})
  {
    ghost var dirs0, pickles0 := disk.dirs, disk.pickles;
    ghost var path := QueryFile(env, query);
    disk.MakeDirs(env.cacheDir);
    var queryCache := new QueryCache(disk, env.cacheDir, env.md5, env.encode);
    assert queryCache.PathFor(query) == path;
    assert disk.dirs == dirs0 + {env.cacheDir} && disk.pickles == pickles0;
    var cachedResult := queryCache.GetCachedResult(query);
    if IsHit(cachedResult) {
      return Success(cachedResult.value);
    }
    assert !IsHit(Lookup(pickles0, path));
    var result := BuildAndAnswer(disk, env, pdfPath, query);
    if result.Failure? {
      return result;
    }
    queryCache.CacheResult(query, result.value);
    r := result;
  }

  /**
   * The miss path of `run_optimized_rag`: open or build the store for the
   * PDF, then run the pipeline on it from the state holding only the query.
   * An error the pipeline raises is the result; the store directory stays.
   */
  method BuildAndAnswer(disk: Disk, env: Environment, pdfPath: string, query: string) returns (r: Result<RAGState, Error>)
    modifies disk
    ensures disk.files == old(disk.files) && disk.pickles == old(disk.pickles)
    ensures pdfPath !in old(disk.files) ==> r == Failure(FileNotFound(pdfPath)) && disk.dirs == old(disk.dirs)
    ensures pdfPath in old(disk.files) ==>
              var bytes := old(disk.files)[pdfPath];
              var dir := StoreDirectory(env.vectorDbPath, pdfPath, env.md5(bytes));
              var store := StoreFor(old(disk.Exists(dir)), env.vectorDbPath, pdfPath, bytes,
                                    env.md5, env.loadPdf, env.splitDocuments);
              && r == env.pipeline(store, InitialState(query))
              && disk.dirs == (if old(disk.Exists(dir)) then old(disk.dirs) else old(disk.dirs) + {dir})
  {
    var vectorstore := CreateVectorStoreFromPdf(disk, env.vectorDbPath, pdfPath, env.md5, env.loadPdf, env.splitDocuments);
    if vectorstore.Failure? {
      return Failure(vectorstore.error);
    }
    var initialState := InitialState(query);
    r := env.pipeline(vectorstore.value, initialState);
  }

  /** Asking the same query twice: once the first run returns a truthy state, the second answers it from the cache. */
  method RepeatedQuery(disk: Disk, env: Environment, pdfPath: string, query: string)
    returns (first: Result<RAGState, Error>, second: Result<RAGState, Error>)
    modifies disk
    ensures first.Success? && Truthy(first.value) ==> second == first
  {
    first := RunOptimizedRag(disk, env, pdfPath, query);
    second := RunOptimizedRag(disk, env, pdfPath, query);
  }

  const ExcerptLength: nat := 200

  /** A reference shown under the answer: content longer than 200 characters is cut to 200 and marked "...". */
  function Excerpt(content: string): (shown: string)
    ensures |shown| <= ExcerptLength + 3
    ensures |content| <= ExcerptLength ==> shown == content
    ensures |content| > ExcerptLength ==>
      |shown| == ExcerptLength + 3 && shown[..ExcerptLength] == content[..ExcerptLength] && shown[ExcerptLength..] == "..."
  {
    if |content| > ExcerptLength then content[..ExcerptLength] + "..." else content
  }

  /** A numbered reference excerpt. */
  datatype Reference = Reference(number: nat, excerpt: string)

  /** The reference excerpts shown for a result: its first two documents at most, numbered from 1. */
  function References(result: RAGState): (refs: seq<Reference>)
    ensures |refs| == if |DocumentsOf(result)| < 2 then |DocumentsOf(result)| else 2
    ensures forall i | 0 <= i < |refs| :: refs[i] == Reference(i + 1, Excerpt(DocumentsOf(result)[i].pageContent))
  {
    var docs := DocumentsOf(result);
    var shown := if |docs| < 2 then docs else docs[..2];
    seq(|shown|, i requires 0 <= i < |shown| => Reference(i + 1, Excerpt(shown[i].pageContent)))
  }

  /** `query.strip()` is non-empty: the query has a character that is not whitespace. */
  predicate QueryAccepted(query: string)
  {
    Strip(query) != ""
  }

  /** A query passes the guard exactly when it has at least one word. */
  lemma QueryAcceptedIffHasWords(query: string)
    ensures QueryAccepted(query) <==> WordCount(query) > 0
    ensures QueryAccepted(query) <==> exists i | 0 <= i < |query| :: !IsSpace(query[i])
  {
  }

  /** How the script ends. */
  datatype CliOutcome =
    | Exited(code: int)                                      // `exit(code)` before the run
    | Answered(result: RAGState, references: seq<Reference>) // the answer and its excerpts were shown
    | Reported(error: Error)                                 // the run raised; the error was printed

  /** The process exit status: a printed error ends the script normally. */
  function ExitStatus(o: CliOutcome): (status: int)
  {
    match o
    case Exited(code) => code
    case Answered(_, _) => 0
    case Reported(_) => 0
  }

  /**
   * What the script shows for the run's outcome: a raised error is printed;
   * a result is shown with its reference excerpts once its `query` key is
   * read, and a result without that key raises `KeyError` there.
   */
  function Shown(run: Result<RAGState, Error>): (o: CliOutcome)
    ensures !o.Exited? && ExitStatus(o) == 0
    ensures run.Failure? ==> o == Reported(run.error)
    ensures run.Success? ==>
      if run.value.query.None? then o == Reported(KeyError("query"))
      else o == Answered(run.value, References(run.value))
  {
    match run
    case Failure(e) => Reported(e)
    case Success(result) =>
      if result.query.None? then Reported(KeyError("query")) else Answered(result, References(result))
  }

  /**
   * The script entry: a missing PDF or a blank query exits with status 1
   * before anything else happens; otherwise `run_optimized_rag` runs and its
   * outcome is shown, and the disk changes as that run changes it.
   */
  method RunCli(disk: Disk, env: Environment, pdfPath: string, query: string) returns (o: CliOutcome)
    modifies disk
    ensures !old(disk.Exists(pdfPath)) || !QueryAccepted(query) ==>
      o == Exited(1) && disk.dirs == old(disk.dirs) && disk.files == old(disk.files) && disk.pickles == old(disk.pickles)
    ensures old(disk.Exists(pdfPath)) && QueryAccepted(query) ==> disk.files == old(disk.files)
    ensures var cached := Lookup(old(disk.pickles), QueryFile(env, query));
            old(disk.Exists(pdfPath)) && QueryAccepted(query) && IsHit(cached) ==>
              && o == Shown(Success(cached.value))
              && disk.pickles == old(disk.pickles) && disk.dirs == old(disk.dirs) + {env.cacheDir}
    ensures var cached := Lookup(old(disk.pickles), QueryFile(env, query));
            old(disk.Exists(pdfPath)) && QueryAccepted(query) && !IsHit(cached) && pdfPath !in old(disk.files) ==>
              && o == Reported(FileNotFound(pdfPath))
              && disk.pickles == old(disk.pickles) && disk.dirs == old(disk.dirs) + {env.cacheDir}
    ensures var cached := Lookup(old(disk.pickles), QueryFile(env, query));
            old(disk.Exists(pdfPath)) && QueryAccepted(query) && !IsHit(cached) && pdfPath in old(disk.files) ==>
              var bytes := old(disk.files)[pdfPath];
              var dir := StoreDirectory(env.vectorDbPath, pdfPath, env.md5(bytes));
              var existed := old(disk.Exists(dir)) || dir == env.cacheDir;
              var result := env.pipeline(StoreFor(existed, env.vectorDbPath, pdfPath, bytes, env.md5, env.loadPdf, env.splitDocuments),
                                         InitialState(query));
              && o == Shown(result)
              && disk.pickles == (if result.Success? then old(disk.pickles)[QueryFile(env, query) := result.value] else old(disk.pickles))
              && disk.dirs == (if existed then old(disk.dirs) + {env.cacheDir} else old(disk.dirs) + {env.cacheDir} + {dir})
  {
    if !disk.Exists(pdfPath) {
      return Exited(1);
    }
    if !QueryAccepted(query) {
      return Exited(1);
    }
    var run := RunOptimizedRag(disk, env, pdfPath, query);
    o := Shown(run);
  }
}
