# A Dafny model of the deterministic core of a modular RAG demo

The repository is a small retrieval-augmented-generation demo. It loads a PDF, chunks and embeds it into a
Chroma vector store, retrieves chunks for a query, builds a token-budgeted context and generates an answer
with a local language model. Embedding, similarity search, PDF parsing, text splitting and generation are
done by external libraries. This project models the logic the repository owns itself:

- **Retrieval nodes** (`Retrieval`, from `llama_modular_rag/retrieval.py`):
  - `document_retriever` stores the similarity-search result under `documents`.
  - `context_builder` walks the retrieved documents in order. It keeps each one while the running estimate
    (0.75 token per word) stays within `CONTEXT_MAX_TOKENS`, and stops at the first document that would go
    strictly past the budget. It labels each kept chunk with its 1-based position and joins the labelled
    chunks with `"\n"`.

  The loop is an imperative method proved against a specification function. Lemmas show that the kept
  documents are exactly the longest prefix that fits, that a total equal to the budget is kept, and when the
  context is empty. Costs are counted exactly in quarter tokens (`3 * words` against `4 * budget`).
- **Pipeline state** (`State`): the `RAGState` dictionary is a record of optional fields. A node's
  `{**state, key: value}` is a record update that sets one field and keeps every other.
- **Query cache** (`Caching`): one pickle file per query at `{cache_dir}/{md5(query)}.pkl`. Get-after-put,
  overwrite and independence of entries under distinct keys are proved.
- **Vector-store location and reuse** (`DataLoader`):
  - The store directory is `{vector_db}/{name}_{md5(bytes)}`, where `name` is the basename with every
    `".pdf"` removed.
  - An existing path is reopened without loading. Otherwise the directory is created and the store is built
    from the split PDF, under a collection named as the directory's last component.
- **Orchestration** (`Orchestration`, from `llama_modular_rag/main.py`):
  - A truthy cache hit short-circuits. A miss runs the pipeline from `{"query": query}` and caches its result.
    When the pipeline raises, the error propagates and nothing is cached.
  - The script rejects a missing PDF or a blank query with status 1.
  - It shows at most two reference excerpts, each cut to 200 characters plus `"..."`.

Supporting modules: `Strings` (Python's `isspace`, `len(s.split())`, `strip()`, decimal rendering,
`sep.join`), `Paths` (`os.path.basename`, `os.path.join`), `Digest` (the md5 hex-digest type) and `Files`
(a `Disk` class with directories, byte files and pickle files). `Config` holds the four constants used:
`RETRIEVAL_TOP_K = 2`, `CONTEXT_MAX_TOKENS = 512`, `CHUNK_SIZE = 256` and `CHUNK_OVERLAP = 30`.

Points of the code's behaviour that the model keeps:

- Three ten-word documents under a budget of 15 tokens: the code keeps **two**. The second brings the
  estimate to exactly 15, and the check `token_count + approx_tokens > max_tokens` is strict
  (`Retrieval.ThreeTenWordDocuments`).
- The store directory name is the basename with every `".pdf"` removed (`str.replace`), not the plain
  basename. Because the removal is a single left-to-right pass, the resulting name can still contain `".pdf"`
  (`DataLoader.RemovalIsOnePass`).
- An exception inside the script's `try` block is printed and the script then ends normally, so the exit
  status is 0. Only the missing-PDF and blank-query guards exit with status 1 (`Orchestration.RunCli`).
- The reuse test is `os.path.exists`, so any existing entry at the store path, even a regular file, is reopened
  and no directory is created (`DataLoader.CreateVectorStoreFromPdf`).

## Model

| member | source | states |
|---|---|---|
| `Strings.WordCount` | llama_modular_rag/retrieval.py:36 | `len(s.split())` is zero exactly for strings made only of Python whitespace, and is at most half the length rounded up |
| `Strings.Strip` | llama_modular_rag/main.py:133 | `strip()` is empty exactly for blank strings; otherwise the result neither starts nor ends with whitespace |
| `Strings.NatToDecimal` | llama_modular_rag/retrieval.py:42 | the label number is a non-empty digit string that starts with `0` only for zero |
| `Strings.DecimalRoundTrip` | llama_modular_rag/retrieval.py:42 | reading the rendered numeral back gives the number, so labels carry the exact position |
| `Strings.JoinWith` | llama_modular_rag/retrieval.py:45 | `"\n".join(parts)` starts with the first part |
| `Strings.JoinWithCons` | llama_modular_rag/retrieval.py:45 | read from the front, `sep.join([p] + rest)` for a non-empty `rest` is `p`, the separator, then `sep.join(rest)` |
| `Paths.Basename` | llama_modular_rag/data_loader.py:23 | `os.path.basename` is the separator-free suffix that follows the last separator, or the whole path when there is none |
| `Paths.Join` | llama_modular_rag/data_loader.py:24 | `os.path.join(a, b)` ends with `b`, and its basename is `b` when `b` has no separator |
| `Paths.JoinInjective` | llama_modular_rag/caching.py:23 | joining one directory with non-absolute names is one-to-one in the name |
| `State.InitialState` | llama_modular_rag/main.py:100 | the initial state holds exactly the `query` key, set to the query |
| `Files.Disk.MakeDirs` | llama_modular_rag/caching.py:14 | `os.makedirs(exist_ok=True)` makes the directory exist and nothing else start or stop existing; on an existing directory it changes nothing |
| `Files.Disk.Exists` | llama_modular_rag/data_loader.py:27 | `os.path.exists`: a directory, a regular file or a pickle file is at the path (definition) |
| `Files.Disk.LoadPickle` | llama_modular_rag/caching.py:26-27 | loading the pickle at a path gives the stored state when one is there, and changes nothing |
| `Files.Disk.DumpPickle` | llama_modular_rag/caching.py:35-36 | dumping to a path makes that file hold the value and changes no other file or directory |
| `Files.Disk.ReadBytes` | llama_modular_rag/data_loader.py:14-15 | reading a file gives its bytes, and a missing file raises `FileNotFound` |
| `Retrieval.DocumentRetriever` | llama_modular_rag/retrieval.py:8-18 | searches with the state's query and `k = 2`, stores the result unchanged as `documents`, adds only that key and keeps every other; without a query it raises `KeyError` |
| `State.DocumentsOf` | llama_modular_rag/retrieval.py:23-25 | `state.get("documents")` read as a list is empty exactly when the key is missing or holds an empty list, the two cases `if not documents:` returns early for |
| `State.Truthy` | llama_modular_rag/main.py:72 | a state dictionary is truthy exactly when it has at least one key (definition) |
| `Retrieval.Cost` | llama_modular_rag/retrieval.py:36 | a document costs three quarter tokens per `split()` word, that is 0.75 token per word (definition) |
| `Retrieval.KeptFrom` | llama_modular_rag/retrieval.py:33-40 | the walk over costs keeps at most all of them; `KeptFromWithinBudget` and `KeptFromMaximal` characterise where it stops |
| `Retrieval.KeptCount` | llama_modular_rag/retrieval.py:33-43 | the number of documents the loop keeps is at most their number; `KeptIsLongestFittingPrefix` characterises it |
| `Retrieval.Label` | llama_modular_rag/retrieval.py:42 | a block holds the numeral of `index + 1`, which reads back as that number, after a three-character heading, and ends with the content and a newline |
| `Retrieval.BuildContext` | llama_modular_rag/retrieval.py:33-45 | the context opens with the first document's block whenever a document is kept |
| `Retrieval.Labelled` | llama_modular_rag/retrieval.py:42 | part `i` is document `i`'s content labelled with number `i + 1` |
| `Retrieval.ContextBuilder` | llama_modular_rag/retrieval.py:21-46 | the loop with its accumulator and early exit sets `context` to `BuildContext` of the documents and leaves every other key unchanged; missing or empty documents give `""` |
| `Retrieval.KeptFromWithinBudget` | llama_modular_rag/retrieval.py:38-43 | starting from any total within the budget, the walk's kept costs together never take the total past the budget |
| `Retrieval.KeptFromMaximal` | llama_modular_rag/retrieval.py:38-40 | the walk either keeps every cost, or adding the first one it drops would take the total strictly past the budget |
| `Retrieval.KeptIsLongestFittingPrefix` | llama_modular_rag/retrieval.py:33-43 | a prefix of `n` documents is kept if and only if its estimate is within the budget, so once one document is dropped no later one is kept, however small |
| `Retrieval.AllKeptWhenTotalFits` | llama_modular_rag/retrieval.py:38 | documents whose total estimate equals or is below the budget are all kept (boundary inclusive) |
| `Retrieval.ContextEmptyIff` | llama_modular_rag/retrieval.py:23-45 | the context is `""` exactly when no document is kept, that is with no documents or a first document alone over budget |
| `Retrieval.KeptFromAppend` | llama_modular_rag/retrieval.py:33-40 | a walk that breaks before the end of its costs is unaffected by costs appended after them |
| `Retrieval.ContextIgnoresLaterDocuments` | llama_modular_rag/retrieval.py:33-45 | once a document is dropped, appending further documents changes neither the number kept nor the context |
| `Retrieval.ThreeTenWordDocuments` | llama_modular_rag/retrieval.py:36-43 | three ten-word documents under a budget of 15 keep exactly two |
| `Retrieval.SmallAfterLargeDropped` | llama_modular_rag/retrieval.py:38-40 | a one-word document after a 700-word one is dropped: the walk stops at the first document over budget |
| `Caching.CacheKey` | llama_modular_rag/caching.py:16-18 | the key is the md5 hex digest of the encoded query, typed as 32 hexadecimal digits (definition); a digest holds no separator (`Digest.NoSeparatorInDigest`) |
| `Caching.CacheFile` | llama_modular_rag/caching.py:23 | the cache file of a key is `{cache_dir}/{key}.pkl`, with basename `{key}.pkl` |
| `Caching.CacheFileInjective` | llama_modular_rag/caching.py:22-23 | two keys share a cache file if and only if they are equal |
| `Caching.Lookup` | llama_modular_rag/caching.py:25-28 | reading the cache file at a path gives its stored state, or `None` when no file is there (definition) |
| `Caching.LookupAfterStore` | llama_modular_rag/caching.py:20-36 | after storing under a key, lookup under that key gives the stored value, and lookup under any other key is unchanged |
| `Caching.QueryCache.constructor` | llama_modular_rag/caching.py:12-14 | records the directory and creates it idempotently, changing no file |
| `Caching.QueryCache.PathFor` | llama_modular_rag/caching.py:22-23 | the query's cache file, whose basename is the query's key followed by `.pkl` |
| `Caching.QueryCache.GetCachedResult` | llama_modular_rag/caching.py:20-28 | returns the value stored under the query's key, `None` when none was stored, and changes nothing |
| `Caching.QueryCache.CacheResult` | llama_modular_rag/caching.py:30-36 | overwrites the entry under the query's key, leaves every entry under another key unchanged, and a later get returns the stored value |
| `Caching.StoreThenRead` | llama_modular_rag/caching.py:20-36 | a put followed by a get of the same query returns the stored result |
| `DataLoader.RemovePdf` | llama_modular_rag/data_loader.py:23 | `replace('.pdf', '')` never lengthens a name |
| `DataLoader.RemovePdfAddsNothing` | llama_modular_rag/data_loader.py:23 | every character of the result was in the name, so removal introduces no separator |
| `DataLoader.RemovePdfUnchanged` | llama_modular_rag/data_loader.py:23 | a name without `".pdf"` is kept as it is |
| `DataLoader.RemovePdfAround` | llama_modular_rag/data_loader.py:23 | every occurrence is removed, not only a trailing one: cutting at any `".pdf"` gives the two sides each with theirs removed |
| `DataLoader.RemovePdfTrailing` | llama_modular_rag/data_loader.py:23 | `name + ".pdf"` with no other `".pdf"` in it becomes `name` |
| `DataLoader.RemovalIsOnePass` | llama_modular_rag/data_loader.py:23 | removal is one pass: `".p.pdfdf"` becomes `".pdf"` |
| `DataLoader.PdfName` | llama_modular_rag/data_loader.py:23 | `pdf_name` never contains a separator |
| `DataLoader.CollectionName` | llama_modular_rag/data_loader.py:56 | the name `{pdf_name}_{key}` never contains a separator |
| `DataLoader.StoreDirectory` | llama_modular_rag/data_loader.py:24 | the store directory's last component is the collection name |
| `DataLoader.StoreFor` | llama_modular_rag/data_loader.py:27-59 | an existing directory is reopened; otherwise the store is built from the PDF split with `CHUNK_SIZE` and `CHUNK_OVERLAP`, under a collection named as the directory's last component |
| `DataLoader.CreateVectorStoreFromPdf` | llama_modular_rag/data_loader.py:19-59 | a missing PDF raises `FileNotFound`; otherwise returns `StoreFor` of the existence test, creates the directory only when it did not exist, and leaves the store's path existing |
| `DataLoader.SecondCallReopens` | llama_modular_rag/data_loader.py:27-37 | a second call for the same PDF reopens the directory the first call returned, with no load or split |
| `Orchestration.QueryFile` | llama_modular_rag/caching.py:22-23 | the file the cache uses for a query under the run's environment, whose basename is the query's key followed by `.pkl` |
| `Orchestration.IsHit` | llama_modular_rag/main.py:71-72 | a cached value answers the run exactly when it is present and truthy (definition) |
| `Orchestration.RunOptimizedRag` | llama_modular_rag/main.py:60-119 | a truthy cache hit returns the cached state with no store or pipeline work; on a falsy or missing entry a missing PDF raises; otherwise the pipeline runs from `{"query": query}` and its outcome is returned, a state being also cached under the query and an error leaving the cache unchanged |
| `Orchestration.BuildAndAnswer` | llama_modular_rag/main.py:79-104 | the miss path: a missing PDF raises; otherwise the outcome, a state or a raised error, is the pipeline's on the store `StoreFor` gives for the existence test, from `{"query": query}`; the store directory is created only when nothing was at its path, and stays when the pipeline raises |
| `Orchestration.RepeatedQuery` | llama_modular_rag/main.py:71-108 | after a run that returns a truthy state, the same query is answered from the cache with that state |
| `Orchestration.Excerpt` | llama_modular_rag/main.py:152 | content over 200 characters is shown as its first 200 followed by `"..."`, anything shorter is shown whole |
| `Orchestration.References` | llama_modular_rag/main.py:148-152 | at most the first two documents are shown, numbered from 1, each as its excerpt; none when `documents` is missing or empty |
| `Orchestration.QueryAccepted` | llama_modular_rag/main.py:133 | the guard accepts a query exactly when `query.strip()` is non-empty (definition) |
| `Orchestration.QueryAcceptedIffHasWords` | llama_modular_rag/main.py:133-135 | a query passes the guard exactly when it has a non-whitespace character, so exactly when it splits into at least one word |
| `Orchestration.ExitStatus` | llama_modular_rag/main.py:127-135 | the guards exit with their code; a shown answer or a printed error ends the script normally with status 0 (definition) |
| `Orchestration.Shown` | llama_modular_rag/main.py:139-155 | a raised error is printed; a result without `query` raises `KeyError` when shown; otherwise the result is shown with `References` of it, and the status is 0 either way |
| `Orchestration.RunCli` | llama_modular_rag/main.py:122-158 | a missing PDF or a blank query exits with status 1 and changes nothing; otherwise the outcome is `Shown` of exactly the result `run_optimized_rag` gives for the disk as it was (the cached state on a truthy hit, `FileNotFound` for a missing PDF, else the pipeline's outcome from `{"query": query}`, so a pipeline error is printed with status 0), and the disk changes as that run changes it, with nothing cached after an error |

## Left out

- Library internals are parameters of the model, not definitions: md5, `str.encode`, `PyPDFLoader`,
  `RecursiveCharacterTextSplitter`, Chroma similarity search and persistence, and the pipeline assembled by
  `build_rag_graph`. They appear as the `search` parameter and the `Environment` fields.
- `graph_builder` is not part of this model. The answer generator and the graph wiring are covered only by the
  abstract `pipeline` function, which returns a state or a `PipelineError` for an exception raised by
  `build_rag_graph` or `invoke` (main.py:90, 104).
- `Orchestration.BuildAndAnswer`: an exception from a `Chroma(...)` call (data_loader.py:30-33, 52-57) is not a
  separate case. The code leaves the disk and the cache in the same state as for a pipeline error on that store.
  So `pipeline` returning an error for that store stands for it. `Orchestration.RunOptimizedRag` and
  `Orchestration.RunCli` carry the same reading.
- `llama_modular_rag/llm_setup.py` and `llama_modular_rag/embeddings.py` are left out: they only load models
  and set environment variables.
- From `llama_modular_rag/config.py`, only the four constants are used. Thread and device settings are left
  out. The cache and vector-store roots depend on the install directory, so they are `Environment` fields.
- `check_environment.py` and `setup.py` are left out: they check and package the program and hold no domain
  logic.
- Printing, timing, `gc.collect` and memory reports are left out; they change nothing the model tracks.
- The `visualize` block of `run_optimized_rag` (main.py:93-97) is left out. On a miss it creates the
  visualisations directory and renders `rag_graph.png` into it (main.py:40-41). The `os.makedirs` at main.py:95
  is outside `visualize_graph`'s `try` and can raise. None of this is modelled.
- `Orchestration.RunOptimizedRag`: its `disk.files == old(disk.files)` ignores the PNG written on a miss, and the
  visualisations directory is not added to `disk.dirs`. `Orchestration.RunCli` inherits both omissions.
- Floating-point estimates are replaced by exact integer quarter tokens. Every estimate is a multiple of 0.75,
  so the two agree for any document list of realistic size.
- State keys: a key present with value `None` is treated the same as a missing key.
  - A cached dictionary whose keys all hold `None` is truthy in Python but counts as a miss in the model.
  - `result.get("answer", ...)` is not modelled, because it only feeds printing.
- Cache files:
  - The cache only ever holds pipeline states; other pickled values are not modelled.
  - A corrupt pickle, or a cache path occupied by a directory, raises in the code. The model does not
    represent either.
- `Files.Disk.MakeDirs`: parent directories are not tracked. It can add a path that is already a regular or
  pickle file, where `os.makedirs` would raise.
- `Files.Disk`: nothing keeps `dirs`, `files` and `pickles` disjoint, so one path can be a directory and a file at
  once. The real filesystem would reject that.
- `Files.Disk.ReadBytes` returns `FileNotFound` for a path that holds a pickle file, whereas Python would read its
  bytes. The pickle bytes are not modelled.
- `Files.Disk.ReadBytes`: a PDF path that names a directory raises `IsADirectoryError` in the code. The model
  raises `FileNotFound` instead; in the script both are printed the same way.
- `DataLoader.CreateVectorStoreFromPdf`: a build interrupted after the directory is created is not modelled.
  The build always completes, and the embedding model bound to the store is not represented. The files
  `Chroma.from_documents` persists into the store directory (data_loader.py:52-57) are not modelled, so its
  `disk.files == old(disk.files)` ignores them. `Orchestration.BuildAndAnswer`, `Orchestration.RunOptimizedRag`
  and `Orchestration.RunCli` inherit this.
- `Retrieval.DocumentRetriever`: the contract says nothing about the order or number of hits, which the
  vector store decides.
- Concurrent writers to the cache or vector-store directories are left out: the code takes no locks.
