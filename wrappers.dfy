/** Optional values and results that may carry an error, used across the model. */
module Wrappers {

  /** A value that may be missing: Python's `None` or a present value. */
  datatype Option<+T> = None | Some(value: T)

  /** The outcome of an operation that may raise an exception. */
  datatype Result<+T, +E> = Success(value: T) | Failure(error: E)
}

/** The exceptions the modelled code can raise. */
module Errors {

  datatype Error =
    | FileNotFound(path: string)  // open() of a path that is not a regular file
    | KeyError(key: string)       // subscripting a state that lacks the key
    | PipelineError(message: string) // raised while building or invoking the pipeline graph
}

/** The configuration constants the core reads (llama_modular_rag/config.py). */
module Config {

  /** Number of chunks the similarity search returns. */
  const RetrievalTopK: nat := 2

  /** Token budget of the assembled context. */
  const ContextMaxTokens: nat := 512

  /** Chunk size and overlap handed to the text splitter. */
  const ChunkSize: nat := 256
  const ChunkOverlap: nat := 30
}
