/**
 * The pipeline state (llama_modular_rag/state.py): a dictionary whose keys are
 * the fields below. A field is `Some` when the key is present.
 */
module State {
  import opened Wrappers

  /** A retrieved chunk: its text and its source metadata. */
  datatype Document = Document(pageContent: string, metadata: map<string, string>)

  datatype RAGState = RAGState(
    query: Option<string>,
    documents: Option<seq<Document>>,
    context: Option<string>,
    answer: Option<string>,
    feedback: Option<map<string, string>>)

  datatype Field = QueryField | DocumentsField | ContextField | AnswerField | FeedbackField

  /** The keys present in the dictionary. */
  function Fields(s: RAGState): set<Field>
  {
    (if s.query.Some? then {QueryField} else {})
    + (if s.documents.Some? then {DocumentsField} else {})
    + (if s.context.Some? then {ContextField} else {})
    + (if s.answer.Some? then {AnswerField} else {})
    + (if s.feedback.Some? then {FeedbackField} else {})
  }

  /** Python truthiness of a dictionary: it has at least one key. */
  predicate Truthy(s: RAGState)
  {
    Fields(s) != {}
  }

  /** `b` holds the same value as `a` under every key except `f`. */
  predicate SameExcept(a: RAGState, b: RAGState, f: Field)
  {
    && (f != QueryField ==> a.query == b.query)
    && (f != DocumentsField ==> a.documents == b.documents)
    && (f != ContextField ==> a.context == b.context)
    && (f != AnswerField ==> a.answer == b.answer)
    && (f != FeedbackField ==> a.feedback == b.feedback)
  }

  /**
   * `state.get("documents")`, with a missing key read as no documents: the
   * result is empty exactly when `if not documents:` takes its early return.
   */
  function DocumentsOf(s: RAGState): (docs: seq<Document>)
    ensures docs == [] <==> s.documents.None? || s.documents == Some([])
    ensures s.documents.Some? ==> docs == s.documents.value
  {
    match s.documents
    case None => []
    case Some(ds) => ds
  }

  /** The state a query run starts from: `{"query": query}`. */
  function InitialState(query: string): (s: RAGState)
    ensures Fields(s) == {QueryField} && s.query == Some(query)
  {
    RAGState(Some(query), None, None, None, None)
  }
}

/**
 * The part of the filesystem the core touches: directories, regular files
 * holding bytes (the PDF) and pickle files holding a serialized state (the
 * query cache).
 */
module Files {
  import opened Wrappers
  import opened Errors
  import opened State

  newtype byte = b: int | 0 <= b < 256

  class Disk {
    var dirs: set<string>
    var files: map<string, seq<byte>>
    var pickles: map<string, RAGState>

    constructor (dirs: set<string>, files: map<string, seq<byte>>, pickles: map<string, RAGState>)
      ensures this.dirs == dirs && this.files == files && this.pickles == pickles
    {
      this.dirs, this.files, this.pickles := dirs, files, pickles;
    }

    /** `os.path.exists(path)`: something, directory or file, is at `path`. */
    predicate Exists(path: string)
      reads this
    {
      path in dirs || path in files || path in pickles
    }

    /** `os.makedirs(path, exist_ok=True)`: afterwards the directory exists; asking again changes nothing. */
    method MakeDirs(path: string)
      modifies this
      ensures dirs == old(dirs) + {path}
      ensures path in old(dirs) ==> dirs == old(dirs)
      ensures files == old(files) && pickles == old(pickles)
      ensures forall p :: Exists(p) <==> old(Exists(p)) || p == path
    {
      dirs := dirs + {path};
    }

    /** `open(path, 'rb').read()`: the bytes of a regular file, or the error for a missing one. */
    method ReadBytes(path: string) returns (r: Result<seq<byte>, Error>)
      ensures r.Success? <==> path in files
      ensures r.Success? ==> r.value == files[path]
      ensures r.Failure? ==> r.error == FileNotFound(path)
    {
      if path in files {
        r := Success(files[path]);
      } else {
        r := Failure(FileNotFound(path));
      }
    }

    /** `pickle.load` of the file at `path` when one is there. */
    method LoadPickle(path: string) returns (r: Option<RAGState>)
      ensures r.Some? <==> path in pickles
      ensures r.Some? ==> r.value == pickles[path]
    {
      if path in pickles {
        r := Some(pickles[path]);
      } else {
        r := None;
      }
    }

    /** `pickle.dump(value, open(path, 'wb'))`: the file at `path` now holds `value`. */
    method DumpPickle(path: string, value: RAGState)
      modifies this
      ensures pickles == old(pickles)[path := value]
      ensures dirs == old(dirs) && files == old(files)
    {
      pickles := pickles[path := value];
    }
  }
}
