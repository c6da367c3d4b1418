/** The shared Redis hash store: one flat hash per task id. */
module Records {
  import opened Wrappers

  /** The hash fields the server and the workers read or write; no other field is ever written. */
  datatype Field =
    | StatusField
    | ProgressField
    | ResultUrlField
    | ErrorField
    | FileUrlField
    | ExtractedPagesField

  /** One Redis hash over the fields above, as a field-to-value mapping: None is a field the
      hash does not hold. The same shape is the mapping argument of one HSET. */
  datatype Fields = Fields(
    status: Option<string>,
    progress: Option<string>,
    resultUrl: Option<string>,
    error: Option<string>,
    fileUrl: Option<string>,
    extractedPages: Option<string>)

  /** The hash with no fields: what HGETALL returns for a missing key. */
  const Empty: Fields := Fields(None, None, None, None, None, None)

  /** HGET: the value of one field. */
  function Get(rec: Fields, f: Field): Option<string>
  {
    match f
    case StatusField => rec.status
    case ProgressField => rec.progress
    case ResultUrlField => rec.resultUrl
    case ErrorField => rec.error
    case FileUrlField => rec.fileUrl
    case ExtractedPagesField => rec.extractedPages
  }

  /** A hash is determined by the values of its fields. */
  lemma FieldsExtensional(a: Fields, b: Fields)
    requires forall f :: Get(a, f) == Get(b, f)
    ensures a == b
  {
    assert Get(a, StatusField) == Get(b, StatusField);
    assert Get(a, ProgressField) == Get(b, ProgressField);
    assert Get(a, ResultUrlField) == Get(b, ResultUrlField);
    assert Get(a, ErrorField) == Get(b, ErrorField);
    assert Get(a, FileUrlField) == Get(b, FileUrlField);
    assert Get(a, ExtractedPagesField) == Get(b, ExtractedPagesField);
  }

  /** The whole keyspace: key to hash. */
  type Keyspace = map<string, Fields>

  /** HGETALL: the hash stored under id, or the empty hash when there is none. */
  function Lookup(data: Keyspace, id: string): (r: Fields)
    ensures id in data ==> r == data[id]
    ensures id !in data ==> r == Empty
  {
    if id in data then data[id] else Empty
  }

  function Over(current: Option<string>, written: Option<string>): Option<string>
  {
    if written.Some? then written else current
  }

  /** HSET id mapping: the fields the mapping lists take its values, every other field keeps
      its old one. */
  function Merge(rec: Fields, update: Fields): (r: Fields)
    ensures forall f :: Get(r, f) == (if Get(update, f).Some? then Get(update, f) else Get(rec, f))
  {
    Fields(
      Over(rec.status, update.status),
      Over(rec.progress, update.progress),
      Over(rec.resultUrl, update.resultUrl),
      Over(rec.error, update.error),
      Over(rec.fileUrl, update.fileUrl),
      Over(rec.extractedPages, update.extractedPages))
  }

  /** Field lookup with a default, as dict.get(field, default). */
  function FieldOr(rec: Fields, f: Field, default: string): (v: string)
    ensures Get(rec, f).Some? ==> v == Get(rec, f).value
    ensures Get(rec, f).None? ==> v == default
  {
    match Get(rec, f)
    case Some(x) => x
    case None => default
  }

  /** One recorded HSET call. */
  datatype Write = Write(id: string, fields: Fields)

  /** The Redis server as the server process and the workers see it. */
  class RecordStore {
    var data: Keyspace
    /** Every HSET issued against this store, oldest first. */
    ghost var log: seq<Write>

    constructor (initial: Keyspace)
      ensures data == initial && log == []
    {
      data := initial;
      log := [];
    }

    /** HGETALL id. */
    function HGetAll(id: string): (r: Fields)
      reads this
      ensures id in data ==> r == data[id]
      ensures id !in data ==> r == Empty
    {
      Lookup(data, id)
    }

    /** HSET id mapping: one atomic multi-field write. */
    method HSet(id: string, fields: Fields)
      modifies this
      ensures data == old(data)[id := Merge(Lookup(old(data), id), fields)]
      ensures log == old(log) + [Write(id, fields)]
    {
      data := data[id := Merge(Lookup(data, id), fields)];
      log := log + [Write(id, fields)];
    }
  }

  /** Writing the same mapping twice leaves the hash as one write does (HSET is idempotent). */
  lemma MergeIdempotent(rec: Fields, update: Fields)
    ensures Merge(Merge(rec, update), update) == Merge(rec, update)
  {
  }

  /** HSET a then HSET b is one HSET of a overridden by b. */
  lemma MergeAssociative(rec: Fields, a: Fields, b: Fields)
    ensures Merge(Merge(rec, a), b) == Merge(rec, Merge(a, b))
  {
  }

  /** A later write that covers every field of an earlier one makes the earlier one invisible. */
  lemma MergeShadowed(rec: Fields, first: Fields, second: Fields)
    requires forall f :: Get(first, f).Some? ==> Get(second, f).Some?
    ensures Merge(Merge(rec, first), second) == Merge(rec, second)
  {
    FieldsExtensional(Merge(Merge(rec, first), second), Merge(rec, second));
  }
}
