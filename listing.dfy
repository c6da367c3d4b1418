/** GET /tasks: the UUID-shaped keys of the keyspace, one page of them, one summary per key
    whose record is not empty. */
module Listing {
  import opened Wrappers
  import opened Text
  import opened Records

  /** The key filter: 36 characters with exactly four '-'. */
  predicate UuidShaped(key: string)
  {
    |key| == 36 && CountChar(key, '-') == 4
  }

  /** [key for key in keys if len(key) == 36 and key.count('-') == 4], in the keys' order. */
  function UuidKeys(keys: seq<string>): (r: seq<string>)
    ensures |r| <= |keys|
    ensures forall k :: k in r <==> k in keys && UuidShaped(k)
    decreases |keys|
  {
    if keys == [] then []
    else
      var last := keys[|keys| - 1];
      UuidKeys(keys[..|keys| - 1]) + (if UuidShaped(last) then [last] else [])
  }

  /** The filter keeps the keys in the order the store returned them. */
  lemma {:induction false} UuidKeysKeepOrder(keys: seq<string>, i: nat, j: nat)
    requires i < j < |UuidKeys(keys)|
    ensures exists a, b :: 0 <= a < b < |keys| && keys[a] == UuidKeys(keys)[i] && keys[b] == UuidKeys(keys)[j]
    decreases |keys|
  {
    var init := keys[..|keys| - 1];
    var last := keys[|keys| - 1];
    var r := UuidKeys(keys);
    assert r == UuidKeys(init) + (if UuidShaped(last) then [last] else []);
    if j < |UuidKeys(init)| {
      UuidKeysKeepOrder(init, i, j);
      var a, b :| 0 <= a < b < |init| && init[a] == UuidKeys(init)[i] && init[b] == UuidKeys(init)[j];
      assert keys[a] == r[i] && keys[b] == r[j];
    } else {
      assert r[j] == last;
      assert r[i] in UuidKeys(init);
      var a :| 0 <= a < |init| && init[a] == r[i];
      assert keys[a] == r[i] && keys[|keys| - 1] == r[j];
    }
  }

  /** keys[offset:offset + limit] for non-negative offset and limit: the slice clamped to the
      sequence. */
  function Window<T>(s: seq<T>, offset: nat, limit: nat): (w: seq<T>)
    ensures |w| <= limit
    ensures offset >= |s| ==> w == []
    ensures offset < |s| ==> |w| == if offset + limit <= |s| then limit else |s| - offset
    ensures forall i :: 0 <= i < |w| ==> offset + i < |s| && w[i] == s[offset + i]
  {
    var lo := if offset < |s| then offset else |s|;
    var hi := if offset + limit < |s| then offset + limit else |s|;
    s[lo..hi]
  }

  /** One entry of the listing. */
  datatype TaskSummary = TaskSummary(taskId: string, status: string, progress: string)

  /** The entry for a key: status defaults to "unknown", progress to "0". */
  function Summary(id: string, rec: Fields): (t: TaskSummary)
    ensures t.taskId == id
    ensures t.status == FieldOr(rec, StatusField, "unknown")
    ensures t.progress == FieldOr(rec, ProgressField, "0")
  {
    TaskSummary(id, FieldOr(rec, StatusField, "unknown"), FieldOr(rec, ProgressField, "0"))
  }

  /** The entries for the ids, in order, skipping ids whose record is empty. */
  function Summaries(data: Keyspace, ids: seq<string>): (r: seq<TaskSummary>)
    ensures |r| <= |ids|
    ensures forall t :: t in r ==> t.taskId in ids && Lookup(data, t.taskId) != Empty && t == Summary(t.taskId, Lookup(data, t.taskId))
    ensures forall id :: id in ids && Lookup(data, id) != Empty ==> Summary(id, Lookup(data, id)) in r
    decreases |ids|
  {
    if ids == [] then []
    else
      var last := ids[|ids| - 1];
      var rec := Lookup(data, last);
      Summaries(data, ids[..|ids| - 1]) + (if rec != Empty then [Summary(last, rec)] else [])
  }

  /** The entries keep the order of the ids they come from. */
  lemma {:induction false} SummariesKeepOrder(data: Keyspace, ids: seq<string>, i: nat, j: nat)
    requires i < j < |Summaries(data, ids)|
    ensures exists a, b :: 0 <= a < b < |ids| && ids[a] == Summaries(data, ids)[i].taskId && ids[b] == Summaries(data, ids)[j].taskId
    decreases |ids|
  {
    var init := ids[..|ids| - 1];
    var last := ids[|ids| - 1];
    var r := Summaries(data, ids);
    var ri := Summaries(data, init);
    assert r == ri + (if Lookup(data, last) != Empty then [Summary(last, Lookup(data, last))] else []);
    if j < |ri| {
      SummariesKeepOrder(data, init, i, j);
      var a, b :| 0 <= a < b < |init| && init[a] == ri[i].taskId && init[b] == ri[j].taskId;
      assert ids[a] == r[i].taskId && ids[b] == r[j].taskId;
    } else {
      assert r[j].taskId == last;
      assert r[i] in ri;
      var a :| 0 <= a < |init| && init[a] == r[i].taskId;
      assert ids[a] == r[i].taskId && ids[|ids| - 1] == r[j].taskId;
    }
  }

  /** No element occurs twice. */
  predicate Distinct<T(==)>(s: seq<T>)
  {
    forall a, b :: 0 <= a < b < |s| ==> s[a] != s[b]
  }

  /** KEYS * names every key once, so a page lists each task at most once, in the store's
      order of keys. */
  lemma PageOnePerTask(data: Keyspace, keys: seq<string>, limit: nat, offset: nat, i: nat, j: nat)
    requires Distinct(keys)
    requires i < j < |Summaries(data, Window(UuidKeys(keys), offset, limit))|
    ensures var page := Summaries(data, Window(UuidKeys(keys), offset, limit));
      page[i].taskId != page[j].taskId
      && exists a, b :: 0 <= a < b < |keys| && keys[a] == page[i].taskId && keys[b] == page[j].taskId
  {
    var w := Window(UuidKeys(keys), offset, limit);
    var page := Summaries(data, w);
    SummariesKeepOrder(data, w, i, j);
    var a, b :| 0 <= a < b < |w| && w[a] == page[i].taskId && w[b] == page[j].taskId;
    WindowKeepsOrder(keys, limit, offset, a, b);
    var a', b' :| 0 <= a' < b' < |keys| && keys[a'] == w[a] && keys[b'] == w[b];
    assert keys[a'] != keys[b'];
  }

  /** Two keys of a page come from the store's listing in the same order. */
  lemma WindowKeepsOrder(keys: seq<string>, limit: nat, offset: nat, a: nat, b: nat)
    requires a < b < |Window(UuidKeys(keys), offset, limit)|
    ensures var w := Window(UuidKeys(keys), offset, limit);
      exists a', b' :: 0 <= a' < b' < |keys| && keys[a'] == w[a] && keys[b'] == w[b]
  {
    var u := UuidKeys(keys);
    var w := Window(u, offset, limit);
    assert w[a] == u[offset + a] && w[b] == u[offset + b];
    UuidKeysKeepOrder(keys, offset + a, offset + b);
  }

  /** The body of GET /tasks. */
  datatype TaskPage = TaskPage(tasks: seq<TaskSummary>, total: nat, limit: nat, offset: nat)

  /** list_tasks: filter the keys, count them, take the page, and summarise every key on it whose
      record is not empty; keys stand for KEYS *, in whatever order the store returns them. */
  method ListTasks(store: RecordStore, keys: seq<string>, limit: nat, offset: nat) returns (page: TaskPage)
    ensures page.total == |UuidKeys(keys)|
    ensures page.limit == limit && page.offset == offset
    ensures page.tasks == Summaries(store.data, Window(UuidKeys(keys), offset, limit))
  {
    var taskKeys := UuidKeys(keys);
    var totalTasks := |taskKeys|;
    var paginatedKeys := Window(taskKeys, offset, limit);
    var tasks: seq<TaskSummary> := [];
    for i := 0 to |paginatedKeys|
      invariant tasks == Summaries(store.data, paginatedKeys[..i])
    {
      var taskId := paginatedKeys[i];
      var taskData := store.HGetAll(taskId);
      assert paginatedKeys[..i + 1][..i] == paginatedKeys[..i];
      if taskData != Empty {
        tasks := tasks + [Summary(taskId, taskData)];
      }
    }
    assert paginatedKeys[..|paginatedKeys|] == paginatedKeys;
    page := TaskPage(tasks, totalTasks, limit, offset);
  }

  /** A page never holds more than limit entries; each entry is a UUID-shaped key from the
      store's answer, with a record, and the total counts every UUID-shaped key whether or not it
      has a record. */
  lemma PageFacts(data: Keyspace, keys: seq<string>, limit: nat, offset: nat)
    ensures |Summaries(data, Window(UuidKeys(keys), offset, limit))| <= limit
    ensures forall t :: t in Summaries(data, Window(UuidKeys(keys), offset, limit)) ==>
      t.taskId in keys && UuidShaped(t.taskId) && Lookup(data, t.taskId) != Empty
  {
    var w := Window(UuidKeys(keys), offset, limit);
    forall t | t in Summaries(data, w)
      ensures t.taskId in keys && UuidShaped(t.taskId)
    {
      var i :| 0 <= i < |w| && w[i] == t.taskId;
      assert UuidKeys(keys)[offset + i] in UuidKeys(keys);
    }
  }

  /** Consecutive pages never overlap and leave nothing out: the window at offset followed by
      the window right after it is the window of both sizes. */
  lemma PagesTile<T>(s: seq<T>, offset: nat, a: nat, b: nat)
    ensures Window(s, offset, a) + Window(s, offset + a, b) == Window(s, offset, a + b)
  {
  }
}
