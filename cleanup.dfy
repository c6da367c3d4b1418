/** DELETE /cleanup/cloudinary: collect the result locators of tasks still waiting to run, then
    destroy every stored file in the known folders whose locator is not among them. */
module Cleanup {
  import opened Wrappers
  import opened Records
  import opened Lifecycle
  import opened Listing
  import opened TaskStatus

  /** One stored file as the storage service lists it. */
  datatype Resource = Resource(publicId: string, secureUrl: string)

  /** One destroy call: the file's id and its resource type. */
  datatype Removal = Removal(publicId: string, resourceType: string)

  /** Folders listed and destroyed with the default "image" resource type. */
  const ImageFolders: seq<string> := ["mediaforge/originals", "mediaforge/compressed", "mediaforge/converted", "mediaforge/resized"]

  /** Folders listed and destroyed as "raw" resources. */
  const RawFolders: seq<string> := ["mediaforge/pdf_compressed", "mediaforge/pdf_extracted", "mediaforge/pdf_merged"]

  /** A Python truthiness test on an optional string. */
  predicate Truthy(v: Option<string>)
  {
    v.Some? && v.value != ""
  }

  /** The locator a task record asks to keep, if any: `file_url or result_url`, kept only while
      the status is "queued" or "in_progress" and the locator is non-empty. */
  function PreservedUrl(rec: Fields): (u: Option<string>)
    ensures u.Some? <==>
      (rec.status == Some("queued") || rec.status == Some("in_progress")) && (Truthy(rec.fileUrl) || Truthy(rec.resultUrl))
    ensures u.Some? && Truthy(rec.fileUrl) ==> u == rec.fileUrl
    ensures u.Some? && !Truthy(rec.fileUrl) ==> u == rec.resultUrl
  {
    var url := if Truthy(rec.fileUrl) then rec.fileUrl else rec.resultUrl;
    if (rec.status == Some("queued") || rec.status == Some("in_progress")) && Truthy(url) then url else None
  }

  /** urls_to_preserve after the loop over the task ids. */
  function Preserved(data: Keyspace, ids: seq<string>): set<string>
    decreases |ids|
  {
    if ids == [] then {}
    else
      var more := PreservedUrl(Lookup(data, ids[|ids| - 1]));
      Preserved(data, ids[..|ids| - 1]) + (if more.Some? then {more.value} else {})
  }

  /** Each listed task contributes at most one preserved locator. */
  lemma {:induction false} PreservedAtMostOnePerTask(data: Keyspace, ids: seq<string>)
    ensures |Preserved(data, ids)| <= |ids|
    decreases |ids|
  {
    if ids != [] {
      PreservedAtMostOnePerTask(data, ids[..|ids| - 1]);
    }
  }

  /** One more task id adds at most its own record's locator. */
  lemma PreservedStep(data: Keyspace, ids: seq<string>, i: nat)
    requires i < |ids|
    ensures var more := PreservedUrl(Lookup(data, ids[i]));
      Preserved(data, ids[..i + 1]) == Preserved(data, ids[..i]) + (if more.Some? then {more.value} else {})
  {
    assert ids[..i + 1][..i] == ids[..i];
  }

  /** A locator is preserved exactly when some listed task's record asks to keep it. */
  lemma {:induction false} PreservedMembers(data: Keyspace, ids: seq<string>, u: string)
    ensures u in Preserved(data, ids) <==> exists i :: 0 <= i < |ids| && PreservedUrl(Lookup(data, ids[i])) == Some(u)
    decreases |ids|
  {
    if ids != [] {
      var init := ids[..|ids| - 1];
      PreservedMembers(data, init, u);
      assert forall i :: 0 <= i < |init| ==> ids[i] == init[i];
    }
  }

  /** The resources of one listing that are destroyed, in listing order. */
  function Doomed(rs: seq<Resource>, keep: set<string>): seq<Resource>
    decreases |rs|
  {
    if rs == [] then []
    else
      var last := rs[|rs| - 1];
      Doomed(rs[..|rs| - 1], keep) + (if last.secureUrl in keep then [] else [last])
  }

  /** The resources destroyed over a run of folders of one resource type, folder by folder. */
  function Swept(listing: (string, string) -> seq<Resource>, folders: seq<string>, kind: string, keep: set<string>): seq<Resource>
    decreases |folders|
  {
    if folders == [] then []
    else Swept(listing, folders[..|folders| - 1], kind, keep) + Doomed(listing(folders[|folders| - 1], kind), keep)
  }

  /** A listed resource is doomed exactly when its locator is not preserved. */
  lemma {:induction false} DoomedMembers(rs: seq<Resource>, keep: set<string>, r: Resource)
    ensures r in Doomed(rs, keep) <==> r in rs && r.secureUrl !in keep
    decreases |rs|
  {
    if rs != [] {
      DoomedMembers(rs[..|rs| - 1], keep, r);
      assert rs == rs[..|rs| - 1] + [rs[|rs| - 1]];
    }
  }

  /** Over several folders: destroyed exactly when some folder lists it and it is not preserved. */
  lemma {:induction false} SweptMembers(listing: (string, string) -> seq<Resource>, folders: seq<string>, kind: string,
                                        keep: set<string>, r: Resource)
    ensures r in Swept(listing, folders, kind, keep) <==>
      r.secureUrl !in keep && exists i :: 0 <= i < |folders| && r in listing(folders[i], kind)
    decreases |folders|
  {
    if folders != [] {
      var init := folders[..|folders| - 1];
      var last := folders[|folders| - 1];
      SweptMembers(listing, init, kind, keep, r);
      DoomedMembers(listing(last, kind), keep, r);
      SweptSnoc(listing, init, last, kind, keep);
      assert folders == init + [last];
      if exists i :: 0 <= i < |folders| && r in listing(folders[i], kind) {
        var i :| 0 <= i < |folders| && r in listing(folders[i], kind);
        if i < |init| {
          assert init[i] == folders[i];
        }
      }
      if exists i :: 0 <= i < |init| && r in listing(init[i], kind) {
        var i :| 0 <= i < |init| && r in listing(init[i], kind);
        assert folders[i] == init[i];
      }
    }
  }

  /** The public ids of the resources, in order. */
  function Ids(rs: seq<Resource>): seq<string>
    decreases |rs|
  {
    if rs == [] then [] else Ids(rs[..|rs| - 1]) + [rs[|rs| - 1].publicId]
  }

  /** The destroy calls for the resources, in order. */
  function Removals(rs: seq<Resource>, kind: string): seq<Removal>
    decreases |rs|
  {
    if rs == [] then [] else Removals(rs[..|rs| - 1], kind) + [Removal(rs[|rs| - 1].publicId, kind)]
  }

  /** The storage service's admin side: listing is `resources(prefix=folder, resource_type=kind)`
      (its first page), and every destroy call is recorded. */
  class Assets {
    const listing: (string, string) -> seq<Resource>
    var removed: seq<Removal>

    constructor (listing: (string, string) -> seq<Resource>)
      ensures this.listing == listing && removed == []
    {
      this.listing := listing;
      removed := [];
    }

    /** destroy(public_id, resource_type=kind, invalidate=True). */
    method Destroy(publicId: string, kind: string)
      modifies this
      ensures removed == old(removed) + [Removal(publicId, kind)]
    {
      removed := removed + [Removal(publicId, kind)];
    }
  }

  /** The body of a successful cleanup. */
  datatype CleanupReport = CleanupReport(message: string, deletedFiles: seq<string>, preservedFiles: set<string>)

  /** urls_to_preserve: the loop over the task ids, keeping the locator of each waiting task. */
  method CollectPreserved(store: RecordStore, taskIds: seq<string>) returns (urlsToPreserve: set<string>)
    ensures urlsToPreserve == Preserved(store.data, taskIds)
  {
    urlsToPreserve := {};
    for i := 0 to |taskIds|
      invariant urlsToPreserve == Preserved(store.data, taskIds[..i])
    {
      var data := store.HGetAll(taskIds[i]);
      var status := data.status;
      var fileUrl := if Truthy(data.fileUrl) then data.fileUrl else data.resultUrl;
      PreservedStep(store.data, taskIds, i);
      if (status == Some("queued") || status == Some("in_progress")) && Truthy(fileUrl) {
        urlsToPreserve := urlsToPreserve + {fileUrl.value};
      }
    }
    assert taskIds[..|taskIds|] == taskIds;
  }

  /** The inner loop over one folder's listing: destroy and report every resource whose locator
      is not preserved. */
  method SweepFolder(media: Assets, folder: string, kind: string, keep: set<string>, deletedBefore: seq<string>)
    returns (deleted: seq<string>)
    modifies media
    ensures deleted == deletedBefore + Ids(Doomed(media.listing(folder, kind), keep))
    ensures media.removed == old(media.removed) + Removals(Doomed(media.listing(folder, kind), keep), kind)
  {
    var resources := media.listing(folder, kind);
    deleted := deletedBefore;
    for j := 0 to |resources|
      invariant deleted == deletedBefore + Ids(Doomed(resources[..j], keep))
      invariant media.removed == old(media.removed) + Removals(Doomed(resources[..j], keep), kind)
    {
      var resource := resources[j];
      ghost var before := Doomed(resources[..j], keep);
      assert resources[..j + 1] == resources[..j] + [resource];
      DoomedSnoc(resources[..j], resource, keep);
      if resource.secureUrl !in keep {
        media.Destroy(resource.publicId, kind);
        deleted := deleted + [resource.publicId];
        IdsSnoc(before, resource);
        RemovalsSnoc(before, resource, kind);
        Associative(deletedBefore, Ids(before), [resource.publicId]);
        Associative(old(media.removed), Removals(before, kind), [Removal(resource.publicId, kind)]);
      }
    }
    assert resources[..|resources|] == resources;
  }

  /** One of the two loops over folders of one resource type. */
  method SweepFolders(media: Assets, folders: seq<string>, kind: string, keep: set<string>, deletedBefore: seq<string>)
    returns (deleted: seq<string>)
    modifies media
    ensures deleted == deletedBefore + Ids(Swept(media.listing, folders, kind, keep))
    ensures media.removed == old(media.removed) + Removals(Swept(media.listing, folders, kind, keep), kind)
  {
    deleted := deletedBefore;
    for i := 0 to |folders|
      invariant deleted == deletedBefore + Ids(Swept(media.listing, folders[..i], kind, keep))
      invariant media.removed == old(media.removed) + Removals(Swept(media.listing, folders[..i], kind, keep), kind)
    {
      ghost var done := Swept(media.listing, folders[..i], kind, keep);
      ghost var doomed := Doomed(media.listing(folders[i], kind), keep);
      deleted := SweepFolder(media, folders[i], kind, keep, deleted);
      assert folders[..i + 1] == folders[..i] + [folders[i]];
      SweptSnoc(media.listing, folders[..i], folders[i], kind, keep);
      IdsAppend(done, doomed);
      RemovalsAppend(done, doomed, kind);
      Associative(deletedBefore, Ids(done), Ids(doomed));
      Associative(old(media.removed), Removals(done, kind), Removals(doomed, kind));
    }
    assert folders[..|folders|] == folders;
  }

  /** cleanup_cloudinary: gather the preserved locators over the UUID-shaped keys, then sweep the
      image folders and the raw folders; keys stand for KEYS *. */
  method CleanupCloudinary(store: RecordStore, keys: seq<string>, media: Assets) returns (report: CleanupReport)
    modifies media
    ensures report.message == "Cleanup complete"
    ensures report.preservedFiles == Preserved(store.data, UuidKeys(keys))
    ensures report.deletedFiles ==
      Ids(Swept(media.listing, ImageFolders, "image", report.preservedFiles))
      + Ids(Swept(media.listing, RawFolders, "raw", report.preservedFiles))
    ensures media.removed == old(media.removed)
      + Removals(Swept(media.listing, ImageFolders, "image", report.preservedFiles), "image")
      + Removals(Swept(media.listing, RawFolders, "raw", report.preservedFiles), "raw")
  {
    var taskIds := UuidKeys(keys);
    var urlsToPreserve := CollectPreserved(store, taskIds);
    var deletedResources := SweepFolders(media, ImageFolders, "image", urlsToPreserve, []);
    assert deletedResources == Ids(Swept(media.listing, ImageFolders, "image", urlsToPreserve));
    deletedResources := SweepFolders(media, RawFolders, "raw", urlsToPreserve, deletedResources);
    report := CleanupReport("Cleanup complete", deletedResources, urlsToPreserve);
  }

  lemma Associative<T>(a: seq<T>, b: seq<T>, c: seq<T>)
    ensures (a + b) + c == a + (b + c)
  {
  }

  lemma SweptSnoc(listing: (string, string) -> seq<Resource>, folders: seq<string>, folder: string, kind: string, keep: set<string>)
    ensures Swept(listing, folders + [folder], kind, keep) == Swept(listing, folders, kind, keep) + Doomed(listing(folder, kind), keep)
  {
    assert (folders + [folder])[..|folders|] == folders;
  }

  lemma DoomedSnoc(rs: seq<Resource>, r: Resource, keep: set<string>)
    ensures r.secureUrl in keep ==> Doomed(rs + [r], keep) == Doomed(rs, keep)
    ensures r.secureUrl !in keep ==> Doomed(rs + [r], keep) == Doomed(rs, keep) + [r]
  {
    assert (rs + [r])[..|rs|] == rs;
  }

  lemma IdsSnoc(rs: seq<Resource>, r: Resource)
    ensures Ids(rs + [r]) == Ids(rs) + [r.publicId]
  {
    assert (rs + [r])[..|rs|] == rs;
  }

  lemma RemovalsSnoc(rs: seq<Resource>, r: Resource, kind: string)
    ensures Removals(rs + [r], kind) == Removals(rs, kind) + [Removal(r.publicId, kind)]
  {
    assert (rs + [r])[..|rs|] == rs;
  }

  lemma {:induction false} IdsAppend(a: seq<Resource>, b: seq<Resource>)
    ensures Ids(a + b) == Ids(a) + Ids(b)
    decreases |b|
  {
    if b != [] {
      var init := b[..|b| - 1];
      IdsAppend(a, init);
      assert a + b == (a + init) + [b[|b| - 1]];
      IdsSnoc(a + init, b[|b| - 1]);
    } else {
      assert a + b == a;
    }
  }

  lemma {:induction false} RemovalsAppend(a: seq<Resource>, b: seq<Resource>, kind: string)
    ensures Removals(a + b, kind) == Removals(a, kind) + Removals(b, kind)
    decreases |b|
  {
    if b != [] {
      var init := b[..|b| - 1];
      RemovalsAppend(a, init, kind);
      assert a + b == (a + init) + [b[|b| - 1]];
      RemovalsSnoc(a + init, b[|b| - 1], kind);
    } else {
      assert a + b == a;
    }
  }

  /** The ids of the resources, one per resource, in order. */
  lemma {:induction false} IdsAt(rs: seq<Resource>, k: nat)
    requires k < |rs|
    ensures |Ids(rs)| == |rs| && Ids(rs)[k] == rs[k].publicId
    decreases |rs|
  {
    if k < |rs| - 1 {
      IdsAt(rs[..|rs| - 1], k);
    } else if |rs| > 1 {
      IdsAt(rs[..|rs| - 1], 0);
    }
  }

  /** The delete rule: a listed resource is destroyed and reported exactly when its locator is
      not preserved, so no preserved locator is ever destroyed and nothing else the listing shows
      survives. */
  lemma DeleteRule(listing: (string, string) -> seq<Resource>, folders: seq<string>, kind: string, keep: set<string>, r: Resource)
    ensures r in Swept(listing, folders, kind, keep) ==> r.secureUrl !in keep
    ensures (exists i :: 0 <= i < |folders| && r in listing(folders[i], kind)) && r.secureUrl !in keep ==>
      r in Swept(listing, folders, kind, keep) && r.publicId in Ids(Swept(listing, folders, kind, keep))
  {
    SweptMembers(listing, folders, kind, keep, r);
    var d := Swept(listing, folders, kind, keep);
    if r in d {
      var k :| 0 <= k < |d| && d[k] == r;
      IdsAt(d, k);
    }
  }

  /** No record the system itself writes is ever preserved: a submission writes "queued" with no
      locator (nothing ever writes file_url), a running routine writes "processing", a finished
      one "completed" or "failed", a cancel "cancelled", and no writer uses "in_progress". */
  lemma WrittenRecordsNotPreserved(rec: Fields, pct: nat, run: Run)
    requires WellFormed(run)
    ensures PreservedUrl(Merge(Empty, Queued)).None?
    ensures PreservedUrl(Merge(rec, Progressing(pct))).None?
    ensures PreservedUrl(Apply(rec, run.updates)).None?
    ensures PreservedUrl(Merge(rec, Cancelled)).None?
  {
    assert Merge(Empty, Queued) == Queued;
    SettledRecord(rec, run);
  }
}
