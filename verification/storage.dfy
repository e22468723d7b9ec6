/** Blob storage: a storage account holds named containers, each a listing
    of blobs with unique names. The client lists a container's blobs,
    creates a container only when it is missing, and copies a blob or a
    whole container from one account to another, counting the copies
    that succeed and going on after a failed one. */
module Storage {
  import opened Common

  datatype ContentSettings = ContentSettings(contentType: Option<string>)

  datatype Blob = Blob(name: string, size: nat, lastModified: int, contentSettings: Option<ContentSettings>)

  /** The dictionary `list_blobs` makes for a blob. */
  datatype BlobEntry = BlobEntry(name: string, size: nat, lastModified: int, contentType: Option<string>)

  datatype Container = Container(publicAccess: Option<string>, blobs: seq<Blob>)

  /** A blob without content settings is listed with no content type. */
  function EntryOf(b: Blob): (e: BlobEntry)
    ensures e.name == b.name && e.size == b.size && e.lastModified == b.lastModified
    ensures b.contentSettings.None? ==> e.contentType.None?
    ensures b.contentSettings.Some? ==> e.contentType == b.contentSettings.value.contentType
  {
    BlobEntry(b.name, b.size, b.lastModified,
              if b.contentSettings.Some? then b.contentSettings.value.contentType else None)
  }

  predicate UniqueBlobNames(bs: seq<Blob>) {
    forall i, j :: 0 <= i < j < |bs| ==> bs[i].name != bs[j].name
  }

  function BlobNames(bs: seq<Blob>): set<string> {
    set b | b in bs :: b.name
  }

  function BlobIndex(bs: seq<Blob>, name: string): (r: Option<nat>)
    ensures r.Some? ==> r.value < |bs| && bs[r.value].name == name
    ensures r.None? ==> name !in BlobNames(bs)
  {
    if bs == [] then None
    else if bs[0].name == name then Some(0)
    else match BlobIndex(bs[1..], name)
      case None => (assert forall b :: b in bs && b != bs[0] ==> b in bs[1..]; None)
      case Some(i) => Some(i + 1)
  }

  /** An upload: a blob of the same name is replaced where it stands, a
      new name is added at the end. */
  function PutBlob(bs: seq<Blob>, b: Blob): (r: seq<Blob>)
    requires UniqueBlobNames(bs)
    ensures UniqueBlobNames(r)
    ensures b in r
    ensures BlobNames(r) == BlobNames(bs) + {b.name}
    ensures forall x :: x in bs && x.name != b.name ==> x in r
  {
    match BlobIndex(bs, b.name)
    case Some(i) =>
      var r := bs[i := b];
      assert r[i] == b;
      assert forall x :: x in bs && x.name != b.name ==> x in r by {
        forall x | x in bs && x.name != b.name ensures x in r {
          var k :| 0 <= k < |bs| && bs[k] == x;
          assert r[k] == x;
        }
      }
      assert BlobNames(r) == BlobNames(bs) + {b.name} by {
        forall n | n in BlobNames(r) ensures n in BlobNames(bs) + {b.name} {
          var x :| x in r && x.name == n;
          var k :| 0 <= k < |r| && r[k] == x;
          if k != i {
            assert bs[k] == x;
          }
        }
        forall n | n in BlobNames(bs) ensures n in BlobNames(r) {
          var x :| x in bs && x.name == n;
          if n != b.name {
            assert x in r;
          }
        }
      }
      r
    case None =>
      var r := bs + [b];
      assert forall x :: x in r <==> x in bs || x == b;
      r
  }

  /** The uploads of several blobs, one after the other. */
  function PutAll(bs: seq<Blob>, adds: seq<Blob>): (r: seq<Blob>)
    requires UniqueBlobNames(bs)
    ensures UniqueBlobNames(r)
    decreases |adds|
  {
    if adds == [] then bs else PutBlob(PutAll(bs, adds[..|adds| - 1]), adds[|adds| - 1])
  }

  /** After the uploads the container holds its old names and the names
      uploaded, and every uploaded blob whose name is uploaded only once
      stands as uploaded. */
  lemma {:induction false} PutAllNames(bs: seq<Blob>, adds: seq<Blob>)
    requires UniqueBlobNames(bs)
    ensures BlobNames(PutAll(bs, adds)) == BlobNames(bs) + BlobNames(adds)
    decreases |adds|
  {
    if adds != [] {
      var init := adds[..|adds| - 1];
      PutAllNames(bs, init);
      assert adds == init + [adds[|adds| - 1]];
      assert BlobNames(adds) == BlobNames(init) + {adds[|adds| - 1].name} by {
        forall n | n in BlobNames(adds) ensures n in BlobNames(init) + {adds[|adds| - 1].name} {
          var x :| x in adds && x.name == n;
          var k :| 0 <= k < |adds| && adds[k] == x;
          if k < |adds| - 1 {
            assert init[k] == x;
          }
        }
      }
    }
  }

  lemma {:induction false} EveryUploadArrives(bs: seq<Blob>, adds: seq<Blob>)
    requires UniqueBlobNames(bs) && UniqueBlobNames(adds)
    ensures forall b :: b in adds ==> b in PutAll(bs, adds)
    decreases |adds|
  {
    if adds != [] {
      var n := |adds| - 1;
      var init, last := adds[..n], adds[n];
      assert UniqueBlobNames(init) by {
        forall i, j | 0 <= i < j < n ensures init[i].name != init[j].name {
          assert init[i] == adds[i] && init[j] == adds[j];
        }
      }
      EveryUploadArrives(bs, init);
      var prev := PutAll(bs, init);
      assert PutAll(bs, adds) == PutBlob(prev, last);
      forall b | b in adds ensures b in PutBlob(prev, last) {
        if b != last {
          EarlierUpload(adds, b);
        }
      }
    }
  }

  /** With distinct names, an upload other than the last comes before it
      and has another name. */
  lemma EarlierUpload(adds: seq<Blob>, b: Blob)
    requires UniqueBlobNames(adds) && b in adds && adds != [] && b != adds[|adds| - 1]
    ensures b in adds[..|adds| - 1] && b.name != adds[|adds| - 1].name
  {
    var k :| 0 <= k < |adds| && adds[k] == b;
    assert adds[..|adds| - 1][k] == b;
  }

  /** `create_container_if_not_exists`, on the account's containers. */
  function WithContainer(m: map<string, Container>, c: string, publicAccess: Option<string>)
    : (r: map<string, Container>)
    ensures c in r && r.Keys == m.Keys + {c}
    ensures c in m ==> r == m
    ensures c !in m ==> r[c] == Container(publicAccess, [])
    ensures forall d :: d in m ==> r[d] == m[d]
  {
    if c in m then m else m[c := Container(publicAccess, [])]
  }

  /** Creating a container that may exist is idempotent: a second call
      changes nothing, whatever access level it asks for. */
  lemma CreateIdempotent(m: map<string, Container>, c: string, a1: Option<string>, a2: Option<string>)
    ensures WithContainer(WithContainer(m, c, a1), c, a2) == WithContainer(m, c, a1)
  {
  }

  /** A storage account. The service refuses to create a container whose
      name is in `refusedContainers` and to upload a blob whose name is in
      `refusedUploads`. */
  class StorageAccount {
    var containers: map<string, Container>
    const refusedContainers: set<string>
    const refusedUploads: set<string>

    ghost predicate Valid()
      reads this
    {
      forall c :: c in containers ==> UniqueBlobNames(containers[c].blobs)
    }

    constructor(containers: map<string, Container>, refusedContainers: set<string>, refusedUploads: set<string>)
      requires forall c :: c in containers ==> UniqueBlobNames(containers[c].blobs)
      ensures Valid()
      ensures this.containers == containers
      ensures this.refusedContainers == refusedContainers && this.refusedUploads == refusedUploads
    {
      this.containers := containers;
      this.refusedContainers := refusedContainers;
      this.refusedUploads := refusedUploads;
    }

    /** `list_blobs`: one entry per blob, in listing order; listing a
        missing container is a service error. */
    method ListBlobs(c: string) returns (r: Result<seq<BlobEntry>>)
      ensures c !in containers ==> r == Err(ServiceError)
      ensures c in containers ==> r.Ok? && |r.value| == |containers[c].blobs|
      ensures c in containers ==> forall k :: 0 <= k < |r.value| ==> r.value[k] == EntryOf(containers[c].blobs[k])
    {
      if c !in containers {
        return Err(ServiceError);
      }
      var blobs := containers[c].blobs;
      var entries := [];
      var i := 0;
      while i < |blobs|
        invariant 0 <= i <= |blobs|
        invariant |entries| == i
        invariant forall k :: 0 <= k < i ==> entries[k] == EntryOf(blobs[k])
      {
        var b := blobs[i];
        var contentType := if b.contentSettings.Some? then b.contentSettings.value.contentType else None;
        entries := entries + [BlobEntry(b.name, b.size, b.lastModified, contentType)];
        i := i + 1;
      }
      r := Ok(entries);
    }

    /** `create_container_if_not_exists`: an existing container is left
        as it is; a missing one is created empty, with the access level
        given. */
    method CreateContainerIfNotExists(c: string, publicAccess: Option<string> := None) returns (r: Result<()>)
      requires Valid()
      modifies this
      ensures Valid()
      ensures r.Err? <==> c !in old(containers) && c in refusedContainers
      ensures r.Err? ==> r.error == ServiceError && containers == old(containers)
      ensures r.Ok? ==> containers == WithContainer(old(containers), c, publicAccess)
    {
      if c in containers {
        return Ok(());
      }
      if c in refusedContainers {
        return Err(ServiceError);
      }
      containers := containers[c := Container(publicAccess, [])];
      r := Ok(());
    }

    /** `upload_blob_from_url`: refused for a refused name, and without
        `overwrite` for a name already present. */
    method Upload(c: string, b: Blob, overwrite: bool) returns (ok: bool)
      requires Valid() && c in containers
      modifies this
      ensures Valid()
      ensures ok <==> b.name !in refusedUploads && (overwrite || b.name !in BlobNames(old(containers)[c].blobs))
      ensures containers == if ok then old(containers)[c := old(containers)[c].(blobs := PutBlob(old(containers)[c].blobs, b))]
                            else old(containers)
    {
      ok := b.name !in refusedUploads && (overwrite || b.name !in BlobNames(containers[c].blobs));
      if ok {
        containers := containers[c := containers[c].(blobs := PutBlob(containers[c].blobs, b))];
      }
    }
  }

  /** The blob called `name` in container `c`, if both exist. */
  function SourceBlob(m: map<string, Container>, c: string, name: string): Option<Blob> {
    if c !in m then None
    else match BlobIndex(m[c].blobs, name)
      case None => None
      case Some(i) => Some(m[c].blobs[i])
  }

  /** Whether a copy of `name` into a target container holding `target`
      goes through. */
  predicate Accepted(name: string, target: seq<Blob>, overwrite: bool, refused: set<string>) {
    name !in refused && (overwrite || name !in BlobNames(target))
  }

  /** `AzureStorageCopy`: copies between a source and a target account. */
  class AzureStorageCopy {
    const source: StorageAccount
    const target: StorageAccount

    constructor(source: StorageAccount, target: StorageAccount)
      ensures this.source == source && this.target == target
    {
      this.source := source;
      this.target := target;
    }

    /** `copy_blob`: the target name defaults to the source name; the
        target container is made to exist first, then the source blob is
        uploaded under the target name. A refused creation, a missing
        source blob or a refused upload raises. Source and target may be
        the same account. */
    method CopyBlob(sourceContainer: string, sourceBlob: string, targetContainer: string,
                    targetBlob: Option<string> := None, overwrite: bool := true)
      returns (r: Result<()>)
      requires source.Valid() && target.Valid()
      modifies target
      ensures target.Valid()
      ensures targetContainer !in old(target.containers) && targetContainer in target.refusedContainers ==>
        r == Err(ServiceError) && target.containers == old(target.containers)
      ensures !(targetContainer !in old(target.containers) && targetContainer in target.refusedContainers) ==>
        var made := WithContainer(old(target.containers), targetContainer, None);
        var name := targetBlob.GetOr(sourceBlob);
        var src := SourceBlob(old(source.containers), sourceContainer, sourceBlob);
        && (r.Ok? <==> src.Some? && Accepted(name, made[targetContainer].blobs, overwrite, target.refusedUploads))
        && (r.Err? ==> r.error == ServiceError && target.containers == made)
        && (r.Ok? ==>
              var blob := src.value.(name := name);
              target.containers == made[targetContainer := made[targetContainer].(blobs := PutBlob(made[targetContainer].blobs, blob))])
      ensures targetContainer in old(target.containers) ==>
        var name := targetBlob.GetOr(sourceBlob);
        var src := SourceBlob(old(source.containers), sourceContainer, sourceBlob);
        var blobs := old(target.containers)[targetContainer].blobs;
        && (r.Ok? <==> src.Some? && Accepted(name, blobs, overwrite, target.refusedUploads))
        && (r.Err? ==> target.containers == old(target.containers))
        && (r.Ok? ==>
              var blob := src.value.(name := name);
              target.containers == old(target.containers)[targetContainer := old(target.containers)[targetContainer].(blobs := PutBlob(blobs, blob))])
    {
      var name := if targetBlob.None? then sourceBlob else targetBlob.value;
      ghost var before := source.containers;
      var made := target.CreateContainerIfNotExists(targetContainer);
      if made.Err? {
        return Err(made.error);
      }
      SourceBlobAfterCreate(before, targetContainer, None, sourceContainer, sourceBlob);
      var src := SourceBlob(source.containers, sourceContainer, sourceBlob);
      if src.None? {
        return Err(ServiceError);
      }
      var ok := target.Upload(targetContainer, src.value.(name := name), overwrite);
      if !ok {
        return Err(ServiceError);
      }
      r := Ok(());
    }

    /** `copy_container`: the target container defaults to the source
        name. The source blobs are listed and the target container made
        to exist (either failure raises); then every blob is copied under
        its own name, a failed copy being reported and skipped. The number
        of copies that succeeded is returned. Source and target may be the
        same account: the listing is taken before the first copy. */
    method CopyContainer(sourceContainer: string, targetContainer: Option<string> := None, overwrite: bool := true)
      returns (r: Result<nat>)
      requires source.Valid() && target.Valid()
      modifies target
      ensures target.Valid()
      ensures r.Err? ==> r.error == ServiceError
      ensures sourceContainer !in old(source.containers) ==> r == Err(ServiceError) && target.containers == old(target.containers)
      ensures sourceContainer in old(source.containers) ==>
        var tc := targetContainer.GetOr(sourceContainer);
        && (r.Err? <==> tc !in old(target.containers) && tc in target.refusedContainers)
        && (r.Err? ==> target.containers == old(target.containers))
        && (r.Ok? ==>
              var made := WithContainer(old(target.containers), tc, None);
              var copies := Filter(old(source.containers)[sourceContainer].blobs,
                                   Succeeds(made[tc].blobs, overwrite, target.refusedUploads));
              && r.value == |copies| <= |old(source.containers)[sourceContainer].blobs|
              && target.containers == made[tc := made[tc].(blobs := PutAll(made[tc].blobs, copies))])
    {
      var tc := if targetContainer.None? then sourceContainer else targetContainer.value;
      var listed := source.ListBlobs(sourceContainer);
      if listed.Err? {
        return Err(listed.error);
      }
      ghost var blobs := source.containers[sourceContainer].blobs;
      var made := target.CreateContainerIfNotExists(tc);
      if made.Err? {
        return Err(made.error);
      }
      ghost var start := target.containers;
      ghost var succeeds := Succeeds(start[tc].blobs, overwrite, target.refusedUploads);
      var entries := listed.value;
      CopiedSoFarStart(start, tc, blobs, succeeds);
      var count := 0;
      var i := 0;
      while i < |entries|
        invariant 0 <= i <= |entries|
        invariant target.Valid()
        invariant sourceContainer in source.containers && source.containers[sourceContainer].blobs == blobs
        invariant count == |Filter(blobs[..i], succeeds)|
        invariant target.containers == CopiedSoFar(start, tc, blobs, i, succeeds)
      {
        var res := CopyOne(sourceContainer, tc, blobs, i, entries[i].name, overwrite, start, succeeds);
        if res.Ok? {
          count := count + 1;
        }
        i := i + 1;
      }
      assert blobs[..i] == blobs;
      r := Ok(count);
    }

    /** One blob of `copy_container`. */
    method CopyOne(sourceContainer: string, tc: string, ghost blobs: seq<Blob>, i: nat, name: string,
                   overwrite: bool, ghost start: map<string, Container>, ghost succeeds: Blob -> bool)
      returns (r: Result<()>)
      requires source.Valid() && target.Valid()
      requires sourceContainer in source.containers && source.containers[sourceContainer].blobs == blobs
      requires i < |blobs| && name == blobs[i].name && UniqueBlobNames(blobs)
      requires tc in start && UniqueBlobNames(start[tc].blobs)
      requires source == target ==> sourceContainer in start && start[sourceContainer].blobs == blobs
      requires succeeds == Succeeds(start[tc].blobs, overwrite, target.refusedUploads)
      requires target.containers == CopiedSoFar(start, tc, blobs, i, succeeds)
      modifies target
      ensures target.Valid()
      ensures sourceContainer in source.containers && source.containers[sourceContainer].blobs == blobs
      ensures r.Ok? <==> succeeds(blobs[i])
      ensures target.containers == CopiedSoFar(start, tc, blobs, i + 1, succeeds)
      ensures |Filter(blobs[..i + 1], succeeds)| == |Filter(blobs[..i], succeeds)| + (if r.Ok? then 1 else 0)
    {
      ghost var current := PutAll(start[tc].blobs, Filter(blobs[..i], succeeds));
      CopiedSoFarStep(start, tc, blobs, i, succeeds);
      UniqueBlobAt(blobs, i);
      assert SourceBlob(source.containers, sourceContainer, name) == Some(blobs[i]);
      assert blobs[i].(name := name) == blobs[i];
      r := CopyBlob(sourceContainer, name, tc, Some(name), overwrite);
      if source == target && sourceContainer == tc {
        FilterMembers(blobs[..i + 1], succeeds);
        forall b | b in Filter(blobs[..i + 1], succeeds) ensures b in blobs {
          var k :| 0 <= k < i + 1 && blobs[..i + 1][k] == b;
          assert blobs[k] == b;
        }
        PutAllPresent(blobs, Filter(blobs[..i + 1], succeeds));
      }
    }
  }

  /** Creating a container changes no blob a copy can find: a new
      container is empty. */
  lemma SourceBlobAfterCreate(m: map<string, Container>, c: string, publicAccess: Option<string>,
                              sc: string, name: string)
    ensures SourceBlob(WithContainer(m, c, publicAccess), sc, name) == SourceBlob(m, sc, name)
  {
  }

  /** Uploading a blob the container already holds, unchanged, leaves
      the container as it is. */
  lemma PutPresent(bs: seq<Blob>, b: Blob)
    requires UniqueBlobNames(bs) && b in bs
    ensures PutBlob(bs, b) == bs
  {
    var k :| 0 <= k < |bs| && bs[k] == b;
    assert b.name in BlobNames(bs);
    var j := BlobIndex(bs, b.name).value;
    assert j == k;
    assert bs[k := b] == bs;
  }

  /** Copying a container onto itself leaves it as it is: every upload
      puts back a blob it already holds. */
  lemma {:induction false} PutAllPresent(bs: seq<Blob>, adds: seq<Blob>)
    requires UniqueBlobNames(bs) && forall b :: b in adds ==> b in bs
    ensures PutAll(bs, adds) == bs
    decreases |adds|
  {
    if adds != [] {
      var init := adds[..|adds| - 1];
      assert forall b :: b in init ==> b in adds;
      PutAllPresent(bs, init);
      PutPresent(bs, adds[|adds| - 1]);
    }
  }

  /** The target's containers after the first `n` blobs of a container
      copy: the uploads that went through, on the target container as it
      stood once made to exist. */
  ghost function CopiedSoFar(start: map<string, Container>, tc: string, blobs: seq<Blob>, n: nat,
                             succeeds: Blob -> bool): map<string, Container>
    requires tc in start && UniqueBlobNames(start[tc].blobs) && n <= |blobs|
  {
    start[tc := start[tc].(blobs := PutAll(start[tc].blobs, Filter(blobs[..n], succeeds)))]
  }

  lemma CopiedSoFarStart(start: map<string, Container>, tc: string, blobs: seq<Blob>, succeeds: Blob -> bool)
    requires tc in start && UniqueBlobNames(start[tc].blobs)
    ensures CopiedSoFar(start, tc, blobs, 0, succeeds) == start
  {
    assert Filter(blobs[..0], succeeds) == [];
  }

  lemma CopiedSoFarStep(start: map<string, Container>, tc: string, blobs: seq<Blob>, i: nat, succeeds: Blob -> bool)
    requires tc in start && UniqueBlobNames(start[tc].blobs) && UniqueBlobNames(blobs) && i < |blobs|
    ensures tc in CopiedSoFar(start, tc, blobs, i, succeeds)
    ensures var now := CopiedSoFar(start, tc, blobs, i, succeeds);
      && (blobs[i].name in BlobNames(now[tc].blobs) <==> blobs[i].name in BlobNames(start[tc].blobs))
      && CopiedSoFar(start, tc, blobs, i + 1, succeeds) ==
           (if succeeds(blobs[i]) then now[tc := now[tc].(blobs := PutBlob(now[tc].blobs, blobs[i]))] else now)
      && |Filter(blobs[..i + 1], succeeds)| == |Filter(blobs[..i], succeeds)| + (if succeeds(blobs[i]) then 1 else 0)
  {
    var t := PutAll(start[tc].blobs, Filter(blobs[..i], succeeds));
    var t1 := PutAll(start[tc].blobs, Filter(blobs[..i + 1], succeeds));
    assert && (t1 == if succeeds(blobs[i]) then PutBlob(t, blobs[i]) else t)
           && (blobs[i].name in BlobNames(t) <==> blobs[i].name in BlobNames(start[tc].blobs))
           && |Filter(blobs[..i + 1], succeeds)| == |Filter(blobs[..i], succeeds)| + (if succeeds(blobs[i]) then 1 else 0)
    by {
      CopyStep(start[tc].blobs, blobs, i, succeeds);
    }
    if succeeds(blobs[i]) {
      SetBlobsTwice(start, tc, t, PutBlob(t, blobs[i]));
    }
  }

  lemma SetBlobsTwice(m: map<string, Container>, tc: string, a: seq<Blob>, b: seq<Blob>)
    requires tc in m
    ensures var once := m[tc := m[tc].(blobs := a)];
      once[tc := once[tc].(blobs := b)] == m[tc := m[tc].(blobs := b)]
  {
  }

  /** The copies already made leave the next blob's name where it was
      in the target, and one more blob of the listing adds at most one
      upload. */
  lemma CopyStep(t0: seq<Blob>, blobs: seq<Blob>, i: nat, succeeds: Blob -> bool)
    requires UniqueBlobNames(t0) && UniqueBlobNames(blobs) && i < |blobs|
    ensures blobs[i].name in BlobNames(PutAll(t0, Filter(blobs[..i], succeeds))) <==> blobs[i].name in BlobNames(t0)
    ensures PutAll(t0, Filter(blobs[..i + 1], succeeds)) ==
      if succeeds(blobs[i]) then PutBlob(PutAll(t0, Filter(blobs[..i], succeeds)), blobs[i])
      else PutAll(t0, Filter(blobs[..i], succeeds))
    ensures |Filter(blobs[..i + 1], succeeds)| == |Filter(blobs[..i], succeeds)| + if succeeds(blobs[i]) then 1 else 0
  {
    var done := Filter(blobs[..i], succeeds);
    PutAllNames(t0, done);
    NotYetCopied(blobs, i, succeeds);
    FilterSnoc(blobs[..i], blobs[i], succeeds);
    assert blobs[..i + 1] == blobs[..i] + [blobs[i]];
    if succeeds(blobs[i]) {
      assert Filter(blobs[..i + 1], succeeds) == done + [blobs[i]];
      PutAllSnoc(t0, done, blobs[i]);
    } else {
      assert Filter(blobs[..i + 1], succeeds) == done + [];
      assert done + [] == done;
    }
  }

  lemma NotYetCopied(blobs: seq<Blob>, i: nat, succeeds: Blob -> bool)
    requires UniqueBlobNames(blobs) && i < |blobs|
    ensures blobs[i].name !in BlobNames(Filter(blobs[..i], succeeds))
  {
    FilterMembers(blobs[..i], succeeds);
    forall x | x in Filter(blobs[..i], succeeds) ensures x.name != blobs[i].name {
      var k :| 0 <= k < i && blobs[..i][k] == x;
    }
  }

  lemma PutAllSnoc(t0: seq<Blob>, done: seq<Blob>, b: Blob)
    requires UniqueBlobNames(t0)
    ensures PutAll(t0, done + [b]) == PutBlob(PutAll(t0, done), b)
  {
    var adds := done + [b];
    assert adds[..|adds| - 1] == done;
  }

  /** The test a copy passes inside `copy_container`: the target is the
      container as it stood once made to exist. */
  function Succeeds(target: seq<Blob>, overwrite: bool, refused: set<string>): Blob -> bool {
    (b: Blob) => Accepted(b.name, target, overwrite, refused)
  }

  lemma UniqueBlobAt(blobs: seq<Blob>, i: nat)
    requires UniqueBlobNames(blobs) && i < |blobs|
    ensures BlobIndex(blobs, blobs[i].name) == Some(i)
  {
    if i > 0 {
      UniqueBlobAt(blobs[1..], i - 1);
    }
  }

  /** With overwriting on and no upload refused, a container copy brings
      every source blob, unchanged, into the target, and counts them all. */
  lemma WholeContainerArrives(t0: seq<Blob>, blobs: seq<Blob>, refused: set<string>)
    requires UniqueBlobNames(t0) && UniqueBlobNames(blobs)
    requires forall b :: b in blobs ==> b.name !in refused
    ensures Filter(blobs, Succeeds(t0, true, refused)) == blobs
    ensures forall b :: b in blobs ==> b in PutAll(t0, Filter(blobs, Succeeds(t0, true, refused)))
  {
    FilterAll(blobs, Succeeds(t0, true, refused));
    EveryUploadArrives(t0, blobs);
  }

  lemma {:induction false} FilterAll<T(!new)>(s: seq<T>, p: T -> bool)
    requires forall x :: x in s ==> p(x)
    ensures Filter(s, p) == s
  {
    if s != [] {
      assert Filter(s[1..], p) == s[1..] by {
        assert forall x :: x in s[1..] ==> x in s;
        FilterAll(s[1..], p);
      }
      assert p(s[0]) && [s[0]] + s[1..] == s;
    }
  }
}
