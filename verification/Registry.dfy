/**
 The bundle, shared-file and batch registry with its files on disk. After any sequence of uploads, deletions,
 collections and batch creations, what a batch needs is still there, and no orphaned blob is left behind.
 */
module Registry {
  import opened Basics
  import opened Names

  /** A content digest, taken as injective, and a shared file's name. */
  datatype Digest = Digest(id: Token)
  datatype FileName = FileName(id: Token)

  datatype Bundle = Bundle(sha: Digest, size: nat, shared: set<FileName>, uploadedAt: Time)

  datatype Reply = Ok | NotFound | Conflict(referrers: nat) | Unprocessable | BadRequest

  /** The sha of some registered bundle. */
  function Shas(bundles: map<BundleKey, Bundle>): (shas: set<Digest>) {
    set k | k in bundles :: bundles[k].sha
  }

  /** Some registered bundle has this digest. */
  predicate Used(bundles: map<BundleKey, Bundle>, sha: Digest) {
    exists k :: k in bundles && bundles[k].sha == sha
  }

  /** The digests of the bundles to go that no remaining bundle has. */
  function Orphans(bundles: map<BundleKey, Bundle>, gone: set<BundleKey>): (shas: set<Digest>) {
    set k | k in bundles && k in gone && !Used(bundles - gone, bundles[k].sha) :: bundles[k].sha
  }

  function Referring(batches: map<BatchId, string>, ref: string): (ids: set<BatchId>) {
    set b | b in batches && batches[b] == ref
  }

  function NeededBy(bundles: map<BundleKey, Bundle>, name: FileName): (keys: set<BundleKey>) {
    set k | k in bundles && name in bundles[k].shared
  }

  /** Bundles no batch refers to, uploaded before the threshold. */
  function Collectable(bundles: map<BundleKey, Bundle>, batches: map<BatchId, string>, threshold: Time): (keys: set<BundleKey>) {
    set k | k in bundles && Referring(batches, FormatRef(k)) == {} && bundles[k].uploadedAt < threshold
  }

  /** Some batch is created with this reference. */
  ghost predicate IsUsed(batches: map<BatchId, string>, ref: string) {
    exists b :: b in batches && batches[b] == ref
  }

  lemma UsersExist(batches: map<BatchId, string>, ref: string)
    ensures IsUsed(batches, ref) <==> Referring(batches, ref) != {}
    ensures Referring(batches, ref) == set b | b in batches && batches[b] == ref
  {
    var users: set<BatchId> := Referring(batches, ref);
    if IsUsed(batches, ref) {
      var b :| b in batches && batches[b] == ref;
      assert b in users;
    } else {
      assert forall b :: b !in users;
      assert users == {};
    }
  }

  lemma CollectableExactly(bundles: map<BundleKey, Bundle>, batches: map<BatchId, string>, threshold: Time, k: BundleKey)
    requires k in bundles
    ensures k in Collectable(bundles, batches, threshold) <==>
      !IsUsed(batches, FormatRef(k)) && bundles[k].uploadedAt < threshold
  {
    UsersExist(batches, FormatRef(k));
  }

  /** Left are the bundles some batch is created with, and those uploaded from the threshold on, each as it was. */
  ghost predicate IsKept(bundles: map<BundleKey, Bundle>, left: map<BundleKey, Bundle>, batches: map<BatchId, string>,
                         threshold: Time)
  {
    && (forall k :: k in left <==> k in bundles && (IsUsed(batches, FormatRef(k)) || bundles[k].uploadedAt >= threshold))
    && (forall k | k in left :: left[k] == bundles[k])
  }

  lemma KeptExactly(bundles: map<BundleKey, Bundle>, batches: map<BatchId, string>, threshold: Time)
    ensures IsKept(bundles, bundles - Collectable(bundles, batches, threshold), batches, threshold)
  {
    forall k | k in bundles
      ensures k in Collectable(bundles, batches, threshold) <==>
              !IsUsed(batches, FormatRef(k)) && bundles[k].uploadedAt < threshold
    {
      CollectableExactly(bundles, batches, threshold, k);
    }
  }

  class Registry {
    var bundles: map<BundleKey, Bundle>
    var batches: map<BatchId, string>
    /** The shared-file rows' digests, and the files on disk. */
    var sharedRows: map<FileName, Digest>
    var sharedFiles: map<FileName, Digest>
    var blobs: set<Digest>

    /** The blobs on disk are those of the registered bundles. */
    ghost predicate Valid()
      reads this
    {
      RowsFit() && blobs == Shas(bundles)
    }

    /** Every batch's bundle is registered, and its shared files are there, with the registered content. */
    ghost predicate RowsFit()
      reads this
    {
      && (forall b | b in batches :: ParseRef(batches[b]).Some? && ParseRef(batches[b]).value in bundles)
      && (forall k, name | k in bundles && name in bundles[k].shared :: name in sharedRows)
      && sharedFiles == sharedRows
      && (forall k | k in bundles :: Registrable(k))
    }

    constructor ()
      ensures Valid() && bundles == map[] && batches == map[] && sharedRows == map[]
    {
      bundles, batches, sharedRows, sharedFiles, blobs := map[], map[], map[], map[], {};
    }

    method AllKnown(names: seq<FileName>) returns (known: bool)
      ensures known <==> forall n | n in names :: n in sharedRows
    {
      var i := 0;
      while i < |names|
        invariant 0 <= i <= |names| && forall n | n in names[..i] :: n in sharedRows
      {
        if names[i] !in sharedRows {
          assert names[i] in names;
          return false;
        }
        i := i + 1;
      }
      assert names[..|names|] == names;
      return true;
    }

    /** POST /bundles: the blob is stored under its digest, once however many rows share it. */
    method UploadBundle(k: BundleKey, sha: Digest, size: nat, shared: seq<FileName>, now: Time) returns (reply: Reply)
      requires Valid()
      modifies this
      ensures Valid() && batches == old(batches) && sharedRows == old(sharedRows)
      ensures reply == Ok <==>
        size > 0 && Registrable(k) && k !in old(bundles) && (forall n | n in shared :: n in sharedRows)
      ensures reply == Ok ==> bundles == old(bundles)[k := Bundle(sha, size, (set n | n in shared), now)]
      ensures reply != Ok ==> bundles == old(bundles) && blobs == old(blobs)
    {
      if size == 0 {
        return BadRequest;
      }
      if !Registrable(k) {
        return BadRequest;
      }
      if k in bundles {
        return Conflict(1);
      }
      var known := AllKnown(shared);
      if !known {
        return Unprocessable;
      }
      if sha !in blobs {
        blobs := blobs + {sha};
      }
      ghost var was := bundles;
      bundles := bundles[k := Bundle(sha, size, (set n | n in shared), now)];
      ShasWith(was, k, bundles[k]);
      return Ok;
    }

    /** DELETE /bundles/{name}/{version}: refused while a batch refers to it; the blob goes with its last row. */
    method DeleteBundle(k: BundleKey) returns (reply: Reply)
      requires Valid()
      modifies this
      ensures Valid() && batches == old(batches) && sharedRows == old(sharedRows)
      ensures reply == NotFound <==> k !in old(bundles)
      ensures reply.Conflict? <==> k in old(bundles) && IsUsed(batches, FormatRef(k))
      ensures reply.Conflict? ==> reply.referrers == |set b | b in batches && batches[b] == FormatRef(k)|
      ensures reply == Ok || reply == NotFound || reply.Conflict?
      ensures bundles == if reply == Ok then old(bundles) - {k} else old(bundles)
    {
      if k !in bundles {
        return NotFound;
      }
      UsersExist(batches, FormatRef(k));
      var users := Referring(batches, FormatRef(k));
      if users != {} {
        return Conflict(|users|);
      }
      var sha := bundles[k].sha;
      ghost var was := bundles;
      bundles := bundles - {k};
      if !Used(bundles, sha) {
        blobs := blobs - {sha};
      }
      ShasWithout(was, k);
      DeletionSpares(batches, was, {k});
      return Ok;
    }

    /** POST /admin/gc: delete the collectable rows, then unlink the blobs nothing refers to any more. */
    method CollectGarbage(threshold: Time) returns (deleted: nat, unlinked: nat)
      requires Valid()
      modifies this`bundles, this`blobs
      ensures Valid() && IsKept(old(bundles), bundles, batches, threshold)
      ensures deleted == |old(bundles).Keys - bundles.Keys|
      ensures unlinked == |old(blobs) - blobs|
    {
      var orphans;
      deleted, orphans := DeleteCollectable(threshold);
      unlinked := Unlink(orphans);
      assert old(blobs) - blobs == orphans;
    }

    method DeleteCollectable(threshold: Time) returns (deleted: nat, orphans: set<Digest>)
      requires RowsFit()
      modifies this`bundles
      ensures RowsFit()
      ensures IsKept(old(bundles), bundles, batches, threshold) && deleted == |old(bundles).Keys - bundles.Keys|
      ensures orphans <= Shas(old(bundles)) && Shas(bundles) == Shas(old(bundles)) - orphans
    {
      KeptExactly(bundles, batches, threshold);
      var candidates := Collectable(bundles, batches, threshold);
      deleted := |candidates|;
      orphans := DeleteRows(candidates);
      assert old(bundles).Keys - bundles.Keys == candidates;
    }

    /** Delete the rows, and find which digests nothing refers to any more. */
    method DeleteRows(gone: set<BundleKey>) returns (orphans: set<Digest>)
      requires RowsFit() && gone <= bundles.Keys && forall k | k in gone :: Referring(batches, FormatRef(k)) == {}
      modifies this`bundles
      ensures RowsFit() && bundles == old(bundles) - gone
      ensures orphans <= Shas(old(bundles)) && Shas(bundles) == Shas(old(bundles)) - orphans
    {
      orphans := Orphans(bundles, gone);
      CollectedShas(bundles, gone);
      DeletionSpares(batches, bundles, gone);
      bundles := bundles - gone;
    }

    method Unlink(shas: set<Digest>) returns (unlinked: nat)
      requires shas <= blobs
      modifies this`blobs
      ensures blobs == old(blobs) - shas && unlinked == |shas|
    {
      var todo := shas;
      unlinked := 0;
      assert shas - todo == {};
      while todo != {}
        invariant todo <= shas && blobs == old(blobs) - (shas - todo) && unlinked == |shas - todo|
        decreases |todo|
      {
        var sha :| sha in todo;
        blobs := blobs - {sha};
        assert shas - (todo - {sha}) == shas - todo + {sha};
        unlinked := unlinked + 1;
        todo := todo - {sha};
      }
      assert shas - todo == shas;
    }

    /** POST /batches, as far as the registry is concerned. */
    method CreateBatch(b: BatchId, ref: string) returns (reply: Reply)
      requires Valid()
      modifies this`batches
      ensures Valid()
      ensures reply.Conflict? <==> b in old(batches)
      ensures reply == Ok <==> b !in old(batches) && ParseRef(ref).Some? && ParseRef(ref).value in bundles
      ensures batches == if reply == Ok then old(batches)[b := ref] else old(batches)
    {
      if b in batches {
        return Conflict(1);
      }
      var key := ParseRef(ref);
      if key.None? || key.value !in bundles {
        return Unprocessable;
      }
      var missing := set n | n in bundles[key.value].shared && n !in sharedRows;
      NoneMissing(bundles, sharedRows, key.value);
      if missing != {} {
        return Unprocessable;
      }
      batches := batches[b := ref];
      return Ok;
    }

    method RemoveBatch(b: BatchId)
      requires Valid()
      modifies this`batches
      ensures Valid() && batches == old(batches) - {b}
    {
      batches := batches - {b};
    }

    /** PUT /shared/{name}: the file is replaced before its row. */
    method PutShared(name: FileName, sha: Digest, size: nat) returns (reply: Reply)
      requires Valid()
      modifies this`sharedRows, this`sharedFiles
      ensures Valid()
      ensures reply == if size == 0 then BadRequest else Ok
      ensures sharedRows == if size == 0 then old(sharedRows) else old(sharedRows)[name := sha]
    {
      if size == 0 {
        return BadRequest;
      }
      sharedFiles := sharedFiles[name := sha];
      sharedRows := sharedRows[name := sha];
      return Ok;
    }

    method Referrers(name: FileName) returns (referrers: set<BundleKey>)
      ensures referrers == NeededBy(bundles, name)
    {
      referrers := {};
      var todo := bundles.Keys;
      while todo != {}
        invariant todo <= bundles.Keys && referrers == NeededBy(bundles, name) - todo
        decreases |todo|
      {
        var k :| k in todo;
        if name in bundles[k].shared {
          referrers := referrers + {k};
        }
        todo := todo - {k};
      }
    }

    /** DELETE /shared/{name}: refused while a registered bundle needs it. */
    method DeleteShared(name: FileName) returns (reply: Reply)
      requires Valid()
      modifies this`sharedRows, this`sharedFiles
      ensures Valid()
      ensures reply == NotFound <==> name !in old(sharedRows)
      ensures reply.Conflict? <==> name in old(sharedRows) && exists k :: k in bundles && name in bundles[k].shared
      ensures reply == Ok || reply == NotFound || reply == Conflict(|set k | k in bundles && name in bundles[k].shared|)
      ensures sharedRows == if reply == Ok then old(sharedRows) - {name} else old(sharedRows)
    {
      if name !in sharedRows {
        return NotFound;
      }
      var referrers := Referrers(name);
      assert referrers == set k | k in bundles && name in bundles[k].shared;
      if referrers != {} {
        var k :| k in referrers;
        return Conflict(|referrers|);
      }
      forall k | k in bundles ensures name !in bundles[k].shared {
        assert k !in NeededBy(bundles, name);
      }
      sharedRows := sharedRows - {name};
      sharedFiles := sharedFiles - {name};
      return Ok;
    }
  }

  lemma ShasWith(bundles: map<BundleKey, Bundle>, k: BundleKey, b: Bundle)
    requires k !in bundles
    ensures Shas(bundles[k := b]) == Shas(bundles) + {b.sha}
  {
    var more := bundles[k := b];
    forall sha | sha in Shas(bundles) ensures sha in Shas(more) {
      var j :| j in bundles && bundles[j].sha == sha;
      assert j in more && more[j].sha == sha;
    }
    assert k in more && more[k].sha == b.sha;
  }

  lemma ShasWithout(bundles: map<BundleKey, Bundle>, k: BundleKey)
    requires k in bundles
    ensures var rest, sha := bundles - {k}, bundles[k].sha;
      Shas(rest) == if Used(rest, sha) then Shas(bundles) else Shas(bundles) - {sha}
  {
    var rest, sha := bundles - {k}, bundles[k].sha;
    forall s | s in Shas(bundles) && s != sha ensures s in Shas(rest) {
      var j :| j in bundles && bundles[j].sha == s;
      assert j in rest && rest[j].sha == s;
    }
  }

  lemma CollectedShas(bundles: map<BundleKey, Bundle>, gone: set<BundleKey>)
    requires gone <= bundles.Keys
    ensures Orphans(bundles, gone) <= Shas(bundles) && Shas(bundles - gone) == Shas(bundles) - Orphans(bundles, gone)
  {
    var rest := bundles - gone;
    forall s ensures s in Shas(rest) <==> s in Shas(bundles) && s !in Orphans(bundles, gone) {
      if s in Shas(rest) {
        var j :| j in rest && rest[j].sha == s;
        assert j in bundles && bundles[j].sha == s && Used(rest, s);
      }
      if s in Shas(bundles) && s !in Orphans(bundles, gone) {
        var j :| j in bundles && bundles[j].sha == s;
        if j in gone {
          assert Used(rest, bundles[j].sha);
        } else {
          assert j in rest && rest[j].sha == s;
        }
      }
    }
  }

  /** A row no batch's reference formats to is no batch's bundle: the reference is unique to the bundle. */
  lemma DeletionSpares(batches: map<BatchId, string>, bundles: map<BundleKey, Bundle>, gone: set<BundleKey>)
    requires forall b | b in batches :: ParseRef(batches[b]).Some? && ParseRef(batches[b]).value in bundles
    requires forall k | k in gone :: Referring(batches, FormatRef(k)) == {}
    ensures forall b | b in batches :: ParseRef(batches[b]).value in bundles - gone
  {
    forall b | b in batches ensures ParseRef(batches[b]).value !in gone {
      FormatUndoesParse(batches[b]);
      var k := ParseRef(batches[b]).value;
      assert b in Referring(batches, FormatRef(k));
    }
  }

  /** What creating a batch re-checks can fail only if the registry had already lost a shared file. */
  lemma NoneMissing(bundles: map<BundleKey, Bundle>, sharedRows: map<FileName, Digest>, k: BundleKey)
    requires k in bundles && forall j, name | j in bundles && name in bundles[j].shared :: name in sharedRows
    ensures (set n | n in bundles[k].shared && n !in sharedRows) == {}
  {
  }

  /** Everything a worker will fetch for a batch is there: the bundle's row, its blob and its shared files. */
  lemma BatchIsServable(r: Registry, b: BatchId)
    requires r.Valid() && b in r.batches
    ensures ParseRef(r.batches[b]).Some?
    ensures var k := ParseRef(r.batches[b]).value;
      && k in r.bundles && r.bundles[k].sha in r.blobs && FormatRef(k) == r.batches[b]
      && forall n | n in r.bundles[k].shared :: n in r.sharedFiles && r.sharedFiles[n] == r.sharedRows[n]
  {
  }
}
