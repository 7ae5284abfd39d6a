/** `private_install_transport` as the code runs it, one command from start to end: the
    methods change the files in place, and every step they take is recorded as a step of the
    protocol in `Installer`, so what holds of every run there holds of them. */
module InstallerHost {
  import opened Basics
  import opened Installer

  /** Every chunk of the upload is there. */
  predicate Sent(files: map<Path, Bytes>, bundle: nat, archive: nat, count: nat) {
    forall i :: 0 <= i < count ==> Chunk(bundle, archive, i) in files
  }

  function Chunks(files: map<Path, Bytes>, bundle: nat, archive: nat, count: nat): (r: seq<Bytes>)
    requires Sent(files, bundle, archive, count)
    ensures |r| == count && forall i :: 0 <= i < count ==> r[i] == files[Chunk(bundle, archive, i)]
  {
    if count == 0 then [] else Chunks(files, bundle, archive, count - 1) + [files[Chunk(bundle, archive, count - 1)]]
  }

  /** File `i` can be installed: its body is good, and it is absent or already right. */
  ghost predicate Fits(lib: Library, files: map<Path, Bytes>, bundle: nat, raw: Bytes, i: nat)
    requires PackageOf(lib, bundle, raw) && i < |Entries(lib, bundle, raw)|
  {
    var item := Entries(lib, bundle, raw)[i];
    item.body.Some? && (Installed(bundle, item.name) in files ==> files[Installed(bundle, item.name)] == item.body.value)
  }

  ghost predicate AllFit(lib: Library, files: map<Path, Bytes>, bundle: nat, raw: Bytes)
    requires PackageOf(lib, bundle, raw)
  {
    forall i :: 0 <= i < |Entries(lib, bundle, raw)| ==> Fits(lib, files, bundle, raw, i)
  }

  /** The package recorded for the bundle, if its directory exists, is this one. */
  predicate Recorded(files: map<Path, Bytes>, directories: set<nat>, bundle: nat, raw: Bytes) {
    if bundle in directories then Manifest(bundle) in files && files[Manifest(bundle)] == raw else Manifest(bundle) !in files
  }

  /** The package `raw` was uploaded under its digests: the chunks join to an archive of the
      given digest, which expands to bytes of the bundle's digest that list each expected
      file once. */
  ghost predicate Uploaded(lib: Library, files: map<Path, Bytes>, bundle: nat, archive: nat, count: nat, raw: Bytes) {
    && Sent(files, bundle, archive, count)
    && exists compressed :: lib.assemble(Chunks(files, bundle, archive, count)) == Some(compressed)
         && lib.sha(compressed) == archive && lib.expand(compressed) == Some(raw) && Listed(lib, bundle, raw)
  }

  ghost predicate Listed(lib: Library, bundle: nat, raw: Bytes) {
    && lib.sha(raw) == bundle && lib.entries(raw).Some?
    && var items := lib.entries(raw).value;
       && (forall n :: n in lib.inventory <==> exists i :: 0 <= i < |items| && items[i].name == n)
       && forall i, j :: 0 <= i < |items| && 0 <= j < |items| && items[i].name == items[j].name ==> i == j
  }

  /** Every file of the package is good, and absent or already the same. */
  ghost predicate Installable(lib: Library, files: map<Path, Bytes>, bundle: nat, raw: Bytes) {
    && lib.entries(raw).Some?
    && forall item :: item in lib.entries(raw).value ==>
         item.body.Some? && (Installed(bundle, item.name) in files ==> files[Installed(bundle, item.name)] == item.body.value)
  }

  /** From what is on disk before the call: will the installer be launched? */
  ghost predicate Launches(lib: Library, files: map<Path, Bytes>, directories: set<nat>,
                           bundle: nat, archive: nat, count: nat, installed: bool, free: bool) {
    && Active !in files && !installed && 1 <= count <= 64 && free && ContextFile(bundle) !in files
    && exists raw :: Uploaded(lib, files, bundle, archive, count, raw)
         && Recorded(files, directories, bundle, raw) && Installable(lib, files, bundle, raw)
  }

  lemma ListedIsPackage(lib: Library, bundle: nat, raw: Bytes)
    ensures Listed(lib, bundle, raw) <==> PackageOf(lib, bundle, raw)
  {
    if lib.entries(raw).Some? {
      var items := lib.entries(raw).value;
      var names := set e | e in items :: e.name;
      forall n ensures n in names <==> exists i :: 0 <= i < |items| && items[i].name == n {
        if n in names {
          var e :| e in items && e.name == n;
          var i :| 0 <= i < |items| && items[i] == e;
        }
      }
    }
  }

  lemma InstallableIsAllFit(lib: Library, files: map<Path, Bytes>, bundle: nat, raw: Bytes)
    requires PackageOf(lib, bundle, raw)
    ensures Installable(lib, files, bundle, raw) <==> AllFit(lib, files, bundle, raw)
  {
    var items := Entries(lib, bundle, raw);
    if AllFit(lib, files, bundle, raw) {
      forall item | item in items
        ensures item.body.Some? && (Installed(bundle, item.name) in files ==> files[Installed(bundle, item.name)] == item.body.value)
      {
        var i :| 0 <= i < |items| && items[i] == item;
        assert Fits(lib, files, bundle, raw, i);
      }
    }
  }

  /** The checks on the uploaded archive pass exactly for an uploaded package. */
  lemma VerifiedIsUploaded(lib: Library, files: map<Path, Bytes>, bundle: nat, archive: nat, count: nat, raw: Bytes)
    requires Sent(files, bundle, archive, count)
    ensures Verified(lib, bundle, archive, Chunks(files, bundle, archive, count)) == Some(raw) <==> Uploaded(lib, files, bundle, archive, count, raw)
  {
    ListedIsPackage(lib, bundle, raw);
  }

  lemma NoneUploaded(lib: Library, files: map<Path, Bytes>, bundle: nat, archive: nat, count: nat)
    requires Sent(files, bundle, archive, count) && Verified(lib, bundle, archive, Chunks(files, bundle, archive, count)).None?
    ensures forall raw :: !Uploaded(lib, files, bundle, archive, count, raw)
  {
    forall raw ensures !Uploaded(lib, files, bundle, archive, count, raw) {
      VerifiedIsUploaded(lib, files, bundle, archive, count, raw);
    }
  }

  /** The uploaded package is the only one. */
  lemma LaunchesFound(lib: Library, files: map<Path, Bytes>, directories: set<nat>, bundle: nat, archive: nat, count: nat, found: Bytes, free: bool)
    requires Active !in files && 1 <= count <= 64 && Uploaded(lib, files, bundle, archive, count, found)
    ensures PackageOf(lib, bundle, found)
    ensures Launches(lib, files, directories, bundle, archive, count, false, free) <==>
              Recorded(files, directories, bundle, found) && AllFit(lib, files, bundle, found) && free && ContextFile(bundle) !in files
  {
    ListedIsPackage(lib, bundle, found);
    InstallableIsAllFit(lib, files, bundle, found);
  }

  /** On a host with no trace of the bundle but its chunks, and nothing reserved, a good
      package uploaded under its true digests is launched. */
  lemma FreshHostLaunches(lib: Library, files: map<Path, Bytes>, directories: set<nat>, chunks: seq<Bytes>, compressed: Bytes, raw: Bytes)
    requires 1 <= |chunks| <= 64 && lib.assemble(chunks) == Some(compressed) && lib.expand(compressed) == Some(raw)
    requires forall i :: 0 <= i < |chunks| ==>
               Chunk(lib.sha(raw), lib.sha(compressed), i) in files && files[Chunk(lib.sha(raw), lib.sha(compressed), i)] == chunks[i]
    requires lib.entries(raw).Some? && forall item :: item in lib.entries(raw).value ==> item.body.Some?
    requires forall n :: n in lib.inventory <==> exists i :: 0 <= i < |lib.entries(raw).value| && lib.entries(raw).value[i].name == n
    requires forall i, j :: 0 <= i < j < |lib.entries(raw).value| ==> lib.entries(raw).value[i].name != lib.entries(raw).value[j].name
    requires Active !in files && lib.sha(raw) !in directories
    requires forall p :: p in files ==> p.Chunk? || p == Active || p.bundle != lib.sha(raw)
    ensures Launches(lib, files, directories, lib.sha(raw), lib.sha(compressed), |chunks|, false, true)
  {
    var bundle, archive := lib.sha(raw), lib.sha(compressed);
    assert Chunks(files, bundle, archive, |chunks|) == chunks;
    assert Listed(lib, bundle, raw);
    assert Uploaded(lib, files, bundle, archive, |chunks|, raw);
    assert Installable(lib, files, bundle, raw);
  }

  /** Under any other archive digest, whatever else holds, it is not. */
  lemma FalseArchive(lib: Library, files: map<Path, Bytes>, directories: set<nat>, bundle: nat, archive: nat, count: nat,
                     compressed: Bytes, installed: bool, free: bool)
    requires Sent(files, bundle, archive, count) && lib.assemble(Chunks(files, bundle, archive, count)) == Some(compressed)
    requires lib.sha(compressed) != archive
    ensures forall raw :: !Uploaded(lib, files, bundle, archive, count, raw)
    ensures !Launches(lib, files, directories, bundle, archive, count, installed, free)
  {
  }

  /** Files are created and never changed or removed. */
  ghost predicate Grown(a: map<Path, Bytes>, b: map<Path, Bytes>) {
    forall p :: p in a ==> p in b && b[p] == a[p]
  }

  /** Neither created nor changed. */
  ghost predicate Untouched(a: map<Path, Bytes>, b: map<Path, Bytes>, p: Path) {
    (p in a <==> p in b) && (p in a ==> a[p] == b[p])
  }

  /** What a launch finds: the whole package on disk, and the reservation made for it. */
  ghost predicate Ready(lib: Library, files: map<Path, Bytes>, bundle: nat, raw: Bytes, target: Bytes) {
    && PackageOf(lib, bundle, raw) && OnDisk(lib, files, bundle, raw, |Entries(lib, bundle, raw)|)
    && Active in files && files[Active] == lib.context(bundle, target)
    && ContextFile(bundle) in files && files[ContextFile(bundle)] == files[Active]
  }

  lemma SameFits(lib: Library, a: map<Path, Bytes>, b: map<Path, Bytes>, bundle: nat, raw: Bytes)
    requires PackageOf(lib, bundle, raw) && Grown(a, b) && forall p :: p in b && p != Manifest(bundle) ==> p in a
    ensures AllFit(lib, a, bundle, raw) <==> AllFit(lib, b, bundle, raw)
  {
    forall i | 0 <= i < |Entries(lib, bundle, raw)|
      ensures Fits(lib, a, bundle, raw, i) <==> Fits(lib, b, bundle, raw, i)
    {
      assert Untouched(a, b, Installed(bundle, Entries(lib, bundle, raw)[i].name));
    }
  }

  lemma DiskGrown(lib: Library, a: map<Path, Bytes>, b: map<Path, Bytes>, bundle: nat, raw: Bytes, k: nat)
    requires OnDisk(lib, a, bundle, raw, k) && Grown(a, b)
    ensures OnDisk(lib, b, bundle, raw, k)
  {
    forall i | 0 <= i < k ensures FileThere(lib, b, bundle, raw, i) {
      assert FileThere(lib, a, bundle, raw, i);
    }
  }

  /** The host after the two steps of an exclusive creation: the file exists; it is complete. */
  ghost function Half(lib: Library, h: Host, id: nat, c: Command): Host
    requires Creates(c) && Sane(lib, c)
  {
    h.(commands := h.commands[id := c.(writing := true)],
       files := h.files[Target(lib, c) := []], creators := h.creators[Target(lib, c) := id])
  }

  ghost function Whole(lib: Library, h: Host, id: nat, c: Command): Host
    requires Creates(c) && Sane(lib, c)
  {
    h.(commands := h.commands[id := c.(stage := Next(c))], files := h.files[Target(lib, c) := Content(lib, c)])
  }

  lemma CreatedRun(lib: Library, trace: seq<Action>, h: Host, id: nat, c: Command)
    requires Reaches(lib, Empty(), trace, h)
    requires id in h.commands && h.commands[id] == c && !c.writing && Creates(c) && Sane(lib, c) && Target(lib, c) !in h.files
    ensures Reaches(lib, Empty(), trace + [Create(id)], Half(lib, h, id, c))
  {
    assert Do(lib, h, Create(id)) == Half(lib, h, id, c);
    Extended(lib, Empty(), trace, h, Create(id));
  }

  lemma CompletedRun(lib: Library, trace: seq<Action>, h: Host, id: nat, c: Command)
    requires Reaches(lib, Empty(), trace, h)
    requires Creates(c) && Sane(lib, c) && !c.writing && id in h.commands && h.commands[id] == c.(writing := true)
    ensures Reaches(lib, Empty(), trace + [Complete(id)], Whole(lib, h, id, c))
  {
    assert Sane(lib, c.(writing := true));
    assert Do(lib, h, Complete(id)) == Whole(lib, h, id, c);
    Extended(lib, Empty(), trace, h, Complete(id));
  }

  class Machine {
    const lib: Library
    var files: map<Path, Bytes>
    var directories: set<nat>
    var launched: nat
    ghost var host: Host
    ghost var trace: seq<Action>

    ghost predicate Valid()
      reads this
    {
      && Ideal(lib) && Reaches(lib, Empty(), trace, host)
      && host.files == files && host.directories == directories && |host.launches| == launched
    }

    constructor (lib: Library)
      requires Ideal(lib)
      ensures Valid() && this.lib == lib && files == map[] && directories == {} && launched == 0
    {
      this.lib := lib;
      files, directories, launched, host, trace := map[], {}, 0, Empty(), [];
    }

    /** The protocol takes one step. */
    ghost method Record(a: Action)
      requires Reaches(lib, Empty(), trace, host) && Enabled(lib, host, a)
      modifies this`host, this`trace
      ensures host == Do(lib, old(host), a) && Reaches(lib, Empty(), trace, host)
    {
      Extended(lib, Empty(), trace, host, a);
      host, trace := Do(lib, host, a), trace + [a];
    }

    /** `exclusive`: create, or fail because it exists. */
    method Exclusive(path: Path, raw: Bytes) returns (created: bool)
      modifies this`files
      ensures created <==> path !in old(files)
      ensures files == if created then old(files)[path := raw] else old(files)
    {
      created := path !in files;
      if created { files := files[path := raw]; }
    }

    /** The chunk command; `legal` says the data is in the allowed alphabet and length. A
        chunk is written once; sending it again succeeds only with the same data. */
    method PutChunk(bundle: nat, archive: nat, index: nat, count: nat, data: Bytes, legal: bool, admitted: bool) returns (ok: bool)
      requires Valid()
      modifies this`files, this`host, this`trace
      ensures Valid() && Grown(old(files), files)
      ensures ok <==> admitted && index < count <= 64 && legal && (Chunk(bundle, archive, index) in old(files) ==> old(files)[Chunk(bundle, archive, index)] == data)
      ensures files == if ok then old(files)[Chunk(bundle, archive, index) := data] else old(files)
    {
      ok := admitted && index < count && count <= 64 && legal;
      if ok {
        var path := Chunk(bundle, archive, index);
        if path in files {
          ok := files[path] == data;
          if ok { assert files[path := data] == files; }
        } else {
          var _ := Exclusive(path, data);
          Record(Upload(path, data));
        }
      }
    }

    /** Command `id` of the protocol is `c`, between two steps. */
    ghost predicate At(id: nat, c: Command)
      reads this
    {
      id in host.commands && host.commands[id] == c && !c.writing && Sane(lib, c)
    }

    /** A step that only moves the command to its next stage. */
    ghost method Goto(id: nat, c: Command, a: Action, stage: Stage)
      requires Valid() && At(id, c) && Enabled(lib, host, a) && Do(lib, host, a) == To(host, id, stage)
      requires Sane(lib, c.(stage := stage))
      modifies this`host, this`trace
      ensures Valid() && At(id, c.(stage := stage)) && host.launches == old(host.launches)
    {
      Record(a);
    }

    /** The protocol's side of one exclusive creation, after the file was created: created,
        then complete. */
    ghost method Filed(id: nat, c: Command)
      requires Ideal(lib) && Reaches(lib, Empty(), trace, host) && At(id, c) && Creates(c)
      requires host.directories == directories && |host.launches| == launched && Sane(lib, c.(stage := Next(c)))
      requires Target(lib, c) !in host.files && files == host.files[Target(lib, c) := Content(lib, c)]
      modifies this`host, this`trace
      ensures Valid() && At(id, c.(stage := Next(c))) && host.launches == old(host.launches)
    {
      ghost var half := Half(lib, host, id, c);
      CreatedRun(lib, trace, host, id, c);
      CompletedRun(lib, trace + [Create(id)], half, id, c);
      host, trace := Whole(lib, half, id, c), trace + [Create(id)] + [Complete(id)];
    }

    /** And when the creation failed. */
    ghost method Refused(id: nat, c: Command)
      requires Valid() && At(id, c) && Creates(c) && Target(lib, c) in files
      modifies this`host, this`trace
      ensures Valid() && host.launches == old(host.launches)
    {
      Record(Create(id));
    }

    /** `exclusive` as a step of command `id`. */
    method Make(ghost id: nat, ghost c: Command, path: Path, raw: Bytes) returns (created: bool)
      requires Valid() && At(id, c) && Creates(c) && path == Target(lib, c) && raw == Content(lib, c) && Sane(lib, c.(stage := Next(c)))
      modifies this`files, this`host, this`trace
      ensures Valid() && host.launches == old(host.launches)
      ensures created <==> path !in old(files)
      ensures files == if created then old(files)[path := raw] else old(files)
      ensures created ==> At(id, c.(stage := Next(c)))
    {
      created := Exclusive(path, raw);
      if created { Filed(id, c); } else { Refused(id, c); }
    }

    method ReadChunks(ghost id: nat, ghost c: Command, bundle: nat, archive: nat, count: nat) returns (got: Option<seq<Bytes>>)
      requires Valid() && At(id, c) && c.bundle == bundle && c.archive == archive && c.count == count && c.stage == Reading([])
      modifies this`host, this`trace
      ensures Valid() && host.launches == old(host.launches)
      ensures got.Some? <==> Sent(files, bundle, archive, count)
      ensures got.Some? ==> At(id, c.(stage := Reading(got.value))) && got.value == Chunks(files, bundle, archive, count)
    {
      var texts: seq<Bytes> := [];
      while |texts| < count
        invariant Valid() && |texts| <= count && At(id, c.(stage := Reading(texts))) && host.launches == old(host.launches)
        invariant Sent(files, bundle, archive, |texts|) && texts == Chunks(files, bundle, archive, |texts|)
      {
        var path := Chunk(bundle, archive, |texts|);
        if path !in files {
          Goto(id, c.(stage := Reading(texts)), ReadChunk(id), Ended);
          return None;
        }
        Goto(id, c.(stage := Reading(texts)), ReadChunk(id), Reading(texts + [files[path]]));
        texts := texts + [files[path]];
      }
      return Some(texts);
    }

    /** A new directory for the bundle. */
    method MakeBundleDirectory(ghost id: nat, ghost c: Command, bundle: nat, raw: Bytes)
      requires Valid() && At(id, c) && c.bundle == bundle && c.stage == Making(raw) && bundle !in directories
      modifies this`directories, this`host, this`trace
      ensures Valid() && host.launches == old(host.launches) && At(id, c.(stage := Bundling(raw)))
    {
      directories := directories + {bundle};
      Record(MakeDirectory(id));
    }

    /** bundle.json must be the package. */
    method CompareBundle(ghost id: nat, ghost c: Command, bundle: nat, raw: Bytes) returns (ok: bool)
      requires Valid() && At(id, c) && c.bundle == bundle && c.stage == Comparing(raw)
      modifies this`host, this`trace
      ensures Valid() && host.launches == old(host.launches)
      ensures ok <==> Manifest(bundle) in files && files[Manifest(bundle)] == raw
      ensures ok ==> At(id, c.(stage := Looking(raw, 0)))
    {
      ok := Manifest(bundle) in files && files[Manifest(bundle)] == raw;
      Goto(id, c, Compare(id), if ok then Looking(raw, 0) else Ended);
    }

    /** The bundle's directory and bundle.json: made now, or made before and the same. */
    method SelectDirectory(ghost id: nat, ghost c: Command, bundle: nat, raw: Bytes) returns (ok: bool)
      requires Valid() && At(id, c) && c.bundle == bundle && c.stage == Seeing(raw)
      modifies this`files, this`directories, this`host, this`trace
      ensures Valid() && Grown(old(files), files) && host.launches == old(host.launches)
      ensures ok <==> Recorded(old(files), old(directories), bundle, raw)
      ensures ok ==> At(id, c.(stage := Looking(raw, 0)))
      ensures forall p :: p in files && p != Manifest(bundle) ==> p in old(files)
    {
      ok := bundle in directories;
      Goto(id, c, SeeDirectory(id), if ok then Comparing(raw) else Making(raw));
      if !ok {
        MakeBundleDirectory(id, c.(stage := Making(raw)), bundle, raw);
        ok := Make(id, c.(stage := Bundling(raw)), Manifest(bundle), raw);
      }
      if ok { ok := CompareBundle(id, c.(stage := Comparing(raw)), bundle, raw); }
    }

    /** One file of the package: already there and the same, or written now. */
    method InstallFile(ghost id: nat, ghost c: Command, bundle: nat, raw: Bytes, k: nat) returns (ok: bool)
      requires Valid() && At(id, c) && c.bundle == bundle && c.stage == Looking(raw, k) && k < |Entries(lib, bundle, raw)|
      modifies this`files, this`host, this`trace
      ensures Valid() && host.launches == old(host.launches)
      ensures ok <==> Fits(lib, old(files), bundle, raw, k)
      ensures ok ==> At(id, c.(stage := Looking(raw, k + 1))) && Entries(lib, bundle, raw)[k].body.Some?
      ensures files == if ok then old(files)[Installed(bundle, Entries(lib, bundle, raw)[k].name) := Entries(lib, bundle, raw)[k].body.value] else old(files)
    {
      var item := Entries(lib, bundle, raw)[k];
      var path := Installed(bundle, item.name);
      ok := item.body.Some? && (path in files ==> files[path] == item.body.value);
      if ok && path !in files {
        Goto(id, c, Look(id), Installing(raw, k));
        ok := Make(id, c.(stage := Installing(raw, k)), path, item.body.value);
      } else {
        Goto(id, c, Look(id), if ok then Looking(raw, k + 1) else Ended);
        assert ok ==> files[path := item.body.value] == files;
      }
    }

    /** Each file of the package in turn. */
    method InstallFiles(ghost id: nat, ghost c: Command, bundle: nat, raw: Bytes) returns (ok: bool)
      requires Valid() && At(id, c) && c.bundle == bundle && c.stage == Looking(raw, 0)
      modifies this`files, this`host, this`trace
      ensures Valid() && Grown(old(files), files) && host.launches == old(host.launches)
      ensures ok <==> AllFit(lib, old(files), bundle, raw)
      ensures ok ==> At(id, c.(stage := Admitting(raw)))
      ensures forall p :: p in files && !p.Installed? ==> p in old(files)
    {
      var items := Entries(lib, bundle, raw);
      var k := 0;
      while k < |items|
        invariant Valid() && k <= |items| && Grown(old(files), files) && host.launches == old(host.launches)
        invariant At(id, c.(stage := Looking(raw, k)))
        invariant forall i :: 0 <= i < k ==> Fits(lib, old(files), bundle, raw, i)
        invariant forall p :: p in files && !p.Installed? ==> p in old(files)
        invariant forall i :: k <= i < |items| ==> Untouched(old(files), files, Installed(bundle, items[i].name))
      {
        assert Untouched(old(files), files, Installed(bundle, items[k].name));
        assert Fits(lib, files, bundle, raw, k) <==> Fits(lib, old(files), bundle, raw, k);
        ok := InstallFile(id, c.(stage := Looking(raw, k)), bundle, raw, k);
        if !ok { return; }
        k := k + 1;
      }
      Goto(id, c.(stage := Looking(raw, k)), Look(id), Admitting(raw));
      return true;
    }

    /** systemd is asked to run the installer. */
    method Run(ghost id: nat, ghost c: Command, started: bool)
      requires Valid() && At(id, c) && c.stage.Launching?
      modifies this`launched, this`host, this`trace
      ensures Valid() && launched == old(launched) + (if started then 1 else 0)
    {
      if started { launched := launched + 1; }
      Record(Launch(id, started));
    }

    /** The context, then the reservation that at most one command ever makes, then the launch. */
    method Reserve(ghost id: nat, ghost c: Command, bundle: nat, target: Bytes, free: bool, started: bool) returns (ok: bool)
      requires Valid() && At(id, c) && c.bundle == bundle && c.target == target && c.stage.Admitting? && Active !in files
      modifies this`files, this`launched, this`host, this`trace
      ensures Valid()
      ensures ok <==> free && ContextFile(bundle) !in old(files)
      ensures files == if ok then old(files)[ContextFile(bundle) := lib.context(bundle, target)][Active := lib.context(bundle, target)] else old(files)
      ensures launched == old(launched) + (if ok && started then 1 else 0)
    {
      ghost var raw := c.stage.raw;
      ok := free;
      Goto(id, c, Admit(id, free), if ok then Contexting(raw) else Ended);
      if ok { ok := Make(id, c.(stage := Contexting(raw)), ContextFile(bundle), lib.context(bundle, target)); }
      if ok {
        ok := Make(id, c.(stage := Reserving(raw)), Active, lib.context(bundle, target));
        Run(id, c.(stage := Launching(raw)), started);
      }
    }

    method Install(ghost id: nat, ghost c: Command, bundle: nat, raw: Bytes, target: Bytes, free: bool, started: bool) returns (ok: bool)
      requires Valid() && At(id, c) && c.bundle == bundle && c.stage == Seeing(raw) && c.target == target && Active !in files
      modifies this`files, this`directories, this`launched, this`host, this`trace
      ensures Valid() && Grown(old(files), files)
      ensures ok <==> Recorded(old(files), old(directories), bundle, raw) && AllFit(lib, old(files), bundle, raw) && free && ContextFile(bundle) !in old(files)
      ensures if ok then Ready(lib, files, bundle, raw, target) else Active !in files
      ensures launched == old(launched) + (if ok && started then 1 else 0)
    {
      ok := SelectDirectory(id, c, bundle, raw);
      assert AllFit(lib, files, bundle, raw) <==> AllFit(lib, old(files), bundle, raw) by {
        SameFits(lib, old(files), files, bundle, raw);
      }
      if ok { ok := InstallFiles(id, c.(stage := Looking(raw, 0)), bundle, raw); }
      if ok {
        Settle(id, c.(stage := Admitting(raw)));
        ghost var before := files;
        ok := Reserve(id, c.(stage := Admitting(raw)), bundle, target, free, started);
        DiskGrown(lib, before, files, bundle, raw, |Entries(lib, bundle, raw)|);
      }
    }

    /** What the protocol has proved of a command past its checks. */
    lemma Settle(id: nat, c: Command)
      requires Valid() && At(id, c) && c.stage.Admitting?
      ensures OnDisk(lib, files, c.bundle, c.stage.raw, |Entries(lib, c.bundle, c.stage.raw)|)
    {
      RunOk(lib, Empty(), trace, host);
      assert DiskOk(lib, host, c);
    }

    /** The submit command, uninterrupted. `installed`: the runtime's unit exists; `free`: no
        container or volume on the host; `started`: systemd accepted the unit. */
    method Submit(ghost id: nat, bundle: nat, archive: nat, count: nat, target: Bytes, installed: bool, free: bool, started: bool)
      returns (ok: bool)
      requires Valid() && id !in host.commands
      modifies this`files, this`directories, this`launched, this`host, this`trace
      ensures Valid() && Grown(old(files), files)
      ensures ok <==> Launches(lib, old(files), old(directories), bundle, archive, count, installed, free)
      ensures ok ==> exists raw :: Uploaded(lib, old(files), bundle, archive, count, raw) && Ready(lib, files, bundle, raw, target)
      ensures !ok ==> (Active in files <==> Active in old(files))
      ensures (forall raw :: !Uploaded(lib, old(files), bundle, archive, count, raw)) ==>
                !ok && files == old(files) && directories == old(directories)
      ensures launched == old(launched) + (if ok && started then 1 else 0) && launched <= 1
    {
      ok := Active !in files && !installed && 1 <= count <= 64;
      if ok { ok := Unpack(id, bundle, archive, count, target, free, started); }
      AtMostOneLaunch(lib, trace, host);
    }

    /** Join and check the chunks, then install. */
    method Unpack(ghost id: nat, bundle: nat, archive: nat, count: nat, target: Bytes, free: bool, started: bool) returns (ok: bool)
      requires Valid() && id !in host.commands && Active !in files && 1 <= count <= 64
      modifies this`files, this`directories, this`launched, this`host, this`trace
      ensures Valid() && Grown(old(files), files)
      ensures ok <==> Launches(lib, old(files), old(directories), bundle, archive, count, false, free)
      ensures if ok then exists raw :: Uploaded(lib, old(files), bundle, archive, count, raw) && Ready(lib, files, bundle, raw, target)
              else Active !in files
      ensures (forall raw :: !Uploaded(lib, old(files), bundle, archive, count, raw)) ==> files == old(files) && directories == old(directories)
      ensures launched == old(launched) + (if ok && started then 1 else 0)
    {
      ghost var c := Command(bundle, archive, count, target, Reading([]), false);
      Record(Action.Submit(id, bundle, archive, count, target));
      var got := ReadChunks(id, c, bundle, archive, count);
      if got.None? { return false; }
      var found := Verified(lib, bundle, archive, got.value);
      Goto(id, c.(stage := Reading(got.value)), Decode(id), if found.Some? then Seeing(found.value) else Ended);
      if found.None? {
        NoneUploaded(lib, files, bundle, archive, count);
        return false;
      }
      VerifiedIsUploaded(lib, files, bundle, archive, count, found.value);
      LaunchesFound(lib, files, directories, bundle, archive, count, found.value, free);
      ok := Install(id, c.(stage := Seeing(found.value)), bundle, found.value, target, free, started);
    }
  }
}
