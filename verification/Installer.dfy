/** `private_install_transport.run` on one host, as any number of concurrent commands run
    it: files are created exclusively, then written, then complete; a command may die
    between any two steps and leave a file half written. SHA-256 is ideal (injective);
    base64, gzip and JSON decoding are parameters. */
module Installer {
  import opened Basics

  type Bytes = seq<bv8>

  /** One file of a package; no body when its metadata, size or digest is wrong. */
  datatype Item = Item(name: string, body: Option<Bytes>)

  datatype Library = Library(
    sha: Bytes -> nat,
    assemble: seq<Bytes> -> Option<Bytes>,         // join the chunks and decode base64, within its limit
    expand: Bytes -> Option<Bytes>,                // gunzip, within its limit
    entries: Bytes -> Option<seq<Item>>,          // the package's files, in its own order
    context: (nat, Bytes) -> Bytes,                // the context written for a bundle and target
    inventory: set<string>)                        // the expected file names

  ghost predicate Ideal(lib: Library) { forall a, b :: lib.sha(a) == lib.sha(b) ==> a == b }

  /** `raw` is a package whose digest is the bundle id, naming each expected file once. */
  predicate PackageOf(lib: Library, bundle: nat, raw: Bytes) {
    && lib.sha(raw) == bundle && lib.entries(raw).Some?
    && (set e | e in lib.entries(raw).value :: e.name) == lib.inventory
    && forall i, j :: 0 <= i < j < |lib.entries(raw).value| ==> lib.entries(raw).value[i].name != lib.entries(raw).value[j].name
  }

  function Entries(lib: Library, bundle: nat, raw: Bytes): seq<Item>
    requires PackageOf(lib, bundle, raw)
  {
    lib.entries(raw).value
  }

  datatype Path =
    | Chunk(bundle: nat, archive: nat, index: nat)
    | Manifest(bundle: nat)
    | Installed(bundle: nat, name: string)
    | ContextFile(bundle: nat)
    | Active

  datatype Stage =
    | Reading(got: seq<Bytes>)
    | Seeing(raw: Bytes)                   // does the bundle's directory exist?
    | Making(raw: Bytes)                   // it did not; create it
    | Bundling(raw: Bytes)                 // create bundle.json
    | Comparing(raw: Bytes)                // bundle.json must equal the package
    | Looking(raw: Bytes, k: nat)          // does file k exist?
    | Installing(raw: Bytes, k: nat)       // it did not; create it
    | Admitting(raw: Bytes)                // no containers or volumes on the host
    | Contexting(raw: Bytes)               // create context.json
    | Reserving(raw: Bytes)                // create the reservation
    | Launching(raw: Bytes)
    | Ended

  /** One submit command; `writing` while the file of its stage is created but not complete. */
  datatype Command = Command(bundle: nat, archive: nat, count: nat, target: Bytes, stage: Stage, writing: bool)

  datatype Host = Host(
    files: map<Path, Bytes>,
    directories: set<nat>,
    commands: map<nat, Command>,
    creators: map<Path, nat>,      // history: the command that created a file
    launches: seq<nat>)            // history: the commands that launched the installer

  datatype Action =
    | Upload(path: Path, data: Bytes)                       // a chunk command, complete or cut short
    | Submit(id: nat, bundle: nat, archive: nat, count: nat, target: Bytes)
    | ReadChunk(id: nat)
    | Decode(id: nat)
    | SeeDirectory(id: nat)
    | MakeDirectory(id: nat)
    | Compare(id: nat)
    | Look(id: nat)
    | Admit(id: nat, free: bool)
    | Create(id: nat)
    | Write(id: nat, length: nat)                           // part of the content reaches the disk
    | Complete(id: nat)                                     // written and synced
    | Launch(id: nat, started: bool)
    | Die(id: nat)

  // ---------------------------------------------------------------------------- steps

  /** The stages that create a file. */
  predicate Creates(c: Command) {
    c.stage.Bundling? || c.stage.Installing? || c.stage.Contexting? || c.stage.Reserving?
  }

  predicate Sane(lib: Library, c: Command) {
    match c.stage
    case Reading(_) => true
    case Ended => true
    case Looking(raw, k) => PackageOf(lib, c.bundle, raw) && k <= |Entries(lib, c.bundle, raw)|
    case Installing(raw, k) =>
      PackageOf(lib, c.bundle, raw) && k < |Entries(lib, c.bundle, raw)| && Entries(lib, c.bundle, raw)[k].body.Some?
    case _ => PackageOf(lib, c.bundle, c.stage.raw)
  }

  function Target(lib: Library, c: Command): Path
    requires Creates(c) && Sane(lib, c)
  {
    match c.stage
    case Bundling(_) => Manifest(c.bundle)
    case Installing(raw, k) => Installed(c.bundle, Entries(lib, c.bundle, raw)[k].name)
    case Contexting(_) => ContextFile(c.bundle)
    case _ => Active
  }

  function Content(lib: Library, c: Command): Bytes
    requires Creates(c) && Sane(lib, c)
  {
    match c.stage
    case Bundling(raw) => raw
    case Installing(raw, k) => Entries(lib, c.bundle, raw)[k].body.value
    case _ => lib.context(c.bundle, c.target)
  }

  /** The stage after the file of this one is complete. */
  function Next(c: Command): Stage
    requires Creates(c)
  {
    match c.stage
    case Bundling(raw) => Comparing(raw)
    case Installing(raw, k) => Looking(raw, k + 1)
    case Contexting(raw) => Reserving(raw)
    case Reserving(raw) => Launching(raw)
  }

  predicate Is(h: Host, id: nat) { id in h.commands && !h.commands[id].writing }

  predicate Enabled(lib: Library, h: Host, a: Action) {
    match a
    case Upload(path, data) => path.Chunk? && (path in h.files ==> h.files[path] <= data)
    case Submit(id, _, _, count, _) => id !in h.commands && 1 <= count <= 64 && Active !in h.files
    case ReadChunk(id) => Is(h, id) && h.commands[id].stage.Reading? && |h.commands[id].stage.got| < h.commands[id].count
    case Decode(id) => Is(h, id) && h.commands[id].stage.Reading? && |h.commands[id].stage.got| == h.commands[id].count
    case SeeDirectory(id) => Is(h, id) && h.commands[id].stage.Seeing?
    case MakeDirectory(id) => Is(h, id) && h.commands[id].stage.Making?
    case Compare(id) => Is(h, id) && h.commands[id].stage.Comparing?
    case Look(id) => Is(h, id) && h.commands[id].stage.Looking? && Sane(lib, h.commands[id])
    case Admit(id, _) => Is(h, id) && h.commands[id].stage.Admitting?
    case Create(id) => Is(h, id) && Creates(h.commands[id]) && Sane(lib, h.commands[id])
    case Write(id, length) =>
      && id in h.commands && h.commands[id].writing && Creates(h.commands[id]) && Sane(lib, h.commands[id])
      && Target(lib, h.commands[id]) in h.files
      && |h.files[Target(lib, h.commands[id])]| <= length <= |Content(lib, h.commands[id])|
    case Complete(id) => id in h.commands && h.commands[id].writing && Creates(h.commands[id]) && Sane(lib, h.commands[id])
    case Launch(id, _) => Is(h, id) && h.commands[id].stage.Launching?
    case Die(id) => id in h.commands
  }

  function To(h: Host, id: nat, stage: Stage): Host
    requires id in h.commands
  {
    h.(commands := h.commands[id := h.commands[id].(stage := stage, writing := false)])
  }

  /** Every check on the bytes of the uploaded archive. */
  function Verified(lib: Library, bundle: nat, archive: nat, got: seq<Bytes>): Option<Bytes> {
    match lib.assemble(got)
    case None => None
    case Some(compressed) =>
      if lib.sha(compressed) != archive then None
      else
        match lib.expand(compressed)
        case None => None
        case Some(raw) => if PackageOf(lib, bundle, raw) then Some(raw) else None
  }

  function Do(lib: Library, h: Host, a: Action): Host
    requires Enabled(lib, h, a)
  {
    match a
    case Upload(path, data) => h.(files := h.files[path := data])
    case Submit(id, bundle, archive, count, target) =>
      h.(commands := h.commands[id := Command(bundle, archive, count, target, Reading([]), false)])
    case ReadChunk(id) =>
      var c := h.commands[id];
      var path := Chunk(c.bundle, c.archive, |c.stage.got|);
      To(h, id, if path in h.files then Reading(c.stage.got + [h.files[path]]) else Ended)
    case Decode(id) =>
      var raw := Verified(lib, h.commands[id].bundle, h.commands[id].archive, h.commands[id].stage.got);
      To(h, id, if raw.Some? then Seeing(raw.value) else Ended)
    case SeeDirectory(id) =>
      var c := h.commands[id];
      To(h, id, if c.bundle in h.directories then Comparing(c.stage.raw) else Making(c.stage.raw))
    case MakeDirectory(id) =>
      var c := h.commands[id];
      if c.bundle in h.directories then To(h, id, Ended)
      else To(h, id, Bundling(c.stage.raw)).(directories := h.directories + {c.bundle})
    case Compare(id) =>
      var c := h.commands[id];
      To(h, id, if Manifest(c.bundle) in h.files && h.files[Manifest(c.bundle)] == c.stage.raw then Looking(c.stage.raw, 0) else Ended)
    case Look(id) =>
      var c := h.commands[id];
      var raw, k := c.stage.raw, c.stage.k;
      if k == |Entries(lib, c.bundle, raw)| then To(h, id, Admitting(raw))
      else
        var entry := Entries(lib, c.bundle, raw)[k];
        var path := Installed(c.bundle, entry.name);
        To(h, id, if entry.body.None? then Ended
                  else if path !in h.files then Installing(raw, k)
                  else if h.files[path] == entry.body.value then Looking(raw, k + 1)
                  else Ended)
    case Admit(id, free) => To(h, id, if free then Contexting(h.commands[id].stage.raw) else Ended)
    case Create(id) =>
      var path := Target(lib, h.commands[id]);
      if path in h.files then To(h, id, Ended)
      else
        h.(commands := h.commands[id := h.commands[id].(writing := true)],
           files := h.files[path := []], creators := h.creators[path := id])
    case Write(id, length) =>
      h.(files := h.files[Target(lib, h.commands[id]) := Content(lib, h.commands[id])[..length]])
    case Complete(id) =>
      To(h, id, Next(h.commands[id])).(files := h.files[Target(lib, h.commands[id]) := Content(lib, h.commands[id])])
    case Launch(id, started) => To(h, id, Ended).(launches := if started then h.launches + [id] else h.launches)
    case Die(id) => To(h, id, Ended)
  }

  function Empty(): Host { Host(map[], {}, map[], map[], []) }

  ghost predicate Reaches(lib: Library, h: Host, actions: seq<Action>, t: Host)
    decreases |actions|
  {
    if actions == [] then h == t else Enabled(lib, h, actions[0]) && Reaches(lib, Do(lib, h, actions[0]), actions[1..], t)
  }

  // ------------------------------------------------------------------------ invariant

  /** File `i` of the package is on disk, complete. */
  predicate FileThere(lib: Library, files: map<Path, Bytes>, bundle: nat, raw: Bytes, i: nat)
    requires PackageOf(lib, bundle, raw) && i < |Entries(lib, bundle, raw)|
  {
    var entry := Entries(lib, bundle, raw)[i];
    var path := Installed(bundle, entry.name);
    path in files && entry.body == Some(files[path])
  }

  /** The package and its first `k` files are complete on disk. */
  ghost predicate OnDisk(lib: Library, files: map<Path, Bytes>, bundle: nat, raw: Bytes, k: nat) {
    && PackageOf(lib, bundle, raw) && k <= |Entries(lib, bundle, raw)|
    && Manifest(bundle) in files && files[Manifest(bundle)] == raw
    && forall i :: 0 <= i < k ==> FileThere(lib, files, bundle, raw, i)
  }

  /** Past the comparison with bundle.json. */
  predicate Past(c: Command) {
    c.stage.Looking? || c.stage.Installing? || c.stage.Admitting? || c.stage.Contexting? || c.stage.Reserving? || c.stage.Launching?
  }

  /** How many files such a command has found or written. */
  function Settled(lib: Library, c: Command): nat
    requires Past(c) && Sane(lib, c)
  {
    if c.stage.Looking? || c.stage.Installing? then c.stage.k else |Entries(lib, c.bundle, c.stage.raw)|
  }

  ghost predicate DiskOk(lib: Library, h: Host, c: Command) {
    && Sane(lib, c)
    && (Past(c) ==> OnDisk(lib, h.files, c.bundle, c.stage.raw, Settled(lib, c)))
  }

  /** Who is writing or has the reservation created it. */
  ghost predicate OwnsOk(lib: Library, h: Host, id: nat, c: Command) {
    && Sane(lib, c)
    && (c.writing ==> Creates(c) && Target(lib, c) in h.creators && h.creators[Target(lib, c)] == id)
    && (c.stage.Launching? ==> Active in h.creators && h.creators[Active] == id)
  }

  /** The launcher created the reservation and is over. */
  ghost predicate LaunchesOk(h: Host) {
    && |h.launches| <= 1
    && (|h.launches| == 1 ==>
          && Active in h.creators && h.creators[Active] == h.launches[0]
          && h.launches[0] in h.commands && h.commands[h.launches[0]].stage.Ended? && !h.commands[h.launches[0]].writing)
  }

  /** No bundle holds a file that the inventory does not expect. */
  ghost predicate Expected(lib: Library, files: map<Path, Bytes>) {
    forall p :: p in files && p.Installed? ==> p.name in lib.inventory
  }

  ghost predicate Inv(lib: Library, h: Host) {
    && Expected(lib, h.files)
    && (forall p :: p in h.creators ==> p in h.files)
    && (forall id :: id in h.commands ==> DiskOk(lib, h, h.commands[id]))
    && (forall id :: id in h.commands ==> OwnsOk(lib, h, id, h.commands[id]))
    && LaunchesOk(h)
  }

  // --------------------------------------------------------------------- preservation

  /** Whoever writes a file of a package writes what that package says, by the digest. */
  lemma WriterAgrees(lib: Library, c: Command, bundle: nat, raw: Bytes)
    requires Ideal(lib) && Creates(c) && Sane(lib, c) && PackageOf(lib, bundle, raw)
    ensures Target(lib, c) == Manifest(bundle) ==> Content(lib, c) == raw
    ensures forall i :: 0 <= i < |Entries(lib, bundle, raw)| && Target(lib, c) == Installed(bundle, Entries(lib, bundle, raw)[i].name) ==>
              Entries(lib, bundle, raw)[i].body == Some(Content(lib, c))
  {
    if c.bundle == bundle { assert c.stage.raw == raw; }
  }

  /** What a step can do to a file: leave it, extend a chunk, or continue writing. */
  lemma FileStep(lib: Library, h: Host, a: Action, path: Path)
    requires Enabled(lib, h, a) && path in h.files && !path.Chunk?
    ensures path in Do(lib, h, a).files
    ensures Do(lib, h, a).files[path] == h.files[path]
            || ((a.Write? || a.Complete?) && Target(lib, h.commands[a.id]) == path
                && |h.files[path]| <= |Do(lib, h, a).files[path]|
                && Do(lib, h, a).files[path] <= Content(lib, h.commands[a.id]))
            || (a.Complete? && Target(lib, h.commands[a.id]) == path && Do(lib, h, a).files[path] == Content(lib, h.commands[a.id]))
  {
    if a.Write? { assert Content(lib, h.commands[a.id])[..a.length] <= Content(lib, h.commands[a.id]); }
  }

  lemma FileKept(lib: Library, h: Host, a: Action, bundle: nat, raw: Bytes, i: nat)
    requires Ideal(lib) && Enabled(lib, h, a) && PackageOf(lib, bundle, raw) && i < |Entries(lib, bundle, raw)|
    requires FileThere(lib, h.files, bundle, raw, i)
    ensures FileThere(lib, Do(lib, h, a).files, bundle, raw, i)
  {
    var path := Installed(bundle, Entries(lib, bundle, raw)[i].name);
    FileStep(lib, h, a, path);
    if (a.Write? || a.Complete?) && Target(lib, h.commands[a.id]) == path {
      WriterAgrees(lib, h.commands[a.id], bundle, raw);
      assert Content(lib, h.commands[a.id]) == h.files[path];
      assert Do(lib, h, a).files[path] == h.files[path];
    }
  }

  lemma ManifestKept(lib: Library, h: Host, a: Action, bundle: nat, raw: Bytes)
    requires Ideal(lib) && Enabled(lib, h, a) && PackageOf(lib, bundle, raw)
    requires Manifest(bundle) in h.files && h.files[Manifest(bundle)] == raw
    ensures Manifest(bundle) in Do(lib, h, a).files && Do(lib, h, a).files[Manifest(bundle)] == raw
  {
    FileStep(lib, h, a, Manifest(bundle));
    if a.Write? || a.Complete? { WriterAgrees(lib, h.commands[a.id], bundle, raw); }
  }

  lemma OnDiskKept(lib: Library, h: Host, a: Action, bundle: nat, raw: Bytes, k: nat)
    requires Ideal(lib) && Enabled(lib, h, a) && OnDisk(lib, h.files, bundle, raw, k)
    ensures OnDisk(lib, Do(lib, h, a).files, bundle, raw, k)
  {
    ManifestKept(lib, h, a, bundle, raw);
    forall i | 0 <= i < k ensures FileThere(lib, Do(lib, h, a).files, bundle, raw, i) {
      FileKept(lib, h, a, bundle, raw, i);
    }
  }

  /** Another complete file. */
  lemma OneMore(lib: Library, files: map<Path, Bytes>, bundle: nat, raw: Bytes, k: nat)
    requires OnDisk(lib, files, bundle, raw, k) && k < |Entries(lib, bundle, raw)| && FileThere(lib, files, bundle, raw, k)
    ensures OnDisk(lib, files, bundle, raw, k + 1)
  {
  }

  /** Looking settles a file that is there and right. */
  lemma LookDisk(lib: Library, h: Host, id: nat)
    requires Enabled(lib, h, Look(id)) && DiskOk(lib, h, h.commands[id])
    ensures DiskOk(lib, Do(lib, h, Look(id)), Do(lib, h, Look(id)).commands[id])
  {
    var c := h.commands[id];
    var t := Do(lib, h, Look(id)).commands[id];
    if t.stage.Looking? { OneMore(lib, h.files, c.bundle, c.stage.raw, c.stage.k); }
  }

  /** Completing a file settles it. */
  lemma CompleteDisk(lib: Library, h: Host, id: nat)
    requires Ideal(lib) && Enabled(lib, h, Complete(id)) && DiskOk(lib, h, h.commands[id])
    ensures DiskOk(lib, Do(lib, h, Complete(id)), Do(lib, h, Complete(id)).commands[id])
  {
    var c := h.commands[id];
    if Past(c) { OnDiskKept(lib, h, Complete(id), c.bundle, c.stage.raw, Settled(lib, c)); }
    if c.stage.Installing? { OneMore(lib, Do(lib, h, Complete(id)).files, c.bundle, c.stage.raw, c.stage.k); }
  }

  /** Creating a file, or finding that another command did, settles nothing. */
  lemma CreateDisk(lib: Library, h: Host, id: nat)
    requires Ideal(lib) && Enabled(lib, h, Create(id)) && DiskOk(lib, h, h.commands[id])
    ensures DiskOk(lib, Do(lib, h, Create(id)), Do(lib, h, Create(id)).commands[id])
  {
    var c := h.commands[id];
    if Past(c) { OnDiskKept(lib, h, Create(id), c.bundle, c.stage.raw, Settled(lib, c)); }
  }

  /** The comparison makes bundle.json the package. */
  lemma CompareDisk(lib: Library, h: Host, id: nat)
    requires Enabled(lib, h, Compare(id)) && DiskOk(lib, h, h.commands[id])
    ensures DiskOk(lib, Do(lib, h, Compare(id)), Do(lib, h, Compare(id)).commands[id])
  {
  }

  /** The earlier checks, the launch and a death leave a command outside those stages. */
  lemma PlainDisk(lib: Library, h: Host, a: Action)
    requires Enabled(lib, h, a)
    requires a.ReadChunk? || a.Decode? || a.SeeDirectory? || a.MakeDirectory? || a.Launch? || a.Die?
    requires DiskOk(lib, h, h.commands[a.id])
    ensures DiskOk(lib, Do(lib, h, a), Do(lib, h, a).commands[a.id])
  {
  }

  lemma AdmitDisk(lib: Library, h: Host, id: nat, free: bool)
    requires Enabled(lib, h, Admit(id, free)) && DiskOk(lib, h, h.commands[id])
    ensures DiskOk(lib, Do(lib, h, Admit(id, free)), Do(lib, h, Admit(id, free)).commands[id])
  {
  }

  /** A command that this step does not move. */
  lemma BystanderDisk(lib: Library, h: Host, a: Action, c: Command)
    requires Ideal(lib) && Enabled(lib, h, a) && DiskOk(lib, h, c)
    ensures DiskOk(lib, Do(lib, h, a), c)
  {
    if Past(c) { OnDiskKept(lib, h, a, c.bundle, c.stage.raw, Settled(lib, c)); }
  }

  lemma Unmoved(lib: Library, h: Host, a: Action, id: nat)
    requires Enabled(lib, h, a) && id in h.commands
    requires a.Upload? || a.Submit? || a.Write? || a.id != id
    ensures id in Do(lib, h, a).commands && Do(lib, h, a).commands[id] == h.commands[id]
  {
  }

  /** The steps that only read the disk. */
  lemma CheckDisk(lib: Library, h: Host, a: Action)
    requires Ideal(lib) && Enabled(lib, h, a) && (a.Look? || a.Compare? || a.Admit?)
    requires DiskOk(lib, h, h.commands[a.id])
    ensures DiskOk(lib, Do(lib, h, a), Do(lib, h, a).commands[a.id])
  {
    if a.Look? {
      LookDisk(lib, h, a.id);
    } else if a.Compare? {
      CompareDisk(lib, h, a.id);
    } else {
      AdmitDisk(lib, h, a.id, a.free);
    }
  }

  lemma MoverDisk(lib: Library, h: Host, a: Action)
    requires Ideal(lib) && Enabled(lib, h, a) && !a.Upload? && !a.Submit? && !a.Write?
    requires DiskOk(lib, h, h.commands[a.id])
    ensures a.id in Do(lib, h, a).commands && DiskOk(lib, Do(lib, h, a), Do(lib, h, a).commands[a.id])
  {
    if a.Complete? {
      CompleteDisk(lib, h, a.id);
    } else if a.Create? {
      CreateDisk(lib, h, a.id);
    } else if a.Look? || a.Compare? || a.Admit? {
      CheckDisk(lib, h, a);
    } else {
      PlainDisk(lib, h, a);
    }
  }

  lemma DiskStep(lib: Library, h: Host, a: Action, id: nat)
    requires Ideal(lib) && Enabled(lib, h, a) && id in Do(lib, h, a).commands
    requires id in h.commands ==> DiskOk(lib, h, h.commands[id])
    ensures DiskOk(lib, Do(lib, h, a), Do(lib, h, a).commands[id])
  {
    if id in h.commands {
      if a.Upload? || a.Submit? || a.Write? || a.id != id {
        Unmoved(lib, h, a, id);
        BystanderDisk(lib, h, a, h.commands[id]);
      } else {
        MoverDisk(lib, h, a);
      }
    }
  }

  lemma CreatorsStep(lib: Library, h: Host, a: Action, p: Path)
    requires Enabled(lib, h, a) && (forall p :: p in h.creators ==> p in h.files)
    ensures p in h.creators ==> p in Do(lib, h, a).creators && Do(lib, h, a).creators[p] == h.creators[p]
    ensures p in Do(lib, h, a).creators ==> p in Do(lib, h, a).files
  {
  }

  lemma MoverOwns(lib: Library, h: Host, a: Action)
    requires Enabled(lib, h, a) && (forall p :: p in h.creators ==> p in h.files)
    requires !a.Upload? && !a.Submit? && !a.Write? && OwnsOk(lib, h, a.id, h.commands[a.id])
    requires a.id in Do(lib, h, a).commands && Sane(lib, Do(lib, h, a).commands[a.id])
    ensures OwnsOk(lib, Do(lib, h, a), a.id, Do(lib, h, a).commands[a.id])
  {
    if a.Complete? && h.commands[a.id].stage.Reserving? { CreatorsStep(lib, h, a, Active); }
  }

  lemma OwnsStep(lib: Library, h: Host, a: Action, id: nat)
    requires Enabled(lib, h, a) && (forall p :: p in h.creators ==> p in h.files) && id in Do(lib, h, a).commands
    requires id in h.commands ==> OwnsOk(lib, h, id, h.commands[id])
    requires Sane(lib, Do(lib, h, a).commands[id])
    ensures OwnsOk(lib, Do(lib, h, a), id, Do(lib, h, a).commands[id])
  {
    if id in h.commands {
      var c := h.commands[id];
      if a.Upload? || a.Submit? || a.Write? || a.id != id {
        Unmoved(lib, h, a, id);
        CreatorsStep(lib, h, a, Active);
        if c.writing { CreatorsStep(lib, h, a, Target(lib, c)); }
      } else {
        MoverOwns(lib, h, a);
      }
    }
  }

  /** The command about to launch holds the reservation, so nobody launched before. */
  lemma OnlyLauncher(lib: Library, h: Host, id: nat)
    requires LaunchesOk(h) && id in h.commands && h.commands[id].stage.Launching? && OwnsOk(lib, h, id, h.commands[id])
    ensures h.launches == []
  {
  }

  lemma LaunchesStep(lib: Library, h: Host, a: Action)
    requires Inv(lib, h) && Enabled(lib, h, a)
    ensures LaunchesOk(Do(lib, h, a))
  {
    CreatorsStep(lib, h, a, Active);
    if a.Launch? {
      assert OwnsOk(lib, h, a.id, h.commands[a.id]);
      OnlyLauncher(lib, h, a.id);
    }
  }

  /** What a package names is in the inventory. */
  lemma TargetExpected(lib: Library, c: Command)
    requires Creates(c) && Sane(lib, c)
    ensures Target(lib, c).Installed? ==> Target(lib, c).name in lib.inventory
  {
    if c.stage.Installing? {
      var e := Entries(lib, c.bundle, c.stage.raw)[c.stage.k];
      assert e in lib.entries(c.stage.raw).value;
    }
  }

  lemma ExpectedStep(lib: Library, h: Host, a: Action)
    requires Enabled(lib, h, a) && Expected(lib, h.files)
    ensures Expected(lib, Do(lib, h, a).files)
  {
    if a.Create? || a.Write? || a.Complete? { TargetExpected(lib, h.commands[a.id]); }
  }

  lemma StepOk(lib: Library, h: Host, a: Action)
    requires Ideal(lib) && Inv(lib, h) && Enabled(lib, h, a)
    ensures Inv(lib, Do(lib, h, a))
  {
    var t := Do(lib, h, a);
    forall id | id in t.commands ensures DiskOk(lib, t, t.commands[id]) && OwnsOk(lib, t, id, t.commands[id]) {
      DiskStep(lib, h, a, id);
      OwnsStep(lib, h, a, id);
    }
    ExpectedStep(lib, h, a);
    forall p | p in t.creators ensures p in t.files { CreatorsStep(lib, h, a, p); }
    LaunchesStep(lib, h, a);
  }

  lemma {:induction false} RunOk(lib: Library, h: Host, actions: seq<Action>, t: Host)
    requires Ideal(lib) && Inv(lib, h) && Reaches(lib, h, actions, t)
    ensures Inv(lib, t)
    decreases |actions|
  {
    if actions != [] {
      StepOk(lib, h, actions[0]);
      RunOk(lib, Do(lib, h, actions[0]), actions[1..], t);
    }
  }

  lemma {:induction false} Extended(lib: Library, h: Host, actions: seq<Action>, t: Host, a: Action)
    requires Reaches(lib, h, actions, t) && Enabled(lib, t, a)
    ensures Reaches(lib, h, actions + [a], Do(lib, t, a))
    decreases |actions|
  {
    if actions == [] {
      assert ([a])[1..] == [];
    } else {
      assert (actions + [a])[1..] == actions[1..] + [a];
      Extended(lib, Do(lib, h, actions[0]), actions[1..], t, a);
    }
  }

  // -------------------------------------------------------------------- main results

  /** Over every interleaving, crash and repetition, for all bundles together, the installer
      is launched at most once. */
  lemma AtMostOneLaunch(lib: Library, actions: seq<Action>, h: Host)
    requires Ideal(lib) && Reaches(lib, Empty(), actions, h)
    ensures |h.launches| <= 1
  {
    RunOk(lib, Empty(), actions, h);
  }

  /** At the launch the expected files, no more and no fewer, are on disk, byte for byte those
      of the one package whose digest is the bundle id; and it is the first launch. */
  lemma LaunchedIsThePackage(lib: Library, actions: seq<Action>, h: Host, id: nat)
    requires Ideal(lib) && Reaches(lib, Empty(), actions, h) && Enabled(lib, h, Launch(id, true))
    ensures
      var c := h.commands[id];
      && PackageOf(lib, c.bundle, c.stage.raw)
      && (forall n :: n in lib.inventory <==> Installed(c.bundle, n) in h.files)
      && (forall n :: Installed(c.bundle, n) in h.files ==>
            Item(n, Some(h.files[Installed(c.bundle, n)])) in Entries(lib, c.bundle, c.stage.raw))
      && Manifest(c.bundle) in h.files && lib.sha(h.files[Manifest(c.bundle)]) == c.bundle
    ensures h.launches == []
  {
    RunOk(lib, Empty(), actions, h);
    var c := h.commands[id];
    assert DiskOk(lib, h, c) && OwnsOk(lib, h, id, c);
    var entries := Entries(lib, c.bundle, c.stage.raw);
    forall n | n in lib.inventory
      ensures Installed(c.bundle, n) in h.files && Item(n, Some(h.files[Installed(c.bundle, n)])) in entries
    {
      var e :| e in entries && e.name == n;
      var i :| 0 <= i < |entries| && entries[i] == e;
      assert FileThere(lib, h.files, c.bundle, c.stage.raw, i);
    }
    OnlyLauncher(lib, h, id);
  }

  /** And it stays so: nothing that happens later touches a complete file. */
  lemma {:induction false} CompleteForever(lib: Library, h: Host, actions: seq<Action>, t: Host, bundle: nat, raw: Bytes, k: nat)
    requires Ideal(lib) && Reaches(lib, h, actions, t) && OnDisk(lib, h.files, bundle, raw, k)
    ensures OnDisk(lib, t.files, bundle, raw, k)
    decreases |actions|
  {
    if actions != [] {
      OnDiskKept(lib, h, actions[0], bundle, raw, k);
      CompleteForever(lib, Do(lib, h, actions[0]), actions[1..], t, bundle, raw, k);
    }
  }
}
