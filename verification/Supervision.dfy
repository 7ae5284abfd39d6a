/** What a run of the runtime supervisor may do to its containers (`runtime_service.py`), said
    of the log of commands it issued and of what its environment answered. Every outcome in
    the log names the answer it rests on: a command that passed or was refused directly
    follows its issue, and a match of the generation anchor names the inspection that showed
    the containers. Answers are used once and in order. */
module Supervision {
  import opened Basics

  type Id = nat

  datatype Service = Web | Workers | Celery | Db | Redis | Rabbitmq | Elastic

  /** The three groups of containers that startup starts, in this order. */
  datatype Group = Dependencies | Background | Listener

  function Members(g: Group): seq<Service> {
    match g
    case Dependencies => [Db, Redis, Rabbitmq, Elastic]
    case Background => [Workers, Celery]
    case Listener => [Web]
  }

  function Apps(): seq<Service> { [Web, Workers, Celery] }

  /** What the environment answers to one command, or to one pause. */
  datatype Answer = Answer(
    signal: bool,                      // SIGTERM or SIGINT arrived meanwhile
    breaks: bool,                      // a timeout, an unreadable file, output that is not understood
    fails: bool,                       // a nonzero code, or a check that does not hold
    late: bool,                        // the deadline of a wait has passed
    found: map<Service, Id>,           // the containers by service, every field checked
    listing: seq<Id>,                  // all containers on the host
    names: set<nat>,                   // all container names
    helper: seq<Helper>)               // the helper looked for

  predicate Good(a: Answer) { !a.breaks && !a.fails }

  /** The selected manifest, and everything the environment will ever answer. */
  datatype World = World(digest: nat, project: nat, image: nat, answers: seq<Answer>)

  /** The generation anchor; `canonical`: its keys, scope, generation and ids have the right form. */
  datatype Anchor = Anchor(canonical: bool, digest: nat, project: nat, image: nat, containers: map<Service, Id>)

  /** One container for each service, all different. */
  predicate Selection(selected: map<Service, Id>) {
    (forall s: Service :: s in selected) && |selected.Values| == 7
  }

  predicate Matches(world: World, anchor: Anchor, selected: map<Service, Id>) {
    && anchor.canonical && anchor.digest == world.digest && anchor.project == world.project
    && anchor.image == world.image && Selection(anchor.containers) && anchor.containers == selected
  }

  function Chosen(selected: map<Service, Id>, names: seq<Service>): (r: seq<Id>)
    requires forall s :: s in names ==> s in selected
    ensures |r| == |names| && forall i :: 0 <= i < |names| ==> r[i] == selected[names[i]]
    ensures forall id :: id in r ==> id in selected.Values
  {
    if names == [] then [] else [selected[names[0]]] + Chosen(selected, names[1..])
  }

  /** The containers of a group. */
  function GroupIds(selected: map<Service, Id>, group: Group): (r: seq<Id>)
    requires Selection(selected)
    ensures forall id :: id in r ==> id in selected.Values
  {
    Chosen(selected, Members(group))
  }

  datatype Check = Manifest | Inspection | Reading | Compose | BackingData | Kernel | Database | Schema | SecurityStore | AdmissionEmpty
    | Search | Consumers | Http | Listing | Quiescence | Reconcile

  /** A helper container as Docker describes it. */
  datatype Helper = Helper(name: nat, project: nat, forWeb: bool, image: nat, id: Id)

  datatype Command =
    | Stop(ids: seq<Id>)
    | Start(group: Group, ids: seq<Id>)
    | StopHelper(name: nat, row: Helper)
    | RunHelper(name: nat, check: Check)
    | LookHelper(name: nat)               // inspect one container by name
    | ListFor(name: nat)                  // list all names, to find that one absent
    | Look(check: Check)

  datatype Event =
    | Anchored(anchor: Anchor, selected: map<Service, Id>, answer: nat)
    | Issued(command: Command)
    | Passed(command: Command, answer: nat)
    | Refused(command: Command, answer: nat)     // broke, or failed where that is an error
    | Ready

  type Log = seq<Event>

  // ------------------------------------------------------- what justifies a command

  /** All these containers are of a generation whose anchor was read and matched before. */
  predicate Recorded(world: World, past: Log, at: nat, ids: seq<Id>) {
    && at < |past| && past[at].Anchored? && Matches(world, past[at].anchor, past[at].selected)
    && forall id :: id in ids ==> id in past[at].selected.Values
  }

  /** Where in the log the steps of a startup are. */
  datatype Steps = Steps(anchor: nat, closed: nat, backing: nat, dependencies: nat, database: nat, schema: nat,
                         security: nat, admission: nat, search: nat, background: nat, consumers: nat)

  predicate Did(past: Log, at: nat, c: Command) { at < |past| && past[at].Passed? && past[at].command == c }

  predicate Helped(past: Log, at: nat, check: Check) {
    at < |past| && past[at].Passed? && past[at].command.RunHelper? && past[at].command.check == check
  }

  predicate Started(past: Log, at: nat, group: Group) {
    at < |past| && past[at].Passed? && past[at].command.Start? && past[at].command.group == group
  }

  predicate Starts(e: Event, group: Group) { e.Issued? && e.command.Start? && e.command.group == group }

  predicate IsStart(e: Event) { e.Issued? && e.command.Start? }

  /** The anchor matched; then exactly its applications were stopped; then the data of the
      backing stores was checked. */
  ghost predicate Closed(world: World, past: Log, s: Steps) {
    && s.anchor < s.closed < s.backing && Recorded(world, past, s.anchor, [])
    && Did(past, s.closed, Stop(Chosen(past[s.anchor].selected, Apps())))
    && Did(past, s.backing, Look(BackingData))
    && (forall k {:trigger Starts(past[k], Listener)} :: s.closed < k < |past| ==> !Starts(past[k], Listener))
  }

  /** After that the dependencies ran, the database, schema, security store and search index
      were good and no permit was held; meanwhile no application was started. */
  ghost predicate Emptied(world: World, past: Log, s: Steps) {
    && Closed(world, past, s)
    && s.backing < s.dependencies < s.database < s.schema < s.security < s.admission < s.search
    && Started(past, s.dependencies, Dependencies) && Did(past, s.database, Look(Database)) && Helped(past, s.schema, Schema)
    && Helped(past, s.security, SecurityStore) && Helped(past, s.admission, AdmissionEmpty) && Helped(past, s.search, Search)
    && (forall k {:trigger Starts(past[k], Background)} :: s.closed < k <= s.search && k < |past| ==> !Starts(past[k], Background))
  }

  /** After that the workers were started and each queue had a consumer. */
  ghost predicate Consumed(world: World, past: Log, s: Steps) {
    && Emptied(world, past, s) && s.search < s.background < s.consumers
    && Started(past, s.background, Background) && Did(past, s.consumers, Look(Consumers))
  }

  ghost predicate Backed(world: World, past: Log, ids: seq<Id>) {
    exists at: nat :: Recorded(world, past, at, ids)
  }

  /** A matching anchor, then its applications all found stopped, and nothing started since. */
  ghost predicate Quiesced(world: World, past: Log, at: nat, quiet: nat) {
    && at < quiet && Recorded(world, past, at, []) && Did(past, quiet, Look(Quiescence))
    && forall k {:trigger IsStart(past[k])} :: quiet < k < |past| ==> !IsStart(past[k])
  }

  ghost predicate StartJustified(world: World, past: Log, group: Group) {
    match group
    case Dependencies => exists s :: Closed(world, past, s)
    case Background => exists s :: Emptied(world, past, s)
    case Listener => exists s :: Consumed(world, past, s)
  }

  /** All answers used so far came before answer `n`. */
  ghost predicate Before(past: Log, n: nat) {
    forall k {:trigger past[k].Passed?} :: 0 <= k < |past| && past[k].Passed? ==> past[k].answer < n
  }

  predicate JustIssued(past: Log, c: Command) { past != [] && past[|past| - 1] == Issued(c) }

  /** The last things that happened: the manifest was checked again, and an inspection showed
      these containers of the group. */
  predicate JustFound(world: World, past: Log, group: Group, ids: seq<Id>) {
    && |past| >= 3 && Did(past, |past| - 3, Look(Manifest)) && var last := past[|past| - 1];
    && last.Passed? && last.command == Look(Inspection) && last.answer < |world.answers|
    && Selection(world.answers[last.answer].found) && ids == GroupIds(world.answers[last.answer].found, group)
  }

  /** A container that is the helper `name` of this project. */
  predicate Ours(world: World, name: nat, row: Helper) {
    row.name == name && row.project == world.project && row.forWeb && row.image == world.image
  }

  predicate JustSeen(world: World, past: Log, name: nat, row: Helper) {
    && past != [] && var last := past[|past| - 1];
    && last.Passed? && last.command == LookHelper(name) && last.answer < |world.answers|
    && world.answers[last.answer].helper == [row]
  }

  /** A good reason to give up: a command broke or failed, or what was shown is not what the
      anchor records, or a helper is not ours or will not go away. */
  ghost predicate Contrary(world: World, anchor: Option<Anchor>, e: Event) {
    || e.Refused?
    || (e.Passed? && e.answer < |world.answers| &&
         match e.command
         case Look(Inspection) => anchor.None? || !Matches(world, anchor.value, world.answers[e.answer].found)
         case LookHelper(name) => |world.answers[e.answer].helper| != 1 || !Ours(world, name, world.answers[e.answer].helper[0])
         case ListFor(name) => name in world.answers[e.answer].names
         case _ => false)
  }

  ghost predicate Caused(world: World, anchor: Option<Anchor>, log: Log) {
    exists i :: 0 <= i < |log| && Contrary(world, anchor, log[i])
  }

  /** An inspection in the log showed containers with these ids. */
  ghost predicate Known(world: World, log: Log, ids: set<Id>) {
    exists at: nat :: Shown(world, log, at, ids)
  }

  predicate Shown(world: World, log: Log, at: nat, ids: set<Id>) {
    Did(log, at, Look(Inspection)) && log[at].answer < |world.answers| && world.answers[log[at].answer].found.Values == ids
  }

  /** The helper `name` was stopped, or a list of all containers was without it. */
  ghost predicate Gone(world: World, log: Log, name: nat) {
    exists at: nat :: GoneAt(world, log, at, name)
  }

  predicate GoneAt(world: World, log: Log, at: nat, name: nat) {
    && at < |log| && log[at].Passed? && log[at].answer < |world.answers|
    && ((log[at].command.StopHelper? && log[at].command.name == name)
        || (log[at].command == ListFor(name) && name !in world.answers[log[at].answer].names))
  }

  ghost predicate Justified(world: World, past: Log, e: Event) {
    match e
    case Issued(Stop(ids)) => Backed(world, past, ids)
    case Issued(Start(group, ids)) =>
      Backed(world, past, ids) && StartJustified(world, past, group) && JustFound(world, past, group, ids)
    case Issued(StopHelper(name, row)) => Ours(world, name, row) && JustSeen(world, past, name, row)
    case Issued(RunHelper(_, Reconcile)) => exists at: nat, quiet: nat :: Quiesced(world, past, at, quiet)
    case Passed(c, n) => JustIssued(past, c) && n < |world.answers| && Good(world.answers[n]) && Before(past, n)
    case Refused(c, n) => JustIssued(past, c) && n < |world.answers| && !Good(world.answers[n]) && Before(past, n)
    case Anchored(_, selected, n) =>
      && n < |world.answers| && world.answers[n].found == selected
      && exists at: nat :: Did(past, at, Look(Inspection)) && past[at].answer == n
    case Ready => exists at: nat :: Did(past, at, Look(Http))
    case _ => true
  }

  /** Every event was justified by the events before it. */
  ghost predicate Orderly(world: World, log: Log) {
    forall i {:trigger log[..i]} :: 0 <= i < |log| ==> Justified(world, log[..i], log[i])
  }

  lemma Appended(world: World, log: Log, e: Event)
    requires Orderly(world, log) && Justified(world, log, e)
    ensures Orderly(world, log + [e])
  {
    var t := log + [e];
    forall i | 0 <= i < |t| ensures Justified(world, t[..i], t[i]) {
      if i < |log| { assert t[..i] == log[..i]; } else { assert t[..i] == log; }
    }
  }

  // --------------------------------------------------- what lasts as the log grows

  /** A service container is stopped or started. */
  predicate Touches(e: Event) { e.Issued? && (e.command.Stop? || e.command.Start?) }

  ghost predicate Quiet(a: Log, b: Log) { a <= b && forall k {:trigger Touches(b[k])} :: |a| <= k < |b| ==> !Touches(b[k]) }

  lemma QuietOn(a: Log, b: Log, c: Log)
    requires Quiet(a, b) && Quiet(b, c)
    ensures Quiet(a, c)
  {
    assert forall k :: 0 <= k < |b| ==> c[k] == b[k];
  }

  lemma RecordedLasts(world: World, a: Log, b: Log, at: nat, ids: seq<Id>)
    requires a <= b && Recorded(world, a, at, ids)
    ensures Recorded(world, b, at, ids)
  {
    assert b[at] == a[at];
  }

  lemma BackedLasts(world: World, a: Log, b: Log, ids: seq<Id>)
    requires a <= b && Backed(world, a, ids)
    ensures Backed(world, b, ids)
  {
    var at: nat :| Recorded(world, a, at, ids);
    RecordedLasts(world, a, b, at, ids);
  }

  lemma KnownLasts(world: World, a: Log, b: Log, ids: set<Id>)
    requires a <= b && Known(world, a, ids)
    ensures Known(world, b, ids)
  {
    var at: nat :| Shown(world, a, at, ids);
    assert b[at] == a[at];
    assert Shown(world, b, at, ids);
  }

  lemma GoneLasts(world: World, a: Log, b: Log, name: nat)
    requires a <= b && Gone(world, a, name)
    ensures Gone(world, b, name)
  {
    var at: nat :| GoneAt(world, a, at, name);
    assert b[at] == a[at];
    assert GoneAt(world, b, at, name);
  }

  lemma CausedLasts(world: World, anchor: Option<Anchor>, a: Log, b: Log)
    requires a <= b && Caused(world, anchor, a)
    ensures Caused(world, anchor, b)
  {
    var i :| 0 <= i < |a| && Contrary(world, anchor, a[i]);
    assert b[i] == a[i];
    assert Contrary(world, anchor, b[i]);
  }

  ghost predicate NoListener(a: Log, b: Log) { a <= b && forall k {:trigger Starts(b[k], Listener)} :: |a| <= k < |b| ==> !Starts(b[k], Listener) }

  lemma QuietHasNoListener(a: Log, b: Log)
    requires Quiet(a, b)
    ensures NoListener(a, b)
  {
    forall k | |a| <= k < |b| ensures !Starts(b[k], Listener) { assert !Touches(b[k]); }
  }

  lemma ClosedLasts(world: World, a: Log, b: Log, s: Steps)
    requires Closed(world, a, s) && NoListener(a, b)
    ensures Closed(world, b, s)
  {
    RecordedLasts(world, a, b, s.anchor, []);
    assert forall k :: 0 <= k < |a| ==> b[k] == a[k];
  }

  lemma EmptiedLasts(world: World, a: Log, b: Log, s: Steps)
    requires Emptied(world, a, s) && NoListener(a, b)
    ensures Emptied(world, b, s)
  {
    ClosedLasts(world, a, b, s);
    assert forall k :: 0 <= k < |a| ==> b[k] == a[k];
    assert s.search < |a|;
  }

  lemma ConsumedLasts(world: World, a: Log, b: Log, s: Steps)
    requires Consumed(world, a, s) && NoListener(a, b)
    ensures Consumed(world, b, s)
  {
    EmptiedLasts(world, a, b, s);
    assert forall k :: 0 <= k < |a| ==> b[k] == a[k];
  }

  /** Between the closing and the first worker: the first `n` of the six checks are done. */
  ghost predicate Filled(world: World, past: Log, s: Steps, n: nat) {
    && Closed(world, past, s)
    && (forall k {:trigger Starts(past[k], Background)} :: s.closed < k < |past| ==> !Starts(past[k], Background))
    && (n >= 1 ==> s.backing < s.dependencies && Started(past, s.dependencies, Dependencies))
    && (n >= 2 ==> s.dependencies < s.database && Did(past, s.database, Look(Database)))
    && (n >= 3 ==> s.database < s.schema && Helped(past, s.schema, Schema))
    && (n >= 4 ==> s.schema < s.security && Helped(past, s.security, SecurityStore))
    && (n >= 5 ==> s.security < s.admission && Helped(past, s.admission, AdmissionEmpty))
    && (n >= 6 ==> s.admission < s.search && Helped(past, s.search, Search))
  }

  ghost predicate NoWorkers(a: Log, b: Log) {
    NoListener(a, b) && forall k {:trigger Starts(b[k], Background)} :: |a| <= k < |b| ==> !Starts(b[k], Background)
  }

  lemma QuietHasNoWorkers(a: Log, b: Log)
    requires Quiet(a, b)
    ensures NoWorkers(a, b)
  {
    QuietHasNoListener(a, b);
    forall k | |a| <= k < |b| ensures !Starts(b[k], Background) { assert !Touches(b[k]); }
  }

  lemma FilledLasts(world: World, a: Log, b: Log, s: Steps, n: nat)
    requires Filled(world, a, s, n) && NoWorkers(a, b)
    ensures Filled(world, b, s, n)
  {
    ClosedLasts(world, a, b, s);
    assert forall k :: 0 <= k < |a| ==> b[k] == a[k];
    forall k | s.closed < k < |b| ensures !Starts(b[k], Background) {
      assert k < |a| ==> !Starts(a[k], Background);
    }
  }

  lemma FilledIsEmptied(world: World, past: Log, s: Steps)
    requires Filled(world, past, s, 6)
    ensures Emptied(world, past, s)
  {
  }

  /** A startup has come far enough to start a group. */
  ghost predicate Stage(world: World, past: Log, s: Steps, group: Group) {
    match group
    case Dependencies => Closed(world, past, s)
    case Background => Emptied(world, past, s)
    case Listener => Consumed(world, past, s)
  }

  lemma StageRecorded(world: World, past: Log, s: Steps, group: Group)
    requires Stage(world, past, s, group)
    ensures Recorded(world, past, s.anchor, [])
  {
  }

  lemma StageLasts(world: World, a: Log, b: Log, s: Steps, group: Group)
    requires Quiet(a, b) && Stage(world, a, s, group)
    ensures Stage(world, b, s, group) && StartJustified(world, b, group)
  {
    QuietHasNoListener(a, b);
    match group
    case Dependencies => ClosedLasts(world, a, b, s);
    case Background => EmptiedLasts(world, a, b, s);
    case Listener => ConsumedLasts(world, a, b, s);
  }

  // ------------------------------------------------------ what that means for a run

  /** What the log calls passed, the environment said: the command was issued, and its answer
      was good. */
  lemma PassedIsAnswered(world: World, log: Log, i: nat)
    requires Orderly(world, log) && i < |log| && log[i].Passed?
    ensures i > 0 && log[i - 1] == Issued(log[i].command)
    ensures log[i].answer < |world.answers| && Good(world.answers[log[i].answer])
    ensures forall j :: 0 <= j < i && log[j].Passed? ==> log[j].answer < log[i].answer
  {
    assert Justified(world, log[..i], log[i]);
    forall j | 0 <= j < i && log[j].Passed? ensures log[j].answer < log[i].answer {
      assert log[..i][j].Passed?;
    }
  }

  /** A matching anchor in the log is what some inspection really showed. */
  lemma AnchoredIsFound(world: World, log: Log, i: nat)
    requires Orderly(world, log) && i < |log| && log[i].Anchored?
    ensures log[i].answer < |world.answers| && world.answers[log[i].answer].found == log[i].selected
    ensures exists at: nat :: at < i && Did(log, at, Look(Inspection)) && log[at].answer == log[i].answer
  {
    assert Justified(world, log[..i], log[i]);
    var at: nat :| Did(log[..i], at, Look(Inspection)) && log[..i][at].answer == log[i].answer;
    assert Did(log, at, Look(Inspection)) && log[at].answer == log[i].answer;
  }

  /** Whatever is stopped or started was shown by an inspection and is what the anchor records. */
  lemma TouchedIsFound(world: World, log: Log, i: nat) returns (at: nat)
    requires Orderly(world, log) && i < |log| && Touches(log[i])
    ensures at < i && Recorded(world, log, at, log[i].command.ids)
    ensures log[at].answer < |world.answers| && world.answers[log[at].answer].found == log[at].anchor.containers
  {
    assert Justified(world, log[..i], log[i]);
    at :| Recorded(world, log[..i], at, log[i].command.ids);
    assert log[..i][at] == log[at];
    AnchoredIsFound(world, log, at);
  }

  /** If no inspection ever shows the containers of a valid anchor, no service container is
      stopped or started. */
  lemma NoAnchorNoTouch(world: World, anchor: Anchor, log: Log)
    requires Orderly(world, log)
    requires forall i :: 0 <= i < |log| && log[i].Anchored? ==> log[i].anchor == anchor
    requires forall k :: 0 <= k < |world.answers| ==> !Matches(world, anchor, world.answers[k].found)
    ensures forall i :: 0 <= i < |log| ==> !Touches(log[i])
  {
    forall i | 0 <= i < |log| ensures !Touches(log[i]) {
      if Touches(log[i]) { var at := TouchedIsFound(world, log, i); }
    }
  }

  /** A container that no inspection showed as one of the recorded generation is neither
      stopped nor started. */
  lemma StrangerUntouched(world: World, anchor: Anchor, log: Log, id: Id)
    requires Orderly(world, log)
    requires forall i :: 0 <= i < |log| && log[i].Anchored? ==> log[i].anchor == anchor
    requires forall k :: 0 <= k < |world.answers| && Matches(world, anchor, world.answers[k].found) ==>
               id !in world.answers[k].found.Values
    ensures forall i :: 0 <= i < |log| && Touches(log[i]) ==> id !in log[i].command.ids
  {
    forall i | 0 <= i < |log| && Touches(log[i]) ensures id !in log[i].command.ids {
      var at := TouchedIsFound(world, log, i);
    }
  }

  /** Before event `i`: the anchor matched, exactly its applications were stopped, and after
      that the backing data, the dependencies, the database, the schema, the security store,
      admission, the search index, the workers and the consumers were in order. Since the stop
      the listener was not started, nor a worker before admission was found empty. */
  ghost predicate Prepared(world: World, log: Log, i: nat, s: Steps) {
    && i <= |log|
    && s.anchor < s.closed < s.backing < s.dependencies < s.database < s.schema < s.security < s.admission < s.search
         < s.background < s.consumers < i
    && Recorded(world, log, s.anchor, [])
    && Did(log, s.closed, Stop(Chosen(log[s.anchor].selected, Apps()))) && Did(log, s.backing, Look(BackingData))
    && Started(log, s.dependencies, Dependencies) && Did(log, s.database, Look(Database)) && Helped(log, s.schema, Schema)
    && Helped(log, s.security, SecurityStore) && Helped(log, s.admission, AdmissionEmpty) && Helped(log, s.search, Search)
    && Started(log, s.background, Background) && Did(log, s.consumers, Look(Consumers))
    && (forall k :: s.closed < k < i ==> !Starts(log[k], Listener))
    && (forall k :: s.closed < k <= s.search ==> !Starts(log[k], Background))
  }

  lemma ConsumedIsPrepared(world: World, log: Log, i: nat, s: Steps)
    requires i <= |log| && Consumed(world, log[..i], s)
    ensures Prepared(world, log, i, s)
  {
    var past := log[..i];
    assert forall k :: 0 <= k < i ==> past[k] == log[k];
    forall k | s.closed < k < i ensures !Starts(log[k], Listener) { assert !Starts(past[k], Listener); }
    forall k | s.closed < k <= s.search ensures !Starts(log[k], Background) { assert !Starts(past[k], Background); }
  }

  /** Every start of the listener comes after all of that, and each of those steps rests on
      its own good answer (`PassedIsAnswered`). */
  lemma ListenerAfterEmpty(world: World, log: Log, i: nat)
    requires Orderly(world, log) && i < |log| && Starts(log[i], Listener)
    ensures exists s :: Prepared(world, log, i, s)
  {
    assert Justified(world, log[..i], log[i]);
    var s :| Consumed(world, log[..i], s);
    ConsumedIsPrepared(world, log, i, s);
  }
}
