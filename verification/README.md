# Verification of the Santa server's state machines

A Dafny model of the parts of the repository that behave like protocols, with proofs of what
they keep over every run. `dafny verify dfyconfig.toml` checks the whole project.

| files | subject |
|---|---|
| `Basics` | an optional value and decimal digits, shared |
| `DepthScanner`, `JsonReader`, `JsonDepth`, `JsonSyntax`, `JsonDocuments`, `JsonCodes`, `RequestLimits` | bounded JSON input: a flat scanner that bounds the recursion of a real parser |
| `Redis`, `Ledger`, `AdmissionStore`, `AdmissionScripts`, `AdmissionKeeps`, `AdmissionMiddleware`, `AdmissionProtocol`, `AdmissionTheorems`, `AdmissionAnswers` | shared sync admission: Lua scripts over permit slots and expiring counters, the middleware, the host controller |
| `MfaStore`, `MfaClaims`, `MfaLateCode`, `MfaSessions`, `MfaChanges`, `MfaRuns`, `MfaGate`, `MfaVerdicts` | operator verification: one-use claims that expire, proofs bound to a factor set, locked changes of that set |
| `SyncModel`, `SyncDurable`, `SyncDurableServer`, `SyncAnswers` | sync sessions with pinned snapshots and signed cursors, and their durable form with several crashing processes |
| `Installer`, `InstallerHost` | the one-shot installer relay |
| `Supervision`, `Supervisor` | the runtime supervisor and its generation anchor |

Code that changes state step by step is modelled by classes and loops (`AdmissionScripts.Server`,
`MfaStore.SecurityStore`, `MfaGate.Gatekeeper`, `SyncModel.Server`, `SyncDurableServer.State`,
`InstallerHost.Machine`, `Supervisor.Runtime`). All but the last belong to a transition system over
values: the methods that answer a request or run a script are proved equal to its functions or
to runs of its steps (`MfaClaims.StraightIsVerify` and `SyncDurable.DurablyIsSteps` for the
uninterrupted requests), and the results about whole runs are proved of that system: every
interleaving of its actions, each action enabled when it happens, from the empty state on.
`Supervisor.Runtime` has no second form. It runs against an arbitrary sequence of answers of its
environment, and its results are about the log of its commands, in which every outcome must rest
on the answer given to that command (`Supervision.Orderly`).

## Assumptions

- Random tokens, session ids, helper names and challenge nonces are new each time, and so is the hash
  of a password that is set and the id of a factor that is added; HMAC, SHA-256 and
  the factor digests are ideal, so they are represented by what they stand for.
- One clock, in milliseconds, shared with the store, never going back. A Redis key is live up to and
  including its expiry; `TTL` is rounded to the nearest second.
- A Lua script, an SQL transaction and an exclusive file creation are each one atomic step.
- One session handles one request at a time. A posted request that may change factors holds the user's
  row lock from its checks to the rewrite of its own proof. A fetched setup page holds no lock, so
  anything may happen between its two readings of the factors; likewise between the reading of the
  factors by a verification and its proof.
- The upstream views change factors only on POST, add at most one new factor and delete at most one.
- A `fresh` initialisation of the security store finds no user and no verification in progress, and the
  reconcile job's script runs while its host command still holds the lock.
- zlib, gzip, base64, UTF-8 decoding and the number hooks are parameters of the model, arbitrary
  functions.

## Findings

- A challenge is accepted at most once exactly for check-to-claim delays below 60 s: from 60 s on
  there is a run in which, after a store loss and a migration, a verification checked 300 s after issue
  claims at 360 s, when the hold ends (`MfaClaims.ChallengeOnce`, `MfaClaims.MinuteIsTooLong`).
- An authenticator step is accepted at most once exactly for delays of less than 60002 whole milliseconds of the
  store's clock: from there on a call outlasts the 120 s of the first claim, with no store loss needed (`MfaClaims.StepOnce`, `MfaLateCode.CodeTwice`).
- "Factor changes invalidate other sessions" (`docs/operator-mfa.md`) has two exceptions, and no third
  until the next change or sign-in (`MfaChanges.AfterChange`). A session that fetched the setup page
  while verified and gets it back after the change takes the new factors into its proof
  (`MfaChanges.WaitingCatchesUp`, `MfaRuns.PageOutlivesChange`): line 389 of `operator_mfa.py` does not
  look at the method, and the page holds no lock. And a deletion restores every session whose young
  proof names the factors there were without the deleted one (`MfaChanges.AddThenDelete`,
  `MfaRuns.DeletionCanRevive`). With no other setup page of the user in flight, only the second remains
  (`MfaChanges.OnlyActorStays`).
- The deployed capacity is always one; the proofs hold for every capacity from 1 to 10. At most one
  handler runs even with more, because the middleware accepts slot `0` only; a grant of another slot would
  be answered 503 and keep that slot until a reconcile.
- `docs/santa-admission.md` counts at most `4 * global_max` identity keys; the proof gives the two halves
  separately, `2 * global_max` of each kind.

## Model

| member | source | states |
|---|---|---|
| `DepthScanner.CheckDepth` | experiments/server/santa_request_limits.py:71-90 | the one-pass loop accepts exactly when no prefix of the text, malformed or not, is nested deeper than the bound |
| `DepthScanner.WithinIsEveryPrefix` | experiments/server/santa_request_limits.py:71-90 | the largest depth ever counted is within the bound if and only if the depth of every prefix is, also where the counter goes negative |
| `JsonDepth.LoadSync` | experiments/server/santa_request_limits.py:71-90 | up to where the recursive reader got, the scanner's peak is the largest number of containers the reader had open; if the text is JSON the scanner ends unquoted at depth zero |
| `JsonDepth.AcceptedBoundsRecursion` | experiments/server/santa_request_limits.py:115-116 | for every text the scanner accepts, the reader of RFC 8259 never has more than the bound open, whether or not it then finds an error |
| `JsonDepth.AcceptsExactlyShallow` | experiments/server/santa_request_limits.py:71-90 | on every text that is JSON, whatever members or numbers the caller then refuses, the scanner accepts if and only if the parsed value's nesting is within the bound |
| `JsonDepth.LoadFacts` | experiments/server/santa_request_limits.py:116-116 | a parsed value passed the object hook at every depth (so no object repeats a member, for the hook in use), and its nesting is the reader's peak |
| `JsonSyntax.DocumentReads` | experiments/server/santa_request_limits.py:116-116 | round trip: any value that the hooks let pass, written with any blanks, escapes and number spellings of RFC 8259 sections 2 to 7, is read back as that value |
| `JsonSyntax.DocumentAccepted` | experiments/server/santa_request_limits.py:71-90 | for every value and every way of writing it, repeated members included, the scanner returns to depth zero, its peak is the value's nesting, and it accepts exactly when that is within the bound |
| `JsonDocuments.LoadWritten` | experiments/server/santa_request_limits.py:115-120 | the converse of the round trip: every text the reader accepts is one that the grammar of RFC 8259 writes, with numbers and objects the hooks let pass, and the result is the value that was written |
| `JsonDocuments.LoadsExactlyDocuments` | experiments/server/santa_request_limits.py:115-120 | on every text: the reader accepts it if and only if it is such a document |
| `JsonCodes.EveryText` | experiments/server/santa_request_limits.py:116-116 | every sequence of Unicode scalar values can be written as a string, and is exactly what its escapes, surrogate pairs included, decode to |
| `JsonCodes.PlainText` | experiments/server/santa_request_limits.py:116-116 | unescaped characters stand for themselves |
| `JsonCodes.ShortCodes` | experiments/server/santa_request_limits.py:116-116 | the eight short escapes and the characters they stand for |
| `RequestLimits.Unique` | experiments/server/santa_request_limits.py:51-57 | succeeds exactly when all names differ, and then the dictionary holds exactly the members |
| `RequestLimits.CountEvents` | experiments/server/santa_request_limits.py:123-131 | status 400 exactly for a malformed collection, acceptance exactly for well-formed collections with at most `events` entries together, 413 otherwise |
| `RequestLimits.Expand` | experiments/server/santa_request_limits.py:94-112 | whatever the encoding, bytes that go on to the parser are within the expanded limit |
| `RequestLimits.ExpandAnswers` | experiments/server/santa_request_limits.py:93-112 | the exact condition of each refusal (413, 415, 400) on sizes, encoding and what the inflater reports; otherwise the bytes or their expansion go on |
| `RequestLimits.DecodeText` | experiments/server/santa_request_limits.py:113-132 | from scanner to event budget the answer is the one the written value alone determines; every text that is no document of the grammar is answered 400; the scanner changes only where the depth rejection comes from |
| `RequestLimits.DecodeBytes` | experiments/server/santa_request_limits.py:93-132 | a body is returned exactly for bytes that expand and decode to a document of the grammar with an admissible object, and it is the object written there; it repeats no member at any depth; otherwise the status of the first failing check |
| `RequestLimits.DecodeRequest` | experiments/server/santa_request_limits.py:135-145 | at most one byte more than the limit is read, an inadmissible declared length is refused before anything is read, and otherwise the answer is that of `DecodeBytes` on the bytes read |
| `AdmissionScripts.Server.Validate` | experiments/server/santa_admission.py:59-71 | the visit of all fields in any order accepts exactly the valid hash under a ready marker |
| `AdmissionScripts.Server.ReadCounters` | experiments/server/santa_admission.py:73-78 | the counters are read and judged before anything is written |
| `AdmissionScripts.Server.FreeSlot` | experiments/server/santa_admission.py:86-88 | the loop finds the lowest free slot |
| `AdmissionScripts.Server.RunAcquire` | experiments/server/santa_admission.py:72-94 | the script in place is the atomic step `Acquire` used by the protocol |
| `AdmissionScripts.Server.RunRelease` | experiments/server/santa_admission.py:95-98 | the script in place is the atomic step `Release` |
| `AdmissionScripts.Server.RunReconcile` | experiments/server/santa_admission.py:107-110 | the deletion loop removes every slot and installs the generation: the atomic step `Reconcile` |
| `AdmissionScripts.Server.RunInitializeFresh` | experiments/server/santa_admission.py:121-130 | marker and state appear together or not at all |
| `AdmissionKeeps.AcquireKeeps` | experiments/server/santa_admission.py:72-94 | keeps every VALIDATE condition and every counter within 1..limit and its window; an error changes nothing; a denial changes at most one step of the global counter; a grant adds exactly the token to a free slot and steps exactly the three counters |
| `AdmissionKeeps.ReleaseKeeps` | experiments/server/santa_admission.py:95-98 | keeps the store valid and removes a slot only when it holds exactly the caller's token |
| `AdmissionKeeps.ReconcileKeeps` | experiments/server/santa_admission.py:107-110 | succeeds exactly on a valid store, keeps it valid, counters untouched, slots gone, new generation; a refusal changes nothing |
| `AdmissionKeeps.InitializeKeeps` | experiments/server/santa_admission.py:121-142 | both initialisations leave a valid store and change nothing where state or marker exists |
| `AdmissionKeeps.TickKeeps` | experiments/server/santa_admission.py:58-71 | time passing keeps the store valid and every permit; a counter disappears exactly when its window ends |
| `AdmissionMiddleware.Call` | experiments/server/santa_admission.py:211-249 | one uninterrupted request: the handler ran if and only if slot 0 was granted and the reply arrived, and then the response is the handler's; a request that was answered or whose handler raised gave its permit back, a denied one left none, a streaming response or a lost release keeps it, Retry-After is within 1..window |
| `AdmissionMiddleware.Reject` | experiments/server/santa_admission.py:215-218 | Retry-After is at least one and at most the window |
| `AdmissionProtocol.StepKept` | experiments/server/santa_admission.py:72-110 | every step of every process keeps store, permits and counting histories in order |
| `AdmissionProtocol.PermitsKept` | experiments/server/santa_admission.py:211-249 | every step, including lost replies, deaths and controller steps, keeps every running or granted request's token in its slot |
| `AdmissionProtocol.RunKept` | experiments/server/santa_admission.py:211-249 | so does every run |
| `AdmissionTheorems.OneHandler` | experiments/server/santa_admission.py:222-232 | in every interleaving at most one handler runs under a permit, whatever the capacity, and its token is in its slot |
| `AdmissionTheorems.TokenLeaves` | experiments/server/santa_admission.py:95-110 | a slot's token leaves the store only through a release with exactly that token or an explicit reconcile |
| `AdmissionTheorems.FieldsStep` | experiments/server/santa_admission.py:72-142 | the exact effect of each step on the hash of permits |
| `AdmissionTheorems.LateReleaseHarmless` | experiments/server/santa_admission.py:95-98 | a release of another request, however late, never frees a holder's slot |
| `AdmissionTheorems.ReconcileNeedsQuiet` | experiments/server/runtime_service.py:562-584 | reconciling keeps permits in order if and only if no request runs or is about to run under one: why the controller requires stopped applications |
| `AdmissionTheorems.InitializedStays` | experiments/server/santa_admission.py:58-110 | one step: valid state stays valid and an acquire gets an answer other than an error |
| `AdmissionTheorems.InitializedForever` | experiments/server/santa_admission.py:58-110 | for the rest of any run the state stays valid, and no acquire executed at any later moment ends in an error |
| `AdmissionTheorems.BudgetOverAnyWindow` | experiments/server/santa_admission.py:72-94 | any interval of one window holds at most twice the limit of counted requests, of admissions per source and of admissions per credential |
| `AdmissionTheorems.FewLiveKeys` | experiments/server/santa_admission.py:72-94 | however many identities appear, at most 2 * global_max source keys and 2 * global_max credential keys are live |
| `AdmissionAnswers.AcquireAnswers` | experiments/server/santa_admission.py:72-94 | on every valid store: granted if and only if each of the three counters is absent or below its own configured limit and a slot is free, then the lowest; a denial names the remaining lifetime of the first exhausted counter, at least 1, or 1 when only the slots are taken |
| `AdmissionAnswers.NobodyDeniedEarly` | experiments/server/santa_admission.py:72-94 | over runs: an acquire is granted if and only if the current windows of its three counters hold fewer hits than their limits and a slot is free |
| `AdmissionAnswers.CheckAnswers` | experiments/server/santa_admission.py:99-106 | both checks: valid state, and for the second one no slot held |
| `Ledger.TwiceTheLimit` | experiments/server/santa_admission.py:79-91 | fixed-window counting: no interval as long as the window holds more than twice the limit |
| `Ledger.Append` | experiments/server/santa_admission.py:82-90 | one more hit below the limit keeps history and counter in step |
| `MfaStore.SecurityStore.Claim` | experiments/server/operator_mfa.py:174-178 | a guarded claim succeeds exactly when the store is open and no live claim has the key |
| `MfaStore.SecurityStore.Setup` | experiments/server/operator_mfa.py:199-219 | a marker is written only where there is none; a migration holds for 360 s |
| `MfaStore.SecurityStore.Prepare` | experiments/server/operator_mfa.py:250-292 | the two claims of one verification in place: the same store and outcome as `Verify`, after each failure too |
| `MfaClaims.StraightIsVerify` | experiments/server/operator_mfa.py:260-292 | `Verify` is what an uninterrupted run of the protocol's steps does: check, claim, match, claim |
| `MfaStore.VerifiedOnce` | experiments/server/operator_mfa.py:250-292 | after an acceptance the same challenge is refused for 360 s and the same code for 120 s |
| `MfaStore.ClaimAnswers` | experiments/server/operator_mfa.py:174-178 | when a claim succeeds, fails, or gets no decision: by the ready marker and the life of an earlier claim; and how long it lives |
| `MfaStore.VerifyAnswers` | experiments/server/operator_mfa.py:250-292 | accepted if and only if the challenge is valid and unclaimed under an open store and, for an authenticator, the code matched an unclaimed step |
| `MfaStore.BudgetHistory` | experiments/server/operator_mfa.py:181-191 | the attempt counter always shows exactly the allowed attempts of the current window, never more than the budget |
| `MfaStore.BudgetAnswers` | experiments/server/operator_mfa.py:181-191 | an attempt is allowed, and then counted, if and only if the current window has had fewer than the budget |
| `MfaStore.BudgetOverAnyStretch` | experiments/server/operator_mfa.py:181-191 | at most twice the budget of password or verification attempts gets through in any interval of one window |
| `MfaClaims.StepKept` | experiments/server/operator_mfa.py:250-292 | every step keeps, for each kind of key up to its exact delay: a claim once made stays in force, through store loss and migration, until no verification can use its key |
| `MfaClaims.ChallengeOnce` | experiments/server/operator_mfa.py:260-278 | over every run with any number of concurrent verifications, store losses and migrations, a challenge is accepted at most once, for any check-to-claim delay below 60 s |
| `MfaClaims.StepOnce` | experiments/server/operator_mfa.py:279-292 | for each factor and time step at most one login is ever accepted (section 5.2 of RFC 6238), for any check-to-claim delay below 60.002 s |
| `MfaLateCode.CodeTwice` | experiments/server/operator_mfa.py:279-292 | that bound is exact: for every delay of 60.002 s or more there is a run that accepts one code of one factor twice |
| `MfaClaims.MinuteIsTooLong` | experiments/server/operator_mfa.py:199-219 | the bound is exact: for every delay of 60 s or more there is a run that accepts one challenge twice |
| `MfaVerdicts.Verdicts` | experiments/server/operator_mfa.py:363-381 | the exact condition of each of the six verdicts on account, proof, enrolment stamp, store and view: a view is reached only by a local account and, except for logout, under an answering store |
| `MfaVerdicts.ForeignStaysOut` | experiments/server/operator_mfa.py:91-94 | over runs: after an account stops being a local one, no session of it reaches any view, nobody signs in to it and its factors stay, until it is made local again |
| `MfaVerdicts.SignedOutStaysOut` | experiments/server/operator_mfa.py:363-399 | over runs: a session that was signed out makes no request until a new sign-in |
| `MfaSessions.ReachedIsProved` | experiments/server/operator_mfa.py:363-381 | an authenticated request reaching a view other than logout and setup rests on a factor acceptance for the same user and password at most 8 h old, and on the current factor set |
| `MfaSessions.FactorStays` | experiments/server/operator_mfa.py:379-381 | no step takes a user's last factor |
| `MfaSessions.FactorStaysForever` | experiments/server/operator_mfa.py:368-399 | no run of locked add, register and delete requests from any sessions reaches zero factors again |
| `MfaSessions.WhoChanges` | experiments/server/operator_mfa.py:368-399 | factors change only through a posted request of a verified session, or of the one enrolling session that creates the first; that session is signed out and nobody can enroll afterwards |
| `MfaSessions.ChangeUnseats` | experiments/server/operator_mfa.py:393-398 | at the moment of a change the acting session stays verified and every other verified one is not; another session is verified then if and only if a factor was deleted and its proof, still fresh, names the previous factors without that one |
| `MfaChanges.CalmRun` | experiments/server/operator_mfa.py:368-399 | over any run without a change or sign-in a session's proof names the current factors if and only if it did at the start or a page that was opened while verified, with other factors, was closed |
| `MfaChanges.AfterChange` | experiments/server/operator_mfa.py:368-399 | after a change and until the next change or sign-in, another session is verified if and only if its proof is young and either the deletion restored the factors it names or it closed a setup page opened while verified before the change |
| `MfaChanges.ActorStays` | experiments/server/operator_mfa.py:395-398 | the acting session is verified for exactly as long as it lasts and its proof is young; the change does not move the proof's time |
| `MfaChanges.OnlyActorStays` | experiments/server/operator_mfa.py:368-399 | with no other setup page of the user in flight, no other session is verified after an addition, and after a deletion exactly those whose factors it restores |
| `MfaChanges.WaitingCatchesUp` | experiments/server/operator_mfa.py:389-398 | that condition is needed: every session waiting on such a page with a young proof can close it next and is verified after the change |
| `MfaRuns.PageOutlivesChange` | experiments/server/operator_mfa.py:389-398 | a run from the initial state: a setup page fetched before an addition returns after it and its session stays verified |
| `MfaChanges.AddThenDelete` | experiments/server/operator_mfa.py:393-398 | for every state, adding a factor and deleting it again unseats and then revives every other verified session |
| `MfaRuns.DeletionCanRevive` | experiments/server/operator_mfa.py:395-398 | a run from the initial state in which a deletion makes another session verified again |
| `MfaGate.Gatekeeper.IsFresh` | experiments/server/operator_mfa.py:101-105 | `_fresh` on a missing or present record |
| `MfaGate.Gatekeeper.HasProof` | experiments/server/operator_mfa.py:108-112 | `_proof` holds exactly for a verified session |
| `MfaGate.Gatekeeper.BeginEnrollment` | experiments/server/operator_mfa.py:115-121 | only a local user without factors enrolls; anyone else is signed out |
| `MfaGate.Gatekeeper.CheckFactor` | experiments/server/operator_mfa.py:252-261 | a verification goes on exactly for a local user's current factor; anyone else is signed out |
| `MfaGate.Gatekeeper.AcceptFactor` | experiments/server/operator_mfa.py:292-293 | the proof names the factors, user and password read when the factor was checked, at the time it is made |
| `MfaGate.Gatekeeper.CompleteMfa` | experiments/server/operator_mfa.py:296-301 | the pending proof, and no other, enters the rotated session |
| `MfaGate.Gatekeeper.Call` | experiments/server/operator_mfa.py:363-399 | the middleware in place, for every request but a fetched setup page, is the protocol step: same verdict, same sessions, same factors |
| `MfaGate.Gatekeeper.OpenSetupPage` | experiments/server/operator_mfa.py:368-388 | a fetched setup page up to its view: the gate's verdict, and what was read under no lock is kept |
| `MfaGate.Gatekeeper.CloseSetupPage` | experiments/server/operator_mfa.py:389-399 | and after its view: the factors are read again, an enrolling session that has one is signed out, a verified one takes them into its proof |
| `SyncModel.Server.Process` | tools/sync_spike/model.py:119-177 | the handler in place answers and changes its state as the protocol's `Handle`, and keeps the paging invariant |
| `SyncModel.StepKept` | tools/sync_spike/model.py:97-177 | in every state the served pages of a session are a prefix 0..k-1 and no cursor of it points past k |
| `SyncModel.PostflightMeansAllSent` | tools/sync_spike/model.py:168-176 | a postflight answered 200 acknowledges a revision of which every rule was sent in that session |
| `SyncModel.SessionIsPinned` | tools/sync_spike/model.py:129-138 | a session's snapshot and expiry never change, whatever is published meanwhile |
| `SyncModel.PageAt` | tools/sync_spike/model.py:155-167 | the page and next cursor for an offset depend on the pinned snapshot alone, so repeated requests answer alike |
| `SyncModel.FollowingDelivers` | tools/sync_spike/model.py:155-167 | a client that starts empty and follows cursors gets rule i in request i and the end exactly at the last rule, with anything happening in between |
| `SyncAnswers.PreflightAnswers` | tools/sync_spike/model.py:122-138 | answered 200 if and only if the selected snapshot has rules and an approval and is not older than what the device acknowledged; then the unexpired unacknowledged session stays, or a new one pins that snapshot for 300 s |
| `SyncAnswers.RefusedAnswers` | tools/sync_spike/model.py:119-142 | another machine gets 403; without an unexpired session everything but a preflight gets 409 |
| `SyncAnswers.SessionAnswers` | tools/sync_spike/model.py:139-177 | within a session: which uploads are stored and which exceed the quota, which cursors stand for a page and which page, exactly when a postflight is answered 200, and what each answer changes |
| `SyncAnswers.SyncCompletes` | tools/sync_spike/model.py:119-177 | end to end, with anything by others in between: a client that follows the cursors, one page a rule, and still has its session is answered 200 at its clean postflight, which acknowledges the pinned revision |
| `SyncAnswers.UninterruptedSync` | tools/sync_spike/model.py:119-177 | and from every state with a usable snapshot not older than the acknowledged one such a sync exists: preflight 200, one page a rule, postflight 200 |
| `SyncAnswers.DurablePreflight` | tools/sync_spike/durable.py:130-151 | over the database: 200 if and only if the device is not revoked, the machine is right and anything was published; a new session pins the newest snapshot |
| `SyncAnswers.DurablePostflight` | tools/sync_spike/durable.py:130-151 | 200 if and only if the device is not revoked, memory accepts it, the transaction does not fail and no later revision was reported; then, and only then, that revision is written |
| `SyncAnswers.DurableRest` | tools/sync_spike/durable.py:130-151 | any other request of an unrevoked device is answered, and changes sessions, as by memory alone; a revoked one gets 403 and changes nothing |
| `SyncDurableServer.State.PublishFixture` | tools/sync_spike/durable.py:59-79 | stored exactly for a nonempty bounded approved snapshot newer than all stored ones, at most a hundred; existing snapshots never change |
| `SyncDurableServer.State.RevokeFixture` | tools/sync_spike/durable.py:97-99 | afterwards the device's row is revoked, with or without an earlier row; its reported revision and every other row stay |
| `SyncDurableServer.State.ReportFixture` | tools/sync_spike/durable.py:101-110 | a report is stored exactly for an unrevoked device, a published and not regressing revision; a refusal changes nothing |
| `SyncDurableServer.Persist` | tools/sync_spike/durable.py:141-147 | the report is stored exactly as `Reported` decides; one that was not stored is taken back from memory together with the session, and nothing else changes |
| `SyncDurableServer.HandleDurably` | tools/sync_spike/durable.py:130-151 | one request in place: database, memory and answer are those of `Durably`; memory never ahead of the database, a 200 postflight already stored, any other answer leaves the database alone |
| `SyncDurable.DurablyIsSteps` | tools/sync_spike/durable.py:130-151 | `Durably` is what an uninterrupted run of the process's steps does: look, answer, commit or fail, reply |
| `SyncDurable.DatabaseStep` | tools/sync_spike/durable.py:39-48 | every step of any process keeps snapshots, revocations and progress |
| `SyncDurable.RunOk` | tools/sync_spike/durable.py:113-151 | every run of several processes with crashes keeps database, memories and histories in order |
| `SyncDurable.StoredProgress` | tools/sync_spike/durable.py:101-110 | a stored revision never falls and is always published; a revocation never clears |
| `SyncDurable.NoReportAfterRevocation` | tools/sync_spike/durable.py:104-110 | after a revocation no report of that device commits, from any process |
| `SyncDurable.MemoryAndAnswers` | tools/sync_spike/durable.py:130-151 | memory acknowledges nothing the database lacks, and every postflight answered 200 is a committed report |
| `SyncDurable.ReportMeansAllSent` | tools/sync_spike/durable.py:139-148 | a report stands for a session of that device in which every rule of the published snapshot of that revision was sent |
| `Installer.WriterAgrees` | experiments/server/private_install_transport.py:144-158 | whoever writes a file of a bundle writes what the one package with that digest says |
| `Installer.StepOk` | experiments/server/private_install_transport.py:110-175 | every step of every command keeps: checked files complete, no unexpected file, reservation owned by its creator, launcher over |
| `Installer.AtMostOneLaunch` | experiments/server/private_install_transport.py:165-175 | over all interleavings, crashes and bundles the installer is launched at most once |
| `Installer.LaunchedIsThePackage` | experiments/server/private_install_transport.py:144-174 | at the launch the bundle holds a file for exactly the expected names, each byte for byte that of the package whose digest is the bundle id; it is the first launch |
| `Installer.CompleteForever` | experiments/server/private_install_transport.py:153-158 | a complete file is never changed afterwards by any command |
| `InstallerHost.Machine.Exclusive` | experiments/server/private_install_transport.py:24-30 | creation succeeds exactly where nothing exists and changes nothing otherwise |
| `InstallerHost.Machine.PutChunk` | experiments/server/private_install_transport.py:130-137 | a chunk is written once; the same data is accepted again, other data never |
| `InstallerHost.Machine.ReadChunks` | experiments/server/private_install_transport.py:138-139 | all chunks in order, or failure exactly when one is missing |
| `InstallerHost.Machine.SelectDirectory` | experiments/server/private_install_transport.py:146-152 | succeeds exactly when the recorded package is absent with its directory, or the same |
| `InstallerHost.Machine.InstallFiles` | experiments/server/private_install_transport.py:153-158 | succeeds exactly when every file is good and absent or already equal; nothing existing changes |
| `InstallerHost.Machine.Reserve` | experiments/server/private_install_transport.py:159-175 | context and reservation are both written, before the launch, or neither |
| `InstallerHost.Machine.Submit` | experiments/server/private_install_transport.py:110-175 | from the disk before the call, exactly when the installer is launched, said of digests, expansion and file list; then the whole uploaded package is on disk; a failed archive check leaves every file as it was; files only grow; at most one launch ever. Its steps are steps of `Installer` |
| `InstallerHost.FreshHostLaunches` | experiments/server/private_install_transport.py:138-175 | a good package whose chunks were uploaded under their true digests is launched on a host with nothing else of the bundle and no reservation |
| `InstallerHost.FalseArchive` | experiments/server/private_install_transport.py:139-141 | chunks that join to an archive of another digest are never launched, whatever else holds |
| `InstallerHost.VerifiedIsUploaded` | experiments/server/private_install_transport.py:139-145 | the checks on the archive pass exactly for a package of the bundle's digest in an archive of the given digest that lists each expected file once |
| `Supervision.NoAnchorNoTouch` | experiments/server/runtime_service.py:462-476 | if no answer of the environment ever shows exactly the containers of a valid anchor, no service container is stopped or started |
| `Supervision.StrangerUntouched` | experiments/server/runtime_service.py:515-520 | a container that no answer shows as one of the recorded generation is neither stopped nor started |
| `Supervision.ListenerAfterEmpty` | experiments/server/runtime_service.py:515-548 | whenever the listener is started, before it the anchor matched, exactly its applications were stopped, then backing data, dependencies, database, schema, security store, admission, search, workers and consumers were in order, in that order; since the stop no listener was started, nor a worker before admission was empty |
| `Supervision.PassedIsAnswered` | experiments/server/runtime_service.py:315-331 | whatever the log calls passed was issued directly before and had its own good answer, later than those of all earlier commands |
| `Supervision.TouchedIsFound` | experiments/server/runtime_service.py:462-476 | a container is stopped or started only after an answer showed exactly the containers of the matching anchor, and it is one of them |
| `Supervisor.Runtime.Call` | experiments/server/runtime_service.py:315-331 | which answer leads to success, failure or cancellation; what is issued and what enters the log |
| `Supervisor.Runtime.Inspect` | experiments/server/runtime_service.py:333-399 | the containers of the answer, seven different ones, one per service, and the same ones ever after; a failure has its cause in an answer |
| `Supervisor.Runtime.Wait` | experiments/server/runtime_service.py:401-411 | returns only after an answer on which the check held; otherwise cancelled, killed, or refused at the deadline |
| `Supervisor.Runtime.StopHelpers` | experiments/server/runtime_service.py:586-605 | a normal return leaves no helper: each was stopped, or a listing was without it (`Valid`); a container is stopped as a helper only if the answer shows its name, project, service and image |
| `Supervisor.Runtime.Oneoff` | experiments/server/runtime_service.py:419-429 | the check ran in a new helper on a good answer, and its helper is stopped whatever happens short of a kill |
| `Supervisor.Runtime.ContainerGeneration` | experiments/server/runtime_service.py:462-476 | for the containers an inspection showed: fails for a missing or different anchor, and a success is for exactly those |
| `Supervisor.Runtime.BindFresh` | experiments/server/runtime_service.py:478-513 | writes the first anchor only where none exists, with the containers that two good answers showed alike, with quiescence, backing data and manifest checked in between; it does so whenever those five answers are good and alike; touches no service container |
| `Supervisor.Runtime.ReconcileAdmission` | experiments/server/runtime_service.py:562-584 | the reconcile job's helper is issued only after a matching anchor and a good answer that every application is stopped, with nothing started since; a failure has its cause in an answer; touches no service container |
| `Supervisor.Runtime.StartGroup` | experiments/server/runtime_service.py:413-417 | starts only this group, exactly its containers as just inspected, only those of the matched anchor, only when the log justifies it |
| `Supervisor.Runtime.StartAll` | experiments/server/runtime_service.py:515-560 | a completed start ended with an answering listener and authorises the cleanup of exactly the recorded containers |
| `Supervisor.Runtime.StopAll` | experiments/server/runtime_service.py:607-616 | a normal return leaves no helper and every authorised container stopped or absent from the last listing; also when stopping helpers failed first, the containers are swept so, or the log ends with the refused listing or stop of that sweep |
| `Supervisor.Runtime.Supervise` | experiments/server/runtime_service.py:618-646 | with failure, signal or death at any step: every container touched is one the anchor records, none is touched unless an answer shows exactly those, the order of steps is justified throughout; a normal return comes only after a signal and a finished cleanup, a failure has its cause in an answer and its cleanup finished too or ended in a refused command, only a kill leaves more |

## Left out

- Docker, systemd and HTTP: only the outcomes the code branches on appear, as parameters or answers.
- `identity`, `credential_from`, configuration parsing and the logging filters of the admission module: string handling around the protocol.
- The field-by-field comparison in `Runtime.inspect`, the sentinels of `backing_data` and the manifest check: each is one answer of the environment.
- The contents of evidence and failure records and the `phase` label of the runtime: diagnostics.
- `status`, `record_terminal` and `completion` of the installer relay: readers of finished state; a submit or observe that finds the reservation changes nothing here.
- The configuration audit of the Redis server before each operation: an answer of the environment.
- Enrollment seeds, API-token views, template changes and the sign-in page of the operator policy: they decide nothing in the properties above.
- WebAuthn and TOTP verification inside the upstream views: a verification is the acceptance that `prepare_mfa` starts from.
- Password budgets as part of the login protocol: only the counting itself is modelled.
- The loopback HTTP handler, rotation of fixture tokens, the audit list and the two-device restriction of the sync model.
- Rule syntax in `Snapshot.fixture` and the 65536-byte limit of a published snapshot.
- Source rewriting, staging, database roles, recovery and the live checks.
- MfaSessions.ReachedIsProved: it speaks of the moment of the gate; what changes between the gate and the view of the same unlocked request is not considered, except for the setup page.
- AdmissionMiddleware.Call: paths outside the sync prefixes pass through and are not modelled.
- Supervisor.Runtime.Wait: the deadline is an answer of the environment, not a computed time.
