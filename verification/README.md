# Verified model of the zone package

cert-manager-webhook-mijn-host writes DNS-01 challenge records to mijn.host, an API
whose only write is "replace every record of the zone" and whose reads may be stale.
Its `zone` package makes that safe with three shared objects per zone: a Kubernetes
Lease used as a compare-and-swap lock, a ConfigMap with the wanted records, saved
with optimistic concurrency, and a payload rule applied to a fresh GET under an SOA
serial check. This project models that package and proves what the combination
guarantees, and where the guarantee ends.

## How the model is built

**Protocol.** `Protocol.dfy` is a labelled transition system: any number of actors,
one per Present, CleanUp or Sweep of a zone, each with its own clock and program
counter. Every API call is one step, so Get and Update of the Lease, Load and Save,
the two serial reads and the PUT interleave freely. A label says what a step leaves
open: whether a write lands and whether its answer arrives (a write that landed may
be reported as an error or as a conflict), which old version of the zone a GET
serves, what a nameserver answers, crashes, edits by others, time passing. The state
keeps the histories of commits, uploads and zone versions.

* `LeaseProofs.dfy`: mutual exclusion, the skew bound and its exactness, release, LeaseTransitions.
* `LostAnswers.dfy`: requests that hold the lock without knowing it.
* `TraceProofs.dfy`: what one request does, in which order and how often.
* `Outcomes.dfy`: why a request ended as it did, decided by one call and its answer.
* `LockWait.dfy`: a lock released in time is won; a release is tried three times.
* `Checks.dfy`: the questions a request has asked by the time it uploads.
* `Register.dfy`, `StoreProofs.dfy`: the ConfigMap as a fold of commits and as one
  register per key; the main theorem, that uploads match the store.
* `Stamps.dfy`: cutoffs and AddedAt against the clocks; nothing expires before its time.
* `LateWriter.dfy`: the exact condition under which no upload loses a wanted record.
* `ZoneProofs.dfy`: optimistic validation against the serial.
* `Overwrites.dfy`: what an upload replaces; own records and the placeholder over whole runs.
* `LateEdit.dfy`: the edit that the serial check cannot protect.
* `Convergence.dfy`: an undisturbed request finishes and leaves the zone as wanted.
* `PlainPayload.dfy`, `PlainRuns.dfy`: the payload rule, uploads and results in terms of
  type, name, value and TTL, with every condition written out.

**Code.** The Go code that changes state is modelled as imperative Dafny: maps,
slices and loops (`PayloadCode.dfy`, `Names.dfy`), compaction of a slice over its own
backing array (`StateCode.dfy`), the Lease lock (`LeaseLock.dfy`), the ConfigMap
store (`Store.dfy`), the reconciler (`Reconciler.dfy`), the operations
(`Requests.dfy`) and the nameserver cache (`Serial.dfy`). The code calls a
`World.Cluster`, which carries the protocol state and a script of what the
environment does. A call is allowed only where the protocol allows the step, with
the arguments the protocol prescribes, so verified code takes protocol steps only
and every theorem about runs applies to it. The methods' postconditions add what
each returns.

## What is assumed

* Holder tokens are unique. A PUT that takes effect does so before its call returns.
* API writes are those of an API server: create fails if the object exists, update
  fails on a stale version, every write makes a new version.
* Load and PUT are timely (`StoreProofs.TimelyRun`), in the theorem that uploads
  match the store and in those on what an upload overwrites. For Present and CleanUp it follows from bounded
  skew and the 50 s request timeout (`StoreProofs.PunctualIsTimely`); a sweep has one
  ten-minute context for all zones (solver.go:225), so there it stays an assumption.
* Fresh reads and moving serials (`ZoneProofs.FreshRun`, `SerialsMove`), in
  `ValidatedUpload` and `WindowIsExact` only; reads of the current version and no edits
  (`Overwrites.CurrentRun`) where own records are followed over whole runs.
* A presented name is or starts with the challenge label. Then every wanted record is
  a challenge record, which `ComputePayload` needs: any other is appended again by
  every run (`Payload.SettlesIffChallengeOnly`, `Payload.OwnGrows`).

## Where code and documentation differ

The design document in docs/ lists goals (its section 2) and describes the parts.

* "At most one writer per zone at any time" (goal 1):
  the lease is never renewed, so this holds as long as the time a request has been
  running plus the clock skew stays within the lease duration, and for no longer:
  `LeaseProofs.SkewBound`, `LeaseProofs.SkewBoundTight`.
* "No write may lose a challenge record that is still needed" (goal 2): guaranteed if
  and only if the time a request may take plus the clock skew fit into the lease
  duration (`LateWriter.GuaranteeIsExact`). Beyond that a writer that stalls before its
  PUT removes a stored record, serial check or not (`LateWriter.LateWriterLosesRecord`).
* "A release only clears a lease this very acquisition owns", and only after an
  acquisition that succeeded: when the answer to a landed write of the Lease is lost,
  the request gives up without releasing, and the zone is locked until the lease ends
  (`LostAnswers.TimeoutCanHoldLock`, `LostAnswers.AbandonedBlocks`).
* The window between the last serial read and the PUT is not bounded by anything in the
  code: an edit made in it is overwritten, with every check passed
  (`LateEdit.EditOverwritten`).
* Section 3.3 compares sets of records; the code compares name and value only, so a
  changed TTL alone causes no write (`Payload.DiffExact`). It also appends wanted
  records; the code leaves those the view shows where they are.
* Section 3.1 names objects by "dots replaced by dashes"; every character outside
  a-z and 0-9 becomes a dash, so `a.b` and `a-b` share a lock and a state
  (`Names.ObjectNameCollision`).
* Section 3.4: Present of a listed record also refreshes its TTL.

## Model

| member | source | states |
|---|---|---|
| StoreProofs.UploadsMatchStore | zone/reconciler.go:145-238 | in every interleaving with crashes, lost replies and stale reads, if Load and PUT are timely, every upload carries every stored challenge key once, and with OwnAcmeRecords no other challenge key; Save may be late |
| StoreProofs.PunctualUploadsMatchStore | solver.go:26-26 | the same from bounded clock skew and bounded requests, if every lease lasts for both together |
| StoreProofs.PunctualIsTimely | zone/lock.go:164-170 | if budget plus skew fit in the whole seconds of every lease, Loads and PUTs within the budget are timely |
| StoreProofs.UploadMatchesUnlessOvertaken | zone/reconciler.go:187-187 | without any lock assumption: an upload carries the keys of its own save; with OwnAcmeRecords it misses a stored key iff a save committed since presented it anew, and carries one that is not stored iff a save committed since ended it |
| LateWriter.LateWriterLosesRecord | zone/reconciler.go:214-234 | whenever budget plus skew exceed the lease, for any settings and any two records: a run within that skew and those budgets in which an upload removes a record that is stored and was in the zone |
| LateWriter.ReachesPut | zone/reconciler.go:189-234 | an undisturbed Present of a record the zone lacks comes to its PUT, without waiting for time to pass |
| LateWriter.GuaranteeIsExact | solver.go:26-26 | for any usable settings, every upload of every run within skew d and budget b carries all stored keys iff b + d fit into the lease duration |
| StoreProofs.SerializedIntents | zone/store.go:83-137 | lock or no lock, the ConfigMap is the fold in commit order of "drop expired, then mutate" over the committed saves, and holds challenge records only |
| StoreProofs.SaveOnPredecessor | zone/store.go:102-136 | a save commits only what was computed from its immediate predecessor; no update is lost |
| StoreProofs.IntentKept | zone/reconciler.go:178-182 | a saved intent stays in the history at its version however its request ends and whatever happens later |
| StoreProofs.StoredRegister | zone/reconciler.go:83-119 | for every reachable ConfigMap: one record per key, stored iff an incarnation is alive, AddedAt from the Present that began it, TTL from the last Present |
| Stamps.ExpiryIsDue | zone/reconciler.go:255-268 | a save drops or re-stamps a stored record only by a CleanUp of it or after the saving pod's clock passed AddedAt plus MaxRecordAge, and always when that was past before the request began |
| Stamps.StampRun | zone/reconciler.go:96-96 | cutoff and AddedAt are readings of the request's own clock, in order, between its start and now |
| Register.KeysSince | zone/reconciler.go:83-119 | which keys the commits since some point added to and took from the stored ones |
| Register.KeyRegister | zone/reconciler.go:255-268 | the same over any history of commits: ended by a later CleanUp or by a later commit whose cutoff is past AddedAt, and by nothing else |
| Register.StoredInFull | zone/reconciler.go:83-119 | after any history the stored records are one per living incarnation, in the order they began, with the name, value, time, challenge and DNS name of the Present that began it |
| Register.IncarnationInPlainTerms | zone/reconciler.go:83-119 | an incarnation lives from a Present when none was left until a CleanUp of its name and value or a cutoff past its time |
| Register.SecretFromHistory | zone/reconciler.go:164-166 | the stored key reference is that of the last request; sweeps leave it alone |
| Register.CommitOfCell | zone/reconciler.go:83-119 | one commit moves the register of every key as the register semantics say and keeps keys distinct |
| Register.RecordsAreRegisters | zone/reconciler.go:145-180 | the list of records and the register semantics agree after any history |
| Register.CellFromHistory | zone/reconciler.go:83-119 | the register is live exactly from the Present that began the current incarnation |
| StoreProofs.UploadsCarryRecords | zone/reconciler.go:195-212 | every upload in every run carries a record; it differs from the view in own records only by the placeholder, only when nothing else is left, and a view without own records was read twice |
| PlainRuns.UploadCarriesStored | zone/reconciler.go:187-199 | every upload of every run carries each saved record as TXT record with its TTL; with OwnAcmeRecords no other TXT record under the label |
| PlainRuns.UploadHasLastTTL | zone/reconciler.go:270-276 | that TTL is the one of the last committed Present of the name and value |
| PlainRuns.UploadPassesOthers | zone/payload.go:83-87 | every upload of every run carries records of another type or outside the label as often as its view, or is the placeholder alone and there were none |
| PlainRuns.UploadSharesZone | zone/payload.go:64-67 | without OwnAcmeRecords an upload lists a name and value under the label iff stored, or shown by its view and not the one to remove |
| PlainRuns.InSyncInPlainTerms | zone/reconciler.go:199-203 | a request that reports the zone in sync saw every name and value it saved, with OwnAcmeRecords no other under the label, and not the one it was to remove |
| StoreProofs.OrderRun | zone/reconciler.go:154-178 | in timely runs the holder that loaded is ahead of every other unsaved actor, and after its save holds the newest version until its PUT |
| LeaseProofs.Exclusion | zone/lock.go:118-162 | an actor past Acquire whose RenewTime plus duration no clock has passed is the recorded holder with exactly that RenewTime |
| LeaseProofs.SoleHolder | zone/lock.go:31-37 | no two actors are past Acquire with unexpired leases |
| LeaseProofs.LeaseRun | zone/lock.go:118-202 | the invariant behind it: copies read earlier are current iff their version is, an Update follows an expired or unheld copy, a clear follows an own copy |
| LeaseProofs.HolderStays | zone/lock.go:147-149 | the holder changes by its own release or after a clock saw the lease end, never otherwise |
| LeaseProofs.SkewBound | zone/lock.go:120-121 | if budget plus skew fit in the lease, no pod finds the lease of a running request expired |
| LeaseProofs.SkewBoundTight | zone/lock.go:120-134 | if they do not fit, some run has two actors past Acquire, the first still within its budget |
| LeaseProofs.DefaultsTolerateTenSeconds | solver.go:26-26 | 50 s requests and 60 s leases tolerate ten seconds of skew |
| LeaseProofs.ReleaseTouchesOwnLease | zone/lock.go:174-202 | a release, retries and takeovers included, changes only a Lease whose holder is its own token, and only clears the holder |
| LeaseProofs.HolderRecorded | zone/lock.go:132-155 | the Lease of a holder carries its duration and a RenewTime its clock had reached |
| LeaseProofs.TransitionsCount | zone/lock.go:152-157 | LeaseTransitions is the int32 count of acquisitions by update over the whole run |
| TraceProofs.TraceSafety | zone/reconciler.go:145-238 | after the lock is taken: released once and last, no zone access before the save, at most one upload, the payload of that save and the last view |
| TraceProofs.LogRun | zone/reconciler.go:145-238 | the trace invariant at every program counter of every actor |
| Outcomes.OutcomeIsDecided | zone/reconciler.go:145-238 | over every run, a request has an outcome exactly if one of its own calls, by its answer, decided it; each outcome has its calls |
| Outcomes.WrittenIsDelivered | zone/reconciler.go:234-234 | a request ends with success after a PUT iff one of its PUTs was answered; one refused or unanswered means failure |
| Outcomes.FailedWithoutLock | zone/lock.go:94-112 | a request that failed without having had the lock had an error from a call of its own for the lock; a held lock is a reason to wait |
| Outcomes.EndsWell | zone/reconciler.go:145-238 | without a failed call, a missing key or a required serial missing, a request that had the lock ends well unless it saw a move at every attempt |
| Outcomes.MovesAreSeen | zone/reconciler.go:214-237 | every move seen starts over with reads of its own: giving up after N means exactly 2N serial reads and N to 2N GETs |
| Outcomes.SaveComesFirst | zone/reconciler.go:178-195 | in the calls of a run, no request reads its key, the zone or its serial, or uploads, before a save of its own was answered |
| Outcomes.OneUpload | zone/reconciler.go:189-235 | in the calls of a run, no request uploads twice, whatever the first answer was |
| Checks.UploadIsChecked | zone/reconciler.go:189-226 | the last questions before an upload: a serial, the zone once or twice, and, if the serial came, a second serial, equal or missing and not required |
| Checks.UploadFromLastGet | zone/reconciler.go:195-212 | every upload is planned from the version of the zone that the last GET of its request was served |
| LockWait.ReleasedLockIsWon | zone/lock.go:94-112 | once the lock is free and nobody else contends, a waiting request that is not cancelled and within its wait begins at most one more attempt and has the lock after at most eight more steps |
| LockWait.ReleaseTries | zone/lock.go:179-199 | a finished request looked at the Lease one to three times to release it, fewer than three only if somebody else holds it or its write was answered by no conflict |
| TraceProofs.SerialGate | zone/reconciler.go:189-226 | an upload happens only with equal serials around its read, or with one unreadable and not required |
| TraceProofs.AttemptsBounded | zone/reconciler.go:189-237 | ErrZoneChanging means exactly MaxWriteAttempts observed moves and no upload; N attempts make at most 2N GETs and 2N serial reads |
| LostAnswers.TimeoutWithoutLock | zone/lock.go:103-112 | a timeout, strictly after the deadline, or a cancelled wait leaves the request the recorded holder only if the answer to one of its own landed writes was lost |
| LostAnswers.HolderByLostAnswer | zone/lock.go:138-161 | a request that has not seen itself take the lock is the recorded holder only through a landed write whose answer was lost |
| LostAnswers.TimeoutCanHoldLock | zone/lock.go:103-106 | a run, for any settings, in which the lock is timed out on by its recorded holder |
| LostAnswers.AbandonedBlocks | zone/lock.go:164-170 | the Lease of a holder that is done or crashed stays as it is, whatever anybody does, until some clock passes its end |
| ZoneProofs.ValidatedUpload | zone/reconciler.go:214-234 | with moving serials and fresh GETs, an upload between two serials carries the own records as they stood at the second, on any attempt |
| Overwrites.WindowIsExact | zone/reconciler.go:214-234 | in timely runs every version between the second serial read and the PUT was made by an edit; so without one a validated upload replaces the version it read and keeps its own records |
| ZoneProofs.OneVersion | zone/reconciler.go:214-222 | two equal serials around a read pin it to one version of the zone |
| ZoneProofs.ReadRun | zone/reconciler.go:189-222 | what every actor read is what the version history says, at every step |
| Overwrites.UploadKeepsOwn | zone/reconciler.go:195-234 | in timely runs with fresh reads and no edits an upload replaces exactly the version its writer saw, so keeps its own records, or writes the placeholder when there were none |
| Overwrites.VersionsHaveAuthors | zone/reconciler.go:234-234 | every version of the zone was uploaded by a request or made by an edit |
| LateEdit.EditOverwritten | zone/reconciler.go:214-234 | a run, with serials required and moving, fresh reads and the lease unexpired, in which a validated upload wipes out a record edited in after the second serial read |
| Overwrites.EmptyPlan | zone/reconciler.go:204-212 | an upload would be empty iff the view has no own records and no challenge key is wanted |
| Overwrites.OwnRecordsSurvive | zone/reconciler.go:204-212 | in every interleaving of timely requests with fresh reads and no edits, own records once there, the placeholder included, stay as they are |
| Overwrites.PlaceholderStays | zone/payload.go:127-131 | in such runs an upload that would be empty is the placeholder, which from then on is the one own record of the zone |
| Convergence.Converges | zone/reconciler.go:145-238 | from any zone and state, an undisturbed request leaves the zone's challenge keys equal to the wanted ones, with OwnAcmeRecords to those of the unexpired, mutated records; cutoff and stamp are its clock readings since it began; own records stay but for a placeholder, and the lock is free |
| Convergence.QuietFinishes | zone/reconciler.go:145-238 | an undisturbed request can always be completed, with a decreasing measure and without waiting |
| LeaseProofs.FirstAttemptWins | zone/lock.go:94-102 | a free or expired lease is won by the first attempt if no other write to it comes between, whatever else the others do |
| LeaseProofs.ExpiredInPlainTerms | zone/lock.go:164-170 | a lease counts as expired unless it has both times and the clock has not passed their sum |
| Convergence.SecondSweepIsIdle | zone/reconciler.go:124-140 | a sweep of a zone in sync at whose cutoff, a reading of its clock since it began, nothing expires uploads nothing |
| Convergence.PlanReaches | zone/payload.go:56-67 | carrying out the plan makes the zone's challenge keys the wanted ones, with or without ownAll; a write is planned iff they differ |
| PlainRuns.PresentedWithTTL | zone/reconciler.go:83-102 | a record presented into a zone that lacked it is there afterwards with the TTL of the request |
| PlainRuns.ConvergedInPlainTerms | zone/reconciler.go:145-238 | a converged zone lists every stored record, with ownAll nothing else under the label, and other records as before; a sweep keeps the stored records not older than its cutoff |
| Payload.PayloadMeaning | zone/payload.go:56-111 | own records pass in order and multiplicity; challenge keys are the desired ones, or without ownAll those plus the unremoved ones of the view, each once |
| PlainPayload.OthersPass | zone/payload.go:83-87 | a record of another type than TXT or outside the challenge label is uploaded as often as the view shows it |
| PlainPayload.OthersInOrder | zone/payload.go:83-87 | and such records keep their order, position by position |
| PlainPayload.WantedAreListed | zone/payload.go:93-108 | a name and value under the label is uploaded iff desired, or without ownAll shown by the view and not to be removed |
| PlainPayload.EachOnce | zone/payload.go:88-92 | no name and value under the label is uploaded twice |
| PlainPayload.FirstDesiredWins | zone/payload.go:93-107 | a wanted one is uploaded as the first desired record, TTL and all, any other as the view's record |
| PlainPayload.ChangeIsDifference | zone/payload.go:53-54 | a change is reported iff some name and value under the label is in only one of view and payload |
| PlainPayload.UploadOrder | zone/payload.go:80-110 | first what is kept, in the order of the view, then what is added, in the order desired |
| Payload.PayloadValues | zone/payload.go:93-107 | a wanted key is uploaded as its first desired record, TTL included, any other as the view's record |
| Payload.DiffExact | zone/payload.go:46-54 | Changed iff the challenge key sets differ; Add and Remove are the two differences, Kept completes both counts |
| Payload.Fixpoint | zone/payload.go:68-111 | a rerun on its own payload returns the identical sequence and adds and removes nothing |
| Payload.SettlesIffChallengeOnly | zone/payload.go:79-110 | a rerun adds nothing iff every desired record is a challenge record |
| Payload.NonChallengeDesiredIsRepeated | zone/payload.go:104-108 | a concrete zone and record that is doubled |
| Payload.OwnGrows | zone/payload.go:79-110 | desired TXT records outside the challenge label are appended to the own records by every run |
| Payload.OwnAllMultiset | zone/payload.go:60-62 | with ownAll the upload is, as a multiset, the own records plus the deduplicated desired ones |
| Payload.StaleViewsAgree | zone/payload.go:60-62 | with ownAll, two views with equal own records give the same upload as a multiset |
| Payload.DedupeMeaning | zone/payload.go:113-125 | deduplication keeps the first record of every key and nothing else |
| Payload.DedupeIdempotent | zone/payload.go:113-125 | deduplicating again changes nothing |
| Payload.ScanKept | zone/payload.go:83-103 | one pass over a view uploads every kept challenge key once and counts them |
| Payload.ScanRemoves | zone/payload.go:97-98 | it removes exactly the challenge keys it does not keep, each once, with a record of the view |
| PayloadCode.Dedupe | zone/payload.go:113-125 | the loop computes the deduplication |
| PayloadCode.ScanView | zone/payload.go:79-103 | the main loop computes the scan, and `present` ends as the challenge keys of the view |
| PayloadCode.ComputePayload | zone/payload.go:68-111 | the code computes the payload and diff the lemmas are about; for challenge-only desired records, records of another type or outside the label are uploaded as often as the view shows them, and a name and value under it iff desired, or without ownAll shown and not to be removed |
| Names.AbsoluteIdempotent | zone/payload.go:143-156 | an absolute name is its own absolute form |
| Names.AbsoluteIgnoresDot | zone/payload.go:143-156 | one trailing dot on either argument makes no difference |
| Names.DotTrims | zone/payload.go:147-148 | exactly one trailing dot is dropped |
| Names.AbsoluteIsChallenge | zone/payload.go:143-156 | the result is a challenge name iff the name, or for the apex the zone, is or starts with the challenge label |
| Names.AbsoluteInPlainTerms | zone/payload.go:143-156 | the absolute name lies in the zone and ends with a dot; a name in the zone gets the dot only, any other the zone, an empty one or @ is the zone |
| Names.PlaceholderIsOwn | zone/payload.go:127-131 | the placeholder is never a challenge record |
| Names.PlaceholderInPlainTerms | zone/payload.go:127-131 | the placeholder record, field by field |
| Names.SharedObject | zone/payload.go:158-171 | two zones that start and end alphanumeric share a Lease iff, without one trailing dot, they agree letter by letter after lower-casing and dashing |
| Names.ObjectNameInjective | zone/payload.go:158-171 | on hyphen-free dotted ASCII names: iff equal up to case and one trailing dot |
| Names.ObjectNameCollision | zone/payload.go:163-169 | `a.b` and `a-b` share their objects |
| Names.ObjectNameInPlainTerms | zone/payload.go:158-171 | the object name of a zone, character by character |
| Names.ObjectNameTrims | zone/payload.go:170-170 | of the cleaned zone exactly the dashes at both ends are dropped |
| Names.ObjectName | zone/payload.go:160-171 | the loop computes the name the lemmas are about |
| StateCode.State.DropExpired | zone/reconciler.go:255-268 | in-place compaction keeps exactly the unexpired records in order, returns the lapsed ones, and leaves the backing array beyond the old length alone |
| StateCode.State.CleanUp | zone/reconciler.go:106-119 | in-place compaction keeps exactly the records of other keys in order |
| StateCode.State.Present | zone/reconciler.go:83-101 | refreshes the TTL of the first listed record of the key, or appends a new one |
| StateCode.State.Append | zone/reconciler.go:92-99 | Go's append: in place within the capacity, else into a fresh array |
| StateCode.State.Desired | zone/reconciler.go:270-276 | record by record a TXT record with the name, value and TTL of the stored one |
| Desired.UnexpiredMembers | zone/reconciler.go:255-268 | the kept records are those with a zero AddedAt or one not before the cutoff |
| Desired.UnexpiredIsFilter | zone/reconciler.go:258-266 | expiry keeps what is not too old, in order and multiplicity |
| Desired.LapsedIsFilter | zone/reconciler.go:258-267 | and reports exactly the rest, in order |
| Desired.WithoutIsFilter | zone/reconciler.go:109-116 | clean-up keeps every record of another name or value, in order |
| Desired.DesiredMeaning | zone/reconciler.go:270-276 | the desired DNS records have the stored keys, and are challenge records when the stored names are |
| LeaseLock.LeaseLock.constructor | zone/lock.go:61-84 | values that are not positive pick the defaults |
| LeaseLock.WholeSecondsMeaning | zone/lock.go:121-121 | from 1 s up to 2^31 s only the fraction of a second is lost |
| LeaseLock.LeaseLock.IsExpired | zone/lock.go:164-170 | expired iff RenewTime or duration is missing or the clock is past their sum |
| LeaseLock.LeaseLock.TryAcquire | zone/lock.go:118-162 | one attempt is a run of protocol steps; held means the Lease records exactly this acquisition; broken means that a call for the lock failed or its answer did not come, never that the lock is held |
| LeaseLock.LeaseLock.Acquire | zone/lock.go:87-113 | terminates after at most wait/poll + 2 attempts; ends without the lock only past the deadline, by a failed call of its own, or cancelled; success means the Lease records exactly this acquisition; after an error the Lease names the request only if the answer to one of its own writes was lost; undisturbed, a free lock is won by the first attempt |
| LeaseLock.LeaseLock.Release | zone/lock.go:174-202 | at most three tries, ends with the request's outcome, touches nothing else of the actor |
| Store.ConfigMapStore.Load | zone/store.go:83-100 | the handle carries state and version of the ConfigMap, or the empty state to be created |
| Store.ConfigMapStore.Save | zone/store.go:104-137 | create or conditional update; on success the ConfigMap holds the handle's state at the handle's new version, on failure the handle stays |
| Store.ListZones | zone/store.go:140-154 | an error of the List call is passed on; else the non-empty annotations, in order |
| Store.NamedMeaning | zone/store.go:147-152 | every annotation is kept as often as it occurs, but the empty one, in order |
| Reconciler.HasOwnRecords | zone/reconciler.go:305-312 | true iff some record is of another type than TXT or outside the challenge label |
| Reconciler.Reconciler.constructor | zone/reconciler.go:67-78 | values that are not positive pick the defaults |
| Reconciler.Reconciler.ReadSerialBefore | zone/reconciler.go:243-253 | not checkable without a reader or an answer; else the serial the protocol recorded |
| Reconciler.Reconciler.ReadZone | zone/reconciler.go:284-301 | the view decided on has own records or is the second read after a view without; an error ends the request |
| Reconciler.Reconciler.Intend | zone/reconciler.go:171-180 | the in-place expiry and mutation of the handle are the protocol's, and what is saved is the handle |
| Reconciler.Reconciler.PayloadFor | zone/reconciler.go:199-212 | the decision for a view: nothing to do, or a non-empty payload |
| Reconciler.Reconciler.Attempt | zone/reconciler.go:189-235 | one turn of the loop ends the request with its outcome, Written only after a PUT that was answered, or starts the next attempt |
| Reconciler.Reconciler.WriteZone | zone/reconciler.go:189-237 | the loop ends with an outcome; running out of attempts is ErrZoneChanging |
| Reconciler.Reconciler.LoadState | zone/reconciler.go:160-169 | load, then the key reference of the request or the stored one; without a name the request ends |
| Reconciler.Reconciler.Reconcile | zone/reconciler.go:145-238 | runs with the reconciler's settings; every path ends with the lock released and the trace in order; in every run Written means an answered PUT, and a PUT refused or unanswered means failure; left alone it converges, with a cutoff and stamp read while it ran |
| Requests.RequestIsChallenge | zone/reconciler.go:83-107 | a request is for a challenge record iff its name, or for the apex its zone, is or starts with the challenge label |
| Requests.Present | zone/reconciler.go:83-102 | runs the cycle for the absolute name; Written means an answered PUT; left alone, the zone lists the record afterwards, and if it did not before, with the TTL of the request |
| Requests.CleanUp | zone/reconciler.go:106-119 | the same name, so the same key; Written means an answered PUT; left alone it leaves no TXT record of the name and value iff the name is under the challenge label or there was none |
| Requests.CleanUpKeepsOthers | zone/payload.go:83-87 | a record outside the challenge label survives its own CleanUp: the zone and request in which it does |
| Requests.Sweep | zone/reconciler.go:124-140 | nothing happens after a failed List; else every listed zone is reconciled once; the zones reported are exactly those that ended neither written nor in sync, in order, with repetitions, so none iff all went well; every zone left alone holds its unexpired records, with ownAll nothing else under the label, and other records as before |
| Requests.FailedMeaning | zone/reconciler.go:131-139 | the zones reported, position by position |
| Desired.PresentLists | zone/reconciler.go:83-102 | after Present the key is listed |
| World.Cluster.CreateLease | zone/helpers_test.go:33-49 | a create of an existing Lease is refused and changes nothing; otherwise the Lease stays missing or is the given one at version 1, which success guarantees |
| World.Cluster.UpdateLease | zone/helpers_test.go:50-70 | an update of a stale copy is refused and changes nothing; otherwise the Lease stays or is the given one at the next version, which success guarantees |
| World.Cluster.UpdateConfigMap | zone/helpers_test.go:50-70 | an update at a stale version is refused and changes nothing; otherwise the ConfigMap stays or is the given state at the next version, which success guarantees |
| World.Cluster.GetRecords | zone/reconciler.go:284-301 | a GET serves one of the versions the zone has had, not necessarily the newest, or fails |
| World.Cluster.PutRecords | zone/reconciler.go:234-234 | success means the zone is what was sent; only the planned, non-empty payload can be sent |
| Serial.DNSSerialReader.Nameservers | zone/serial.go:125-144 | fresh cache, else lookup, else stale cache; a result is never empty and is the latest successful lookup; failures leave both maps as they were |
| Serial.DNSSerialReader.Serial | zone/serial.go:73-107 | the maximum of everything the nameservers answered, or unavailable when nothing was |
| Serial.Highest | zone/serial.go:80-106 | the loop over nameservers and answers computes that maximum; unanswered iff there was no SOA at all |
| Serial.AnswersMeaning | zone/serial.go:83-99 | a serial counts iff some nameserver answered with it; the failures of others do not matter |
| Serial.MaximumIsNewest | zone/serial.go:94-96 | the plain maximum is newest in the sense of RFC 1982, section 3.2, iff the answers lie within 2^31 of it |
| Serial.SerialLessMeaning | zone/serial.go:94-96 | section 3.2 of RFC 1982 orders serials as additions below 2^31 reach them (section 3.1) |
| Serial.WrapPicksOldSerial | zone/serial.go:94-96 | across a wrap-around the plain maximum is the older serial |

## Left out

- Several zones in one cluster: a Cluster is one zone; zones with different object names do not interact, which is what `Names.SharedObject` decides. A sweep has one Cluster per zone.
- Requests.Present: names outside the challenge label are required away, and runs with such a request are not runs of the protocol; `Payload.OwnGrows` says what they do to a zone.
- LateWriter.GuaranteeIsExact: for requests that run with one common configuration, as the pods of one deployment do.
- Store.ListZones: the label selector is not modelled; the annotations the List call returned are the argument.
- Freshness and liveness without assumptions: the code accepts stale GETs that lead to a skipped write, and serials published late.
- Time below a microsecond, including a poll interval below one microsecond; a clock is one integer per actor. The AcquireTime field, always equal to RenewTime when written.
- Renewal of the Lease, deletion of the Lease or the ConfigMap, and updates of them by anybody but the webhook.
- A PUT that takes effect after its call has returned.
- The JSON form of the state: saving and loading is the identity on records; a ConfigMap without state data is one with the empty state; a decode error is a failed Load.
- The 32-bit width of the serial in the protocol, where serials are integers compared for equality only; Serial.dfy has the width.
- Resolution of the API key, apart from success or failure; HTTP, URLs and rate limits of the mijn.host client.
- The resolver, the wire format and the EDNS option of SOA queries, query timeouts, and the mutex of the nameserver cache; lookup and exchange are parameters.
- The date text of the placeholder, a parameter; error texts, logging, `Describe`.
- cert-manager and Kubernetes wiring, configuration parsing, the close-once watcher, trigger-context lookup, charts.
- Names.ObjectName: lower-casing follows Go only as far as it can yield an ASCII letter (A-Z, the Kelvin sign, the dotted capital I); every other character becomes a dash either way.
