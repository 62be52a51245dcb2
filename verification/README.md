# Verified models of the Proof base library

These Dafny modules model the stateful core of a Qt base library for network applications: its request
scheduler, its HTTP request parser, the locking of shared entities, calls queued between threads, the
two-layer settings tree and its write-back, the object caches with their expirator, the REST server's router
and worker pool, the migration driver with packed versions, and the SMTP dialogue. Code that changes state
is written as classes with methods; each method is tied by its contract to a function of the old state, and
the properties of the component are proved about these functions. Components that several threads enter at
once are also state machines whose events are the atomic steps of the code (what happens under a lock, one
delivery by an event loop), and their properties hold for every interleaving of every finite run.

| file | component |
|---|---|
| Text.dfy, Runs.dfy | strings, numbers and splitting; finite runs of a state machine |
| HttpParser.dfy | incremental HTTP request parser |
| NetworkScheduler.dfy | per-host request queue with an in-flight limit |
| EntityUpdate.dfy | copying one entity into another under two spin locks |
| QueuedCalls.dfy | calls queued to another thread through one signal |
| SettingsTree.dfy, SettingsErasure.dfy, SettingsGroup.dfy | local settings groups over global ones |
| GroupStack.dfy | writing one value into a settings file with open groups |
| ObjectsCache.dfy, CacheRuns.dfy | weak and guaranteed-lifetime object caches, expirator |
| RestNames.dfy, RestRouter.dfy | endpoint names and the tree that routes to them |
| WorkerPool.dfy | worker threads and their socket counts |
| PackedVersion.dfy, Migrations.dfy | packed versions and the migration driver |
| SmtpDialogue.dfy | sending one mail |

Properties that turned out to hold only under a condition are stated with the exact condition:

- Feeding a request in several chunks gives what feeding it in one piece gives exactly when no more bytes
  follow the blank line than the announced length (`HttpParser.SplitsAgreeIffNoOvershoot`); bytes after a
  printed request that parses and has a body are such bytes (`HttpParser.SurplusOvershoots`, and with a
  concrete case `HttpParser.OvershootingRequest`).
- A printed request is parsed back exactly when its start line and headers hold no NUL byte, at which the
  conversion of bytes to text stops (`HttpParser.ParseUndoesPrint`, and with a concrete case
  `HttpParser.RequestWithNul`).
- Deleting a global settings group keeps local and global names in step exactly when no local group at or
  below its counterpart holds a value of its own (`SettingsErasure.ErasedInvIffNoContent`, and with a
  concrete case `SettingsGroup.OrphanedContent`).
- Completion of entity updates is possible from every state. It is forced exactly when no call that has yet
  to take its source can be kept from it by another: because that other updates this source, or updates from
  the same source another target and has not given the source back. Then all runs are bounded; otherwise they
  can go on for ever (`EntityUpdate.EndlessIffContended`, and with a reachable case
  `EntityUpdate.OppositeUpdatesContend`).
- The passes over the migrations come to an end exactly when only finitely many of them lower a stored version
  (`Migrations.EndsIffFewLower`). So they do if no migration for a version above a stored one lowers one
  (`Migrations.RaisingEnds`), and a concrete registry shows that otherwise they may not
  (`Migrations.LoweringMayNotEnd`).
- A version printed and read back is the same version exactly when no part is above 32767
  (`PackedVersion.ReadBackIffFits`, and with failing cases `PackedVersion.LateDayIsLost`).
- Two endpoint names share a path exactly when they differ at most in the case of the letters that start
  their segments (`RestNames.CollideIffSameNormal`, and with two endpoints that do `RestNames.SharedPath`).

## Model

| member | source | states |
|---|---|---|
| HttpParser.Parser.StartLineState | src/proofnetwork/httpparser.cpp:72-97 | bytes up to the first line feed complete the start line, which is matched or rejected; without a line feed they are only kept |
| HttpParser.Parser.HeadersState | src/proofnetwork/httpparser.cpp:99-138 | one header line is matched and kept, a Content-Length is read or rejected, the blank line ends the headers; without a line feed bytes are only kept |
| HttpParser.Parser.BodyState | src/proofnetwork/httpparser.cpp:140-154 | the body grows by the chunk and decides on fewer, exactly or more bytes than announced |
| HttpParser.Parser.ParseNextPart | src/proofnetwork/httpparser.cpp:38-45 | the state methods are called until one decides or the chunk is used up; the call terminates |
| HttpParser.Parser.OnReadyRead | src/proofnetwork/abstractrestserver.cpp:796-815 | unless the body overshoots, the handler's result and everything the parser shows are the reference reading of all bytes read, however they were split |
| HttpParser.ChunkIndependence | src/proofnetwork/httpparser.cpp:38-154 | for every request that does not overshoot its body and every split into chunks, the outcome is the reference reading of the concatenation |
| HttpParser.OnePiece | src/proofnetwork/httpparser.cpp:38-154 | fed in one piece, every byte string gives its reference reading, overshoot included |
| HttpParser.SplitsAgreeIffNoOvershoot | src/proofnetwork/httpparser.cpp:140-154 | all splits of a byte string agree with feeding it in one piece if and only if it does not overshoot the announced body |
| HttpParser.SurplusOvershoots | src/proofnetwork/httpparser.cpp:140-154 | surplus bytes after a printed request make it overshoot, and some split of it disagree, if and only if the request has a body and no NUL in its start line or headers; in one piece it is then an error |
| HttpParser.OvershootingRequest | src/proofnetwork/httpparser.cpp:140-154 | a request and a split of it whose result is not that of feeding it in one piece |
| HttpParser.ParseUndoesPrint | src/proofnetwork/httpparser.cpp:32-154 | a printed request, with its length line anywhere among the headers, the length's name in any case and the bytes in any chunks, parses to success with exactly its method, uri, header lines and body, if and only if no NUL is in its start line or headers |
| HttpParser.RequestWithNul | src/proofnetwork/httpparser.cpp:72-97 | a request with a NUL in its uri that is not parsed back |
| HttpParser.LengthNames | src/proofnetwork/httpparser.cpp:112-112 | the name is the length's exactly if each of its 14 letters is that of content-length, small or capital |
| HttpParser.FieldMeans | src/proofnetwork/httpparser.cpp:107-120 | a field so named gives the number its value denotes and is bad if it denotes none of 64 bits; any other field leaves the length as it was |
| Text.ParsesIffDenotes | src/proofnetwork/httpparser.cpp:114-114 | a value is read as a number exactly if it is white space, perhaps a plus, zeros, the number in decimal, and white space |
| HttpParser.BadLengthIsRejected | src/proofnetwork/httpparser.cpp:112-120 | a request with such a bad length ends in an error at that line, in any chunks and whatever follows |
| HttpParser.StartLineTakenIffForm | src/proofnetwork/httpparser.cpp:72-97 | a first line is taken, as its method and uri, exactly if it is method, blank, uri without blanks, ' HTTP/1.0' or ' HTTP/1.1' and the line end, with no NUL |
| HttpParser.OtherStartIsRejected | src/proofnetwork/httpparser.cpp:72-97 | any other first line makes the request an error, in any chunks |
| HttpParser.OtherLineIsRejected | src/proofnetwork/httpparser.cpp:99-138 | after a sound start the first line that is neither blank nor name, colon, blank, value and line end, or that holds a NUL, makes the request an error with the headers before it kept |
| HttpParser.NoLengthNoBody | src/proofnetwork/httpparser.cpp:121-127 | a request without a length succeeds with an empty body, whatever follows the blank line |
| HttpParser.ReadPrintedLength | src/proofnetwork/httpparser.cpp:112-120 | the decimal length printed, its name in any case, is read back as the number, or rejected when it does not fit 64 bits |
| HttpParser.DecidedHeadersStay | src/proofnetwork/httpparser.cpp:99-138 | once the headers are accepted or rejected, further bytes change nothing but what follows the blank line |
| NetworkScheduler.ReachableInv | src/proofnetwork/restclient.cpp:789-860 | histories, slot counts, per-host order and wake-ups stay consistent over every interleaving of adding, picking, sending, skipping, cancelling and finishing |
| NetworkScheduler.SlotAccounting | src/proofnetwork/restclient.cpp:802-849 | the count of a non-empty host is the number of its requests picked but neither skipped nor finished, between 0 and 6; a request is picked exactly if it is the candidate, in flight or released, releases its slot at most once, and only if it was sent or is cancelled |
| NetworkScheduler.DrainedReleasesAll | src/proofnetwork/restclient.cpp:789-860 | once nothing is queued or in flight, every request ever added has been picked exactly once, has released its slot exactly once, and has been sent unless it was cancelled |
| NetworkScheduler.AddedAsAsked | src/proofnetwork/restclient.cpp:807-809 | over every run the requests added are those asked for, with their hosts, in order |
| NetworkScheduler.CancelledAsAsked | src/proofnetwork/restclient.cpp:810-815 | over every run exactly the requests whose cancellation was asked for are cancelled |
| NetworkScheduler.SentIfNotCancelled | src/proofnetwork/restclient.cpp:810-817 | over every run a request is sent only at a moment when it had been picked and not been cancelled |
| NetworkScheduler.PickedInOrder | src/proofnetwork/restclient.cpp:834-843 | the requests of one host are picked in the order they were added |
| NetworkScheduler.NoLostWakeUp | src/proofnetwork/restclient.cpp:802-849 | when no scheduling runs or is pending, every queued request waits for a non-empty host with exactly 6 requests in flight |
| NetworkScheduler.ProgressDecreasesWork | src/proofnetwork/restclient.cpp:789-860 | every step of progress decreases a measure of the queue and the requests in flight, and no other step without arrivals increases it |
| NetworkScheduler.ProgressIsBounded | src/proofnetwork/restclient.cpp:789-860 | without arrivals a run makes at most that many steps of progress |
| NetworkScheduler.StuckOnlyWhenDrained | src/proofnetwork/restclient.cpp:825-849 | while anything is queued or in flight, some step of progress can be taken |
| NetworkScheduler.QueueDrains | src/proofnetwork/restclient.cpp:789-860 | a run without arrivals that ends where no progress is left has emptied the queue, given back every slot, each request's exactly once, and sent every request that was not cancelled |
| NetworkScheduler.Scheduler.AddRequest | src/proofnetwork/restclient.cpp:807-809 | the request goes to the end of the list and nothing else changes |
| NetworkScheduler.Scheduler.TakeCandidate | src/proofnetwork/restclient.cpp:832-844 | the locked scan takes out the first request whose host is below the limit and counts its slot, unless its host is empty |
| NetworkScheduler.Scheduler.DecreaseUsage | src/proofnetwork/restclient.cpp:851-860 | a non-empty host's count goes down, and its entry goes at zero |
| NetworkScheduler.Scheduler.Schedule | src/proofnetwork/restclient.cpp:825-849 | the loop is a run of the machine from loop head to return; of the requests it takes out it sends exactly those not cancelled, in the order it takes them, and it leaves no request whose host has a free slot |
| EntityUpdate.CopiesDoNotOverlap | src/proofnetwork/networkdataentity.cpp:43-66 | two copies under way at once share no entity |
| EntityUpdate.NoHoldAndWait | src/proofnetwork/networkdataentity.cpp:53-58 | a thread waiting for the target's lock holds no lock |
| EntityUpdate.CopyIsAtomic | src/proofnetwork/networkdataentity.cpp:61-65 | from the end of the copy until the call completes the target is locked, its dirty flag is the source's as it was when both locks were taken, and its fetched flag is set if either was then; until the source is given back it has not changed |
| EntityUpdate.CallKeepsItsPair | src/proofnetwork/networkdataentity.cpp:43-66 | over every run a call that began as an update of a from b has target a and source b as long as it lasts |
| EntityUpdate.CallCopiesSource | src/proofnetwork/networkdataentity.cpp:43-66 | when such a call completes, a is dirty exactly if b was, and fetched exactly if a or b was, at the moment the call took both locks |
| EntityUpdate.CallWritesTargetOnly | src/proofnetwork/networkdataentity.cpp:43-66 | no step of such a call changes the flags of any entity but a |
| EntityUpdate.CanAlwaysComplete | src/proofnetwork/networkdataentity.cpp:43-66 | from every reachable state of any number of threads some continuation without new calls completes all updates |
| EntityUpdate.EndlessIffContended | src/proofnetwork/networkdataentity.cpp:43-66 | from every reachable state, arbitrarily long runs without new calls exist if and only if some call can be kept from its source by another; else every run is bounded, and one that cannot go on has completed all calls |
| EntityUpdate.BackOffCanRepeat | src/proofnetwork/networkdataentity.cpp:53-58 | whenever one call can be kept from its source by another, a run leads to a state from which the first fails, backs off and comes back to exactly that state |
| EntityUpdate.OppositeUpdatesContend | src/proofnetwork/networkdataentity.cpp:43-58 | two threads that start to update two entities from each other are in such a state |
| EntityUpdate.ReachableInv | src/proofnetwork/networkdataentity.cpp:43-66 | every lock is held by a thread whose place in the call says so, and locked pairs change only as the copy changes them |
| EntityUpdate.Entities.Begin | src/proofnetwork/networkdataentity.cpp:43-49 | updating an entity from itself does nothing; otherwise the call has the entity updated as its target and the other as its source |
| EntityUpdate.Entities.Lock | src/proofnetwork/networkdataentity.cpp:54-54 | the target is taken when it is free |
| EntityUpdate.Entities.TryLock | src/proofnetwork/networkdataentity.cpp:53-58 | the source is taken if it is free; otherwise the thread keeps the target only to give it back |
| EntityUpdate.Entities.GiveTargetBack | src/proofnetwork/networkdataentity.cpp:57-57 | the target is free again and the attempt starts over |
| EntityUpdate.Entities.CopyAndUnlock | src/proofnetwork/networkdataentity.cpp:61-65 | the copy sets the target's flags from the source's and gives back both locks, and nothing else |
| EntityUpdate.Entities.CopyFetchedFlag | src/proofnetwork/networkdataentity.cpp:61-61 | the target is fetched if either was |
| EntityUpdate.Entities.CopyDirtyFlag | src/proofnetwork/networkdataentity.cpp:62-62 | the target is dirty if and only if the source is |
| EntityUpdate.Entities.ReleaseSource | src/proofnetwork/networkdataentity.cpp:64-64 | the source's lock is free and the target's still held |
| EntityUpdate.Entities.ReleaseTarget | src/proofnetwork/networkdataentity.cpp:65-65 | the target's lock is free and the call is over |
| QueuedCalls.ReachableInv | include/proofcore/proofobject.h:164-210 | ids, connections and the deliveries queued and run stay consistent over every interleaving |
| QueuedCalls.ExactlyOnce | include/proofcore/proofobject.h:164-210 | a requested method has run once if its call is done and not at all before; an emitted call is done unless its own delivery is still queued |
| QueuedCalls.CallsAsIssued | include/proofcore/proofobject.h:164-210 | over every run calls are numbered in the order they were made, and each has the caller, the context and the kind it was made with |
| QueuedCalls.LiveConnections | include/proofcore/proofobject.h:182-207 | a call's connection is live from connecting until its method has run, and a blocking call's at most until it returns |
| QueuedCalls.PostedToAll | include/proofcore/proofobject.h:185-185 | a context gets a delivery for every live connection into it, and no other |
| QueuedCalls.RunsWhereCalled | include/proofcore/proofobject.h:173-207 | over every run a method runs only in the context that its call was made for, never for an id nobody took |
| QueuedCalls.RunsInIssueOrder | include/proofcore/proofobject.h:164-210 | the calls of one thread to one context run in the order they were issued |
| QueuedCalls.Invoker.NextQueuedCallId | src/proofcore/proofobject.cpp:70-74 | each call gets the next id |
| QueuedCalls.Invoker.ConnectFilter | include/proofcore/proofobject.h:182-184 | the filter of the call joins the live connections |
| QueuedCalls.Invoker.PostToAll | include/proofcore/proofobject.h:185-185 | an emission posts its id to the context of every live connection, in the order of connecting |
| QueuedCalls.Invoker.EmitCall | include/proofcore/proofobject.h:185-185 | the emission happens once per call, after its filter is connected |
| QueuedCalls.Invoker.DeliverNext | include/proofcore/proofobject.h:173-207 | a delivery runs the method if and only if the connection's own id comes back, and then a call nobody waits for disconnects |
| QueuedCalls.Invoker.EndBlocking | include/proofcore/proofobject.h:187-189 | a blocking call disconnects once it is done |
| SettingsTree.SetGlobalKeepsInv | src/proofcore/settingsgroup.cpp:179-208 | a global write with the local handler's reaction keeps the names of every local group the union of its own keys and its global group's names |
| SettingsTree.SetLocalKeepsInv | src/proofcore/settingsgroup.cpp:179-208 | so does a local write |
| SettingsTree.SetLocalShown | src/proofcore/settingsgroup.cpp:127-146 | after a local write the group shows that value, or the global one if its own was taken away; all other settings show what they did |
| SettingsTree.SetGlobalShown | src/proofcore/settingsgroup.cpp:127-146 | a global write shows exactly where no own value hides it |
| SettingsTree.AddLocalKeepsInv | src/proofcore/settingsgroup.cpp:148-177 | adding a local group, its global counterpart included, keeps the overlay invariant and links it to the counterpart |
| SettingsTree.AddLocalShown | src/proofcore/settingsgroup.cpp:148-177 | adding a group adds just that group and its missing counterpart, with no values, and every setting shows what it did |
| SettingsErasure.ErasedShown | src/proofcore/settingsgroup.cpp:210-246 | after deleting a global group every setting below it shows the local group's own value or nothing, and every other what it did; local groups below it stay exactly at or above own values |
| SettingsErasure.RemovedShown | src/proofcore/settingsgroup.cpp:210-246 | after deleting a local group every setting below it shows its global value, and every other what it did; no global value is lost, and just the global groups go that have, with all below them, a local group beside them and no value |
| SettingsErasure.ErasedInvIffNoContent | src/proofcore/settingsgroup.cpp:210-246 | deleting a global group keeps the overlay invariant if and only if no local group at or below its counterpart holds values of its own |
| SettingsErasure.RemovedKeepsInv | src/proofcore/settingsgroup.cpp:210-246 | deleting a local group keeps the overlay invariant |
| SettingsGroup.Groups.constructor | src/proofcore/settingsgroup.cpp:50-91 | the two main groups, linked |
| SettingsGroup.Groups.HearValueChanged | src/proofcore/settingsgroup.cpp:60-76 | the local names gain a valid key, and lose an invalid one that is not the group's own |
| SettingsGroup.Groups.GlobalSetValue | src/proofcore/settingsgroup.cpp:179-208 | a write to a global group and the reaction of the local group at the same path |
| SettingsGroup.Groups.LocalSetValue | src/proofcore/settingsgroup.cpp:179-208 | a write to a local group |
| SettingsGroup.Groups.HearGroupAdded | src/proofcore/settingsgroup.cpp:77-81 | the local names gain the new group |
| SettingsGroup.Groups.GlobalAddGroup | src/proofcore/settingsgroup.cpp:148-177 | a new global group, heard by the local group above it |
| SettingsGroup.Groups.LocalAddGroup | src/proofcore/settingsgroup.cpp:148-177 | a new local group with its global counterpart, which is made if it is missing |
| SettingsGroup.Groups.FindGroup | src/proofcore/settingsgroup.cpp:108-125 | a group is found if it is local or global, and otherwise added as the policy says; what is found is local afterwards |
| SettingsGroup.Groups.Value | src/proofcore/settingsgroup.cpp:127-146 | the own value, else the global one, else the default, stored where the policy says |
| SettingsGroup.Groups.SetValue | src/proofcore/settingsgroup.cpp:179-208 | writes go to the storage named; an invalid value deletes; the invariant is kept |
| SettingsGroup.Groups.DeleteGlobalValues | src/proofcore/settingsgroup.cpp:221-223 | deleting a global group's values one by one, each heard by the local group, leaves it without values and the local one with its own |
| SettingsGroup.Groups.GlobalDeleteGroup | src/proofcore/settingsgroup.cpp:210-246 | a global group and all below it go; local groups below stay exactly where they hold values of their own, all signals and re-entered deletions included |
| SettingsGroup.Groups.HearGroupRemoved | src/proofcore/settingsgroup.cpp:82-89 | the local name goes with the global group, and an empty local group is deleted |
| SettingsGroup.Groups.LocalDeleteGroup | src/proofcore/settingsgroup.cpp:210-246 | a local group and all below it go, and with them the global groups that hold nothing |
| SettingsGroup.Groups.DeleteGroup | src/proofcore/settingsgroup.cpp:210-246 | either deletion as clients call it; the invariant is kept if and only if no content is orphaned |
| SettingsGroup.Groups.Perform | src/proofcore/settingsgroup.cpp:108-246 | one client call, with the effect that its kind of call has; the invariant is kept if and only if it orphans no content |
| SettingsGroup.Groups.PerformAll | src/proofcore/settingsgroup.cpp:108-246 | any sequence of set, get, add, find and delete calls, each with its effect on the state the one before it left, keeps the overlay invariant in every state up to the first call that deletes a global group whose local counterpart has content |
| SettingsGroup.Groups.PerformUntilOrphaned | src/proofcore/settingsgroup.cpp:57-246 | the same with that call performed as well, which breaks the invariant; in no state does a signal of a global group reach a local group at another path |
| SettingsGroup.OrphanedContent | src/proofcore/settingsgroup.cpp:86-88 | such a deletion does break it: a value in a local group, and its global group deleted |
| GroupStack.SettingsFile.BeginGroup | src/proofcore/settings.cpp:211-212 | a group is opened under its normalized name |
| GroupStack.SettingsFile.EndGroup | src/proofcore/settings.cpp:205-205 | the last group is closed and the prefix shortened by its name |
| GroupStack.NameFromPaths | src/proofcore/settings.cpp:204-209 | the name of the group just closed is what the longer path has beyond the shorter one and a slash, slashes inside the name included |
| GroupStack.Unwind | src/proofcore/settings.cpp:202-209 | closing groups until no path is left recovers the names of all groups closed |
| GroupStack.GroupValueChanged | src/proofcore/settings.cpp:197-224 | the value is stored or removed at the place the key names from the top, whatever groups were open, and exactly these groups are open again |
| GroupStack.WritesAtJoinedKey | src/proofcore/settings.cpp:211-217 | for names in normal form that place is the names joined by slashes; removing takes away this key and those that begin with it and a slash, and leaves all others as they were |
| GroupStack.SiblingStays | src/proofcore/settings.cpp:211-217 | removing a takes a/b away and leaves ab |
| GroupStack.NormalIffTidy | src/proofcore/settings.cpp:211-217 | the names that stay as they are are those without slashes at their ends or twice in a row; any other becomes one of these with the same parts |
| ObjectsCache.WeakCache.AddPrivate | include/proofcore/objectscache.h:200-216 | a live object under the key is returned and the creator not called; otherwise what it makes is stored and returned |
| ObjectsCache.AddAnswers | include/proofcore/objectscache.h:200-216 | an addition that may not overwrite answers with the live object stored under the key and changes nothing; any other stores what was made, over a live object too, and answers with it |
| ObjectsCache.AddedIsCurrent | include/proofcore/objectscache.h:200-216 | what an addition answered with is what the cache answers with next, as long as it lives |
| ObjectsCache.WeakCache.Add | include/proofcore/objectscache.h:109-114 | a null object or the default key passes through and is not stored |
| ObjectsCache.WeakCache.AddCreated | include/proofcore/objectscache.h:116-121 | the default key always calls the creator and stores nothing |
| ObjectsCache.WeakCache.CleanUp | include/proofcore/objectscache.h:172-177 | the entry goes only if its object is dead, so no key loses a live object |
| ObjectsCache.WeakCache.Value | include/proofcore/objectscache.h:155-182 | the live object, else nothing, or a new object for the default key; a dead entry is cleaned up |
| ObjectsCache.GuaranteedCache.Add | include/proofcore/objectscache.h:289-297 | the object is guarded if it is what the cache now answers with |
| ObjectsCache.GuaranteedCache.AddCreated | include/proofcore/objectscache.h:299-311 | what the creator made is guarded; an object already there is not guarded anew |
| ObjectsCache.GuaranteedCache.AddToExpirator | include/proofcore/objectscache.h:326-332 | a minimum life of zero guards nothing |
| ObjectsCache.Expirator.AddObject | src/proofcore/expirator.cpp:76-86 | the object joins the bucket five seconds after the expiration time rounded down to five seconds |
| ObjectsCache.Expirator.TimerEvent | src/proofcore/expirator.cpp:98-109 | exactly the buckets not later than the last clock reading go |
| CacheRuns.IdentityMap | include/proofcore/objectscache.h:155-216 | while an object handed out for a key since the key was last overwritten or removed is alive, it is the only such object, and add() returns it, over every interleaving |
| CacheRuns.ValueReturnsTheLiveOne | include/proofcore/objectscache.h:155-182 | value() returns such an object however many other steps come between its phases, if the object lives until the second |
| CacheRuns.NothingForgotten | include/proofcore/objectscache.h:155-216 | in runs that overwrite, remove and clear nothing, this covers every object ever handed out |
| CacheRuns.NeverRevived | include/proofcore/objectscache.h:155-216 | an object without references never comes back |
| CacheRuns.GuaranteedLifetime | include/proofcore/objectscache.h:289-332 | an object registered at a time with a positive minimum life is alive until that time plus the life, in any run; and while its key is undisturbed the cache answers with it |
| CacheRuns.AddedIsHanded | include/proofcore/objectscache.h:289-297 | an added object is registered exactly when it may overwrite or no other object is alive under the key, and is then bound to its key |
| CacheRuns.CreatedIsHanded | include/proofcore/objectscache.h:299-311 | what a creator made is registered exactly when no live object was there, and is then bound to its key |
| CacheRuns.OverwritingAddIsFound | include/proofcore/objectscache.h:109-114 | an addition that may overwrite makes the cache answer with the new object, whatever was there, and leaves other keys alone |
| CacheRuns.ExpiredIsReleased | src/proofcore/expirator.cpp:76-109 | after a clean-up five seconds past a promise its bucket is gone, and an object with only such promises lives by other references or not at all |
| CacheRuns.ReachableInv | include/proofcore/objectscache.h:155-332 | births, identities, buckets and promises stay consistent over every interleaving |
| RestNames.Mangle | src/proofnetwork/abstractrestserver.cpp:641-648 | the loop that inserts while it scans terminates and computes the character-by-character rewriting |
| RestNames.MangledCapital | src/proofnetwork/abstractrestserver.cpp:641-648 | one capital letter more adds the small letter, after a '-' unless it starts the name or follows a '_' |
| RestNames.MangledOther | src/proofnetwork/abstractrestserver.cpp:641-648 | any other character more adds itself |
| RestNames.UnmangleMangled | src/proofnetwork/abstractrestserver.cpp:641-648 | a path can be read back to the name, up to the case of the letters that start segments |
| RestNames.CollideIffSameNormal | src/proofnetwork/abstractrestserver.cpp:641-648 | two names without '-' get the same path if and only if they differ at most in the case of these letters |
| RestNames.InitialCaseIsLost | src/proofnetwork/abstractrestserver.cpp:641-648 | two names without '-' that differ in the case of one letter that starts a segment get the same path |
| RestNames.SharedPath | src/proofnetwork/abstractrestserver.cpp:639-648 | two endpoints of different names with the same path |
| RestNames.WellNamedDoNotCollide | src/proofnetwork/abstractrestserver.cpp:641-648 | rewriting is injective on names with a lower-case scheme and segments that start with an upper-case letter |
| RestNames.PathsAreDistinct | src/proofnetwork/abstractrestserver.cpp:639-661 | so different well-named endpoints are registered at different paths |
| RestRouter.Router.Child | src/proofnetwork/abstractrestserver.cpp:653-658 | the child of a node, made empty if it is missing |
| RestRouter.Router.AddMethodToTree | src/proofnetwork/abstractrestserver.cpp:639-661 | the nodes along the path are made as needed and the last one gets the name and the tag; nothing else changes |
| RestRouter.Router.FillMethods | src/proofnetwork/abstractrestserver.cpp:624-637 | the tree holds what registering all endpoints in order gives |
| RestRouter.Router.FindMethod | src/proofnetwork/abstractrestserver.cpp:597-622 | the entry at the longest lower-cased prefix with a node, if one is registered there, with the remaining parts decoded; nothing for fewer than two parts |
| RestRouter.FilledAt | src/proofnetwork/abstractrestserver.cpp:624-661 | the tree has a node exactly at the prefixes of registered paths, and there the entry of the last endpoint registered at exactly that path |
| RestRouter.LongestPrefixAnswers | src/proofnetwork/abstractrestserver.cpp:597-661 | a request is answered by the last endpoint registered at exactly the longest of its lower-cased prefixes that is a prefix of a registered path, and by nothing if there is none |
| RestRouter.EveryEndpointIsFound | src/proofnetwork/abstractrestserver.cpp:597-661 | every one of a set of well-named endpoints is found at its own path, in any case of the request's letters, with no variable parts |
| RestRouter.PathUnderPrefix | src/proofnetwork/abstractrestserver.cpp:582-595 | a path below the path prefix, in any case of its letters, gives the request type and the parts below the prefix, and no other path does; a path outside the prefix gives nothing and has no answer |
| WorkerPool.Server.MinElement | src/proofnetwork/abstractrestserver.cpp:478-481 | the first worker with the smallest count |
| WorkerPool.Server.IncomingConnection | src/proofnetwork/abstractrestserver.cpp:468-498 | the connection goes to the least loaded worker if it is idle or the pool is full, else to a new worker, and is counted there |
| WorkerPool.AcceptedMeans | src/proofnetwork/abstractrestserver.cpp:468-498 | the worker taken has the fewest sockets and gets one more if some worker is idle or the pool is full; otherwise one new worker is added with this connection and no other changes |
| WorkerPool.DecideTakesIdle | src/proofnetwork/abstractrestserver.cpp:476-484 | in every reachable state the worker found is taken if it is idle at that moment or the pool is full, and a new one is made otherwise |
| WorkerPool.AcceptAtOnce | src/proofnetwork/abstractrestserver.cpp:468-498 | so do the steps of looking, deciding and counting of the state machine when nothing comes between them |
| WorkerPool.ChosenWasLeast | src/proofnetwork/abstractrestserver.cpp:476-487 | however counts go down while the server looks and decides, the worker it chooses has no more sockets than any worker had when it began to look |
| WorkerPool.Server.RegisterSocket | src/proofnetwork/abstractrestserver.cpp:726-730 | the socket of a connection handed over is registered; counts stay |
| WorkerPool.Server.DeleteSocket | src/proofnetwork/abstractrestserver.cpp:732-749 | a registered socket is taken out and counted down once; any other changes nothing |
| WorkerPool.CountsAreConnections | src/proofnetwork/abstractrestserver.cpp:468-498 | over every interleaving a worker's count is the number of connections handed to it and not yet counted down, no connection is counted down twice, and the pool is at most the larger of 1 and the suggested size |
| WorkerPool.DeleteTwice | src/proofnetwork/abstractrestserver.cpp:732-749 | deleting a socket again changes nothing |
| WorkerPool.NoLeavingKeepsLevel | src/proofnetwork/abstractrestserver.cpp:468-498 | as long as no connection leaves, the counts of any two workers differ by at most one |
| WorkerPool.ReachableInv | src/proofnetwork/abstractrestserver.cpp:468-794 | pool, counts, registered sockets and the record of connections stay consistent |
| PackedVersion.PartsOfPacked | include/proofcore/helpers/versionhelper.h:32-45 | sixteen-bit parts can be taken out of the packed number again |
| PackedVersion.PackedSum | include/proofcore/helpers/versionhelper.h:32-35 | packing sixteen-bit parts by shifts and bitwise or loses nothing: it is their weighted sum |
| PackedVersion.PackParts | include/proofcore/helpers/versionhelper.h:32-45 | every packed version is what packing its parts gives |
| PackedVersion.OrderIsLexicographic | include/proofcore/helpers/versionhelper.h:32-35 | packed versions are ordered as numbers as their parts are lexicographically |
| PackedVersion.PartReadBack | include/proofcore/helpers/versionhelper.h:47-53 | a printed part is read back as itself up to 32767 and as 0 above |
| PackedVersion.ReadBackIffFits | include/proofcore/helpers/versionhelper.h:47-67 | a version printed and read back is itself if and only if no part is above 32767 |
| PackedVersion.NegativeReadBack | include/proofcore/helpers/versionhelper.h:47-53 | a part with a minus is read as the negative number down to -32768 and as 0 below |
| PackedVersion.NegativeDay | include/proofcore/helpers/versionhelper.h:47-53 | a negative last part, its sign extended, fills all bits above it |
| PackedVersion.PartsThatCount | include/proofcore/helpers/versionhelper.h:47-58 | fewer than four parts are no version, and parts beyond the fourth do not count |
| PackedVersion.LateDayIsLost | include/proofcore/helpers/versionhelper.h:47-67 | a version that is all one last part above 32767 is read back as zero |
| Migrations.CoreApplication.AddMigration | src/proofcore/coreapplication.cpp:316-321 | the migration joins the end of the list for its version |
| Migrations.CoreApplication.NextKey | src/proofcore/coreapplication.cpp:457-458 | the iteration goes to the next larger version |
| Migrations.CoreApplication.RunListsAbove | src/proofcore/coreapplication.cpp:457-478 | the nested loops run all migrations above a version in order until one changes a stored version |
| Migrations.CoreApplication.ExecMigrations | src/proofcore/coreapplication.cpp:436-485 | nothing is run exactly if neither stored version is below the running one, and then the settings are left alone; otherwise passes are repeated until one changes no version, each given the versions it found and accounting for the settings it left, and then the running versions are stamped; the driver terminates whenever the passes come to an end |
| Migrations.JobsAfterExact | src/proofcore/coreapplication.cpp:450-479 | a pass covers every migration above a version once and no other, by ascending version and in the order they were added |
| Migrations.DriveFollows | src/proofcore/coreapplication.cpp:448-479 | each pass starts with the versions stored then, leads to the settings that running its migrations one after the other gives, and is cut off at the first that changes a stored version; the last changes none and runs all that are due |
| Migrations.LastPassIsComplete | src/proofcore/coreapplication.cpp:436-485 | the last pass ran exactly the migrations registered for a version above one of the two stored when it ended, each once and in order; every other pass ran a first part of what was due to it |
| Migrations.EndsIffFewLower | src/proofcore/coreapplication.cpp:448-479 | for every registry and stored settings the passes come to an end if and only if only finitely many of them are cut short with a stored version lower than before |
| Migrations.RaisingEnds | src/proofcore/coreapplication.cpp:448-479 | they do if no migration for a version above one of the stored ones lowers a stored version |
| Migrations.LoweringMayNotEnd | src/proofcore/coreapplication.cpp:448-479 | there is a registry, with a migration that lowers a version, whose passes never end |
| Migrations.PackTrimmed | src/proofcore/coreapplication.cpp:438-441 | white space around a version text does not count |
| Migrations.StartAgain | src/proofcore/coreapplication.cpp:436-446 | a second start with the same versions runs no migration, whichever are registered |
| SmtpDialogue.SmtpClient.OnReadyRead | src/proofnetwork/smtpclient.cpp:209-270 | the reaction to a reply: the next command, the start of encryption, success, or the end |
| SmtpDialogue.SmtpClient.OnEncryptionReady | src/proofnetwork/smtpclient.cpp:279-284 | EHLO again once the connection is encrypted |
| SmtpDialogue.SmtpClient.OnError | src/proofnetwork/smtpclient.cpp:272-277 | an error closes the dialogue and leaves its result |
| SmtpDialogue.AnswerIsNext | src/proofnetwork/smtpclient.cpp:215-254 | whatever command a reply is answered with beyond the opening is the next one of the script, and the reply has the code it must follow |
| SmtpDialogue.TraceFollowsScript | src/proofnetwork/smtpclient.cpp:155-312 | for every sequence of replies what is sent is a prefix of the script EHLO (STARTTLS EHLO)* AUTH LOGIN, user, password, MAIL, RCPT for to, cc and bcc in order, DATA, message, QUIT, each after its code; success means all of it was sent |
| SmtpDialogue.EhloIsAnswered | src/proofnetwork/smtpclient.cpp:218-225 | in every reachable state a 250 to EHLO is answered with STARTTLS if it is offered and the connection is to use it, and with AUTH LOGIN otherwise |
| SmtpDialogue.DialogueGoesOn | src/proofnetwork/smtpclient.cpp:215-270 | in every reachable state past the opening the reply that the next command of the script must follow leads to that command, and any other reply ends the dialogue without one and without success |
| SmtpDialogue.NoLoginBeforeEncryption | src/proofnetwork/smtpclient.cpp:218-284 | where STARTTLS is to be used and the server offers it to the first EHLO, no login command is sent before the connection is encrypted, whatever else happens |
| SmtpDialogue.MailIsSent | src/proofnetwork/smtpclient.cpp:209-312 | for every mail and number of rounds of encryption the expected replies, and any reply after them, send the whole script and end in success |
| SmtpDialogue.RecipientsAreNamed | src/proofnetwork/smtpclient.cpp:154-180 | the script names the to, then the cc, then the bcc recipients, each once in their order |
| SmtpDialogue.SuccessIsReplyToQuit | src/proofnetwork/smtpclient.cpp:252-259 | a reply gives success if and only if the whole script, QUIT on the message's 250 included, has been sent |
| SmtpDialogue.ReachableInv | src/proofnetwork/smtpclient.cpp:209-312 | stage, recipients left and commands sent stay in step |

## Left out

- Parser: bytes outside ASCII are not decoded, and the two line patterns are written as direct definitions of
  their greedy matches, with no general regular expressions.
- HttpParser.ChunkIndependence: does not cover requests with more bytes after the blank line than announced; for these the
  outcome does depend on the split, as HttpParser.SplitsAgreeIffNoOvershoot shows.
- Scheduler: a cancellation between the check of the promise and its filling, and the replies' own timeouts, are not steps of
  the model; the promise that reports the end of a reply is filled once.
- NetworkScheduler.Scheduler.Schedule: covers calls whose candidates' handlers add no requests; the state machine covers the others.
- Entity updates: the retry loop is the machine's events and the step methods of a class, since the loop need not end; marking an
  entity dirty without its lock, and handlers of its signals, are not modelled. Only the two flags of an entity are copied.
- EntityUpdate.Entities.CopyAndUnlock: is its four writes in a row, each a method of its own; what other threads do between them
  is in the state machine, as in EntityUpdate.CopyIsAtomic.
- Queued calls: the wrap-around of the 64-bit id, calls that block event handling, and deletion of an object while calls
  are queued to it.
- Settings: groups are kept by path in two maps, and a global group is identified by a number that its local group keeps as its
  link, instead of objects that point to each other; deleted objects that still await their destruction are not looked at again.
- Settings: whether a signal is emitted further up, equality of stored and default variants beyond being equal, and files on disk.
- Settings: the loops of deleteGroup are methods of their own, one for values and one for subgroups on either side.
- GroupStack: each loop of the write-back is a method of its own; array groups and fallback files of the settings format.
- ObjectsCache.WeakCache.Value: looks the key up in this cache only; asking the strong and the other weak cache after it is not modelled.
- Caches: the strong cache and the list of keys; creators that call the cache again.
- Caches: the clock is not set back; times are whole milliseconds and buckets ignore time zones whose offset is not a multiple of
  five seconds. A clean-up is one step at the time of its last clock reading.
- Router: the nodes of the tree are kept in one list and refer to each other by position instead of being nested by value;
  decoding of percent signs is a parameter; authentication tags are kept but not acted on.
- Router: letters outside ASCII, and requests split at '?'.
- WorkerPool.Server.IncomingConnection: looks, decides and counts with nothing between; counts that go down meanwhile are in the
  state machine, as in WorkerPool.ChosenWasLeast.
- Worker pool: a change of the suggested size while running, the address of a deleted socket used again for a new one, and stopping.
- Packed versions: shifts, masks and the bitwise or are arithmetic on natural numbers below 2^64.
- Migrations.CoreApplication.ExecMigrations: requires that the passes end unless the settings are up to date; without that the loop
  does not terminate, and its contract would say nothing.
- Migrations: the loop over the lists and the loop over one list are methods of their own; settings other than the two versions
  are one map of texts.
- SMTP: the wording of replies beyond their code and the mention of STARTTLS, extracting addresses from names, base64, and the
  text of the message. STARTTLS can repeat, so no end is claimed for every server.
- Sockets, SSL, timers, log files, QML wrappers, JSON, URL queries, notification handlers and the AMQP clients are not part of
  this model.
