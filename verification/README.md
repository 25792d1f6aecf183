# Dockwatch: a verified model of the update and rollback controller

Dockwatch watches running containers, replaces them when a newer image digest appears, and
puts the old digest back when the new container turns unhealthy. Its parts run as separate
goroutines over one in-memory store and one Docker daemon. This project models those parts
and proves what they guarantee together, in every interleaving, and where exactly a
guarantee stops.

`dafny verify dfyconfig.toml` checks everything.

## How the project is laid out

| file | what it is about |
|---|---|
| `GoStrings`, `Decimal` | the string and number operations of Go's library that the parsers use |
| `ImageRefs` | the image-reference parsers and rewriters, and how they agree |
| `Semver` | version tags, label strategies and the executor's decision |
| `Challenge` | the Bearer challenge parser |
| `DigestStore` | the store: its value, runs of its operations, and the mutable classes |
| `Docker` | the daemon, `Recreate` as a protocol, and the client class |
| `RecreatePool` | any number of interleaved `Recreate` calls |
| `ControlLoop` | executor, rollback engine, watcher and health monitor as interleaved steps |
| `HandlerRuns`, `Engines` | one handler run alone, undisturbed updates; the handlers as methods over the mutable classes |
| `Agreement`, `Races` | when store and daemon agree on digests, exactly, and the race that breaks it as a run |
| `Confluence` | one handler's bookkeeping, executor's or rollback engine's, against the watcher's events |
| `Confinement` | version policies over whole runs |
| `RollbackRun` | update, unhealthy report, restore |
| `Convergence`, `Poller` | polling: when there is at most one deployment, exactly; seeding, spacing of checks |
| `HealthWatch` | one health watch |
| `EventBus` | the bus as a product of lossy queues |
| `DeployJobs`, `JobRegistry` | a deploy job, its log and channel; the job registry |
| `LineWriter` | the agent's line splitter and the order of its messages |
| `ComposeFile` | patching one image tag in a parsed compose file |
| `Webhook` | which containers a push concerns, and one event per compose service |

Code that updates objects in place is modelled by classes (`Store`, `ContainerState`,
`Client`, `Subscriber`, `Bus`, `DeployJob`, `Registry`, `Writer`, `YamlNode`, `Scheduler`)
whose methods are proved against value functions; the theorems are about those functions
and their runs. What other programs decide is a parameter: the daemon's answers and the
ids it issues, registry replies, clock readings, job ids, the order of map iteration.

## What the proofs found

Each of these is proved; the table below says where.

* Re-keying a state and pushing its digest are two critical sections. If a rollback of the
  new container fits between them, the late push leaves store and daemon in disagreement,
  with no push to come (`Races.RaceFromStart`, a run from every start). Exactly when a run
  keeps them in agreement: `Agreement.AgreementExactly`.
* A poll between the same two steps can cause a second successful deployment
  (`Convergence.EarlyPollRedeploys`). So can the ordinary schedule: if the watcher handles the
  destroy event before the re-keying, the next poll announces the recreated container again
  (`Convergence.LostRekeyRedeploys`, a run from every start where an update is due). Exactly
  when a run deploys each container line once: `Convergence.DeploymentsExactly`.
* If the watcher's destroy event comes before a handler's re-keying, the digest history is
  lost (`Confluence.EventsConfluent`). After an update no rollback is possible then
  (`RollbackRun.LostUpdateCannotRollBack`); after a rollback the daemon is restored but the
  store does not know it (`RollbackRun.RestoresOldDigest`).
* Appending a digest does not strip an earlier one, so a reference can be pinned to a digest
  other than the one recorded (`ImageRefs.PinIsDigest`).
* Tag rewriting mistakes the port of an untagged `host:port/name` for a tag
  (`ImageRefs.RewriteAgreesWithParse`).
* A stored reference pinned to a `sha256:` digest no longer matches webhook pushes
  (`Webhook.MatchSurvivesPin`).
* A single event with an unversioned tag lets a `minor` or `patch` container go anywhere
  (`Confinement.DirectUnderMinorExactly`, `Confinement.DirectUnderPatchExactly`). Nothing else
  does (`Confinement.ConfinedExactly`).
* A misspelt strategy label updates without limits (`Semver.UnknownMeansAuto`).
* A service checked for the first time announces its digest once; ever after that digest
  counts as deployed, even if the update was never applied
  (`Poller.FirstDigestCountsAsDeployed`), and seeding is right only for a container pinned
  to the seeded digest (`Poller.SeedAgreesExactly`).
* Webhook jobs are registered and never finished, so the number of active deploys only
  grows (`JobRegistry.WebhookJobsLeak`).
* The Docker Hub endpoint has no poll-mode gate; with mixed replicas its event count depends
  on map order (`Webhook.CountExactly`). Compose keys of different services can coincide, for
  example project "a_b" with service "c" and project "a" with service "b_c"; exactly when is
  `Webhook.KeysTellApart`.
* The rollback engine slices sixteen characters off the applied digest and panics on a
  shorter one. The watcher sends it such a message for every container without a digest
  history (`ControlLoop.FatalReport`), which is every container after start-up; the health
  monitor does so after every update from a Docker Hub push (`Webhook.FatalPush`).

## Where code and comments disagree

The model follows the code. `replaceTag`'s comment speaks of keeping the name, which an
untagged `host:port/name` refutes. `Register`'s comment promises an error for a container
that already has a job; the code returns nil and overwrites. `Finish` is called idempotent,
but finishing an old job again drops a newer job of the same container from the index; the
exact condition is `JobRegistry.StepExactly`. The package comment of compose.go calls compose
containers notify-only; the executor applies updates to those labelled `auto`.

## Model

| member | source | states |
|---|---|---|
| ImageRefs.CanonicalIdempotent | internal/registry/registry.go:365-403 | for every string, printing the parsed triple as host/name:tag and parsing again gives the same triple |
| ImageRefs.ParsePrinted | internal/registry/registry.go:365-403 | every well-formed triple is read back from its printed form |
| ImageRefs.HubNames | internal/registry/registry.go:365-403 | a name whose first component has no dot and is not localhost belongs to registry-1.docker.io for both host extractors, one-word names under library/ and without a tag as latest; imageTag reads the tag or nothing |
| ImageRefs.HostedNames | internal/registry/registry.go:381-403 | a first component with a dot or a colon, or localhost, is the registry, docker.io meaning the hub with its library/ rule; tagged and untagged; the other extractor keeps the component as it is |
| ImageRefs.HostsAgree | internal/dockerclient/scoped.go:320-335 | for every string the two independent host extractors agree up to the docker.io alias |
| ImageRefs.CutAtDigest | internal/registry/registry.go:367-372 | a reference is cut at its first at-sign: the image before it, the pin after it |
| ImageRefs.StripsTo | internal/watcher/watcher.go:90-97 | without its digest a reference is a given image exactly when it is that image or that image followed by an at-sign |
| ImageRefs.PinInvariant | internal/executor/executor.go:339-344 | pinning changes neither host, name nor tag for any of the three readers, on every string |
| ImageRefs.PinIsDigest | internal/executor/executor.go:339-344 | the built reference is pinned to the given digest if and only if the image carried no pin (or both are empty) |
| ImageRefs.RewrittenText | internal/compose/updater.go:125-139 | in the text: the tag after the last colon gives way to the new one, a reference without a colon gets one, and the digest stays |
| ImageRefs.TagReadsBack | internal/compose/updater.go:125-139 | a written tag is read back by imageTag, whatever the reference was |
| ImageRefs.LastTagWins | internal/compose/updater.go:125-139 | writing two tags is writing the second, for every reference |
| ImageRefs.RewriteAgreesWithParse | internal/compose/updater.go:125-139 | the registry's parser sees the new tag with host and name kept if and only if the last colon separates a tag or there is none |
| Semver.ParsePrinted | internal/executor/executor.go:272-292 | parsing inverts printing of [v]X[.Y[.Z[-suffix]]] for every component in int range |
| Semver.ParseExactly | internal/executor/executor.go:272-292 | for every tag: one leading v is dropped, up to three dot-separated pieces must be numbers, the third up to its first dash, and missing pieces are zero; otherwise no version |
| Semver.DecisionExactly | internal/executor/executor.go:86-145 | in the label texts: when an event is skipped and whether as breaking, when it goes through compose and when it is applied directly |
| Semver.OptOut | internal/executor/executor.go:93-98 | a container opts out with dockwatch.watch=false and in no other way |
| Semver.PolicyLattice | internal/executor/executor.go:224-256 | on whole references the applied updates are nested notify, patch, minor, auto, whatever the other labels; a detected major bump is refused by patch and minor |
| Semver.PolicyOnVersions | internal/executor/executor.go:243-256 | on version tags minor applies exactly the updates keeping the major, patch those also keeping the minor |
| Semver.DecisionIgnoresPins | internal/executor/executor.go:258-268 | digests on either reference never change the decision |
| Semver.UnknownMeansAuto | internal/executor/executor.go:224-237 | every unknown strategy label decides like auto |
| Semver.ComposeNeedsOptIn | internal/executor/executor.go:103-109 | a container with a compose project and without dockwatch.compose.update=auto decides like notify, whatever its strategy label, and gets no update |
| Semver.NoVersion | internal/executor/executor.go:272-292 | a tag beginning, after one v, with neither digit nor sign is no version |
| Decimal.PrintInjective | internal/bus/bus.go:94-106 | different numbers print differently |
| Decimal.PrintFits | internal/bus/bus.go:94-106 | a non-negative 64-bit int needs at most 19 digits |
| Decimal.AtoiDigits | internal/executor/executor.go:277-289 | what strconv.Atoi makes of a digit string |
| Decimal.AtoiExactly | internal/executor/executor.go:277-289 | what strconv.Atoi makes of digits with and without a sign, both ends of the 64-bit range included |
| Decimal.AtoiRejects | internal/executor/executor.go:277-289 | any other text is no number |
| Challenge.ParseBearerChallenge | internal/registry/registry.go:327-349 | the parsing loop computes the left-to-right fold over the parts; not a Bearer challenge exactly without the prefix "Bearer "; a success has a realm and no parameter of that name |
| Challenge.RoundTrip | internal/registry/registry.go:327-349 | reading a challenge of any pieces, with white space around them, values quoted or not and parts without "=": the last realm, and for every other key its last value; an error exactly when that realm is missing or empty |
| Challenge.ExactRoundTrip | internal/registry/registry.go:327-349 | with distinct keys and a non-empty realm the challenge is read back exactly, nothing lost and nothing added |
| Challenge.EveryHeader | internal/registry/registry.go:333-343 | every text is such pieces between commas, so the two laws hold of every header |
| Challenge.SpaceMeans | internal/registry/registry.go:334-334 | the twenty-five characters that strings.TrimSpace takes off |
| DigestStore.RunKeepsWellKeyed | internal/store/store.go:77-135 | over every run each key equals its state's id, so no two keys share a state object |
| DigestStore.HistoryIsBoundedLog | internal/store/store.go:56-64 | a state's history is the newest min(5, n) entries of everything pushed onto it, across all re-keys; its current digest is the last one pushed and its previous digest the one before that |
| DigestStore.RollbackSwaps | internal/rollback/rollback.go:80-86 | pushing the previous digest swaps the two newest; doing it twice restores both |
| DigestStore.ContainerState.PushDigest | internal/store/store.go:34-64 | the new entry goes in front and only the newest five stay; the pushed digest becomes current and the current one previous |
| DigestStore.Store.constructor | internal/store/store.go:73-75 | an empty store |
| DigestStore.Store.Upsert | internal/store/store.go:77-91 | name, image and labels become the given ones, for a tracked id in place with its history kept, otherwise in a fresh state without history; every other state and key stays |
| DigestStore.Store.Get | internal/store/store.go:93-98 | the state whose id is the key, or nil exactly when untracked |
| DigestStore.Store.GetByName | internal/store/store.go:100-110 | a tracked state of that name, nil only if there is none |
| DigestStore.Store.Rekey | internal/store/store.go:117-128 | the same object moves to the new key and id with everything else it holds; nil and no change exactly when the old id is untracked; every other state stays |
| DigestStore.Store.Remove | internal/store/store.go:130-135 | only the key goes; the object and every other key stay |
| DigestStore.Store.All | internal/store/store.go:137-146 | every tracked object exactly once, in an arbitrary order |
| Docker.Client.StopContainer | internal/dockerclient/scoped.go:223-228 | stops an existing container, otherwise fails without effect |
| Docker.Client.StartContainer | internal/dockerclient/scoped.go:230-235 | starts an existing container, otherwise fails without effect |
| Docker.Client.RemoveContainer | internal/dockerclient/scoped.go:237-242 | removes an existing container, otherwise fails without effect |
| Docker.Client.CreateContainer | internal/dockerclient/scoped.go:244-253 | creates under a fresh id and a free name, otherwise fails without effect |
| Docker.Client.Recreate | internal/dockerclient/scoped.go:265-309 | with its early returns it is the six-step protocol run alone: the exact condition of success, a new container with the old name, labels, remaining configuration, host configuration and networks and the requested image, and exactly what each failure leaves behind; the new id is reported from creation on |
| Docker.SoloStays | internal/dockerclient/scoped.go:265-309 | a refused operation ends the call: nothing happens after it |
| RecreatePool.AtMostOneRemoves | internal/dockerclient/scoped.go:265-309 | under every interleaving with any step failing, of the calls on one container at most one gets past Remove and at most one succeeds; no two containers share a name; untouched containers stay as they were |
| RecreatePool.NamesConserved | internal/dockerclient/scoped.go:265-309 | at every moment a name is held by exactly one container or exactly one call between Remove and Create |
| RecreatePool.SuccessLeaves | internal/dockerclient/scoped.go:265-309 | a success leaves a running container with the requested image and otherwise the name, labels, remaining configuration, host configuration and networks of the one it replaces, and of an original container |
| RecreatePool.OneTargetOutcome | internal/dockerclient/scoped.go:265-309 | when all calls on a container are over: nobody removed it, or exactly one did, and it succeeded, lost the name at Create, or left the new container, the old one's but for the image, stopped at Start |
| ControlLoop.RunSound | internal/executor/executor.go:203-210 | in every state of every run: names unique, keys equal ids, every handler right about its containers, no two past Remove on one container |
| ControlLoop.StartRecords | internal/watcher/watcher.go:120-137 | after a start event the state under that id, tracked before or not, has the name, image and labels of the container as the daemon holds it; only its history is kept, and nothing else changes |
| ControlLoop.FatalReport | internal/watcher/watcher.go:144-157 | the watcher publishes the tracked state with its current and previous digest, and the message makes the rollback engine panic exactly when the current digest is shorter than sixteen characters, as with every container without history |
| ControlLoop.FatalMonitorReport | internal/healthmon/healthmon.go:132-145 | the health monitor publishes the announced update with the previous digest then stored, and the message makes the rollback engine panic exactly when the applied digest is shorter than sixteen characters |
| ControlLoop.FatalAtStart | internal/rollback/rollback.go:53-56 | right after start-up every tracked container's unhealthy report is such a message |
| HandlerRuns.SoloRun | internal/dockerclient/scoped.go:265-309 | a handler's consecutive steps add up to its call run alone |
| HandlerRuns.AloneSucceeds | internal/dockerclient/scoped.go:265-309 | with every operation granted Recreate goes through, with exactly this daemon as result and a description that differs from the old one in the image alone |
| HandlerRuns.UpdateIsRun | internal/executor/executor.go:196-210 | single steps of an undisturbed update add up to what the executor's method does to daemon and store and to the announcement it publishes |
| HandlerRuns.UpdateRefused | internal/executor/executor.go:86-152 | the steps of a handler for an event never published, or not applied directly, leave the whole world as it is |
| HandlerRuns.RollbackIsRun | internal/rollback/rollback.go:72-86 | single steps of an undisturbed rollback add up to what the rollback method does to daemon and store |
| HandlerRuns.RollbackRefused | internal/rollback/rollback.go:52-71 | so do those for a message never published, without a previous digest, or with an applied digest under sixteen characters |
| HandlerRuns.LateLookup | internal/rollback/rollback.go:80-86 | a rollback that found nothing to re-key pushes onto whatever is tracked under the old id by the time it looks again, and drops the digest if nothing is |
| Engines.HandleUpdate | internal/executor/executor.go:86-220 | unknown, unwatched (dockwatch.watch=false, exactly) and skipped events change nothing; an applied one registers, settles and finishes a job, recreates with the image pinned to the new digest if there is one, and on success re-keys and pushes; the skipped and applied events published are exactly those |
| Engines.Deploy | internal/executor/executor.go:150-210 | from the job's registration to its end: terminal job, daemon as after the call run alone, store changed only by a direct success |
| Engines.HandleUnhealthy | internal/rollback/rollback.go:52-97 | panics exactly on an applied digest under 16 characters, aborts exactly without a previous digest, otherwise recreates and on success re-keys, pushes the previous digest and reports the rollback done |
| Engines.HandleContainerEvent | internal/watcher/watcher.go:119-159 | start overwrites name, image and labels with the inspected ones (the event's image first) and keeps the history, destroy forgets the id, unhealthy publishes the tracked state with its two newest digests; no other state changes |
| Engines.HandleImagePull | internal/watcher/watcher.go:78-117 | one event for every tracked container whose stored image is the pulled one, pinned or not, at another current digest, and none besides; no container twice |
| Agreement.AgreementExactly | internal/executor/executor.go:203-210 | over every run from a start, of any number of executor, rollback, watcher and seeding steps: store and daemon agree in every state, however the pushes to come are performed, if and only if every re-keying and every seeding was orderly |
| Agreement.StoreAgreesWithDaemon | internal/executor/executor.go:203-210 | in every state of every orderly run, a tracked existing container's current digest is the one its reference is pinned to, or that container's own push is still to come |
| Agreement.AgreementAtRest | internal/rollback/rollback.go:72-86 | when that container's own push is not pending the agreement is exact |
| Agreement.LatePushDecides | internal/rollback/rollback.go:78-86 | a handler re-keys a state onto which another still has to push, and that push comes last: agreement if and only if its digest is the one the new container is pinned to |
| Agreement.OwnPushSuits | internal/executor/executor.go:339-344 | a handler's own push suits its new container if and only if the event's image was not pinned already |
| Races.RaceFromStart | internal/rollback/rollback.go:72-86 | from every start with a directly updatable container there is a run, two updates and half a third with a rollback in between, after which store and daemon disagree with no push to come |
| Races.AgreementFails | internal/executor/executor.go:203-210 | such a start exists, so agreement without the condition is false |
| Confluence.EventsConfluent | internal/watcher/watcher.go:120-142 | in every interleaving of a handler's steps, executor or rollback engine, with the watcher's destroy and start and with everything else: the old id ends untracked and the new container exists as requested; the history with the new digest in front survives if re-keying precedes destroy, otherwise the new id is tracked, with no history, exactly if its start was handled |
| Confluence.ProgressRun | internal/rollback/rollback.go:72-86 | how far a handler has come, in daemon and store, in every state of such an interleaving |
| Confinement.ConfinedExactly | internal/executor/executor.go:224-256 | over every run, all that exists, is tracked, worked on or announced keeps its line's version in every state if and only if no event without a version tag is ever applied directly to a minor or patch line that began with a version |
| Confinement.VersionsConfined | internal/executor/executor.go:224-256 | over every such run a minor container keeps its first major and a patch one also its minor, in daemon and store, across updates, rollbacks and start events |
| Confinement.VersionedNeverStrays | internal/executor/executor.go:239-256 | runs whose handled events all carry version tags are such runs |
| Confinement.StaysExactly | internal/executor/executor.go:239-256 | a direct update stays in its line except exactly an unversioned event for a bound line |
| Confinement.DirectUnderMinorExactly | internal/executor/executor.go:239-256 | when exactly a minor container is updated directly, unversioned tags included |
| Confinement.DirectUnderPatchExactly | internal/executor/executor.go:239-256 | when exactly a patch container is updated directly, unversioned tags included |
| Confinement.VersionsRespected | internal/executor/executor.go:339-344 | pinning an image keeps its version in its line |
| RollbackRun.RestoresOldDigest | internal/rollback/rollback.go:52-97 | update A to B, unhealthy report, successful restore, each step interleaved with everything else: the daemon is at A, and A is current in the store if and only if the rollback's re-keying preceded the destroy event |
| RollbackRun.RollbackEnds | internal/rollback/rollback.go:72-106 | the same of any rollback by itself |
| RollbackRun.UpdateLands | internal/executor/executor.go:203-220 | however its bookkeeping interleaves, an update whose re-keying preceded the destroy event leaves the new digest current, the old one previous, and the monitor told |
| RollbackRun.LostUpdateCannotRollBack | internal/healthmon/healthmon.go:132-145 | if destroy and start came first, the monitor's report has no previous digest; the rollback engine panics exactly at an applied digest under sixteen characters and otherwise takes no action |
| RollbackRun.SparedRun | internal/store/store.go:112-135 | no run that leaves a container and its state alone changes its history |
| Convergence.DeploymentsExactly | internal/poller/poller.go:132-158 | with a fixed registry digest, over every run of polls, duplicate events, executor steps and the watcher's destroy and start events of the executor's recreations: each container line is deployed at most once, whatever executor and watcher go on to do, if and only if no poll published for a directly updatable recreation whose push was to come or whose re-keying came after its destroy event |
| Convergence.RegistryAnswers | internal/registry/registry.go:365-403 | a registry asked by the parsed reference answers alike for references that differ in their pins only |
| Convergence.AtMostOneDeployment | internal/poller/poller.go:132-158 | in every state of every such run each container line is deployed successfully at most once, and events about recreated containers change nothing |
| Convergence.QuietAfterwards | internal/executor/executor.go:88-92 | after a deployment leftover events for the old id change nothing, and a poll of the new container publishes nothing if and only if the re-keying preceded the destroy event |
| Convergence.UnrecordedMeans | internal/executor/executor.go:203-210 | what such a poll avoids, by the run: a recreation is unrecorded if and only if its push is to come or its re-keying came after its destroy event |
| Convergence.EarlyPollRedeploys | internal/poller/poller.go:132-158 | from every start where an update is due there is a run, with a poll between re-keying and push, that deploys one line twice |
| Convergence.LostRekeyRedeploys | internal/watcher/watcher.go:120-142 | from every such start there is also one without such a poll: destroy and start are handled before the re-keying, all handlers come to their end, and the next poll leads to the second deployment |
| Convergence.ConvergenceFails | internal/poller/poller.go:132-158 | such a start exists, so convergence without the condition is false on either schedule |
| Poller.CompareAndPublish | internal/poller/poller.go:132-158 | seeds an empty current digest from the service's last digest, changing nothing else, and publishes exactly when the answer differs from what is then current |
| Poller.SeedOnce | internal/poller/poller.go:134-143 | a second seeding changes nothing, and the first decides what is current |
| Poller.CheckService | internal/poller/poller.go:113-130 | a failed check changes nothing; otherwise the answer is recorded as the service's last digest, one container of that name is compared with the one from before, and no other state changes |
| Poller.FirstDigestCountsAsDeployed | internal/poller/poller.go:113-143 | checks nobody acts upon announce the first digest once and afterwards only other digests |
| Poller.SeedIsStep | internal/poller/poller.go:134-143 | what comparing does to an empty history is the seeding step of the control loop |
| Poller.SeedAgreesExactly | internal/poller/poller.go:134-143 | a seeding of an existing container that awaits no push of its own keeps store and daemon in agreement if and only if the container is pinned to the seeded digest |
| Poller.Poll | internal/poller/poller.go:74-90 | a sweep publishes an event for exactly the containers without a configured service whose image got an answer other than their current digest, with that answer, and changes no state |
| Poller.SweepIsPoll | internal/poller/poller.go:74-90 | what a sweep announces is exactly what the convergence theorem takes a poll to publish |
| Poller.ChecksSpaced | internal/poller/poller.go:92-111 | over every run two checks of one service are at least the interval apart |
| Poller.CheckedExactly | internal/poller/poller.go:92-111 | over every run a look leads to a check exactly when the service is in mode poll and every check of it so far lies at least the interval back |
| Poller.NoneOverdue | internal/poller/poller.go:92-111 | after a look at a polled service its latest check is less than an interval ago |
| Poller.Scheduler.Dispatch | internal/poller/poller.go:92-111 | one pass records and starts exactly the due checks |
| HealthWatch.CheckHealth | internal/healthmon/healthmon.go:166-182 | only an outright "unhealthy" counts against a container |
| HealthWatch.Watch | internal/healthmon/healthmon.go:74-150 | at most one report, exactly when a probe reads "unhealthy" and only probes came before it; the first such probe decides, with the digest that was the previous one at that moment; none without a container id |
| HealthWatch.OthersAreHarmless | internal/healthmon/healthmon.go:111-131 | a probe that fails, finds no health check or reads any other status, wherever it comes, changes neither whether there is a report nor what it says |
| HealthWatch.EndIsFinal | internal/healthmon/healthmon.go:111-147 | whatever arrives after the watch has ended changes nothing |
| HealthWatch.ReportIsStep | internal/healthmon/healthmon.go:132-145 | the report of any watch that gets that far is the monitor step of the control loop; neither reports an update without a container id |
| EventBus.Delivery | internal/bus/bus.go:48-92 | received plus buffered is an in-order subsequence of the events published on the topic from the subscription to the unsubscription, and all of them if and only if no publish found the buffer full |
| EventBus.QueuesIndependent | internal/bus/bus.go:76-92 | a subscriber's queue depends on its own operations and its topic's publishes only |
| EventBus.Itoa | internal/bus/bus.go:94-106 | prints the decimal numeral of every non-negative 64-bit int without underrunning its 20-byte buffer, and nothing for negative ones |
| EventBus.IdsDistinct | internal/bus/bus.go:55-56 | subscribers of one topic never share an id |
| EventBus.Subscriber.TrySend | internal/bus/bus.go:83-90 | a non-blocking send to an open channel, dropped exactly when sixty-four events are waiting |
| EventBus.Subscriber.Close | internal/bus/bus.go:66-66 | closing happens at most once |
| EventBus.Bus.constructor | internal/bus/bus.go:42-46 | a bus without subscribers |
| EventBus.Bus.Subscribe | internal/bus/bus.go:51-74 | adds one new, last-listed queue under the id of topic and running number and touches no other |
| EventBus.Bus.Publish | internal/bus/bus.go:79-92 | offers the event to every listed subscriber of the topic and to nobody else |
| EventBus.Bus.Unsubscribe | internal/bus/bus.go:60-71 | closes and unlists its own subscriber; a second call does nothing |
| DeployJobs.RunOk | internal/deploy/job.go:75-121 | over every run line i is numbered i+1, the log is the first min(500, seq) lines, terminal status, recorded end and closed channel coincide, and sent lines rise strictly |
| DeployJobs.TerminalStays | internal/deploy/job.go:103-121 | after a terminal status no call changes it or sends another line |
| DeployJobs.SentOrSkipped | internal/deploy/job.go:87-97 | every line was either sent or skipped for a full or closed channel, never both |
| DeployJobs.ReplayThenDrain | internal/api/api.go:455-469 | replaying the log and draining the channel misses exactly the lines outside the replay that were skipped |
| DeployJobs.DeployJob.constructor | internal/deploy/job.go:57-68 | a queued job with an empty log and an open channel |
| DeployJobs.DeployJob.AppendLog | internal/deploy/job.go:75-98 | the line with its number, source and text is kept among the first 500 and sent only to an open channel with fewer than 256 waiting; nothing else changes |
| DeployJobs.DeployJob.Transition | internal/deploy/job.go:103-121 | the first of success and failure ends the job and closes the channel once; later calls do nothing; the log is not touched |
| DeployJobs.DeployJob.Logs | internal/deploy/job.go:151-158 | the first min(500, n) lines ever written |
| DeployJobs.DeployJob.Snap | internal/deploy/job.go:136-149 | the job's identity, status, end and log count at one moment, consistent with each other |
| JobRegistry.RunExactly | internal/deploy/registry.go:25-61 | over every run the active index is exactly the registered unfinished jobs in every state if and only if every call was guarded |
| JobRegistry.StepExactly | internal/deploy/registry.go:25-61 | one call keeps the index exact if and only if its container had no job (Register) or no other job (Finish) |
| JobRegistry.ExactMeans | internal/deploy/registry.go:43-69 | an exact index has one job per container, answers IsRunning, and its size is the number of open jobs |
| JobRegistry.WebhookJobsLeak | internal/webhook/webhook.go:151-158 | with the program's own callers the active count is the number of distinct images ever pushed, plus one during an update |
| JobRegistry.Registry.Register | internal/deploy/registry.go:27-33 | both indexes get the job, overwriting |
| JobRegistry.Registry.Finish | internal/deploy/registry.go:55-61 | drops the job's container from the active index and keeps the job |
| JobRegistry.Registry.Get | internal/deploy/registry.go:35-41 | the job with that id, finished or not |
| JobRegistry.Registry.IsRunning | internal/deploy/registry.go:45-50 | with an exact index: whether some open job is for that container |
| JobRegistry.Registry.ActiveCount | internal/deploy/registry.go:63-69 | with an exact index: the number of open jobs |
| LineWriter.SegmentsUnique | cmd/agent/main.go:192-208 | segments and remainder are the only way to cut a stream into newline-free terminated segments and a newline-free rest |
| LineWriter.LinesAreSegments | cmd/agent/main.go:192-208 | the lines are those segments without trailing carriage returns |
| LineWriter.ChunkIndependent | cmd/agent/main.go:192-208 | for every split into writes, lines sent and buffer left depend on the concatenation alone |
| LineWriter.TrimRight | cmd/agent/main.go:204-204 | all trailing carriage returns go and nothing else |
| LineWriter.Writer.Write | cmd/agent/main.go:192-208 | sends the complete lines of buffer plus argument in order and keeps the remainder |
| LineWriter.HandleCommand | cmd/agent/main.go:126-162 | an unknown action and a missing service are refused with their message and exit code 1, alone; any other command sends the lines of all output and then one Done, with code 0 after a clean exit and 1 with the error otherwise |
| LineWriter.EachCommandInOrder | cmd/agent/main.go:126-162 | under every interleaving of commands on one connection each id's messages are its lines in order followed by exactly one Done, refused commands' messages are that Done alone, and a Done with code 0 carries no error |
| ComposeFile.FirstKey | internal/compose/updater.go:112-121 | the first value whose key, at an even position, matches |
| ComposeFile.KeyMeans | internal/compose/updater.go:112-121 | a lookup succeeds in mappings only and finds the value after the first key, at an even position, that reads like the one sought |
| ComposeFile.LocateFinds | internal/compose/updater.go:89-104 | the patched node is under "image" of the service under "services", and which lookup fails decides the error |
| ComposeFile.PatchFrames | internal/compose/updater.go:89-108 | a successful patch changes exactly the value of the located node and nothing else in the tree |
| ComposeFile.LastPatchWins | internal/compose/updater.go:89-108 | two patches of one service are the second one |
| ComposeFile.PatchesCommute | internal/compose/updater.go:89-108 | successful patches of different services commute |
| ComposeFile.FailureStays | internal/compose/updater.go:89-108 | a failing patch fails the same way whatever else is patched |
| ComposeFile.LocateStable | internal/compose/updater.go:89-121 | rewriting one image moves no service and loses none |
| ComposeFile.WriteAt | internal/compose/updater.go:106-106 | assigning to one node of a tree without sharing edits the tree there only |
| ComposeFile.MappingValue | internal/compose/updater.go:112-121 | the scan finds the first matching key's value node, or nil |
| ComposeFile.FindImage | internal/compose/updater.go:89-104 | the three lookups in order and which one failed |
| ComposeFile.PatchImageNode | internal/compose/updater.go:89-108 | memory that held a tree holds the patched tree afterwards, or on an error still the same one |
| Webhook.MatchSurvivesPin | internal/webhook/webhook.go:268-285 | a stored name:tag matches a push of name if and only if its pinned digest has no colon |
| Webhook.Matched | internal/webhook/webhook.go:268-285 | a stored image matches a pushed name when it is that name without a colon, or that name, a colon and something without one |
| Webhook.CountPastGate | internal/webhook/webhook.go:229-265 | past the gate: one event per container without a compose key plus one per distinct key, in every order |
| Webhook.CountExactly | internal/webhook/webhook.go:229-265 | without the gate the count is independent of the order if and only if no service has polled and unpolled replicas |
| Webhook.ChosenOnes | internal/webhook/webhook.go:229-265 | no polled container gets an event, no key two, and every unpolled container without a key gets its own |
| Webhook.KeysExactly | internal/webhook/webhook.go:232-245 | in the label texts: a container has a compose key exactly when opt-in, project and service are all there, and two keys agree exactly when project, underscore and service read the same; within one project when the services do |
| Webhook.FirstChosen | internal/webhook/webhook.go:229-265 | of each compose key the container that comes first decides: it gets the event, or, being polled, keeps all others from it |
| Webhook.OwnEvent | internal/webhook/webhook.go:229-265 | past the gate a container's own project and service get an event if no other project's name continues its project's after an underscore, or the other way round |
| Webhook.KeysTellApart | internal/webhook/webhook.go:237-240 | two projects are told apart for all services if and only if neither name followed by an underscore begins the other |
| Webhook.ServicesTellApart | internal/webhook/webhook.go:237-240 | within one project every service has its own key |
| Webhook.ContainersForImage | internal/webhook/webhook.go:268-285 | exactly the tracked containers whose image up to its last colon is the pushed one, each once |
| Webhook.PublishEach | internal/webhook/webhook.go:227-265 | the loop publishes for exactly the chosen containers, in order; every event speaks of an unpolled affected container with its id, name and current digest, and every unpolled one without a compose key has its event |
| Webhook.HandlePush | internal/webhook/webhook.go:119-158 | a bad request without image or tag; refused with nothing published exactly when a matching container is in mode poll; otherwise exactly the chosen containers get their event, in the number above, and a job is registered under the pushed image |
| Webhook.HandleDockerHub | internal/webhook/webhook.go:177-207 | exactly the chosen containers get their event, without a digest, in whatever order they come; with uniform services one per unpolled container without a key plus one per unpolled key |
| Webhook.FatalPush | internal/webhook/webhook.go:203-203 | a push whose digest is shorter than sixteen characters, as every Docker Hub push is, makes the rollback engine panic if its update is applied and its container turns unhealthy |

## Left out

- Engines.HandleUpdate: a handler run without interference, its events without reasons and release notes; interleavings are the subject of ControlLoop, where the compose path leaves store and daemon as they are, because `docker compose up` acts outside this program.
- Engines.Apply: the compose path is an outcome only; backing up, decoding, encoding and writing the file and running `docker compose` are external. The tree patch itself is in ComposeFile.
- Agreement.StoreAgreesWithDaemon: holds for runs whose re-keyings and seedings are orderly, which is also necessary (Agreement.AgreementExactly).
- RollbackRun.RestoresOldDigest: asks that others leave the container alone (they neither remove, re-key nor push onto it), that the update's own re-keying came before the destroy event (otherwise RollbackRun.LostUpdateCannotRollBack), and that the applied digest has at least 16 characters, because the code panics on a shorter one.
- Confluence.EventsConfluent: the watcher does not handle a start event of the old container after its destroy event.
- Convergence.DeploymentsExactly: comparing and publishing is one step. The watcher's events of those runs are the ones the executor's recreations cause: destroy of a container a call has removed, start of one whose start succeeded. Rollbacks, which put an older digest back on purpose, seeding and outside commands are not part of them.
- Docker.Client.Recreate: networks are carried over as one value; that the daemon applies only the first of several networks is not modelled. An operation that reports an error is taken to have had no effect.
- ComposeFile.PatchImageNode: asks that no node occurs twice in the tree, which holds of a decoded document; alias nodes have a kind of their own and are never followed, as in the code.
- LineWriter.EachCommandInOrder: command ids are distinct and sends succeed; the code ignores their errors.
- EventBus.Bus.Publish: bus operations are atomic. The code iterates over a slice outside the lock while `unsub` edits it in place; that overlap is not modelled.
- JobRegistry.WebhookJobsLeak: container names hold no colon and image names do; ids are fresh.
- Poller.ChecksSpaced: the clock is read once per look at a service and never goes backwards.
- HealthWatch.Watch: the `watched` map is not modelled, because an old watch's deferred delete can remove a newer watch's entry; what is proved is at most one report per watch. Parsing the grace label is external.
- Dry-run mode, which re-keys the store to an id the daemon does not have.
- Timestamps, logging, configuration loading, the history database and service configuration storage; a service's last digest and trigger mode are inputs.
- HTTP, SSE, WebSocket transport, JSON, HMAC, UUIDs, registry requests and GitHub release notes.
- The startup rename of containers, the agent hub and the user interface.
- Startup seeding of the store, which pushes no digest: a run starts from states with empty histories.
