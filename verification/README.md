# Kyverno artifact operator: a verified model

The operator runs three programs over one cluster. The *controller* turns each KyvernoArtifact into a watcher pod.
The *watcher* in that pod pulls policies from a registry, labels them and applies them. The *garbage collector* deletes
labelled policies whose artifact or watcher is gone. This project models all three and proves what each keeps over whole
runs, and that the names and labels by which they recognise each other's work fit together.

## How to read it

- `Kubernetes` holds the cluster and the meaning of one API call. An `Env` decides what other actors do before each call,
  which calls fail (without effect, or with effect and a lost reply), list order and admission. A `World` keeps, for every
  call made, the cluster that call saw, so theorems can speak of what an actor saw and when.
- `Collector`, `CollectorSafety`, `CollectorLiveness`: the two-phase deleter, its safety over every run (including process
  deaths at any moment), and what two quiet cycles achieve.
- `Controller`, `ControllerRuns`, `ControllerOutcomes`: the pod that is built, the drift that is seen, where repeated
  reconciliation ends, and what one reconciliation does to the cluster.
- `WatcherConfig`, `ConfigTexts`, `Image`, `Trimming`, `Text`: the way of a spec through the pod's environment into the
  watcher's configuration, and how single settings are read.
- `Manifests`, `ManifestRuns`, `ManifestTargets`: labelling, applying and comparing, and where manifests end up.
- `WatchLoop`, `Bookmarks`, `WatchRuns`, `WatchDecisions`, `WatchOutcomes`: the watcher as a machine whose steps are the
  points at which it may die; what holds in every behaviour of that machine; what a cycle sets out to do; and whole cycles
  from registry to cluster.
- `Cleanup`, `Layers`, `Ownership`: termination cleanup, layer extraction, and the contract between the three actors.

Each stateful program is a class whose methods have the loops and branches of the Go code and are proved equal to a
specification function; the theorems are about those functions and every sequence of their steps.

Time in the collector is a cycle number, since elapsed time decides nothing. The collector's history, the watcher's
journal and the world's audit are records for the proofs; no decision reads them except that their lengths serve as
clocks for the oracles.

Where the code and its comments or documentation differ, the model follows the code, and lemmas say exactly how:

- The collector's `waitDuration` is only logged: grace means an earlier cycle, and it belongs to the key, not to the
  object (`CollectorLiveness.GraceIsPerKey`).
- The legacy pod selector matches no pod that the controller builds (`Ownership.LegacyCheckSeesNoWatcher`).
- The check for a watcher goes by prefix and ignores the namespace (`Ownership.PrefixKeepsAlive`).
- A terminal pod is never replaced (`ControllerRuns.TerminalPodStays`), and two switches never count as drift
  (`ControllerRuns.DriftOverlooksSwitches`).
- An interval of zero is described as a single run, but every cycle takes the tag as new (`WatchRuns.RestsAfterBookmark`).
- The bookmark is said to follow a successful apply, but files that fail do not stop it: it vouches for the cluster exactly if
  every manifest could be applied (`WatchRuns.BookmarkVouches`, with `WatchRuns.BookmarkOverNothing` as the extreme case).
- Cleanup is described as deleting all the artifact's policies but misses every namespaced one
  (`Cleanup.CleanupMissesNamespaced`).
- A registry port in the reference is cut off together with the path (`Image.PortIsCutOff`), so the pinned reference is
  rebuilt only if it holds one colon (`Image.PinnedPullIsExact`).
- Manifests without a spec are selected by every comparison (`ManifestRuns.ChecksumsConverge`).

## Model

| member | source | states |
|---|---|---|
| `CollectorSafety.GraceSafety` | internal/gc/gc.go:58-102 | Over every run, with reads failing, other actors acting before any call and the process dying at any moment of a cycle: each deletion was preceded by an orphan verdict on the same key in an earlier cycle and two in the deleting cycle, with no contrary verdict, successful deletion or restart in between; each verdict rests on a read of its own that saw the owner missing; and before them the same cycle's own list found the object under the managed-by label |
| `CollectorSafety.TrackingIsHistory` | internal/gc/gc.go:59-100 | After every cycle of every run, and at every moment within a cycle, a key is in the map exactly when its history ends in an unbroken row of orphan verdicts, and the stored value is the cycle of the first one |
| `CollectorSafety.ProcessTracks` | internal/gc/gc.go:59-100 | The treatment of a policy keeps the map equal to the fold of the history after its verdict, its recheck and its deletion |
| `CollectorSafety.RunIsSafe` | internal/gc/gc.go:41-111 | The whole invariant (map equals history, deletions justified, verdicts backed by reads and by the lists of their own cycle, stored cycles past) holds after any sequence of full cycles and cycles cut short at any moment |
| `CollectorSafety.PolicyKeyInjective` | internal/gc/gc.go:114-119 | Equal keys mean the same kind, namespace and name, because names hold no slash |
| `CollectorSafety.ListManagedIsSound` | internal/gc/gc.go:122-155 | What a cycle works on has pairwise distinct keys, and every item was on the server, labelled, at the very call that listed its kind |
| `CollectorSafety.ListKindLists` | internal/gc/gc.go:158-200 | A listing that works holds each managed policy of its kind exactly once; one that fails contributes nothing |
| `CollectorSafety.OwnerMissingMeans` | internal/gc/gc.go:281-364 | The two questions of a verdict, put to one cluster, say what the owner being missing says of names, labels and phases |
| `CollectorSafety.ListsAreIndependent` | internal/gc/gc.go:122-155 | A list that works holds every managed policy of its kind, whether or not the other list failed |
| `CollectorSafety.JudgeSeesOwnerMissing` | internal/gc/gc.go:203-278 | A verdict of "orphaned" means that one of its own reads saw the artifact or the watcher missing |
| `CollectorSafety.FailedReadSparesPolicy` | internal/gc/gc.go:219-239 | A verdict during which any read failed is never "orphaned" |
| `CollectorLiveness.TwoCyclesCollect` | internal/gc/gc.go:41-111 | From any map and any cluster, two cycles without faults or other actors remove exactly the managed policies whose owner is missing, keep every other object, leave no listed key tracked, and a third cycle changes nothing |
| `CollectorLiveness.QuietCycle` | internal/gc/gc.go:58-102 | One quiet cycle deletes exactly the doomed policies already tracked and tracks exactly the doomed ones that were not |
| `CollectorLiveness.QuietJudge` | internal/gc/gc.go:203-278 | In a quiet cluster a policy is judged orphaned if and only if it has a version and no artifact bears its artifact name or no pod whose name begins as its watcher's is Running or Pending; the same with any artifact and the legacy label if it names none |
| `CollectorLiveness.GraceIsPerKey` | internal/gc/gc.go:72-100 | An orphaned object is deleted by the next quiet cycle if and only if its key is already tracked, even if another object earned the entry |
| `Collector.GarbageCollector.CollectGarbage` | internal/gc/gc.go:41-111 | The method reaches exactly the state, map and history that the cycle specification gives |
| `Collector.GarbageCollector.CollectOne` | internal/gc/gc.go:59-100 | One pass of the loop body: track, untrack, recheck, delete |
| `Collector.GarbageCollector.RecheckAndDelete` | internal/gc/gc.go:77-94 | For a remembered policy: a second verdict, then the delete, and the entry stays if that fails |
| `Collector.GarbageCollector.IsOrphaned` | internal/gc/gc.go:203-246 | Answers as the two-read verdict specification, read by read |
| `Collector.GarbageCollector.IsOrphanedLegacy` | internal/gc/gc.go:249-278 | The same for policies without an artifact name |
| `Collector.GarbageCollector.CheckForSpecificWatcher` | internal/gc/gc.go:281-299 | The search over the listed pods finds a live pod with the prefix if and only if there is one |
| `Collector.GarbageCollector.CheckForSpecificKyvernoArtifact` | internal/gc/gc.go:302-324 | The search finds an artifact of that name in any namespace if and only if there is one |
| `Collector.GarbageCollector.CheckForActiveWatchers` | internal/gc/gc.go:327-346 | The search among pods selected by the legacy label answers exactly whether one is live |
| `Collector.GarbageCollector.CheckForKyvernoArtifacts` | internal/gc/gc.go:349-364 | Answers exactly whether any artifact exists |
| `Collector.GarbageCollector.GetPoliciesByKind` | internal/gc/gc.go:158-200 | Returns one record per listed object, in order, and an error exactly if the list call failed |
| `Collector.GarbageCollector.GetManagedPolicies` | internal/gc/gc.go:122-155 | Both kinds, leaving out one whose list fails |
| `Ownership.OwnedPolicyIsNeverCollected` | internal/gc/gc.go:58-102 | Over every run of the collector: where the artifact and its pod, Running or Pending, are there at the reads of the recheck, the deletion that follows is not of an object that bore the artifact name when that cycle listed it |
| `Ownership.AliveIsNeverOrphaned` | internal/gc/gc.go:203-246 | If at both reads the artifact exists and its controller-built pod is Running or Pending, a policy under its name is not judged orphaned |
| `Ownership.RemovedArtifactIsSwept` | internal/gc/gc.go:41-111 | Once no artifact of a name is left, two quiet cycles remove every labelled policy under that name and no object under the name of a living one |
| `Ownership.WatcherPoliciesAreListed` | internal/watcher/watcher.go:551-577 | A Policy or ClusterPolicy applied by the watcher started from the pod built for artifact A is an object that the collector lists under the name A if and only if its file could be rewritten or bore the labels already |
| `Ownership.AppliedPolicyIsManaged` | internal/watcher/watcher.go:551-577 | The same for any artifact name: a file that cannot be rewritten keeps its checksum and is applied as it came |
| `Ownership.StampedPolicyIsManaged` | internal/watcher/watcher.go:551-577 | A pulled policy that was labelled, rewritten and applied is in the cluster under its key with all ownership labels, the tag, its checksum, its own other labels and its spec |
| `Ownership.PrefixKeepsAlive` | internal/gc/gc.go:283-296 | A live pod of an artifact whose name extends another name keeps that other one alive too |
| `Ownership.LegacyCheckSeesNoWatcher` | internal/gc/gc.go:249-262 | If the pods of a watcher's name are built by the controller only, whatever other pods there are, the legacy check finds no watcher, so versioned policies without an artifact name count as orphaned |
| `ControllerRuns.ReconcileConverges` | internal/controller/kyvernoartifact_controller.go:50-340 | For a fixed spec with a URL, over any number of reconciliations with failing calls and with pods that take any time to stop: effective writes plus remaining distance is constant and at most two, and as many fault-free reconciliations that do not find the pod stopping as the distance lead to a state where no later one writes |
| `ControllerRuns.ReconcileProgress` | internal/controller/kyvernoartifact_controller.go:73-339 | One reconciliation: nothing is written in a settled state, every effective write brings it one step closer, a fault-free one makes a step unless the pod is still stopping, and the reads for the metrics change nothing |
| `ControllerRuns.TerminalPodStays` | internal/controller/kyvernoartifact_controller.go:246-250 | A pod in a terminal phase that nobody deletes is never touched again, however often it is reconciled and whatever the spec says |
| `ControllerRuns.NoUrlNoPod` | internal/controller/kyvernoartifact_controller.go:73-79 | Without a URL a missing pod is an error every time, and nothing is written |
| `ControllerRuns.DriftIsExact` | internal/controller/kyvernoartifact_controller.go:252-321 | A pod built for one spec and configuration is up to date for another if and only if URL, interval (default 60), provider (default github), tag polling (default true) and watcher image agree |
| `ControllerRuns.DriftOverlooksSwitches` | internal/controller/kyvernoartifact_controller.go:281-320 | Changing deletePoliciesOnTermination and reconcilePoliciesFromChecksum never counts as drift, although the environment would differ |
| `ControllerOutcomes.QuietReconcile` | internal/controller/kyvernoartifact_controller.go:50-334 | Every case of a quiet reconciliation, with keys and pods spelled out: without a pod, one is created at the artifact's own namespace under the prefixed name, with its labels, image, account, arguments and environment; a terminal pod and an unchanged one are left; a drifted one is marked for deletion; nothing else changes |
| `ControllerOutcomes.OthersStay` | internal/controller/kyvernoartifact_controller.go:69-71 | With no other actor and any failing calls, reconciling one request never changes the pod of another |
| `ControllerOutcomes.FailureIsReported` | internal/controller/kyvernoartifact_controller.go:55-64 | A call that fails, with or without effect, ends the reconciliation in an error |
| `ControllerOutcomes.VanishedPodIsNoError` | internal/controller/kyvernoartifact_controller.go:325-330 | A drifted pod that is gone when its deletion arrives is no error, and nothing changes |
| `ControllerOutcomes.QuietGauges` | internal/controller/kyvernoartifact_controller.go:336-378 | After a success over a quiet cluster the gauges hold the number of artifacts and how often each phase was seen, every artifact read once |
| `ControllerOutcomes.EnvMapIsExact` | internal/controller/kyvernoartifact_controller.go:274-279 | The map holds, for each name, the last value that is not empty, and no other names |
| `ControllerOutcomes.NoContainerNoDrift` | internal/controller/kyvernoartifact_controller.go:272 | A pod without containers is never taken for drifted |
| `ControllerOutcomes.QuietPhases` | internal/controller/kyvernoartifact_controller.go:357-369 | Over a quiet cluster each artifact counts under the phase of the pod in its own namespace, a missing pod as Unknown |
| `ControllerRuns.EnvReadsBack` | internal/controller/kyvernoartifact_controller.go:274-279 | The map read back from the printed list holds what was printed, despite the filter on empty values |
| `ControllerRuns.IntervalTextTells` | internal/controller/kyvernoartifact_controller.go:83-86 | The printed intervals of two specs are equal exactly when the intervals, with the default, are |
| `Controller.KyvernoArtifactReconciler.ReconcileOnce` | internal/controller/kyvernoartifact_controller.go:50-340 | The method gives the outcome, the write, the world and the gauges of the reconcile specification on every branch, with the reads of the metrics after a success |
| `Controller.KyvernoArtifactReconciler.ActOnce` | internal/controller/kyvernoartifact_controller.go:50-334 | Every branch up to the one write |
| `Controller.KyvernoArtifactReconciler.CreateOnce` | internal/controller/kyvernoartifact_controller.go:73-239 | The branch for a missing pod: an error without a URL, else one creation |
| `Controller.KyvernoArtifactReconciler.UpdateMetrics` | internal/controller/kyvernoartifact_controller.go:343-378 | The gauges count every listed artifact by the phase that its pod was seen in, unreadable pods as Unknown; without a list they stay |
| `Controller.KyvernoArtifactReconciler.CountPhases` | internal/controller/kyvernoartifact_controller.go:356-369 | The loop counts each phase as often as it was seen |
| `ControllerRuns.ActProgress` | internal/controller/kyvernoartifact_controller.go:73-334 | For a reconciliation up to its write: a write without effect leaves the distance, an effective one takes one off |
| `Controller.KyvernoArtifactReconciler.BuildEnv` | internal/controller/kyvernoartifact_controller.go:83-187 | The appending code prints the environment list that the round trip starts from |
| `Controller.KyvernoArtifactReconciler.AddFlags` | internal/controller/kyvernoartifact_controller.go:114-134 | The three optional switches and when each is printed |
| `Controller.KyvernoArtifactReconciler.ReadEnv` | internal/controller/kyvernoartifact_controller.go:274-279 | The loop that fills the map |
| `Controller.KyvernoArtifactReconciler.NeedsUpdate` | internal/controller/kyvernoartifact_controller.go:252-321 | The step-by-step comparison answers drift exactly |
| `WatcherConfig.SpecReachesWatcher` | internal/watcher/schema.go:72-179 | The watcher started in the pod built for a spec accepts its environment if and only if the spec is startable, and its configuration then says what the spec says, any int32 interval or 60, with defaults github, true, false, false, and holds the cleaned credentials of its provider and no others |
| `WatcherConfig.PodEnvCarries` | internal/controller/kyvernoartifact_controller.go:95-187 | Each variable of the started container holds what the spec, the configuration, the secrets or the kubelet put there |
| `WatcherConfig.AccessExact` | internal/watcher/schema.go:83-131 | Credentials and reference are accepted exactly for startable specs |
| `WatcherConfig.IntervalRoundTrip` | internal/watcher/schema.go:223-231 | Scanning the printed interval gives the interval back |
| `WatcherConfig.BoolRoundTrip` | internal/watcher/schema.go:181-191 | A printed switch is read back, an absent one reads as the default |
| `WatcherConfig.ReadConfig` | internal/watcher/schema.go:72-179 | The step-by-step loading, with its early fatal errors, computes the configuration specification |
| `ConfigTexts.ProviderSpelling` | internal/watcher/schema.go:73 | Capital letters in PROVIDER make no difference to the configuration |
| `ConfigTexts.OnTexts` | internal/watcher/schema.go:181-191 | The texts that switch on, in any spelling |
| `ConfigTexts.OffTexts` | internal/watcher/schema.go:181-191 | Any other text switches off, the empty one leaves the default |
| `ConfigTexts.NumberAmongOthers` | internal/watcher/schema.go:223-231 | Blanks before a number and anything but a digit after it are ignored |
| `ConfigTexts.PlusSign` | internal/watcher/schema.go:223-231 | A plus sign is accepted |
| `ConfigTexts.NoNumber` | internal/watcher/schema.go:223-231 | A text that does not begin as a number leaves the default |
| `ConfigTexts.NumberRefused` | internal/watcher/schema.go:223-231 | A number beyond 64 bits, or one after a line end, leaves the default |
| `ConfigTexts.LowerIsExact` | internal/watcher/schema.go:73 | Exactly the capital letters change, each into its small one |
| `ConfigTexts.TokenIsExact` | internal/watcher/schema.go:85-98 | A token is trimmed and then cleaned |
| `ConfigTexts.PrintableIsExact` | internal/watcher/schema.go:93-98 | Only printable ASCII is left of a token, and a printable one is left whole |
| `ConfigTexts.PackageIsEscaped` | internal/watcher/schema.go:151 | The normalised package is its parts with %2F between them |
| `ConfigTexts.BareDefaults` | internal/watcher/schema.go:72-133 | With none of the optional settings: github, 30 seconds, tag polling, no deletion, no reconciliation, users |
| `ConfigTexts.NameFromHost` | internal/watcher/schema.go:141-148 | Without ARTIFACT_NAME the name is what follows the prefix in the host name, if the prefix is there |
| `Trimming.SpacesInAscii` | internal/watcher/helpers.go:172 | Of ASCII, exactly the blank, tabs and line ends are trimmed |
| `Trimming.TrimSpaceTrims` | internal/watcher/helpers.go:171-172 | Trimming takes off exactly the white space at both ends |
| `Text.ScanInvertsItoa` | internal/watcher/schema.go:223-231 | Scanning undoes decimal printing on every 64-bit number |
| `Text.ItoaInjective` | internal/controller/kyvernoartifact_controller.go:85 | Decimal printing is injective |
| `Text.JoinInvertsSplit` | internal/watcher/schema.go:193-208 | Joining undoes splitting at a character |
| `Image.ParseIsExact` | internal/watcher/schema.go:193-214 | The parser accepts owner and package exactly when the text before the first colon is host/owner/package |
| `Image.ParseRecovers` | internal/watcher/schema.go:193-214 | For references without port or digest, owner and package path are recovered, with or without a tag |
| `Image.PinnedPullIsExact` | internal/watcher/watcher.go:206-222 | Pinned tag and stripped base rebuild the given reference if and only if it holds a single colon |
| `Image.PortIsCutOff` | internal/watcher/watcher.go:499-504 | With a registry port, the port and the whole path behind it are lost from the pulled reference |
| `ManifestRuns.OrderDoesNotMatter` | internal/watcher/watcher.go:263-270 | With distinct targets, any two orders of applying leave the same contents and fail on the same files, namely those that do not parse, have no target or are not admitted |
| `ManifestRuns.ApplyingTwiceIsOnce` | internal/watcher/watcher.go:765-784 | Applying a list twice leaves the contents that applying it once leaves |
| `ManifestRuns.QuietApplyAll` | internal/watcher/watcher.go:765-896 | Applying a list puts in exactly the applicable files and leaves every other object as it was; each answer says whether the file was applicable |
| `ManifestRuns.QuietCompareAll` | internal/watcher/helpers.go:34-100 | The comparison changes nothing and selects exactly the files whose object is missing, has no spec or has another truncated checksum |
| `ManifestRuns.ComparedIsApplied` | internal/watcher/helpers.go:58-63 | The object looked up for comparison is the one that applying writes, for both scopes and an empty or stray namespace; no other object changes |
| `ManifestRuns.ChecksumsConverge` | internal/watcher/helpers.go:34-100 | After everything selected has been applied, the next comparison selects exactly the previously selected files without a spec |
| `ManifestRuns.LabelledMatch` | internal/watcher/watcher.go:520-577 | The stored checksum of a manifest with a spec is the checksum of that spec, also after rewriting |
| `ManifestRuns.SelectionSettles` | internal/watcher/helpers.go:34-100 | When every manifest can be applied and has a spec, applying one selection leaves nothing to select |
| `ManifestTargets.LabelIsExact` | internal/watcher/watcher.go:525-577 | A file that can be read, parsed and rewritten keeps all but its labels, which are the watcher's four and its own others; any other file stays; exactly the readable, parsable ones get the 48 digits |
| `ManifestTargets.AppliedWhereItSays` | internal/watcher/watcher.go:830-896 | Over a quiet cluster a pulled file that applies leaves its manifest, spec and rest as pulled, under exactly its resource, its namespace if the kind has one, and its name, and changes no other key |
| `ManifestTargets.AppliesIfAdmitted` | internal/watcher/watcher.go:830-896 | It applies if and only if its names pass the client and admission lets it in at that key |
| `ManifestTargets.ComparedWhereItSays` | internal/watcher/helpers.go:51-93 | A pulled file is selected if and only if the object at that same key is missing, has no spec, or a spec of another checksum |
| `ManifestTargets.BothGoThere` | internal/watcher/helpers.go:58-63 | Lookup and write have the same key, namespace and name spelled out, and both have none in the same cases |
| `ManifestTargets.FailedComparison` | internal/watcher/helpers.go:65-74 | A failing read selects the file exactly if its text contains "not found" |
| `ManifestTargets.FailedReadAppliesNothing` | internal/watcher/watcher.go:880-882 | If the object cannot be read, nothing is written |
| `ManifestTargets.RacedApplyFails` | internal/watcher/watcher.go:883-893 | What another actor wrote, created or removed between the read and the write is never overwritten |
| `Manifests.LabelFiles` | internal/watcher/watcher.go:525-577 | The loop over the directory, in any order, leaves the labelled files and the checksum map |
| `Manifests.LabelFile` | internal/watcher/watcher.go:526-576 | One file: checksum of the spec or else of the content, labels, rewrite, and which failures skip what |
| `WatchLoop.Watcher.WatchLoop` | internal/watcher/watcher.go:187-313 | The method ends in exactly the state, cluster and journal of one cycle of the step machine, and answers no exactly if the cycle failed |
| `WatchLoop.Watcher.ApplyChosen` | internal/watcher/watcher.go:271-310 | Applying and then writing the bookmark, as the machine does; the answer tells which |
| `WatchLoop.Watcher.SaveBookmark` | internal/watcher/watcher.go:306-310 | The file is emptied before it is filled; either half can fail, and the answer tells |
| `WatchLoop.Watcher.PullImageToDir` | internal/watcher/watcher.go:466-578 | Pull, label and checksum, or an error |
| `WatchLoop.Watcher.ChecksumsChanged` | internal/watcher/helpers.go:34-100 | The loop computes the selection and journals each comparison; "changed" means a non-empty selection |
| `WatchLoop.Watcher.CompareFile` | internal/watcher/helpers.go:38-97 | One file compared against the cluster, branch by branch |
| `WatchLoop.Watcher.ApplyManifests` | internal/watcher/watcher.go:765-784 | The loop applies every file, passing over failures, and journals each attempt |
| `WatchLoop.Watcher.ApplyManifestFile` | internal/watcher/watcher.go:788-826 | A file that is missing or does not parse fails without a call |
| `WatchLoop.Watcher.ApplyResourceNow` | internal/watcher/watcher.go:830-896 | Get, then create on not-found, update on success, error otherwise |
| `Bookmarks.BookmarkIsEarned` | internal/watcher/watcher.go:187-313 | Over every behaviour with a crash between any two steps: each bookmark was written by an unbroken cycle that pulled the stripped reference with that very tag and first attempted every file due, all on a new tag and exactly the differing ones otherwise; the files are those of the pull that can be read and parsed, and what was compared and applied is that pull, labelled for the artifact and the tag |
| `WatchRuns.CrashOnlyRepeats` | internal/watcher/watcher.go:240-271 | In every polling mode with a non-zero interval, checksums on or off, whatever tags were heard before: after a crash at any point, the next cycle that hears a tag that no cycle has bookmarked takes it as new |
| `WatchRuns.PinnedCrashRepeats` | internal/watcher/watcher.go:199-302 | In pinned mode with checksum reconciliation, started without a bookmark: after a crash at any point the next cycle fetches the pinned tag and compares every manifest again |
| `WatchOutcomes.PollingCrashRepeats` | internal/watcher/watcher.go:187-302 | In polling mode with reconciliation on: after a crash at any point the next cycle that hears a tag pulls it again, and compares all of it if the file remembers the tag, else applies all of it |
| `WatchOutcomes.RefusedWriteFails` | internal/watcher/watcher.go:306-310 | A bookmark write that the disk refuses, at its opening or at its filling, fails the cycle and leaves the file as it is |
| `WatchOutcomes.DiskIsAsked` | internal/watcher/watcher.go:306-310 | Over every behaviour the file is emptied and filled only where the disk allowed it |
| `WatchOutcomes.NewTagReachesCluster` | internal/watcher/watcher.go:187-313 | From configuration, file and registry to the cluster: a poll that hears a tag the file does not remember leaves every admitted manifest of the pull at its own key with its spec and labels, every other object as it was, and the tag in the file |
| `WatchOutcomes.StandingReconciliation` | internal/watcher/watcher.go:187-313 | With reconciliation on and one tag followed, polling or pinned, whatever the file holds at first: one cycle over a quiet cluster brings every manifest in, and none of any number of later cycles changes the cluster or the file |
| `WatchDecisions.PollingSetsOut` | internal/watcher/helpers.go:138-175 | Polling with an interval, from the idle state: the tag heard against the trimmed file decides between a new fetch, a repeated one if reconciliation is on, and rest; so do no answer and an empty one |
| `WatchDecisions.EveryCycleSetsOut` | internal/watcher/helpers.go:106-136 | With interval zero the tag named by the reference, or else the registry's latest, is fetched as new every time; an empty answer is not |
| `WatchDecisions.PinnedSetsOut` | internal/watcher/watcher.go:199-243 | Without polling: no pinned tag, rest; an unreadable file, failure; a missing, empty or equal bookmark, a repeated fetch if reconciliation is on and else rest; any other, a new fetch |
| `WatchDecisions.LatestIsExact` | internal/watcher/helpers.go:142-169 | The registry is asked unless the provider is artifactory and the reference names a tag other than latest |
| `WatchDecisions.PinnedTagIsExact` | internal/watcher/watcher.go:206-222 | The pinned tag is what follows the last colon, if no slash follows it, and nothing else |
| `WatchRuns.NewTagRollsOut` | internal/watcher/watcher.go:254-310 | A cycle over a quiet cluster that sees a new tag, with distinct targets and a writable file, puts in every applicable manifest, leaves all else as it was, and bookmarks the tag even if some could not be applied |
| `WatchRuns.BookmarkVouches` | internal/watcher/watcher.go:304-310 | After such a cycle over fresh targets a manifest is in the cluster if and only if it could be applied, so all are if and only if all could |
| `WatchRuns.BookmarkOverNothing` | internal/watcher/watcher.go:775-783 | Where admission turns every policy away, the tag is bookmarked over an unchanged cluster |
| `WatchRuns.PollingQuiesces` | internal/watcher/watcher.go:187-313 | With polling on, checksums off, a non-zero interval and one constant trimmed tag: at most one bookmark in any behaviour, no cycle rests before it, and nothing is fetched, applied or written after it |
| `WatchRuns.NamedTagPollsOne` | internal/watcher/helpers.go:152-168 | An artifactory reference that names a tag other than "latest" is polled for that tag alone, so its watcher quiesces whatever the registry says; with "latest" the registry decides |
| `WatchRuns.StepQuiesces` | internal/watcher/watcher.go:193-198 | One step keeps that invariant |
| `WatchRuns.SeenTagRests` | internal/watcher/watcher.go:240-243 | Started with the tag already bookmarked, the watcher never does anything |
| `WatchRuns.RestsAfterBookmark` | internal/watcher/helpers.go:104-175 | After the bookmark a cycle that hears the same tag, from the registry or from the reference, rests if and only if the interval is not zero and the tag has no outer white space; otherwise the tag is new every time |
| `WatchRuns.PinnedNeverSeesNewTag` | internal/watcher/watcher.go:199-243 | In pinned mode started without a bookmark, the file is missing, empty or the pinned tag, the new-tag branch is never taken, and without checksum reconciliation nothing is ever fetched or applied |
| `WatchRuns.WatcherOnlyAdds` | internal/watcher/watcher.go:187-313 | With no other actor, over every behaviour no object disappears and only targets of attempted files change, so policies dropped by a newer tag stay |
| `WatchRuns.WatcherEvolves` | internal/watcher/watcher.go:187-313 | Every behaviour of the watcher is a lawful change for the other actors: what it leaves is unchanged or of a version later than everything the cluster held |
| `WatchRuns.ReconcilingSettles` | internal/watcher/watcher.go:273-302 | Over a quiet cluster, one whole checksum cycle over reconcilable manifests leaves nothing to apply, and the next cycle over the same files changes neither cluster nor bookmark |
| `WatchRuns.NothingToApply` | internal/watcher/watcher.go:300-302 | When no file needs applying, the cycle ends as up to date without a write |
| `WatchRuns.CycleIsBehaviour` | internal/watcher/watcher.go:187-313 | Each cycle that the method runs is a behaviour of the step machine, so the run theorems cover it |
| `Cleanup.SurvivorsAreNewer` | internal/watcher/watcher.go:119-147 | Racing with any writers: if cleanup's own calls work, every ClusterPolicy that still carries the artifact label is of a later version than everything the cluster held when cleanup listed the ClusterPolicies |
| `Cleanup.CleanupMissesNamespaced` | internal/watcher/watcher.go:172-176 | With nothing else going on, an owned policy survives cleanup if and only if it has a namespace |
| `Cleanup.Cleaner.DeleteResourcesByLabel` | internal/watcher/watcher.go:150-183 | Each delete names the kind and name of an object that carried the label when listed, and failures are passed over |
| `Cleanup.Cleaner.CleanupPolicies` | internal/watcher/watcher.go:119-147 | Policies, then ClusterPolicies; each delete issued goes back to an object that carried the label in one of the two lists |
| `Cleanup.QuietDeleteByLabel` | internal/watcher/watcher.go:150-183 | Exactly the listed names are removed and everything else stays |
| `Layers.FileNameInjective` | internal/watcher/watcher.go:738-743 | Across both prefixes, a file name tells the layer index |
| `Layers.FileNameShape` | internal/watcher/watcher.go:738-743 | The names spelled out; they end in .yaml |
| `Layers.ExtractedIsFound` | internal/watcher/watcher.go:898-913 | Every extracted file is one that the search for YAML files finds |
| `Layers.PullOCI` | internal/watcher/watcher.go:688-694 | Extraction works exactly if every layer can be extracted, and then leaves one file per non-empty layer with its content, none overwritten; the counter equals the number of files |
| `Layers.ProcessLayer` | internal/watcher/watcher.go:707-756 | An empty layer is skipped and not counted; otherwise one file is written under the name of its index |
| `Layers.ExtractedNext` | internal/watcher/watcher.go:738-753 | The next layer never overwrites a file that is there |
| `Kubernetes.WriteIsNewest` | internal/watcher/watcher.go:873-893 | An accepted create or update stores the content under a version later than everything the cluster held |
| `Kubernetes.WritesEvolve` | internal/watcher/watcher.go:873-893 | Every call, failed or not, keeps the store bounded by its revision and changes objects only to new versions |
| `Kubernetes.ArrangeLists` | internal/gc/gc.go:158-200 | A list reply holds exactly the matching objects, each once |

## Left out

- Latest-tag lookups: the HTTP calls, JSON decoding and authentication; their answer is an arbitrary tag or an error at each moment.
- ORAS and go-containerregistry, `orasPull` included: a pull is an arbitrary set of files or an error; only the layer loop of `pullOCI` is modelled.
- YAML, JSON, SHA-256, the REST mapper and image reference parsing: functions given from outside, with a 64-digit hash and a YAML codec that reads back what it wrote. No result assumes that the hash has no collisions.
- Manifests: one document per file, so no partial application of a file and no skipping of empty documents.
- Disk: a rewrite of a manifest that fails leaves the file as it was; the directory is empty before a pull; files do not change between labelling and applying. `sanitizePath` only names that directory.
- Text: lower-casing is that of ASCII letters; a reference that the client refuses is refused with a fixed phrase, so an invalid name that itself contains "not found" is not selected by a comparison as it would be in Go.
- ManifestRuns.OrderDoesNotMatter: contents are compared without resource versions, which do depend on the order.
- WatcherConfig.SpecReachesWatcher: assumes that the pod's ambient environment sets none of the variables that the controller sets only sometimes; expansion of `$(VAR)` in values is not modelled, and a missing secret, with which the pod would not start, is not represented.
- ControllerRuns.ReconcileConverges: assumes that nobody else edits the artifact or its pod and that the kubelet does not move a pod that is not being deleted between terminal and other phases meanwhile.
- Pods: volumes, mounts, pull and restart policy and owner references; `SetControllerReference` does not fail.
- The API server beyond get, list, create, update and delete: its refusals for other reasons (label values, a namespaced kind without a namespace) appear only as failing calls and admission.
- Client construction is one call that may fail; fatal configuration errors are an error result; the state directory can always be created.
- `Run` loops, sleeping, signal wiring and log text; cleanup is modelled as a concurrent actor.
- Prometheus: registration and export; the gauges are a record of two fields.
- WatchRuns.NewTagRollsOut: assumes that the bookmark file can be written; failing writes are covered by the crash and failure theorems.
- `cmd/main.go`, `internal/k8s/client.go`, generated code and deployment manifests: plumbing.
