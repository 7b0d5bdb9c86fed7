# Verified model of the joylive-injector webhook

The injector is a Kubernetes mutating webhook. Two watchers fill process-wide caches from ConfigMaps and
AgentVersions; the deployment admission labels a deployment, adds env vars to its first container and writes
`<deployment>-live-configmap`; the pod admission adds an init container, mounts, volumes, labels and env vars. This
project models those parts in Dafny and proves what they promise together.

How the model is laid out:

- `Informer`, `ConfigMapProtocol`, `AgentVersionProtocol`: the watchers as step systems. A state holds the informer
  store, the FIFO of undelivered events, the dirty keys, the worker's hand and the caches; store changes, deliveries,
  worker lookups, worker writes and the writes of `InitConfigMap`/`InitAgentVersion` interleave freely.
  `ConfigMapRaces` and `AgentVersionRaces` hold runs that end wrong. `InjectorConfig`, `ConfigMapWatcher` and
  `AgentVersionWatcher` are the routines themselves, each proved to take exactly its steps.
- `InformerFactoryProtocol`, `InformerFactory`: the shared informer factory, under concurrent callers and as a class.
- `RuleMatching`, `PodEnvs`, `NodeZones`, `Strings`, `EnvMerge`, `EnvAppend`, `SidecarSettings`, `PodInjection`: the
  pod admission. `AdmissionPaths`, `InitContainers`, `AgentFiles`, `PodPrecedence`, `PodTheorems`, `PodVolumes`,
  `SidecarPass` and `SecondAdmission` hold the results about the whole admission; `PodWalks` shows that every walk over
  the rules has an outcome.
- `ControlPlane`, `LabelUpdates`, `DeployMutation`, `DeployAdmission`: the deployment admission. `DeployTheorems`
  holds its contents, idempotence and framing, `ConfigMapLedger` the effect of request sequences on the cluster.
- `VersionAgreement`: both admissions and the watcher together.
- `Prelude`, `ConfigLabels`, `Workload`: shared vocabulary. Go's map iteration is an arbitrary choice everywhere.

Assumptions, each stated where it is used:

- A store change and the queueing of its event are one step, events are delivered in order, map writes are atomic, and
  the work queue is a set from which any key may be taken. Keys of the ConfigMap watcher are names, because it watches
  one namespace.
- The default and the rules ConfigMap have different names.
- Nothing orders the worker and `InitConfigMap`/`InitAgentVersion`: `pkg/watcher/init.go:24-32` starts the worker first.
  The agreement results therefore hold for exactly the runs without the writes that break them
  (`ConfigMapProtocol.EveryRunKeepsInvariantIff`, `AgentVersionProtocol.EveryRunKeepsInvariantIff`). That the worker
  waits is one sufficient condition, proved as a corollary; the broken runs exist
  (`ConfigMapRaces.UnsynchronisedInitLosesAnUpdate`, `AgentVersionRaces.UnsynchronisedInitMisfiles`).
- The rules are cleared for good only if no snapshot of them is written after the delete was delivered and the delete
  is no tombstone. Both exceptions are exact (`ConfigMapProtocol.RulesGoneUnlessHazard`) and both occur
  (`ConfigMapRaces.LateWriteRevivesRules`, `ConfigMapRaces.TombstoneLeavesRules`).
- A failing API call has no effect, and only this webhook writes the per-deployment ConfigMaps.

Where the code differs from what a reader may expect, the code is followed:

- `pkg/mutation/mutation_pod.go:356-357` joins an agent env value to an existing one on a local copy that is then
  dropped, so the existing value stays.
- Containers without a name are dropped from an injected pod (`pkg/mutation/mutation_pod.go:340`).
- A version asked for by a deployment's own labels is stamped on the template before the deep copy
  (`pkg/mutation/mutation_deploy.go:277`), so it is on both sides of the patch and never reaches the stored object,
  although the comment there says the template gets it. On a template without any label map the stamp crashes.
- A deployment that is denied because the control plane refused still had its ConfigMap written.
- A failed lookup in `pkg/watcher/av_watcher.go:147` queues the item instead of the key. The key is lost, and when the
  worker takes that entry, `key.(string)` in line 144 panics and the process dies.
- A rule may add the version label to a pod (`pkg/mutation/mutation_pod.go:137-145`) after the deployment's ConfigMap was
  chosen without it, so image and configuration differ (`VersionAgreement.RuleAddsTheVersion`).
- A rule may also add `sidecar.istio.io/inject: "true"` or `jmsf.jd.com/enhance: sidecar`, which the path was chosen
  without (`pkg/mutation/mutation_pod.go:100-104`). A second admission of that pod takes the sidecar path and may add env
  vars (`SecondAdmission.RuleDiverts`).
- Sidecar settings may add the space label and so change which settings a second pass asks for
  (`SidecarPass.SpaceSettingUnsettles`).
- `pkg/resource/control_test.go` expects two env vars; the code adds more that follow from the labels.

## Model

| member | source | states |
|---|---|---|
| Informer.AwaitingAfter | pkg/watcher/cm_watcher.go:73-109 | No store change, delivery, queue pick or lookup makes the watcher forget a stored object that still awaits caching; only the worker finishing with its current content does |
| Informer.SoundAfter | pkg/watcher/cm_watcher.go:83-107 | Every step keeps: a snapshot gone stale in the worker's hand is queued again, and a pending delete of a re-added key is followed by its add event |
| ConfigMapProtocol.CachedReflects | pkg/watcher/cm_watcher.go:132-175 | Caching one ConfigMap makes the caches reflect it and leaves what they reflect of any other ConfigMap as it was |
| ConfigMapProtocol.InvariantUnlessStaleInitWrite | pkg/watcher/cm_watcher.go:48-211 | Whatever the timing of InitConfigMap, a step leaves some stored ConfigMap neither reflected in the caches nor dirty, nor with an undelivered unequal update or add, nor in the worker's hand, if and only if it is InitConfigMap writing outdated data over a ConfigMap nobody will cache again |
| ConfigMapProtocol.EveryRunKeepsInvariantIff | pkg/watcher/cm_watcher.go:48-211 | Under every interleaving, each stored ConfigMap meets one of the four conditions in every state of a run if and only if the run has no such write |
| ConfigMapProtocol.DrainedCachesAgree | pkg/watcher/cm_watcher.go:48-211 | Once such a run is drained the caches agree with every stored ConfigMap, although updates judged equal were skipped |
| ConfigMapProtocol.CanCatchUp | pkg/watcher/cm_watcher.go:73-211 | From any state that meets the conditions, deliveries and turns of the worker alone lead to a drained state in which the caches reflect each stored ConfigMap: a watcher left alone catches up |
| ConfigMapProtocol.InitAloneReflectsStore | pkg/watcher/cm_watcher.go:48-62 | When nothing happens beside it, a successful InitConfigMap leaves caches that reflect every stored ConfigMap, in whatever order it lists them |
| ConfigMapProtocol.WaitingRunsKeepInvariant | pkg/watcher/cm_watcher.go:48-62 | A worker that takes no key before InitConfigMap is through is enough |
| ConfigMapProtocol.RulesGoneUnlessHazard | pkg/watcher/cm_watcher.go:83-107 | A step leaves rules behind without a rules ConfigMap if and only if it writes a stale rule set after the delete was delivered, or the delete arrives as a tombstone |
| ConfigMapProtocol.EveryRunKeepsRulesGoneIff | pkg/watcher/cm_watcher.go:83-211 | The rules of a deleted ConfigMap are cleared, or their delete is still to come, in every state of a run if and only if neither of those steps occurs in it |
| ConfigMapProtocol.DrainedRulesAgree | pkg/watcher/cm_watcher.go:158-211 | With the worker's lookup and write as one step, over any run with deletes, re-adds and failed lookups, a drained state has no rules when the rules ConfigMap is absent and exactly its parsed rules when it is present and parses |
| ConfigMapProtocol.FreshStartIsReady | pkg/watcher/cm_watcher.go:48-62 | A fresh process that lets InitConfigMap finish first is in a state from which the rule result holds |
| ConfigMapRaces.UnsynchronisedInitLosesAnUpdate | pkg/watcher/cm_watcher.go:48-62 | A concrete run: InitConfigMap beside a working queue writes an old listed value over a newer one, and the drained cache is stale |
| ConfigMapRaces.LateWriteRevivesRules | pkg/watcher/cm_watcher.go:102-107 | A concrete run: the worker caches rules it looked up before their delete was delivered, and they stay |
| ConfigMapRaces.TombstoneLeavesRules | pkg/watcher/cm_watcher.go:83-88 | A concrete run: a delete seen as a tombstone leaves the rules in place |
| InjectorConfig.InjectorConfigStore.CacheConfigMap | pkg/watcher/cm_watcher.go:132-175 | Which of the caches a ConfigMap replaces, what a failing call has already changed, and that the others stay |
| InjectorConfig.ParseAllRules | pkg/watcher/cm_watcher.go:159-167 | Whatever the walk, rules are all parsed or the call fails at some unparsable one |
| InjectorConfig.RulesAreTheLatestThatParsed | pkg/watcher/cm_watcher.go:158-167 | After any calls the rules are, as a whole, those of the latest rules ConfigMap that parsed |
| InjectorConfig.MapsHoldTheirLatestData | pkg/watcher/cm_watcher.go:168-173 | After any calls every other ConfigMap is cached under its name with its latest non-nil data |
| InjectorConfig.DefaultsFollowTheLatestCall | pkg/watcher/cm_watcher.go:144-157 | After any calls the default data is that of the latest default call, without `injector.yaml` unless that call could not parse it |
| InjectorConfig.AgentIsTheLatestThatParsed | pkg/watcher/cm_watcher.go:150-157 | After any calls the agent configuration is the latest one that parsed |
| ConfigMapWatcher.ConfigMapWatcher.UpdateFunc | pkg/watcher/cm_watcher.go:78-82 | An update queues its key exactly when data or binary data changed |
| ConfigMapWatcher.ConfigMapWatcher.DeleteFunc | pkg/watcher/cm_watcher.go:83-107 | A delete clears the rules exactly when it is an ordinary delete of the rules ConfigMap |
| ConfigMapWatcher.ConfigMapWatcher.DeliverNext | pkg/watcher/cm_watcher.go:73-109 | Handling the oldest event is the protocol's delivery step |
| ConfigMapWatcher.ConfigMapWatcher.ProcessConfigMap | pkg/watcher/cm_watcher.go:186-211 | One turn of the worker is the protocol's take, look up and finish; a failed lookup puts the key back |
| ConfigMapWatcher.ConfigMapWatcher.InitConfigMap | pkg/watcher/cm_watcher.go:48-62 | Everything listed is cached in the lister's order, up to the first failure |
| ConfigMapWatcher.InitStepsCacheAll | pkg/watcher/cm_watcher.go:54-60 | The protocol's item-by-item initialisation, left alone, ends in the caches the routine computes |
| ConfigMapWatcher.InitSucceedsIff | pkg/watcher/cm_watcher.go:54-60 | InitConfigMap succeeds if and only if each listed ConfigMap has data and what must be parsed of it parses, whatever the order and the caches |
| AgentVersionProtocol.InvariantUnlessHazard | pkg/watcher/av_watcher.go:46-161 | A step leaves some stored spec neither filed nor awaiting if and only if the worker or InitAgentVersion files a different spec over one nobody will file again, or a failed lookup loses the key of one not yet filed |
| AgentVersionProtocol.EveryRunKeepsInvariantIff | pkg/watcher/av_watcher.go:46-161 | Every stored spec is filed under its version or awaiting in every state of a run if and only if none of these steps occurs in it |
| AgentVersionProtocol.DrainedCacheAgrees | pkg/watcher/av_watcher.go:46-161 | Once such a run is drained, the cache entry of every stored object's version is that object's spec, even when versions moved between objects |
| AgentVersionProtocol.FairRunsKeepInvariant | pkg/watcher/av_watcher.go:71-161 | Objects that agree per version in every state, a worker that waits for InitAgentVersion and no failed lookup are enough |
| AgentVersionProtocol.CanCatchUp | pkg/watcher/av_watcher.go:71-161 | Over a store whose objects agree per version, deliveries and turns of the worker alone lead to a drained state of a live process with each stored spec filed |
| AgentVersionRaces.SharedVersionLeavesWrongSpec | pkg/watcher/av_watcher.go:81-88 | A concrete run: two objects share a version, one is deleted, and the drained cache keeps the deleted one's spec |
| AgentVersionRaces.UnsynchronisedInitMisfiles | pkg/watcher/av_watcher.go:46-60 | A concrete run in which no two objects ever share a version: InitAgentVersion beside a working queue files an old listed spec over a newer one |
| AgentVersionProtocol.SafeIffNoLookupFailed | pkg/watcher/av_watcher.go:137-149 | At the end of a run the process lives and holds no queue entry that would kill it if and only if no lookup failed |
| AgentVersionProtocol.ForeignEntryIsFatal | pkg/watcher/av_watcher.go:138-149 | After a failed lookup, wherever the worker stands, some continuation ends with the process dead and nothing possible after |
| AgentVersionRaces.FailedLookupEndsInCrash | pkg/watcher/av_watcher.go:144-149 | A concrete run: one failed lookup, a crashed process, and nothing filed |
| AgentVersionProtocol.EveryRunFilesUnderOwnVersion | pkg/watcher/av_watcher.go:113-126 | In every run every cached spec is filed under its own version |
| AgentVersionWatcher.AgentVersionWatcher.DeliverNext | pkg/watcher/av_watcher.go:71-90 | Handling the oldest event is the protocol's delivery step; deletes do nothing |
| AgentVersionWatcher.AgentVersionWatcher.ProcessAgentVersion | pkg/watcher/av_watcher.go:137-161 | One turn of the worker with a key is the protocol's take, look up and finish, or the take and the failed lookup |
| AgentVersionWatcher.AgentVersionWatcher.InitAgentVersion | pkg/watcher/av_watcher.go:46-60 | Everything listed is cached in the lister's order |
| AgentVersionWatcher.CacheAllFilesEverySpec | pkg/watcher/av_watcher.go:52-58 | Listing objects that agree per version caches each of them and keeps every other entry |
| InformerFactoryProtocol.EveryRunIsSafe | client-go/informers/externalversions/factory.go:124-200 | Over all interleavings: at most one caller holds the lock, started types are registered, each informer is launched at most once, a type always yields the same informer, the wait group counts the unfinished goroutines, none runs once Shutdown has returned, and a Start leaves behind no registered type that is neither started nor still to come |
| InformerFactoryProtocol.StartIsComplete | client-go/informers/externalversions/factory.go:124-146 | In every run, a Start that is through without the shutdown flag set has every registered type started, whatever ran beside it |
| InformerFactoryProtocol.StartLaunchesTheMissing | client-go/informers/externalversions/factory.go:124-146 | A call of Start from lock to unlock launches one goroutine for each registered type not yet started and none otherwise, and nothing while shutting down |
| InformerFactoryProtocol.ShutdownCanReturn | client-go/informers/externalversions/factory.go:148-155 | From every reachable state with a free lock Shutdown can be called and some continuation lets it return: that the informers stop is all it waits for |
| InformerFactoryProtocol.NothingStartsAfterShutdown | client-go/informers/externalversions/factory.go:148-155 | From the moment the flag is set, no continuation launches a goroutine |
| InformerFactoryProtocol.InformersAreStable | client-go/informers/externalversions/factory.go:180-200 | A registered type keeps its informer in every continuation |
| InformerFactoryProtocol.RegisteredForGood | client-go/informers/externalversions/factory.go:180-200 | With a free lock an informer can be asked for; it is the registered one or else the one created, and remains the type's informer in every continuation |
| InformerFactoryProtocol.StartLoopLaunches | client-go/informers/externalversions/factory.go:132-145 | However Start walks the map, what it still has to visit is launched unless it is started, each type once |
| InformerFactory.SharedInformerFactory.Start | client-go/informers/externalversions/factory.go:124-146 | Every registered informer is started and only the missing ones are launched; nothing happens while shutting down |
| InformerFactory.SharedInformerFactory.Shutdown | client-go/informers/externalversions/factory.go:148-155 | Returns with the flag set, no goroutine running and the wait group at zero |
| InformerFactory.SharedInformerFactory.WaitForCacheSync | client-go/informers/externalversions/factory.go:157-176 | Reports on exactly the started types, each with its own informer's answer |
| InformerFactory.SharedInformerFactory.InformerFor | client-go/informers/externalversions/factory.go:180-200 | Yields the registered informer, or registers one built for the type's own resync period and given the factory's transform |
| RuleMatching.IsMatch | pkg/mutation/mutation_pod.go:493-500 | A rule matches if and only if each required pair equals the pod's label, a missing label read as empty |
| RuleMatching.MatchRule | pkg/mutation/mutation_pod.go:475-491 | The added envs and labels are the merges of one and the same walk over the rules |
| RuleMatching.MergeIsUnion | pkg/mutation/mutation_pod.go:478-489 | For every walk the merged keys are the union over the matching rules and each value is some matching rule's |
| RuleMatching.MergeIsDeterminateIff | pkg/mutation/mutation_pod.go:475-491 | All walks give the same result if and only if matching rules agree on the keys they share |
| NodeZones.GetNodeWithZone | pkg/mutation/mutation_pod.go:227-249 | The zone string encodes the grouping of the nodes in some walk; a failed node list gives the empty string |
| NodeZones.GroupsPartitionNodes | pkg/mutation/mutation_pod.go:235-241 | Each node with a zone lands in its zone's group, in no other, once and in list order |
| NodeZones.DecodeUndoesEncode | pkg/mutation/mutation_pod.go:243-248 | Splitting the string at its separators gives the grouping back, whatever the walk |
| NodeZones.ZoneStringDeterminesGrouping | pkg/mutation/mutation_pod.go:227-249 | Two node lists with the same zone string, in whatever walks, have the same grouping |
| NodeZones.TwoZonesText | pkg/mutation/mutation_pod.go:243-248 | The text of two zones, character for character |
| Strings.SplitUndoesJoin | pkg/mutation/mutation_pod.go:245-248 | Joining parts free of the separator loses nothing |
| Strings.JoinUndoesSplit | pkg/mutation/mutation_pod.go:182 | Joining the pieces of a split gives the string back, and no piece holds the separator |
| Strings.TrimSpaceTrims | pkg/mutation/mutation_pod.go:186 | Trimming takes spaces off both ends, takes off nothing else, and leaves none there |
| PodEnvs.MakePodEnvs | pkg/mutation/mutation_pod.go:179-225 | The env vars are the non-empty labels with a configured prefix, once each in any order, then the node's name and zones; none without a valid prefix |
| PodEnvs.PodEnvsHaveTheirNames | pkg/mutation/mutation_pod.go:195-223 | The names do not depend on walks or on the cluster's nodes |
| PodEnvs.PodEnvsHaveTheirValues | pkg/mutation/mutation_pod.go:203-223 | Each carries its label's value, and the node's name and zones hide labels of those names |
| PodEnvs.EnvsComeFromPrefixes | pkg/mutation/mutation_pod.go:179-224 | A label becomes an env var if and only if it has a value and starts with a piece of the comma-separated setting that is more than spaces, spaces around it ignored; the two node env vars are there if and only if there is such a piece |
| EnvMerge.ModifyPodContainer | pkg/mutation/mutation_pod.go:335-389 | Every named container, in order, with its mounts kept or completed and its env merged from all containers up to it |
| EnvMerge.MergeIsPrecedence | pkg/mutation/mutation_pod.go:335-368 | In container i every env name appears once, with the last value of the nearest container up to i that defines it, else the label env's, else the agent configuration's, and no other names appear |
| EnvMerge.AccumulatedPrecedence | pkg/mutation/mutation_pod.go:341-346 | The list that grows along the containers lets the nearest container decide a name |
| EnvAppend.AppendMissing | pkg/mutation/mutation_pod.go:119-134 | A container's entries stay, in place, and each missing name is appended once |
| EnvAppend.AppendedAsMap | pkg/mutation/mutation_pod.go:119-134 | As a map, the outcome does not depend on the walk and the container's own values win |
| EnvAppend.UnchangedIffNothingMissing | pkg/mutation/mutation_deploy.go:238-254 | The list is untouched if and only if no name was missing |
| PodInjection.AddPodInitContainer | pkg/mutation/mutation_pod.go:251-320 | The init container is appended unless one of its name is there, with the relational contents that the rows of `InitContainers` spell out |
| InitContainers.ImageTag | pkg/mutation/mutation_pod.go:251-278 | Its tag is the version that the injected pod's label names if that is cached and enabled and its ConfigMap is cached; a version that fails any of these gives the default tag |
| InitContainers.InitEnvIsTheAgents | pkg/mutation/mutation_pod.go:279-292 | Its env names are exactly the agent's, once each, and all values but that of JAVA_TOOL_OPTIONS are the agent's |
| InitContainers.JavaOptionsJoined | pkg/mutation/mutation_pod.go:283-333 | JAVA_TOOL_OPTIONS is the agent's value, a space, and what the pod sets: the value of the first entry in the first container that has one, where a matching rule's counts as container 0's own if that has none, and nothing when there is none |
| AgentFiles.NamedContainerStays | pkg/mutation/mutation_pod.go:335-413 | Each named container stays with its image and mounts, and if it does not mount the agent's directory it gains that and the three configuration files at their paths |
| AgentFiles.OnlyNamedContainersStay | pkg/mutation/mutation_pod.go:340 | No other container is in the injected pod |
| AgentFiles.AgentVolumes | pkg/mutation/mutation_pod.go:391-457 | The directory's volume and the deployment's ConfigMap volume are added together or not at all, the volume's items are exactly the mounted files, and the init container mounts the directory at its own path |
| PodInjection.InjectionPod | pkg/mutation/mutation_pod.go:41-177 | Which pods are left unchanged, denied, configured for the sidecar or injected with the agent, and that each path yields what its specification says |
| AdmissionPaths.PathOf | pkg/mutation/mutation_pod.go:79-150 | Pods without containers pass, pods without a known deployment are denied, and the others get the agent unless one of the two sidecar labels has its value |
| AdmissionPaths.InjectionIsRequiredIff | pkg/mutation/mutation_pod.go:526-547 | Injection is asked for by y, yes, true or on in any case, in the label or, without the label, in the annotation |
| AdmissionPaths.SidecarOutcome | pkg/mutation/mutation_pod.go:501-555 | A sidecar pod is given settings exactly when they are switched on, injection is asked for and has not happened, and space, service, cluster and deployment are known; a refusal leaves the pod as it is |
| PodTheorems.RulesOnlyFillGaps | pkg/mutation/mutation_pod.go:116-145 | Rule envs reach container 0 only where it lacks the name and rule labels reach the pod only where it lacks the key |
| PodTheorems.InjectedNames | pkg/mutation/mutation_pod.go:116-149 | Container i of an injected pod has exactly the names brought by labels, agent and rules and those any container up to i defines, once each |
| PodPrecedence.RuleEnvInFirst | pkg/mutation/mutation_pod.go:116-135 | A rule env that reaches container 0 is in force there, with some matching rule's value |
| PodPrecedence.InjectedPrecedence | pkg/mutation/mutation_pod.go:116-149 | Where every env value of an injected pod comes from: the nearest container up to this one that defined the name, else a matching rule, else a label, the node or its zones, else the agent configuration |
| PodTheorems.OwnValuesStay | pkg/mutation/mutation_pod.go:116-149 | A container keeps every env value it defines itself |
| SecondAdmission.StaysOnAgentPathIff | pkg/mutation/mutation_pod.go:100-145 | Whatever the walks, a pod that got the agent would take the agent path again if and only if no matching rule gives it a label it lacks with the value that selects the sidecar path |
| SecondAdmission.SecondAdmissionKeepsEnvsIff | pkg/mutation/mutation_pod.go:100-152 | A second admission keeps every container's env, as a map, if and only if it brings container 0 no new name, from the agent or, where rules diverted the pod, from the sidecar settings |
| SecondAdmission.SecondAdmissionSettlesIff | pkg/mutation/mutation_pod.go:100-152 | A second admission leaves the pod as it is, env lists read as maps, if and only if it brings nothing new on the path it takes |
| SecondAdmission.AdmissionSettlesIff | pkg/mutation/mutation_pod.go:41-177 | In terms of the pod that was sent, and with the control plane asked anew: two admissions are the same as one in all walks if and only if, for the labels of each walk over the rules, the second brings nothing the pod was not sent with or given |
| SecondAdmission.SecondAdmissionKeepsShape | pkg/mutation/mutation_pod.go:251-457 | With the same init container name, any second admission leaves init containers, volumes and all of the containers but their env alone |
| SecondAdmission.SecondAdmissionChangesNothing | pkg/mutation/mutation_pod.go:41-177 | With a named first container, the same name sets, no newly enabled rule and no diverting rule, a second admission changes nothing, although env values and zones may differ and walks vary |
| SecondAdmission.RuleDiverts | pkg/mutation/mutation_pod.go:100-145 | A concrete rule, configuration and reply: the first admission takes the agent path, the second the sidecar path, and that adds an env var |
| PodTheorems.LabelsAfter | pkg/mutation/mutation_pod.go:137-145 | Injection never overwrites a label, and adds exactly the labels that matching rules set, each with the value of one of them |
| PodWalks.WalkWithLabel | pkg/mutation/mutation_pod.go:478-489 | Each value a matching rule gives a missing label is what the pod gets in some walk |
| PodWalks.SomeInjection | pkg/mutation/mutation_pod.go:116-149 | Every order of the rules is the walk of some injection, so no result about all injections is empty |
| PodVolumes.MountedAfter | pkg/mutation/mutation_pod.go:276-384 | The volume names mounted after injection are the kept ones and, where mounts are added, the agent's two |
| PodVolumes.MountsStayClosedIff | pkg/mutation/mutation_pod.go:371-457 | For a pod whose mounts each name one volume, exactly when that still holds after injection |
| PodVolumes.MountsStayClosed | pkg/mutation/mutation_pod.go:415-457 | It holds whenever volume names are unique and the agent and configuration volumes are both present or both absent |
| SidecarSettings.ProcessSettingData | pkg/resource/control.go:199-224 | The settings per type, as the fold of the list |
| SidecarSettings.LastEntryWins | pkg/resource/control.go:199-224 | Per type and key exactly the last complete entry is kept, and nothing else gets in |
| SidecarSettings.AddPodConfigs | pkg/mutation/mutation_pod.go:549-603 | Only container 0, labels and annotations change, and only by what the pod lacks |
| SidecarSettings.OwnValuesWin | pkg/mutation/mutation_pod.go:557-597 | The pod's own envs, labels and annotations survive, each missing one gets the setting's value, and as maps the outcome is independent of the walks |
| SidecarSettings.ReapplyingChangesNothing | pkg/mutation/mutation_pod.go:549-603 | The same settings applied again change nothing, list order included |
| SidecarPass.OnePassSettlesIff | pkg/mutation/mutation_pod.go:501-603 | In terms of the pod that was sent and the settings it is given: one pass of the sidecar path settles it, the control plane being asked anew, if and only if with the labels and annotations it then has it wants no settings, gets none, or gets only what it was sent with or already given |
| SidecarPass.OnePassSettles | pkg/mutation/mutation_pod.go:501-603 | One pass settles the pod whenever the settings do not move it to another space |
| SidecarPass.SpaceSettingUnsettles | pkg/mutation/mutation_pod.go:501-603 | Two admissions of a sidecar pod whose first settings move it to another space, whose settings the second adds |
| ControlPlane.GetApplicationEnvironments | pkg/resource/control.go:37-118 | The routine yields, for every reply, the result the next four rows are about |
| ControlPlane.RepliesThatStop | pkg/resource/control.go:38-75 | With space and application known, read with their fallback labels, and only then, a refusal fails the admission and an unreachable control plane gives no envs at all |
| ControlPlane.IdentityEnvs | pkg/resource/control.go:38-87 | APPLICATION_NAME is the application and APPLICATION_SERVICE_NAMESPACE the space, over whatever the reply says, and both are absent when one is unknown |
| ControlPlane.PlacementEnvs | pkg/resource/control.go:90-115 | Lane switch, group, lane, service and the two type switches have the labels' values, over whatever the reply says; group and lane have defaults |
| ControlPlane.ReplyEnvs | pkg/resource/control.go:77-85 | Every other name is there if and only if the control plane was asked, replied with it, and does not have it filtered as a user name or password, with the replied value |
| DeployMutation.Target.MirrorForSidecar | pkg/mutation/mutation_deploy.go:119-134 | Sidecar templates mirror the deployment's labels every time; the webhook label only fills a gap |
| DeployMutation.Target.AddWebhookLabel | pkg/mutation/mutation_deploy.go:135-145 | Other templates are labelled once; a template with the webhook label is left alone |
| DeployMutation.Target.ModifyForSgm | pkg/apm/sgm.go:21-44 | The five APM labels fill gaps only, and the flag tells whether anything changed |
| DeployMutation.Target.AddApplicationEnvironments | pkg/mutation/mutation_deploy.go:231-258 | Container 0 gains the missing envs, other containers stay, and the flag tells whether anything changed |
| DeployMutation.RemoveEnvVar | pkg/mutation/mutation_deploy.go:314-325 | The list without that name, and whether it was there |
| DeployMutation.WithoutDrops | pkg/mutation/mutation_deploy.go:314-325 | What is left has no entry of the name, and the list is shorter exactly when it had one and the same otherwise |
| DeployMutation.Mutate | pkg/mutation/mutation_deploy.go:98-203 | Every outcome of the mutation and exactly when a change is flagged; without one the target equals the original, so skipping the patch loses nothing. The rows of `DeployTheorems` say what the outcomes hold |
| DeployTheorems.EnvsOfFirstContainer | pkg/mutation/mutation_deploy.go:170-197 | With a control plane and the enhance label `agent`, container 0 has exactly its own names and the control plane's, own values winning, and without the configure label CONFIG_CENTER_ENABLED is gone whoever set it; otherwise no container changes |
| DeployTheorems.MutationStopsIff | pkg/mutation/mutation_deploy.go:170-181 | The mutation fails if and only if envs are wanted, the control plane is asked and it refuses; it crashes if and only if envs are wanted, it does not fail, and there is no container |
| DeployTheorems.TemplateLabels | pkg/mutation/mutation_deploy.go:117-168 | Every mutated template carries the webhook label, no key is lost, only the touched keys change, and a template that had the webhook label keeps its values unless it is a sidecar's |
| DeployTheorems.SidecarTemplateMirrors | pkg/mutation/mutation_deploy.go:119-133 | A sidecar template carries the deployment's own application, service, group, space and lane, whatever it said before |
| DeployTheorems.AgentTemplateMirrors | pkg/mutation/mutation_deploy.go:135-145 | Another template that comes without the webhook label gets the deployment's own application, service and group |
| DeployTheorems.WebhookLabelValue | pkg/mutation/mutation_deploy.go:126-139 | The webhook label gets its configured value where the template lacks it and keeps its value otherwise |
| DeployTheorems.SgmTemplate | pkg/apm/sgm.go:21-44 | The value of each APM label: the template's own, else for type `sgm` the deployment's label or the constant, else none |
| DeployTheorems.LabelsTwice | pkg/mutation/mutation_deploy.go:117-168 | Mutating the labels of a mutated template again changes nothing, for sidecar, agent and APM deployments |
| DeployTheorems.EnvsTwice | pkg/mutation/mutation_deploy.go:170-197 | Adding and cleaning the envs again changes nothing, list order included, even when the reply holds CONFIG_CENTER_ENABLED |
| DeployTheorems.MutateTwice | pkg/mutation/mutation_deploy.go:98-203 | For a fixed configuration and reply a mutated deployment is a fixed point, list order included |
| DeployTheorems.MutatedAgainSucceeds | pkg/mutation/mutation_deploy.go:98-203 | The second mutation neither fails nor crashes |
| DeployTheorems.OtherContainersUntouched | pkg/mutation/mutation_deploy.go:170-197 | Only container 0's env changes; its entries keep values and order, and only CONFIG_CENTER_ENABLED may go, on deployments without the configure label |
| DeployAdmission.StampIsNotInThePatch | pkg/mutation/mutation_deploy.go:277 | The stamped version label is the same on both sides of the comparison, so the stored object keeps what was sent |
| DeployAdmission.VersionChoice | pkg/mutation/mutation_deploy.go:260-283 | The data and the stamp are those of the requested version if it is not empty, cached and enabled and its ConfigMap is cached; if any of these fails, the default data and no stamp |
| DeployAdmission.RequestSurvivesAdmission | pkg/mutation/mutation_deploy.go:260-283 | The stored deployment asks for the same version and configuration as the one that was sent |
| DeployAdmission.AdmittingTwice | pkg/mutation/mutation_deploy.go:74-222 | Admission is idempotent on stored objects, the patch and the dropped stamp included |
| ConfigMapLedger.Cluster.CreateOrUpdateConfigMap | pkg/resource/resource.go:74-95 | The entry holds the data if every call worked, and nothing changes otherwise |
| ConfigMapLedger.Cluster.DeleteConfigMap | pkg/resource/resource.go:97-103 | The entry is gone unless the call failed; a missing one is reported |
| ConfigMapLedger.Cluster.DeleteForDeployment | pkg/mutation/mutation_deploy.go:299-311 | Deleting a ConfigMap that is not there succeeds |
| ConfigMapLedger.Cluster.WriteForDeployment | pkg/mutation/mutation_deploy.go:260-297 | The configuration of the honoured version or the default is written under the deployment's name, and the template is stamped or the admission crashes |
| ConfigMapLedger.Cluster.InjectionDeploy | pkg/mutation/mutation_deploy.go:35-229 | The cluster effect and the answer of every request |
| ConfigMapLedger.AnswerOf | pkg/mutation/mutation_deploy.go:74-222 | For each create or update: allowed unseen, denied, crashed or admitted, decided by label and value, stamp, API calls, control plane and containers in this order |
| ConfigMapLedger.PatchSentIff | pkg/mutation/mutation_deploy.go:117-222 | An admitted deployment is patched if and only if it is a sidecar's, its template labels change, an env of the control plane is missing from container 0, or CONFIG_CENTER_ENABLED has to go |
| ConfigMapLedger.AnswerOfOthers | pkg/mutation/mutation_deploy.go:37-73 | Other kinds are allowed, unreadable objects denied, and deletes denied exactly when their call fails |
| ConfigMapLedger.WritesIff | pkg/mutation/mutation_deploy.go:74-96 | A request writes its ConfigMap if and only if the deployment has the webhook label with its value, both calls work, and no stamp meets a missing label map |
| ConfigMapLedger.AllowedAgain | pkg/mutation/mutation_deploy.go:35-229 | A stored deployment that is sent again is allowed again with nothing to change |
| ConfigMapLedger.NamesAreInjective | pkg/mutation/mutation_deploy.go:286-287 | Different deployments have different ConfigMaps |
| ConfigMapLedger.LedgerFollowsLastDecision | pkg/mutation/mutation_deploy.go:39-96 | After any requests a deployment's ConfigMap exists if and only if its last effective request was a create or update, with the data chosen then; without such a request it is as before |
| ConfigMapLedger.LedgerHoldsTheChosenVersion | pkg/mutation/mutation_deploy.go:260-297 | After any requests, the ConfigMap of a deployment that was written last holds the data of the version it asked for if that was usable then, and the default data otherwise |
| ConfigMapLedger.MetadataStays | pkg/resource/resource.go:86-92 | Over any requests that do not delete it, a ConfigMap keeps all but its data |
| ConfigMapLedger.ForeignConfigMapsStay | pkg/resource/resource.go:74-103 | ConfigMaps that carry no deployment's name are never touched |
| VersionAgreement.ReachableCachesAreFiled | pkg/watcher/av_watcher.go:124 | A cache filled by any run of the watcher has every spec under its own version |
| VersionAgreement.LabelledTemplatesAgree | pkg/mutation/mutation_deploy.go:260-297 | A template with a non-empty version label w: the pod's image has tag w and the ConfigMap holds w's configuration, or both are the defaults, whatever the rules add |
| VersionAgreement.AgreementIff | pkg/mutation/mutation_pod.go:137-145 | For any template and any rules, exactly when both admissions pick the same |
| VersionAgreement.EveryWalkAgreesIff | pkg/mutation/mutation_pod.go:137-278 | Both pick the same in every walk over the rules if and only if: a version label on the template is not empty or names no usable version; without one, every value that matching rules give it is what the deployment picks; and without such rules the deployment honours no version |
| VersionAgreement.StoredLabelIsTheSentOne | pkg/mutation/mutation_deploy.go:277 | Admission neither adds nor drops the template's version label, unless it was missing and is the webhook's own label |
| VersionAgreement.StampIsLost | pkg/mutation/mutation_deploy.go:264-277 | A concrete deployment with the version on its own labels only: special ConfigMap, default image |
| VersionAgreement.EmptyLabelMixes | pkg/mutation/mutation_deploy.go:263-268 | A concrete template with an empty version label and a usable empty version: default ConfigMap, special image |
| VersionAgreement.RuleAddsTheVersion | pkg/mutation/mutation_pod.go:137-145 | A concrete rule that labels pods with a usable version nobody asked for: default ConfigMap, special image |
| VersionAgreement.InjectedPodsReadTheirVersion | pkg/mutation/mutation_pod.go:431-437 | After any run of admissions the injected pod's volume names a ConfigMap that exists and holds the configuration of the pod's image version, or both are the defaults |

## Left out

- HTTP serving, TLS, routing, flags and logging: plumbing.
- JSON and YAML: parsing a YAML text is an unknown partial function, a patch is the difference it encodes, and a patch
  that cannot be encoded is not modelled. Equal label entries and equal container lists stay out of the patch.
- Control-plane requests: the reply is an arbitrary map, an error or unreachable. URLs are not modelled.
- The Kubernetes API: an abstract map with failing calls; looking up a pod's deployment is a parameter.
- client-go informers and work queues: only in-order delivery, store before event, and re-queueing while in work.
  Rate limits and queue shutdown are left out.
- Nil and empty lists and maps are identified, except for ConfigMap data and for the template label map, whose absence
  makes the stamp crash.
- `config.DefaultInjectorConfig` is a parameter of the pod admission; before the default ConfigMap was cached it is nil
  and the pod admission crashes, which the model does not show.
- The command, arguments and resources of the init container: constants.
- DELETE requests and other kinds at the pod endpoint, which are allowed unseen.
- The APM registry holds one entry, `sgm`, whose error result is always nil; other types are ignored as in the code.
- Pods, deployments and ConfigMaps are values with the fields the webhook reads or writes.
- PodInjection.ToLower: lower-cases ASCII letters only; the compared words are ASCII.
- NodeZones.ZoneStringDeterminesGrouping: asks for names and zones free of `:`, `,` and `;`, without which the string is ambiguous.
- VersionAgreement.LabelledTemplatesAgree: the caches are the same at both admissions; the webhook does nothing to ensure it.
- ConfigMapProtocol.DrainedRulesAgree: promises nothing for a rules ConfigMap that does not parse, whose predecessor's rules stay.
