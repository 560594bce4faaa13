# Jenkins operator: a verified model

The operator watches `JenkinsInstance` resources and drives, for each of them, a setup ConfigMap, an optional
persistent volume claim, a Deployment, a Service and the `Ready` phase. This project models that reconciler and the
code around it in Dafny and proves what it keeps, over single calls and over whole runs. Check it with
`dafny verify dfyconfig.toml`.

## How it is built

- **The cluster** (`Api`, `Cluster`): a store from kind, namespace and name to versioned objects, with
  create-if-absent, compare-and-swap update, status update, and server defaulting that fills unset service fields
  only. A request may be served, be refused, or be served with its reply lost.
- **The protocol** (`Protocol`): `Reconcile` and its stages cut at every API request. A program point holds exactly
  the values read so far that are still used; `Issues` says which request comes next and `Resume` how the code goes
  on with each response.
- **Runs** (`Runs`): any number of reconciles of any instances, interleaved request by request with one another and
  with arbitrary other clients, failing anywhere and stopping anywhere. `Ownership`, `SetupConfigMap`,
  `StablePorts`, `StableDeployments`, `Convergence`, `Idempotence`, `Staging`, `Claims`, `Panics` and `Liveness` are
  theorems about all of them. So are `Failures` (which failed requests end a reconcile), `Readiness` (nothing is
  reported ready before Jenkins has answered), `Contents` (all that is ever written, in full), `Provenance` (which
  read of the instance a write acts on) and `Deployed` (a Deployment projects what its reconcile has read).
- **Outcomes** (`Undisturbed`, `Settling`, `Recovery`): how a reconcile ends that nobody disturbs, as a condition on the
  store it starts from, and that such a reconcile repairs what failed ones have left.
- **Failing runs** (`SharedService`, `LostRestart`, `MissingClaim`): what goes wrong when two instances name one
  service, when a ConfigMap is updated before there is a service, and when the read of a claim fails.
- **The code** (`Controller`): the same reconciler as imperative methods on a client object whose environment is
  fixed but arbitrary. Each method is proved to follow the protocol request by request and to continue the history,
  so a sequence of calls of `Reconcile` is a run. `TheoremsHoldOfTheCode`, `SecondReconcileWritesNothing` and
  `ObjectsStay` read the theorems off the client's state.
- **The builders** (`Plugins`, `PluginsFile`, `PodBuilder`, `Services`, `Util`, `Routing`): the loops that build plugin
  lists, environments, volumes, ports and endpoints, proved against functions, and the laws of these functions.
- **The embedded assets** (`Paths`, `Assets`, `Restore`): the flat index and the tree grown from it, the lexical
  path functions, and restoration to a disk whose calls may fail at any point and leave anything in their target.
- **Deep copies** (`DeepCopy`): structs that hold references to heap cells, the deep value and the reach of a struct,
  and the generated copies. The deep value of a struct may read nothing outside its reach, so an object forgotten in
  the reach would be refused.

Map iteration visits keys in an order the proofs know nothing about. The case folding of `strings.EqualFold` is a
parameter; that no other character folds to the colon, as in Unicode, is a hypothesis where it is needed. The lines of
the two embedded assets are parameters too, with the one condition that every JVM line holds a colon, as the code
indexes the second part of each.

## Where the code is not what one might expect

The model follows the code in each of these.

- An existing Deployment is never updated. The comparison before the update includes two pointers to distinct
  replica cells, so `changed` is false whatever the fields are (`FinishDeployment`, `DeploymentsNeverChange`).
- In the setup ConfigMap existing data wins over newly built data, so spec changes never reach a key that is already
  there (`CompleteMapIsMerged`, `ValuesStay`).
- `newService` drops the error of creating the service. The next stage then fails to find it, or, where another
  instance names the same service, reports ready on a service it does not own (`ReadyOnAnothersService`).
- An update of the setup ConfigMap is followed by a restart, which is not attempted when there is no service. The
  ConfigMap is up to date on the next reconcile, so the restart is lost for good (`UndisturbedRestart`,
  `RestartIsLost`).
- A failure other than NotFound to read the admin secret at the gate, or the claim, is ignored. The second can leave a
  Deployment with a claim that does not exist (`DeploymentsHaveClaims`, `DeploymentWithoutClaim`).
- The repository's README promises a default service when the spec has none, and allows `cascconfig` to be left out.
  Either omission makes a reconcile panic on a nil dereference once the object in question is missing
  (`UndisturbedPanics`, `PanicsExactly`). Listing instances for a ConfigMap event panics likewise (`ToRequests`).
- The repository's README says that an EmptyDir is used when no claim is named. The code uses one only without a
  storage stanza; with an unnamed claim it takes the instance's name (`BuildVolumes`).
- A plugin id that holds a colon defeats the duplicate check, and can keep another plugin off the list (`NoIdTwice`,
  `EveryIdRepresented`, `ColonInIdRepeats`, `ColonInIdDrops`).
- A namespace list that consists of one empty name makes the watch admit every namespace, and any other makes it
  panic on an event without metadata (`WatchAdmits`).
- On Unix, restoring a single asset by a name with a backslash in its last part prepares the wrong directory
  (`PreparedDirectory`).

## Model

| member | source | states |
|---|---|---|
| `Runs.RunKeepsInv` | pkg/controller/jenkinsinstance/jenkinsinstance_controller.go:265-330 | Every run, with any number of reconciles, other clients, failed or lost requests and stops anywhere, keeps the invariant: versions lie in the past, each reconcile holds only instances once stored under its name, and each pending update was read under the right owner and still differs from what is stored |
| `Runs.ResumeInv` | pkg/controller/jenkinsinstance/jenkinsinstance_controller.go:265-330 | One response to the request of any program point leads to a program point whose invariant holds in the store as it is then |
| `Runs.RunsCompose` | pkg/controller/jenkinsinstance/jenkinsinstance_controller.go:265-330 | A run continued from its end is a run with the composed end state, so results about whole runs apply to any sequence of reconciles |
| `Runs.WritersHold` | pkg/controller/jenkinsinstance/jenkinsinstance_controller.go:366-370 | Whoever has a write accepted holds an instance that it has read |
| `Ownership.OwnershipSafety` | pkg/controller/jenkinsinstance/jenkinsinstance_controller.go:382-386 | Ownership safety over all interleavings: every accepted update replaces an object controlled by the UID the stage had read, every creation carries that UID as controller, a status update sets the phase and nothing else, and no operator step deletes an object or changes its controller or UID |
| `Ownership.WriteIsOwned` | pkg/controller/jenkinsinstance/jenkinsinstance_controller.go:483-488 | One accepted write, at any of its seven program points, is logged exactly once, is owned in the sense above and takes nothing away from the store |
| `Convergence.AtMostFiveWrites` | pkg/controller/jenkinsinstance/jenkinsinstance_controller.go:265-330 | While nobody else touches the instance and its objects, any run of any length, also one that begins with reconciles under way, makes at most as many accepted writes for the instance as the rank of the store it starts from, which is at most five; other clients may do anything to all else that is no instance |
| `Convergence.WritesBoundedByRank` | pkg/controller/jenkinsinstance/jenkinsinstance_controller.go:265-330 | Between any two points of such a run, writes made plus remaining rank never grow |
| `Convergence.WriteLowersRank` | pkg/controller/jenkinsinstance/jenkinsinstance_controller.go:437-490 | Each accepted write of a reconcile of the instance strictly lowers its rank; no write of any other reconcile raises it |
| `Convergence.SetupStep` | pkg/controller/jenkinsinstance/jenkinsinstance_controller.go:437-490 | A write of the setup stage takes the setup part of the rank from one to zero; no other write raises that part |
| `Convergence.ClaimStep` | pkg/controller/jenkinsinstance/jenkinsinstance_controller.go:742-766 | The same for the claim |
| `Convergence.DeploymentStep` | pkg/controller/jenkinsinstance/jenkinsinstance_controller.go:996-1088 | The same for the Deployment, which is created and never updated |
| `Convergence.ServiceStep` | pkg/controller/jenkinsinstance/jenkinsinstance_controller.go:530-627 | The same for the service, across whatever the server allocates or defaults |
| `Convergence.StatusStep` | pkg/controller/jenkinsinstance/jenkinsinstance_controller.go:350-358 | The same for the status |
| `Convergence.RunStaysClosed` | pkg/controller/jenkinsinstance/jenkinsinstance_controller.go:265-330 | The operator never adds, removes or edits an instance: if nobody else does, their UIDs and specs stay what they were |
| `Idempotence.SyncedMeansSettled` | pkg/controller/jenkinsinstance/jenkinsinstance_controller.go:265-330 | Once a reconcile has ended in success with no request failed other than by NotFound, the rank is zero and the rest of the run, by this and all other reconciles, writes nothing for that instance, as long as nobody else touches it, its objects or the set of instances |
| `Idempotence.RunAchieves` | pkg/controller/jenkinsinstance/jenkinsinstance_controller.go:293-327 | In a run in which other clients leave the instance, its objects and the set of instances alone, each reconcile without failures has settled the stages behind it: a fixpoint per stage |
| `SetupConfigMap.GrowOnly` | pkg/controller/jenkinsinstance/jenkinsinstance_controller.go:430-472 | If only the operator writes the setup ConfigMap it created, its keys stay within plugins.txt and jenkins.yaml with plugins.txt present, it is updated at most once, and a restart is attempted at most as often as it was updated, under arbitrary edits of everything else |
| `SetupConfigMap.ValuesStay` | pkg/controller/jenkinsinstance/jenkinsinstance_controller.go:439-444 | In such a run a key once present is never removed and never changes its value |
| `SetupConfigMap.NoLaterRestart` | pkg/controller/jenkinsinstance/jenkinsinstance_controller.go:437-466 | Once the map holds both keys and no reconcile has the restart ahead of it, it never changes and Jenkins is never restarted again, under arbitrary edits of everything else |
| `LostRestart.UndisturbedRestart` | pkg/controller/jenkinsinstance/jenkinsinstance_controller.go:437-466 | An undisturbed reconcile that has ended has merged the missing data into a ConfigMap that needed it, and has asked for one restart if the service was there when it began and none otherwise |
| `LostRestart.RestartIsLost` | pkg/controller/jenkinsinstance/jenkinsinstance_controller.go:437-466 | Without a service the update lands, the reconcile fails, and no continuation of the run ever restarts Jenkins for it |
| `LostRestart.LostRestartExample` | pkg/controller/jenkinsinstance/jenkinsinstance_controller.go:437-466 | A store and a run in which that happens |
| `SetupConfigMap.ConfigMapWrite` | pkg/controller/jenkinsinstance/jenkinsinstance_controller.go:439-488 | An accepted write to the ConfigMap either creates it in shape or adds exactly jenkins.yaml, keeping what was there |
| `SetupConfigMap.CompleteMapIsMerged` | pkg/controller/jenkinsinstance/jenkinsinstance_controller.go:439-444 | A map with both keys is a fixpoint of the merge for every spec |
| `StablePorts.NodePortsNeverChange` | pkg/controller/jenkinsinstance/jenkinsinstance_controller.go:533-571 | Over every run in which only the operator and server allocation touch a service, an allocated master or agent node port never changes, whatever is edited in the specs |
| `StablePorts.ServiceWrite` | pkg/controller/jenkinsinstance/jenkinsinstance_controller.go:530-572 | The only accepted write that replaces a service stores the rebuilt specification of exactly the service that was there |
| `Staging.EveryStateIsStaged` | pkg/controller/jenkinsinstance/jenkinsinstance_controller.go:293-358 | Starting from none of the objects and not ready, in a run in which other clients only add, and not at the instance's own keys, every state has the setup ConfigMap and the Deployment, where they are, as the instance's own; a Deployment implies the ConfigMap with plugins.txt, an own service implies the Deployment, and Ready implies service and Deployment; where no other instance names the same service, the service is the instance's own too |
| `Staging.RunLeavesBehind` | pkg/controller/jenkinsinstance/jenkinsinstance_controller.go:366-1088 | In a run in which other clients only add and edit no instance, every reconcile has in the store what the stages it has passed establish or verify, whatever failed before, from any point of the run on |
| `Staging.ReferentialIntegrity` | pkg/controller/jenkinsinstance/jenkinsinstance_controller.go:788-914 | In a run in which other clients only add and edit no instance, also one that begins with reconciles under way, every Deployment created names only ConfigMaps, Secrets and a service account that exist, and every projected key exists in its source, then and to the end of the run |
| `Staging.OperatorReferentialIntegrity` | pkg/controller/jenkinsinstance/jenkinsinstance_controller.go:788-914 | In particular from any start in a run of the operator alone |
| `Claims.DeploymentsHaveClaims` | pkg/controller/jenkinsinstance/jenkinsinstance_controller.go:728-785 | In such a run the claim a created Deployment names exists, then and to the end of the run, unless the reconcile that created it failed to read the claim other than by NotFound |
| `Claims.RunHasClaims` | pkg/controller/jenkinsinstance/jenkinsinstance_controller.go:734-767 | Every reconcile beyond its read of the claim has the claim in the store, unless that read failed |
| `Claims.CleanHasRead` | pkg/controller/jenkinsinstance/jenkinsinstance_controller.go:734-742 | A reconcile without a failed request has not failed to read the claim |
| `MissingClaim.DeploymentWithoutClaim` | pkg/controller/jenkinsinstance/jenkinsinstance_controller.go:734-785 | The failing run: from every store in which the instance could sync and would create its claim, one refused read of the claim ends in a Deployment that names a claim that does not exist, and in Ready |
| `MissingClaim.MissingClaimExample` | pkg/controller/jenkinsinstance/jenkinsinstance_controller.go:734-785 | A store in which that run can begin |
| `Staging.NewDeploymentResolved` | pkg/controller/jenkinsinstance/jenkinsinstance_controller.go:713-914 | A pod built from verified sources and a complete setup ConfigMap resolves, including jenkins.yaml when configstring is used |
| `SharedService.ReadyOnAnothersService` | pkg/controller/jenkinsinstance/jenkinsinstance_controller.go:606-627 | From every store in which two instances name one absent service and both could sync, some run of their two reconciles alone ends with the first ready on a service that the second controls: the error of creating it is dropped and the status stage does not ask for the owner |
| `SharedService.OwnsServiceExactly` | pkg/controller/jenkinsinstance/jenkinsinstance_controller.go:606-627 | For stored instances that could all sync, one that starts from nothing owns its service in every run of the operator alone if and only if no other names the same service |
| `SharedService.SharedServiceExample` | pkg/controller/jenkinsinstance/jenkinsinstance_controller.go:333-358 | Such a store, and a run from it that is staged throughout and still ends ready on another's service |
| `StableDeployments.DeploymentsNeverChange` | pkg/controller/jenkinsinstance/jenkinsinstance_controller.go:996-1014 | Over every run in which only the operator touches a Deployment, it stays exactly as it is, whatever is edited in the specs |
| `Liveness.NeverStuck` | pkg/controller/jenkinsinstance/jenkinsinstance_controller.go:265-330 | In every reachable state every reconcile that has not ended has a request it can issue |
| `Liveness.AtMost28Requests` | pkg/controller/jenkinsinstance/jenkinsinstance_controller.go:265-330 | A reconcile makes at most 28 requests, whatever the responses and whatever is interleaved with them |
| `Undisturbed.OneStep` | pkg/controller/jenkinsinstance/jenkinsinstance_controller.go:265-330 | A request of an undisturbed reconcile never fails, and the outcome predicted from the store stays the same from one program point to the next |
| `Undisturbed.UndisturbedOutcome` | pkg/controller/jenkinsinstance/jenkinsinstance_controller.go:265-330 | The outcome of an undisturbed reconcile is decided by the store it starts from: success exactly when everything the instance names is there and what is its own to make is absent or its own, with the service there if the ConfigMap needs an update; a panic exactly when cascconfig or the service is what is missing; absorbed exactly without an admin secret |
| `Undisturbed.UndisturbedCompletes` | pkg/controller/jenkinsinstance/jenkinsinstance_controller.go:265-330 | From every store an undisturbed reconcile goes on to an end |
| `Settling.UndisturbedPanics` | pkg/controller/jenkinsinstance/jenkinsinstance_controller.go:433-596 | Some undisturbed reconcile ends in a nil dereference if and only if the store it starts from opens the gate and lets the setup stage find no cascconfig, or lets all pass up to a service that is absent and not described |
| `Settling.UndisturbedSyncs` | pkg/controller/jenkinsinstance/jenkinsinstance_controller.go:265-330 | Some undisturbed reconcile succeeds without a failed request if and only if the store it starts from has what the instance names and nothing of others in its way |
| `Settling.UndisturbedSettles` | pkg/controller/jenkinsinstance/jenkinsinstance_controller.go:265-330 | From such a store it leaves the instance ready and with nothing left to write |
| `Recovery.StaysSyncable` | pkg/controller/jenkinsinstance/jenkinsinstance_controller.go:265-330 | Nothing the operator does, by any reconciles of any instances with any failures and stops, takes away what an instance that shares its service with no other needs to sync |
| `Recovery.NextReconcileSettles` | pkg/controller/jenkinsinstance/jenkinsinstance_controller.go:265-330 | After any such run the next undisturbed reconcile of the instance succeeds and leaves it ready with nothing left to write |
| `Panics.PanicsExactly` | pkg/controller/jenkinsinstance/jenkinsinstance_controller.go:433-596 | A reconcile dereferences nil exactly when the setup ConfigMap is absent or its own and cascconfig is missing, or the service is absent and the spec describes none |
| `Panics.OnlyIncompletePanics` | pkg/controller/jenkinsinstance/jenkinsinstance_controller.go:433-596 | Over every run a panic happens only for an instance that was once stored without a cascconfig or without a service |
| `Failures.FailureEndsOrIsForgiven` | pkg/controller/jenkinsinstance/jenkinsinstance_controller.go:265-330 | A failed request ends the reconcile with an error if and only if it is not the read of the admin secret at the gate, the read of the claim or the creation of the service; after one of these three the code goes on as if the request had been served. The one exception is a claim read behind which the code refuses a cascconfig that names no configuration anyway |
| `Failures.MissingEndsOrIsCreated` | pkg/controller/jenkinsinstance/jenkinsinstance_controller.go:366-764 | A read that finds nothing ends the reconcile with an error, except that an instance gone at the gate is absorbed and a missing ConfigMap, Deployment, claim or service leads to its creation, or to the nil dereference where the code builds it from a part of the spec that is absent |
| `Failures.ForeignObjectEnds` | pkg/controller/jenkinsinstance/jenkinsinstance_controller.go:382-386 | A ConfigMap, Deployment or service that the instance does not control ends the reconcile with an error, and one that it controls does not, but for the refusal of an empty cascconfig |
| `Failures.FailedReconcileErrs` | pkg/controller/jenkinsinstance/jenkinsinstance_controller.go:265-330 | Over every run: a reconcile one of whose requests failed, other than the three, has ended with an error and requests nothing more |
| `Readiness.BeyondIsAnswered` | pkg/controller/jenkinsinstance/jenkinsinstance_controller.go:333-361 | In every run, a reconcile that has gone beyond its probe or ended with success has been answered by Jenkins since it began |
| `Readiness.ReadyOnlyWhenAnswered` | pkg/controller/jenkinsinstance/jenkinsinstance_controller.go:340-359 | Over every run: a status update is issued, and a reconcile ends with success, only after a probe of the same reconcile that Jenkins answered |
| `Contents.WhatIsRead` | pkg/controller/jenkinsinstance/jenkinsinstance_controller.go:174-240 | Every read stays in the namespace of the request and gets the object that the instance, or the request, names for this purpose; the service and the claim are named after the instance unless the spec names them |
| `Contents.EverythingWrittenIsRight` | pkg/controller/jenkinsinstance/jenkinsinstance_controller.go:390-1090 | Over every run: everything the operator writes is one of the five kinds of object it manages, under the key the request and spec give, with the labels, annotations, data, claim, pod, ports, selector, type and phase that the spec asks for, written out in full; updates keep what they must |
| `Contents.WriteIsRight` | pkg/controller/jenkinsinstance/jenkinsinstance_controller.go:390-1090 | One accepted write, at each of the seven points that write |
| `Contents.PodIsRight` | pkg/controller/jenkinsinstance/jenkinsinstance_controller.go:662-1075 | Every pod newDeployment may build, for every visiting order of its maps: one replica, the three labels, the environment variable by variable, every volume with its source and files, every mount, the service account and the pass-through fields |
| `Contents.ServiceSelectsPods` | pkg/controller/jenkinsinstance/jenkinsinstance_controller.go:555-557 | A written service selects the pods of a written Deployment if and only if both are for the same instance |
| `Provenance.HoldsWhatItRead` | pkg/controller/jenkinsinstance/jenkinsinstance_controller.go:174-240 | In every run, a reconcile acts on the instance it has read last, newService on the one before, and has read it as often as its stages ask for: seven times for a success, nine with a restart |
| `Provenance.ActsOnWhatItRead` | pkg/controller/jenkinsinstance/jenkinsinstance_controller.go:366-640 | Over every run: a landed write is made for the instance its reconcile has read last; a service is built from the read before that, and an update goes to the service that the last read names |
| `Deployed.FilesAreRead` | pkg/controller/jenkinsinstance/jenkinsinstance_controller.go:822-897 | In every run, a reconcile holds only names of files that it was given by its own reads |
| `Deployed.DeploymentProjectsWhatWasRead` | pkg/controller/jenkinsinstance/jenkinsinstance_controller.go:634-1090 | Over every run: a Deployment is created for an instance stored under the requested name, its pod says what that instance asks for, and it projects exactly the keys its own reconcile has read in the groovy secret and in the named configuration |
| `Controller.ApiServer.Interfere` | pkg/controller/jenkinsinstance/jenkinsinstance_controller.go:196-251 | Before a request other clients may change the store; no reconcile moves, and the history is a run that continues the one before |
| `Controller.ApiServer.Request` | pkg/controller/jenkinsinstance/jenkinsinstance_controller.go:196-251 | One request: the reconcile goes on exactly as the protocol says for the response given, and the history is a run that continues the one before |
| `Controller.Reconciler.GetInstance` | pkg/controller/jenkinsinstance/jenkinsinstance_controller.go:196-200 | Reads the requested instance and goes on with the response |
| `Controller.Reconciler.GetService` | pkg/controller/jenkinsinstance/jenkinsinstance_controller.go:222-240 | Reads the instance again and then the service it names; a failure of the first read never counts as NotFound |
| `Controller.Reconciler.GetAdminSecret` | pkg/controller/jenkinsinstance/jenkinsinstance_controller.go:208-220 | Reads the instance again and then its admin secret |
| `Controller.Reconciler.Reconcile` | pkg/controller/jenkinsinstance/jenkinsinstance_controller.go:265-330 | A call continues the history by one reconcile to its end: success is synced or absorbed at the gate, an error is requeued, and a panic is a panic |
| `Controller.Reconciler.BuildStringData` | pkg/controller/jenkinsinstance/jenkinsinstance_controller.go:405-435 | The loops that build the ConfigMap's data give the specified data, which is the plugin list and, exactly when there is one, the configuration unchanged under jenkins.yaml |
| `Controller.Reconciler.NewSetupConfigMap` | pkg/controller/jenkinsinstance/jenkinsinstance_controller.go:366-491 | The code follows the setup stage of the protocol request by request |
| `Controller.Reconciler.UpdateSetupConfigMap` | pkg/controller/jenkinsinstance/jenkinsinstance_controller.go:437-472 | The update of the ConfigMap, then the restart, follow the protocol |
| `Controller.Reconciler.RestartJenkins` | pkg/controller/jenkinsinstance/jenkinsinstance_controller.go:452-466 | The restart tail reads the service and the admin secret again and follows the protocol |
| `Controller.Reconciler.NewDeployment` | pkg/controller/jenkinsinstance/jenkinsinstance_controller.go:634-1090 | The code follows the Deployment stage of the protocol, and the pod it builds is one the specification allows |
| `Controller.Reconciler.CheckAccount` | pkg/controller/jenkinsinstance/jenkinsinstance_controller.go:712-723 | The service account is looked up only when it is named, and must be found |
| `Controller.Reconciler.EnsureClaim` | pkg/controller/jenkinsinstance/jenkinsinstance_controller.go:728-767 | The claim is looked up when storage is given and created on NotFound only |
| `Controller.Reconciler.BuildVolumes` | pkg/controller/jenkinsinstance/jenkinsinstance_controller.go:787-914 | The volumes built while looking up secrets and maps are those of the specification for some key order |
| `Controller.Reconciler.GroovyItems` | pkg/controller/jenkinsinstance/jenkinsinstance_controller.go:838-866 | One projected item per key of the groovy secret found |
| `Controller.Reconciler.CascVolume` | pkg/controller/jenkinsinstance/jenkinsinstance_controller.go:869-914 | The configuration volume comes from the named map, else from the setup ConfigMap, else it is an error |
| `Controller.Reconciler.BuildMounts` | pkg/controller/jenkinsinstance/jenkinsinstance_controller.go:917-949 | The mounts appended are those of the specification |
| `Controller.Reconciler.FinishDeployment` | pkg/controller/jenkinsinstance/jenkinsinstance_controller.go:951-1088 | For an existing Deployment no request is issued and nothing changes, as the comparison of the two replica pointers is false and its update dead code; otherwise the Deployment is created |
| `Controller.Reconciler.NewServiceStage` | pkg/controller/jenkinsinstance/jenkinsinstance_controller.go:496-628 | The code follows the service stage of the protocol; the error of a creation is dropped |
| `Controller.Reconciler.RebuildService` | pkg/controller/jenkinsinstance/jenkinsinstance_controller.go:531-564 | The copy of the service assembled field by field is the rebuilt service of the specification |
| `Controller.Reconciler.BuildService` | pkg/controller/jenkinsinstance/jenkinsinstance_controller.go:579-619 | The new service assembled field by field is that of the specification |
| `Controller.Reconciler.UpdateJenkinsInstanceStatus` | pkg/controller/jenkinsinstance/jenkinsinstance_controller.go:333-361 | The code follows the status stage of the protocol |
| `Controller.TheoremsHoldOfTheCode` | pkg/controller/jenkinsinstance/jenkinsinstance_controller.go:265-330 | The theorems about runs, read off the state calls of Reconcile have left: ownership and the cause of panics under any environment, the write bound and referential integrity in a quiet one |
| `Controller.SecondReconcileWritesNothing` | pkg/controller/jenkinsinstance/jenkinsinstance_controller.go:265-330 | Between any two moments of a client whose environment is quiet, with any calls between them: after a clean synced reconcile nothing more is written for the instance |
| `Controller.ObjectsStay` | pkg/controller/jenkinsinstance/jenkinsinstance_controller.go:265-330 | Between two such moments Deployments, allocated node ports and values of the setup ConfigMap stay what they are |
| `Plugins.BuildPluginList` | pkg/controller/jenkinsinstance/jenkinsinstance_controller.go:403-427 | The nested loops with their break compute the recursive list |
| `Plugins.RequiredThenUserLines` | pkg/controller/jenkinsinstance/jenkinsinstance_controller.go:403-427 | For every input the required lines stay as an unchanged prefix and the rest are lines of the user's plugins, in their order |
| `Plugins.ListedExactly` | pkg/controller/jenkinsinstance/jenkinsinstance_controller.go:411-427 | The list carries an id if and only if a required line, or any user plugin kept or not, has it before its first colon |
| `Plugins.PluginListIsPrefixAndFirstAppearances` | pkg/controller/jenkinsinstance/jenkinsinstance_controller.go:403-427 | The rest is exactly the user's plugins at their first appearance: no required line and no earlier plugin has the id before its first colon; for all ids, the colon having no case variants |
| `Plugins.PlainFirstAppearance` | pkg/controller/jenkinsinstance/jenkinsinstance_controller.go:411-427 | With colon-free ids that is a first appearance in the plain sense |
| `Plugins.EveryIdRepresented` | pkg/controller/jenkinsinstance/jenkinsinstance_controller.go:411-427 | Every requested id is carried by some line if and only if no id holds a colon |
| `Plugins.PlainIdRepresented` | pkg/controller/jenkinsinstance/jenkinsinstance_controller.go:411-427 | A colon-free id is carried whatever the other ids are |
| `Plugins.NoIdTwice` | pkg/controller/jenkinsinstance/jenkinsinstance_controller.go:411-427 | The list repeats no id, ignoring case, if and only if the required list repeats none and every id that holds a colon is new before its first colon |
| `Plugins.PlainIdsNotTwice` | pkg/controller/jenkinsinstance/jenkinsinstance_controller.go:411-427 | With colon-free ids the list repeats an id if and only if the required list already did |
| `Plugins.ColonInIdRepeats` | pkg/controller/jenkinsinstance/jenkinsinstance_controller.go:415-419 | With a colon in an id the same plugin is listed twice: a concrete input |
| `Plugins.ColonInIdDrops` | pkg/controller/jenkinsinstance/jenkinsinstance_controller.go:415-419 | A colon in an id makes a plugin named before it be left out: a concrete input |
| `Plugins.ParseLineInverse` | pkg/controller/jenkinsinstance/jenkinsinstance_controller.go:415-423 | Cutting a line at its first colon recovers the plugin if and only if its id has no colon |
| `Plugins.LinesScan` | pkg/controller/jenkinsinstance/jenkinsinstance_controller.go:421-432 | Line-scanning joined plugin lines gives them back if and only if none holds a newline or ends in a carriage return |
| `Plugins.PluginsTxtLines` | pkg/controller/jenkinsinstance/jenkinsinstance_controller.go:405-432 | Scanning the plugins.txt written gives back the whole list if and only if its required lines are unbroken, the kept user lines are line-safe, and no empty required line comes last |
| `Plugins.PluginsTxtRoundTrip` | pkg/controller/jenkinsinstance/jenkinsinstance_controller.go:405-432 | Scanning the plugins.txt written and cutting each line at its first colon gives what the required lines say followed by the kept user plugins if and only if no user id holds a colon |
| `Plugins.RequiredPairsRoundTrip` | pkg/controller/jenkinsinstance/jenkinsinstance_controller.go:405-432 | When the required lines are id and version pairs too, all pairs come back |
| `PluginsFile.DataKeys` | pkg/controller/jenkinsinstance/jenkinsinstance_controller.go:430-435 | The new ConfigMap has the key plugins.txt and, if and only if the configuration string is not empty, jenkins.yaml with exactly that string |
| `PluginsFile.PluginsTxtSays` | pkg/controller/jenkinsinstance/jenkinsinstance_controller.go:403-432 | Scanning plugins.txt in the new ConfigMap finds the required lines first and then only lines of the user's plugins, id, colon and version, each for an id that no line before carries; and every id without a colon is carried, ignoring case, by some line |
| `PluginsFile.PluginsTxtReads` | pkg/controller/jenkinsinstance/jenkinsinstance_controller.go:403-432 | Cutting these lines at their first colon gives the ids and versions back if and only if no id holds a colon |
| `PluginsFile.MergedSays` | pkg/controller/jenkinsinstance/jenkinsinstance_controller.go:437-441 | The updated ConfigMap has the keys of the new data and of the existing, each with its existing value if there is one |
| `Text.ScanJoin` | pkg/controller/jenkinsinstance/jenkinsinstance_controller.go:405-432 | Scanning a joined list gives it back exactly for newline-free lines without trailing carriage return whose last is not empty |
| `Text.ScanFirstLine` | pkg/controller/jenkinsinstance/jenkinsinstance_controller.go:405-408 | A line ends at a newline, with or without a carriage return before it, and scanning goes on behind it |
| `Text.ScanLastLine` | pkg/controller/jenkinsinstance/jenkinsinstance_controller.go:405-408 | The last line needs no newline, and an empty one is none |
| `Text.SplitJoin` | pkg/util/namespace_predicate.go:46-48 | Splitting undoes joining exactly for non-empty lists of separator-free parts |
| `Text.JoinSplit` | pkg/configdata/data.go:182-183 | Joining undoes splitting for every text |
| `PodBuilder.BuildEnv` | pkg/controller/jenkinsinstance/jenkinsinstance_controller.go:676-704 | The three appending phases give the specified list, for some visiting order of the user's map |
| `PodBuilder.EffectiveEnvironment` | pkg/controller/jenkinsinstance/jenkinsinstance_controller.go:676-704 | Read last-wins, the list is the JVM lines, overridden by the two CASC variables, overridden by the user's map, for every visiting order; its length is lines plus two plus entries |
| `PodBuilder.EnvLineLossless` | pkg/controller/jenkinsinstance/jenkinsinstance_controller.go:684-688 | A JVM line survives the split if and only if it holds one colon |
| `PodBuilder.EnvironmentByPosition` | pkg/controller/jenkinsinstance/jenkinsinstance_controller.go:676-704 | Variable by variable: the i-th is what the i-th JVM line says, its text before the first colon and between that and a second; then the two CASC variables, then the user's with their values |
| `PodBuilder.EffectiveValue` | pkg/controller/jenkinsinstance/jenkinsinstance_controller.go:676-704 | What a container sees under a name: the user's value if there is one, else the CASC constant, else what the last JVM line that begins with the name and a colon says, else nothing |
| `PodBuilder.BuildItems` | pkg/controller/jenkinsinstance/jenkinsinstance_controller.go:851-857 | The projected items, for some visiting order of the keys |
| `PodBuilder.ItemsBijective` | pkg/controller/jenkinsinstance/jenkinsinstance_controller.go:851-897 | For every key order the items name each key exactly once and project no two keys to one path |
| `PodBuilder.VolumeNameSet` | pkg/controller/jenkinsinstance/jenkinsinstance_controller.go:788-914 | Which volumes are there, as a function of which spec fields are set |
| `PodBuilder.MountsMatchVolumes` | pkg/controller/jenkinsinstance/jenkinsinstance_controller.go:788-949 | The mounts name exactly the volumes if and only if cascconfig is set |
| `PodBuilder.NoNameTwice` | pkg/controller/jenkinsinstance/jenkinsinstance_controller.go:788-949 | No volume name, mount name or mount path occurs twice |
| `PodBuilder.VolumesHold` | pkg/controller/jenkinsinstance/jenkinsinstance_controller.go:788-914 | Every volume holds what its name promises: the plugins file of the instance's ConfigMap, the named or default claim or an empty directory, the named secrets, one .groovy file per key, one .yaml file per key of the named configuration or jenkins.yaml of the instance's own |
| `PodBuilder.MountsServe` | pkg/controller/jenkinsinstance/jenkinsinstance_controller.go:917-949 | The configuration and its secrets are mounted where the CASC variables of the environment point, and exactly the job and groovy mounts are writable |
| `Util.MergeData` | pkg/util/util.go:18-26 | The nested loops compute the maps overlaid in order |
| `Util.MergedLastWins` | pkg/util/util.go:18-26 | A key is present exactly when some map has it, with the value of the last map that does |
| `Util.GetNodePort` | pkg/util/util.go:29-37 | The node port of the first port of that name; zero when there is none |
| `Util.FindHost` | pkg/util/util.go:79-107 | The nested loops with both breaks give the first address of the kind of the earliest node whose first such address is not empty; empty exactly when there is none |
| `Util.FindNodePort` | pkg/util/util.go:113-119 | The node port of the first port with that number; zero exactly when it is missing or has none |
| `Util.GetServiceEndpoint` | pkg/util/util.go:54-130 | Outside a cluster an external host is preferred and an internal one the fall-back; it is an error exactly when neither exists, no client can be built or the service has no node port for the number; in a test it is the test URL, a slash and the path |
| `Util.HostUnique` | pkg/util/util.go:79-107 | The selection rule determines the host |
| `Util.DecimalPrints` | pkg/util/util.go:56-59 | A printed number has only digits and no leading zero, reads back to the number, and has a sign if and only if it is negative |
| `Util.NodeUrlReads` | pkg/util/util.go:126-127 | Cutting the printed URL at its slashes and colon gives http, the host, digits that read back to the node port, and the path |
| `Util.ClusterUrlReads` | pkg/util/util.go:56-59 | The same inside the cluster, where the host is the service's name in its namespace |
| `Services.RebuiltPorts` | pkg/controller/jenkinsinstance/jenkinsinstance_controller.go:533-554 | The rebuilt service has exactly the master and agent ports, with the node ports of the first ports of these names |
| `Services.RebuiltIsSettled` | pkg/controller/jenkinsinstance/jenkinsinstance_controller.go:530-568 | Rebuilding twice is rebuilding once, also across whatever the server fills in between |
| `Services.NewServiceIsSettled` | pkg/controller/jenkinsinstance/jenkinsinstance_controller.go:579-619 | A service as created, with whatever the server fills in, is left alone from then on |
| `Services.NodePortKept` | pkg/controller/jenkinsinstance/jenkinsinstance_controller.go:533-554 | An allocated node port survives an update and the server's filling |
| `Services.NewServiceSays` | pkg/controller/jenkinsinstance/jenkinsinstance_controller.go:579-619 | As created, the master port 8080 asks for the node port of the spec and the agent port 50000 for none, the type is the one asked for, and the selector is the instance's UID |
| `Services.FilledServiceSays` | pkg/controller/jenkinsinstance/jenkinsinstance_controller.go:579-619 | Whatever the server fills in, the master's node port is the one asked for if one is, and so is the type |
| `Services.RebuiltSays` | pkg/controller/jenkinsinstance/jenkinsinstance_controller.go:530-560 | As updated, the two ports keep the node ports of the existing ports of their names, and the type is the asked one if one is asked for and else the existing one |
| `Services.SettledExactly` | pkg/controller/jenkinsinstance/jenkinsinstance_controller.go:530-565 | A service is left alone if and only if it has the two ports, selects the instance's pods and has the type asked for, if one is; node ports and what the server set are never a reason to update it |
| `Services.MasterEndpointPort` | pkg/controller/jenkinsinstance/jenkinsinstance_controller.go:533-607 | On every service the operator leaves alone the endpoint's port for 8080 is the master node port |
| `Routing.ToRequests` | pkg/controller/jenkinsinstance/jenkinsinstance_controller.go:150-172 | One request per referring instance in list order; none when the list fails; the nil dereference exactly when a listed instance has no cascconfig |
| `Routing.ReferringExactly` | pkg/controller/jenkinsinstance/jenkinsinstance_controller.go:159-168 | The positions answered are exactly those of the instances whose cascconfig names the map, in increasing order: none missed, none twice |
| `Routing.ContainsNamespace` | pkg/util/namespace_predicate.go:30-37 | The search with its early return is membership |
| `Routing.WatchAdmits` | pkg/util/namespace_predicate.go:14-50 | A watch over comma-joined comma-free namespaces admits exactly the changed events of these namespaces and panics exactly on events without metadata, except that a list of one empty name admits the changed events of every namespace |
| `Paths.FilePathProper` | pkg/configdata/data.go:255-258 | Placing a name of proper components below any directory appends its components to the cleaned directory |
| `Paths.FilePathInjective` | pkg/configdata/data.go:255-258 | Below one directory two such names share a target if and only if they are equal up to the kind of slash |
| `Paths.PreparedDirectory` | pkg/configdata/data.go:223-228 | The directory created for a restored file is the one that holds it if and only if the last part of the name, as written, has no backslash |
| `Paths.ProperAsWritten` | pkg/configdata/data.go:247-248 | A name whose canonical components are proper has proper components as written, so joining a child to it changes nothing else |
| `Paths.RelativeTarget` | pkg/configdata/data.go:255-258 | Below a directory of proper components the target is the directory, a slash and the name with its backslashes replaced, as text |
| `Paths.AbsoluteTarget` | pkg/configdata/data.go:255-258 | The same below an absolute directory, whose leading slash stays |
| `Paths.RootTarget` | pkg/configdata/data.go:255-258 | Below the root the target is a slash and the name; below no directory it is the name |
| `Paths.BackTracks` | pkg/configdata/data.go:255-258 | A component of the directory and the .. behind it cancel, whatever the directory |
| `Paths.NothingAdded` | pkg/configdata/data.go:255-258 | A final slash or . in the directory changes nothing |
| `Paths.RootParentTarget` | pkg/configdata/data.go:255-258 | A .. above the root is dropped |
| `Paths.ParentTarget` | pkg/configdata/data.go:255-258 | The .. with which a relative directory begins all stay, however many |
| `Paths.ParentText` | pkg/configdata/data.go:223-228 | The directory prepared for a file is the text of its target before the last slash |
| `Assets.AssetDir` | pkg/configdata/data.go:179-199 | The walk and the collection loop: success exactly for directories, and then every child name once, in any order |
| `Assets.Agreement` | pkg/configdata/data.go:113-123 | For a tree built from the flat index in any order, a name is in the index if and only if walking its split canonical form ends at a node with a generator, and then it is the same one |
| `Assets.TreePaths` | pkg/configdata/data.go:201-211 | A path exists in the tree exactly when it leads to or towards some indexed name, and has a generator exactly when it is one |
| `Assets.Listing` | pkg/configdata/data.go:179-199 | Which names are directories and what is listed in them, in terms of the flat index alone |
| `Assets.ListingText` | pkg/configdata/data.go:179-199 | In text: a directory lists a name if and only if the directory, a slash and the name lead to an asset, or to names that go on from there after a slash; the empty name is the root |
| `Assets.NeverBoth` | pkg/configdata/data.go:113-199 | Some name succeeds both as an asset and as a directory if and only if an asset has the empty name |
| `Assets.SlashesDoNotMatter` | pkg/configdata/data.go:114-182 | Names that differ only in the kind of slash are the same name to both lookups |
| `Assets.AssetByName` | pkg/configdata/data.go:113-123 | A name without backslashes is looked up as it is, and is an asset if and only if it is indexed and loads |
| `Assets.UnderText` | pkg/configdata/data.go:239-253 | At or below a name are exactly the assets of that name and those whose names go on from it after a slash; below the empty name are all |
| `Restore.RestoreAsset` | pkg/configdata/data.go:214-236 | Success exactly when the asset loads and no system call fails; then its file, its directory and three calls; otherwise no other file is touched |
| `Restore.RestoreAssets` | pkg/configdata/data.go:239-253 | Terminates for every name; success exactly when the name is known, every asset at or below it loads and no call fails; then the disk is what it was with exactly these assets written, each once, in their prepared directories; on failure only their files may differ |
| `Restore.RestoredBelow` | pkg/configdata/data.go:239-258 | What success promises, in text: below a directory of proper components, with or without a leading slash, each asset is at the directory, a slash and its name, and nothing else has changed |
| `Restore.OneFilePerAsset` | pkg/configdata/data.go:255-258 | No two assets are restored to one file |
| `Restore.RestoredDetermines` | pkg/configdata/data.go:239-253 | What a successful restoration leaves on the disk is determined by what was there, so the order of the children does not matter |
| `Restore.UnderAll` | pkg/configdata/data.go:245-251 | The assets below a directory are those below its children, whatever the order |
| `Restore.Descend` | pkg/configdata/data.go:247-248 | The name built for a child denotes the child's node |
| `DeepCopy.CopyMap` | pkg/apis/jenkins/v1alpha2/zz_generated.deepcopy.go:107-113 | A map copied key by key is a fresh map with the same entries; nil stays nil |
| `DeepCopy.CopySlice` | pkg/apis/jenkins/v1alpha2/zz_generated.deepcopy.go:114-118 | A fresh slice with the same elements; nil stays nil |
| `DeepCopy.ServiceDeepCopy` | pkg/apis/jenkins/v1alpha2/zz_generated.deepcopy.go:208-228 | A fresh struct of equal deep value whose annotations are fresh |
| `DeepCopy.StorageDeepCopy` | pkg/apis/jenkins/v1alpha2/zz_generated.deepcopy.go:231-249 | A fresh struct of equal deep value whose claim specification is fresh |
| `DeepCopy.FlatDeepCopyInto` | pkg/apis/jenkins/v1alpha2/zz_generated.deepcopy.go:107-162 | The maps, slices and plain structs of a spec are copied to fresh ones of equal content; service and storage stay |
| `DeepCopy.SpecDeepCopyInto` | pkg/apis/jenkins/v1alpha2/zz_generated.deepcopy.go:105-163 | The copy of a spec has the same deep value and everything it reaches is fresh |
| `DeepCopy.InstanceDeepCopy` | pkg/apis/jenkins/v1alpha2/zz_generated.deepcopy.go:44-61 | The same for an instance, with its metadata maps |
| `DeepCopy.ItemsDeepCopy` | pkg/apis/jenkins/v1alpha2/zz_generated.deepcopy.go:76-82 | The same for a slice of instances of any length, the copied instances sharing nothing with one another |
| `DeepCopy.ListDeepCopy` | pkg/apis/jenkins/v1alpha2/zz_generated.deepcopy.go:72-94 | A list of equal deep value that reaches only fresh objects, nothing the original reaches, and whose instances share nothing with one another even where those of the original do; nil stays nil |
| `DeepCopy.InstanceValSays` | pkg/apis/jenkins/v1alpha2/zz_generated.deepcopy.go:44-163 | Two instances have one deep value if and only if they agree in every field, references followed to the end and nil told from empty |
| `DeepCopy.ListValSays` | pkg/apis/jenkins/v1alpha2/zz_generated.deepcopy.go:72-94 | Two lists have one deep value if and only if their items agree so, one by one |
| `DeepCopy.ItemsKept` | pkg/apis/jenkins/v1alpha2/zz_generated.deepcopy.go:76-82 | Instances whose reach nobody writes to keep their deep value and their reach |
| `DeepCopy.MutationStaysApart` | pkg/apis/jenkins/v1alpha2/zz_generated.deepcopy.go:72-94 | Any writes confined to what a copy reaches leave the original's deep value and reach unchanged |

## Left out

- HTTP work in `pkg/util/jenkins.go`: readiness and safe restart are requests whose outcome is arbitrary; restart
  attempts are logged.
- Manager, cache, work queue, leader election, flags, scheme registration, events and logs: plumbing without
  decisions of its own. Errors of `SetControllerReference` and of loading the two embedded assets inside a reconcile
  are not modelled.
- `pkg/crddata/data.go`: the same code as `pkg/configdata/data.go`, over other assets.
- Pass-through pod fields (image, affinity, tolerations, resources, DNS policy, node selection, pull secrets, command,
  container ports) are one opaque value; so is a claim's specification.
- gzip decoding, file modes and file times: an asset loads to bytes or fails. Only the directories named to
  `MkdirAll` are kept, not the directory tree.
- `bufio.Scanner` gives up on lines over 64 KiB; scanned lines here have no limit.
- Integers are unbounded: ports and replica counts are only copied and compared, never computed with.
- Controller.ApiServer: one sequence of calls; other reconciles of the operator appear to it as changes by other
  clients, while Runs has all of them as workers.
- Staging.ReferentialIntegrity: assumes that other clients take nothing away, as no check made before a Deployment is
  created can outlive a deletion.
- MissingClaim.DeploymentWithoutClaim: for instances that would create the claim; without a claim specification the
  same read falls through in the same way.
- Undisturbed.UndisturbedOutcome: assumes that the server keeps objects under keys of their own kind.
- Convergence.AtMostFiveWrites: assumes one stored instance under the name and no other with its UID, as the API
  server guarantees.
- Util.GetServiceEndpoint: whether a client can be built and what listing the nodes returns are parameters; a failed
  list is an empty one, as the code ignores that error.
- Assets.Agreement: how `go-bindata` generates the tree is not in the repository; a tree is taken to be grown by
  inserting every indexed name.
- Restore.RestoreAssets: assumes names whose components are neither empty nor "." nor ".." and hold no backslash, and
  no asset below another.
- DeepCopy.SpecDeepCopyInto: the copies of affinity, resources, tolerations and the claim specification are library
  code, taken as copies of values; of the object metadata the labels and annotations are modelled. A slice is a whole
  array, so slices that share a backing array are not modelled, and interior pointers are struct values assigned back.
