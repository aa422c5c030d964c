# Kubeless in Dafny

Kubeless turns a Function object on a Kubernetes API server into a ConfigMap, a Service, a Deployment and,
on request, an autoscaler. This project models the parts of it whose correctness is decided by its own code:
the function controller, the pod-spec compiler, the image layer builder, two small concurrent pieces, and the
parser of runtime names. `dafny verify dfyconfig.toml` checks everything.

## The parts

**The controller** (`FunctionApi`, `Controller`, `ControllerSafety`, `ControllerProgress`,
`ControllerQuiescence`, `ControllerEvents`). One step system
with the API server's history of Functions, an informer cache that is a forward-moving position in that
history, a queue with requeue counters, and one worker that runs `processItem` one API call at a time. Every
call may be answered, refused, or applied with its answer lost; outside actors may act between any two calls;
the worker may panic and the process may restart at any point. The results are about every run: no orphans, ownership, at most six
attempts in a row, at most two Function writes per incarnation, an end to every run with finitely many
outside events and restarts, and what has been achieved for every Function, its
autoscaler included, when the controller comes to rest; that the event filter enqueues enough for that is proved, not assumed.

**Ensuring children** (`Quantities`, `Desired`, `EventFilter`, `ImageBuild`, `Json`, `DeploymentPatch`, `EnvOrder`, `EnvOrderJson`, `Ensure`,
`EnsureProperties`). What
`ensureK8sResources` computes and writes. The Function's label map is a heap object, because the code relies
on `addDefaultLabel` writing into the map that later steps read. The Deployment update is the JSON merge patch
of section 2 of RFC 7396 on the marshalled object, in which lists are replaced whole and absent members
survive. Resource quantities are amounts with a text, because the event filter compares the one and the children
show the other. The results are about every history of calls, whatever the Functions, labels and failures.

**The pod-spec compiler** (`Provision`, `Shell`, `ProvisionText`, `Delivery`, `Base64`, `PodSpecs`, `PodContents`,
`CliToPod`, `GoSlices`). The prepare command is given a meaning over a file map and proved equal to a direct
specification. The text the container gets has a meaning of its own, that of a shell which reads words and quotes,
joins commands by `&&` and looks at program names and arguments; it is proved to be the same. From there, the way from
the file named on the command line through the prepare container to the bytes in the pod. What the install, compile
and serving containers are told and run, over the runtime table and the Function. Volumes, mounts and secrets of
`populatePodSpec`. Go's `append` over shared backing arrays.

**The layer builder** (`LayerBuilder`), **the timeout handler** (`TimeoutHandler`), **the exec multiplexer**
(`ExecChannel`) and **runtime names** (`Runtimes`). `Common` and `Strings` hold shared definitions.

## Assumptions

- Outside actors do not strip `kubeless.io/function` from a Function, nor `created-by` from a child the
  controller manages. The API server refuses new finalizers on an object being deleted.
- The autoscaler has the function's name and namespace, as the CLI builds it
  (cmd/kubeless/autoscale/autoscale.go:95-105).
- The `deployment` key of the controller configuration is absent or `{}`.
- SHA-256 prints as 64 lower-case characters without a colon, and no two of the contents involved in a statement share a
  digest: the blobs of the image, the tars and the new descriptions, or a file and its base-64 text. JSON parsing
  undoes JSON printing. `LayerBuilder.LawsAreMet` exhibits an image and a call that meet all of this.
- A restarted controller does not list a state older than its predecessor's cache: on an older list it could
  create children of a Function that is gone.
- For `ControllerQuiescence`: the process starts with every Function in its queue, the informer delivers every
  version in turn, the key is never given up, and outside actors do not remove its children, which the controller
  does not watch; that the children were written from the live spec, and that no unwanted autoscaler or monitor is
  left, also needs that nobody else writes them; that the wanted monitor is there, that its lookups are answered.
- For `ControllerEvents`: a decoded deletion timestamp has an address of its own (the filter compares pointers),
  resource versions tell versions apart, and versions of different generation differ in a field the filter looks at.
  `ControllerEvents.DecodersExist` exhibits such versions.
- For the text of commands: file names, URLs and digests without blanks and quotes, and without other characters that
  are special to a shell. Programs other than those named in the prepare command are arbitrary.
- A live Deployment is a JSON object with metadata and without null members.

## Where the code does less than its documentation or a reader would expect

- An empty file gets no prepare container, so nothing is installed (`CliToPod.CliRoundTrip`).
- A text archive: a non-empty archive whose bytes are valid UTF-8 is stored in base 64 but provisioned as
  text, so its checksum never matches (`Delivery.TextArchiveFails`).
- An update that changes only the runtime is dropped (`EventFilter.RuntimeChangeIsDropped`).
- So is one that only writes a resource quantity in another format, although FUNC_MEMORY_LIMIT and the container's
  resources show the text (`EventFilter.ReformatIsDropped`, with 1Gi against 1073741824 as the input in
  `EventFilter.GibibyteReformatIsDropped`).
- With the build step on, a Function without code on a runtime with nothing to compile or install panics the
  controller (`ImageBuild.BuildPanicsIff`).
- The first run after a creation changes the Deployment again when the Function overrides an annotation of its
  own Deployment template (`EnsureProperties.SecondRunSettles`).
- Init containers survive an update that wants none (`DeploymentPatch.InitContainersConvergeIff`).
- A failed lookup of a service monitor, other than not finding it, counts as success, and an existing one is an
  error (`Ensure.CreateServiceMonitor`).
- A checksum `sha256` without a digest is an index out of range, modelled as `Panic`.
- Names with arbitrary text between ID and version resolve although they are not listed
  (`Runtimes.JunkInTheMiddleResolves`), and the liveness lookup misses IDs that are not all letters
  (`Runtimes.ProbeIsOwnIff`).

## Model

| member | source | states |
|---|---|---|
| `FunctionApi.FunctionObjHasFinalizer` | pkg/utils/k8sutil.go:414-422 | true exactly when the finalizer is in the list |
| `FunctionApi.FunctionObjAddFinalizer` | pkg/utils/k8sutil.go:407-411 | accepted exactly at the version the object was read at; then it is stored with the finalizer added and a fresh version, otherwise nothing changes |
| `FunctionApi.FunctionObjRemoveFinalizer` | pkg/utils/k8sutil.go:425-440 | likewise with every occurrence of the finalizer gone and the others in order; a deleting object without finalizers disappears |
| `FunctionApi.Server.Update` | pkg/utils/k8sutil.go:207-210 | optimistic update: stale versions are refused without effect |
| `ControllerSafety.NoOrphansEver` | pkg/controller/function_controller.go:191-254 | in every state of every run, every child the controller created or updated belongs to a Function that is on the API server with the controller's finalizer |
| `ControllerSafety.EnsureRespectsOwnership` | pkg/utils/kubelessutil.go:228-246 | in every run no ensure step touches an unlabelled ConfigMap, Service or Deployment, and what it writes is labelled |
| `ControllerSafety.OwnObjectNeverConflicts` | pkg/utils/kubelessutil.go:234-238 | in every run the ownership check passes on every object the controller manages |
| `ControllerSafety.StepKeeps` | pkg/controller/function_controller.go:191-254 | the invariant behind these results is kept by every step of controller, queue, informer and outside actors |
| `ControllerProgress.RetriesBounded` | pkg/controller/function_controller.go:173-184 | no requeue counter ever exceeds 5 |
| `ControllerProgress.SixTriesThenDropped` | pkg/controller/function_controller.go:173-184 | for a key without success, failures equal six times the give-ups plus the counter: it is dropped and reset on every sixth failure |
| `ControllerProgress.PhaseStep` | pkg/controller/function_controller.go:208-245 | per Function incarnation the controller's own writes are at most one finalizer add, then at most one remove |
| `ControllerProgress.OwnWritesBounded` | pkg/controller/function_controller.go:208-245 | over a run the controller's Function writes number at most two per incarnation |
| `ControllerProgress.RunsEnd` | pkg/controller/function_controller.go:161-189 | every stretch of a run without restarts, with a finite budget of outside events, is no longer than a bound computed from its first state |
| `ControllerProgress.StuckMeansDrained` | pkg/controller/function_controller.go:161-189 | where no internal step is possible the queue is empty, no counter is held and the cache is up to date, unless the process has crashed |
| `ControllerQuiescence.DrainedMeansDone` | pkg/controller/function_controller.go:87-110 | wherever a run comes to rest in which every change that matters was enqueued and the key was never given up: a Function being deleted is not held any more; a live one has its finalizer, its ConfigMap, Service and Deployment, and the autoscaler it asks for, written by the controller; if nobody else writes them, from the live generation of its spec, with the monitor of an object metric, and without an autoscaler or monitor it does not ask for; and one whose autoscaler has no metrics never comes to rest |
| `ControllerQuiescence.StepAttended` | pkg/controller/function_controller.go:167-254 | the invariant behind it, for every step: each key is queued, being worked on with its completed stages (of scaling too) in place, or settled for what the cache shows |
| `ControllerEvents.HandledRunIsGood` | pkg/controller/function_controller.go:87-110 | in every run whose queue is fed by the real handlers, every change that matters is enqueued, as the result above needs |
| `ControllerEvents.ChangesPass` | pkg/controller/function_controller.go:440-469 | two versions that differ in being deleted, in the kind of autoscaling or in the generation pass the filter |
| `ControllerEvents.RunStamped` | pkg/controller/function_controller.go:208-245 | in every run, successive versions of a Function have different resource versions, so the filter does not take one for a resync |
| `EventFilter.DeletionIsSeen` | pkg/controller/function_controller.go:442-444 | an update that changes the deletion timestamp is never dropped |
| `EventFilter.UpdateIsSeenIff` | pkg/controller/function_controller.go:446-469 | with the timestamp kept, an update is let through exactly when it is a new version with another code (but for the runtime), timeout, service, deployment or autoscaler, amounts of quantities compared and not texts |
| `EventFilter.DroppedEventIsHarmless` | pkg/controller/function_controller.go:440-469 | a dropped update that keeps runtime, labels, annotations, identity and the texts of the quantities that reach a child leaves the desired ConfigMap, Service, Deployment and autoscaler equal |
| `EventFilter.DroppedEventHarmlessIff` | pkg/controller/function_controller.go:440-469 | for functions with code: equal exactly when runtime, identity, effective labels and annotations, and those texts are kept |
| `EventFilter.PodsSameIff` | pkg/utils/kubelessutil.go:614-763 | the pods computed from two versions the filter takes for the same are equal exactly when runtime and texts are kept |
| `EventFilter.RuntimeChangeIsDropped` | pkg/controller/function_controller.go:452-467 | an update that only switches the runtime is dropped although the desired Deployment differs |
| `EventFilter.ReformatIsDropped` | pkg/controller/function_controller.go:463-465 | an update that only writes the first container's memory limit in another format is dropped although the desired Deployment differs |
| `EventFilter.GibibyteReformatIsDropped` | pkg/utils/kubelessutil.go:704-707 | the same for 1Gi rewritten as 1073741824 |
| `EventFilter.RuntimeVisible` | pkg/utils/kubelessutil.go:687-707 | the runtime is one fixed entry of the environment of every pod built from code |
| `Json.PatchIdempotent` | pkg/utils/kubelessutil.go:783-789 | the same merge patch again changes nothing |
| `Json.LastPatchWins` | pkg/utils/kubelessutil.go:783-789 | of two patches with the same members only the last counts, for every target |
| `DeploymentPatch.ContainersConverge` | pkg/utils/kubelessutil.go:765-789 | after an update the live containers are the desired ones, whatever was live |
| `DeploymentPatch.InitContainersConvergeIff` | pkg/utils/kubelessutil.go:765-789 | the init containers too, exactly unless none are desired while some are live |
| `DeploymentPatch.PatchedSelector` | pkg/utils/kubelessutil.go:779-782 | an update never changes the live selector |
| `DeploymentPatch.LastUpdateWins` | pkg/utils/kubelessutil.go:765-789 | after an update, another from the same function and a template with the same members gives what it alone would have given |
| `DeploymentPatch.SecondUpdateIsNoOp` | pkg/utils/kubelessutil.go:765-789 | the same update twice is the same as once |
| `DeploymentPatch.UpdateAfterCreateNoOpIff` | pkg/utils/kubelessutil.go:645-649 | the update after a creation changes nothing exactly when the template's annotations survived the merge with the Function's |
| `DeploymentPatch.ContainerJson` | pkg/utils/kubelessutil.go:765-789 | every part of a container stands in its own member of what is sent |
| `DeploymentPatch.PodJson` | pkg/utils/kubelessutil.go:765-789 | so does every part of a pod; what is empty is left out |
| `DeploymentPatch.UpdatedMeta` | pkg/utils/kubelessutil.go:765-789 | after an update the live object has the desired labels, annotations and owner, and the desired replicas or, where none are given, those it had |
| `EnvOrder.DesiredSame` | pkg/langruntime/langruntime.go:274-280 | whatever order Go ranges over env maps in, the desired Deployment is the same up to the order of environment entries |
| `ImageBuild.EnsureFuncImage` | pkg/utils/kubelessutil.go:486-566 | the init containers of the build job, ending with the bundle container on the prepare container's mounts; an error, or a panic where the first container has no mount |
| `ImageBuild.StartImageBuild` | pkg/controller/function_controller.go:331-352 | which image the Deployment gets, for every answer of registry and API server, or the panic |
| `ImageBuild.BuildPanicsIff` | pkg/utils/kubelessutil.go:565-565 | making the job panics exactly on code with a checksum without digest, or without code on a runtime that resolves and has nothing to compile and nothing to install |
| `ImageBuild.PrebuiltPanicsIff` | pkg/controller/function_controller.go:258-294 | hence the step panics exactly when there is no user image, a job has to be made, and the code is such |
| `ImageBuild.ImageReturned` | pkg/controller/function_controller.go:331-352 | which image it is: the user's; else the one the registry has or the job makes; none where the step is off or fails |
| `ImageBuild.BundleFound` | pkg/utils/kubelessutil.go:486-566 | the first mount of the first container, where the job looks for its bundle, is the volume the bundle container writes it to |
| `Ensure.AddDefaultLabel` | pkg/utils/kubelessutil.go:162-168 | the caller's own map gets the label; only a nil map is replaced by a new one |
| `Ensure.MergeMap` | pkg/utils/kubelessutil.go:603-611 | the result holds both maps with the source winning, and is the destination itself unless that was empty |
| `Ensure.EnsureFuncConfigMap` | pkg/utils/kubelessutil.go:204-249 | creates, updates or aborts on a foreign object; on any failure the object is untouched or written as intended; the shared label map is marked |
| `Ensure.EnsureFuncService` | pkg/utils/kubelessutil.go:278-310 | likewise; an update replaces labels, owner and ports and keeps the rest of the spec |
| `Ensure.EnsureFuncDeployment` | pkg/utils/kubelessutil.go:614-796 | likewise for the computed Deployment, built from the label map as it stands, with a merge patch that keeps the live selector |
| `Ensure.CreateServiceMonitor` | pkg/utils/kubelessutil.go:799-834 | an existing monitor is untouched, and an error whenever its lookup is answered; only a failed call leaves none behind a success |
| `Ensure.EnsureScaling` | pkg/controller/function_controller.go:360-382 | creates or updates the autoscaler, or deletes it and the monitor; an existing monitor stays and lets the step succeed only if its lookup failed; panics exactly without metrics or, for an object metric, without a monitor client |
| `Ensure.EnsureK8sResources` | pkg/controller/function_controller.go:297-384 | success means every child is written as intended; every other outcome is explained by the inputs or a failed API call; every object is untouched or written as intended |
| `EnsureProperties.HealthySucceedsIff` | pkg/controller/function_controller.go:297-384 | a call during which no API call fails succeeds exactly when name and UID are set, no foreign child is in the way, ConfigMap and pod can be computed, neither the build step nor the autoscaler step panics, and no service monitor it would have to create exists |
| `EnsureProperties.SuccessIsFeasible` | pkg/controller/function_controller.go:297-384 | success in spite of failed API calls needs the same but for the monitor, and leaves an existing monitor alone |
| `EnsureProperties.OwnershipForever` | pkg/utils/kubelessutil.go:222-246 | over every history of calls an unlabelled object is never modified and a labelled or created one keeps the label |
| `EnsureProperties.OthersUntouched` | pkg/controller/function_controller.go:297-384 | a call leaves the children of other names alone, of all five kinds; the autoscaler it writes has the name its Function gives it |
| `EnsureProperties.OwnNeverConflicts` | pkg/utils/kubelessutil.go:162-175 | where no foreign object stood at the start no call of any history aborts with a conflict |
| `EnsureProperties.Convergence` | pkg/controller/function_controller.go:297-384 | from any owned or absent children one successful call makes ConfigMap, Service ports, labels and owner, Deployment containers and autoscaler those computed from the spec |
| `EnsureProperties.ConvergedFields` | pkg/controller/function_controller.go:297-384 | field by field: labels and owners; a Service that was there keeps all of its spec but the ports, a new one selects the pods of the Function; the autoscaler is the Function's, owned by it, and gone with the monitor where none is asked for |
| `EnsureProperties.SecondRunSettles` | pkg/controller/function_controller.go:297-384 | after a second successful call everything but the Deployment is as it was, and the live Deployment is the same JSON up to the order of environment entries, exactly unless the first call created it and the Function overrides one of its template's annotations |
| `EnvOrderJson.UpdatedSame` | pkg/utils/kubelessutil.go:765-789 | updates whose templates differ in the order of environments leave live Deployments that do |
| `EnvOrderJson.CreatedSame` | pkg/utils/kubelessutil.go:764-765 | and so do creations |
| `EnsureProperties.SelectorForever` | pkg/utils/kubelessutil.go:634-646 | over every history that starts without the Deployment, its selector is the one fixed at creation and matches the live pod template, whatever labels the Functions carry |
| `Provision.GetProvisionContainer` | pkg/utils/kubelessutil.go:80-160 | the emitted text is the joined rendering of the specified command list, with the same errors; what a shell makes of the text is `ProvisionText.TextMeaning` |
| `Provision.CheckedPayload` | pkg/utils/kubelessutil.go:88-122 | fetching and checking leave the function bytes in the origin file exactly when they have the recorded hash, in hexadecimal of either case |
| `Provision.ProvisionMeaning` | pkg/utils/kubelessutil.go:80-160 | the commands succeed exactly when the payload exists, passes its checksum, unpacks and has its dependency file, and leave exactly those files |
| `Provision.ProvisionOutcome` | pkg/utils/kubelessutil.go:80-160 | there is a command exactly for a known content type, a checksum that is empty or starts with `sha256:`, and an archive or a handler that can be split; a checksum `sha256` panics |
| `Provision.ChecksumDecides` | pkg/utils/kubelessutil.go:101-117 | with a checksum `sha256:` and digest, commands that pass had function bytes of that digest |
| `Provision.FilesInstalled` | pkg/utils/kubelessutil.go:119-140 | what passing commands leave: every member of the zip or tar, or the one code file, with its bytes, but for one the dependency file replaces |
| `Provision.DepInstalled` | pkg/utils/kubelessutil.go:142-149 | and the dependency file of the runtime, unless the content brings its own |
| `Shell.TextRuns` | pkg/utils/kubelessutil.go:80-160 | for every list of such commands with plain names, the text read by a shell, word by word and program by program, does what the commands do |
| `ProvisionText.TextMeaning` | pkg/utils/kubelessutil.go:80-160 | hence the text of the prepare container succeeds exactly when the payload exists, passes its checksum, unpacks and has its dependency file, and leaves exactly those files |
| `Base64.RoundTrip` | pkg/utils/kubelessutil.go:1004-1008 | decoding an encoded byte string gives it back (section 4 of RFC 4648) |
| `Base64.Vectors` | pkg/utils/kubelessutil.go:1004-1008 | encodings of section 10 of RFC 4648 |
| `Delivery.SourceAgreement` | pkg/utils/kubelessutil.go:187-228 | every source file the prepare command reads is a ConfigMap key with the dependency text or the code, the latter exactly unless the dependency file has taken its name |
| `Delivery.GetCompressionType` | pkg/utils/kubelessutil.go:935-948 | the archive suffix of a file name, tar suffixes winning over zip |
| `Delivery.ArchiveNames` | pkg/utils/kubelessutil.go:935-948 | each of the ten suffixes, after any stem, gives its kind of archive |
| `Delivery.StoredPayload` | pkg/utils/kubelessutil.go:951-1016 | what the pod takes as function bytes for whatever the CLI stored: the original, or its encoding for a text archive |
| `CliToPod.PodPrepares` | pkg/utils/kubelessutil.go:364-389 | the pod starts with a prepare container running the provision commands exactly when there is code and it is not in an image already; otherwise its init containers are the user's |
| `CliToPod.EmptySourceIff` | cmd/kubeless/function/function.go:122-139 | what the CLI stores is empty exactly for an empty file |
| `CliToPod.CliRoundTrip` | cmd/kubeless/function/function.go:122-139 | unless it is empty or a text archive, the pod of a file the CLI accepts starts with a prepare container whose commands pass exactly when the original unpacks and install exactly what the original gives, and its `args` text run by a shell does what the commands do; for an empty file there is none |
| `CliToPod.CliSingleFileArrives` | cmd/kubeless/function/function.go:122-139 | a file that is no archive arrives byte for byte through the prepare container, exactly unless it is empty; so it does when a shell runs the text of the container |
| `CliToPod.TextArchivePodFails` | pkg/utils/kubelessutil.go:1004-1008 | the prepare container of a text archive always fails, and so does its text in a shell |
| `Delivery.TextArchiveFails` | pkg/utils/kubelessutil.go:1004-1008 | a text archive always fails its checksum |
| `PodSpecs.Pod.MountSecrets` | pkg/utils/kubelessutil.go:445-480 | the loop over init containers adds the volumes and mounts of their secrets, or fails on a clashing volume name, as specified container by container |
| `PodSpecs.Pod.Populate` | pkg/utils/kubelessutil.go:333-483 | the mutated pod spec is the specified one; errors and panics agree; what that one holds is stated by `PodSpecs.PopulatedClosed` and by `PodContents` |
| `PodSpecs.PopulatedClosed` | pkg/utils/kubelessutil.go:333-483 | either an error, or: volume names stay distinct, the given volumes are a prefix, no init container has a dangling mount, each needed secret has exactly one volume |
| `PodSpecs.SecretsMounted` | pkg/utils/kubelessutil.go:445-480 | every init container of the result mounts, read only under its own path, each secret its phase asks for |
| `PodSpecs.PhaseSecrets` | pkg/langruntime/langruntime.go:241-265 | install container and installation phase, compile container and compilation phase |
| `PodContents.HandlerParts` | pkg/utils/kubelessutil.go:177-184 | a handler is split exactly when it is module, dot and function with no other dot |
| `PodContents.CodeFileName` | pkg/utils/kubelessutil.go:186-202 | the code file has the module's name, with the suffix of a known runtime where the content is a single file |
| `PodContents.HandlerKept` | pkg/utils/kubelessutil.go:204-225 | the ConfigMap has the handler under its key unless code or dependencies take the key |
| `PodContents.InstallContainer` | pkg/langruntime/langruntime.go:283-333 | image, environment, volume and text of the install container over the runtime table: check the hash of the given dependencies, then the command of the installation phase of the resolved version |
| `PodContents.NoInstallContainer` | pkg/langruntime/langruntime.go:283-298 | there is none without dependencies or without an installation phase |
| `PodContents.InstallChecks` | pkg/langruntime/langruntime.go:305-310 | a shell that runs this text fails unless the dependency file has the recorded hash, and otherwise does exactly what it does for the phase's command alone |
| `PodContents.InstallAfterPrepare` | pkg/langruntime/langruntime.go:305-310 | after the prepare container has run, the check passes: the dependency file it copied has the hash the controller computed |
| `PodContents.CompileContainer` | pkg/langruntime/langruntime.go:359-388 | the compile container runs the command of the compilation phase and is told the part of the handler after the dot |
| `PodContents.PopulatedInits` | pkg/utils/kubelessutil.go:333-443 | the init containers are prepare, install and compile in this order, each as computed and with mounts added |
| `PodContents.PopulatedParts` | pkg/utils/kubelessutil.go:333-399 | the runtime and source volumes; the pull secrets are the controller's, or the pod's own where it has none, followed by those of the resolved version |
| `PodContents.WiredInPod` | pkg/utils/kubelessutil.go:333-399 | the same for the pod of a Function, over the controller configuration |
| `PodContents.NotWired` | pkg/utils/kubelessutil.go:656-681 | where there is no code or it is in an image, volumes and init containers are the user's; with code the pull secrets are the controller's |
| `PodContents.InstallInPod` | pkg/utils/kubelessutil.go:401-428 | so the second init container of the pod of a Function checks and installs its dependencies, in the runtime volume, with the environment of the user's container and the resources of the user's first init container |
| `PodContents.CompileInPod` | pkg/utils/kubelessutil.go:430-443 | and the last one compiles the function named in the handler, likewise |
| `PodContents.ServingImage` | pkg/langruntime/langruntime.go:190-211 | the image of a runtime is the environment's override, else that of the runtime phase |
| `PodContents.ServingContainer` | pkg/utils/kubelessutil.go:614-731 | what the serving container is told: handler, module, timeout or 180, runtime, memory limit and port after the user's entries; and its image and mounts |
| `PodContents.RuntimeEntries` | pkg/langruntime/langruntime.go:336-356 | its environment ends with the volume and the entries of the runtime phase |
| `PodContents.ServiceReachesContainer` | pkg/utils/kubelessutil.go:258-276 | the first port of the desired Service leads to the port the container declares, is told and is scraped at; by default 8080 |
| `PodContents.Probed` | pkg/langruntime/langruntime.go:141-163 | a container without a probe gets the one of its runtime, or one for the health path on that port |
| `PodContents.DeploymentMeta` | pkg/utils/kubelessutil.go:614-655 | labels and annotations of the Function win over its template's, on Deployment and pods, and the marks of the controller and of Prometheus over both |
| `PodContents.PodDefaults` | pkg/utils/kubelessutil.go:732-763 | a pod without them gets the default user and the anti-affinity of its function |
| `GoSlices.Append` | pkg/utils/kubelessutil.go:687-718 | Go's append: in place while capacity lasts, otherwise into a fresh array; the old view is kept |
| `GoSlices.ContainerEnvs` | pkg/langruntime/langruntime.go:315-376 | with less than two spare slots every container ends with the user's environment and its own entries |
| `GoSlices.SpareCapacityClobbers` | pkg/langruntime/langruntime.go:315-376 | with two or more the compile container overwrites the install container's entries |
| `GoSlices.SecretReferences` | pkg/utils/k8sutil.go:461-469 | the non-empty names in order |
| `GoSlices.ServeFunctions` | pkg/utils/kubelessutil.go:336-396 | the controller's pull-secret list reads the same after any number of functions, and each is sent that list and its own secrets |
| `LayerBuilder.DescriptionDoc.AddLayer` | pkg/function-image-builder/layer-builder/description.go:87-101 | host names, images and container cleared; the digest of the new layer appended to the diff IDs and one entry to the history; all else kept, field by field |
| `LayerBuilder.ManifestDoc.UpdateConfig` | pkg/function-image-builder/layer-builder/manifest.go:54-57 | config size and digest replaced, all else kept |
| `LayerBuilder.ManifestDoc.AddLayer` | pkg/function-image-builder/layer-builder/manifest.go:60-66 | one layer entry appended, all else kept |
| `LayerBuilder.AddTarToLayer` | pkg/function-image-builder/layer-builder/layer_builder.go:92-155 | the directory passes through a prefix of the four specified states, all of them exactly on success |
| `LayerBuilder.BlobWriteKeeps` | pkg/function-image-builder/layer-builder/layer_builder.go:97-103 | writing a blob under its own digest keeps the image and its well-formedness, unless the digest is that of another blob |
| `LayerBuilder.CrashConsistent` | pkg/function-image-builder/layer-builder/layer_builder.go:97-151 | after each single write the directory is well-formed and holds the whole old image or, after the last, the whole new one |
| `LayerBuilder.ManyCalls` | pkg/function-image-builder/layer-builder/layer_builder.go:92-155 | after any number of calls, interrupted anywhere, the image is well-formed; for the tars of the completed calls in order, their `sha256:` digests follow the old diff IDs, and manifest entries with their size, digest and the layer media type follow the old ones; each call adds one history entry; the rest of the base image is kept, without host names, and the config entry is that of the last description |
| `LayerBuilder.LawsAreMet` | pkg/function-image-builder/layer-builder/layer.go:33-48 | digests of the required form that tell the contents apart, and a well-formed image, for one completed call |
| `TimeoutHandler.AlwaysSound` | pkg/function-proxy/utils/proxy-utils.go:124-157 | under every interleaving: at most one response per request, each its own result or timeout; a send never blocks; durations never exceed calls |
| `TimeoutHandler.FinalCounts` | pkg/function-proxy/utils/proxy-utils.go:124-157 | once all goroutines are done, per method, calls and durations equal requests, failures equal the 500 and 408 answers, one response each |
| `TimeoutHandler.RunsEnd` | pkg/function-proxy/utils/proxy-utils.go:124-157 | a request takes exactly nine steps in all |
| `TimeoutHandler.NeverStuck` | pkg/function-proxy/utils/proxy-utils.go:124-157 | a request that is not over can take a step |
| `ExecChannel.StdinLoop` | pkg/utils/exec.go:45-68 | over the reused buffer every frame is the channel byte and what that round read; payloads concatenate to the bytes read |
| `ExecChannel.StdinFramed` | pkg/utils/exec.go:45-68 | the same under every interleaving with the receiver |
| `ExecChannel.StreamsDemultiplexed` | pkg/utils/exec.go:70-105 | stdout and stderr get exactly the payloads of their own channel up to the first stop; a failed write leaves out only an end of the last message, on its own channel, and the other stream is whole |
| `ExecChannel.ErrorsNeverBlock` | pkg/utils/exec.go:35-110 | no send on the error channel ever blocks |
| `ExecChannel.ResultIsFirstReport` | pkg/utils/exec.go:35-110 | the result is the first error reported, nil exactly when none was |
| `ExecChannel.ErrorsAreThoseDue` | pkg/utils/exec.go:35-110 | when the call returns, the reported errors are exactly the failed reads, sends, receives and writes and the messages on channel 3 that happened; nil exactly when none did |
| `ExecChannel.ClosedAtTheEnd` | pkg/utils/exec.go:45-68 | and the connection was closed exactly when there was a standard input and it came to its end |
| `Runtimes.GetRuntimes` | pkg/langruntime/langruntime.go:90-98 | the ID and version of every entry, joined, in table order |
| `Runtimes.IsValidRuntime` | pkg/langruntime/langruntime.go:101-108 | true exactly for listed names |
| `Runtimes.NameRoundTrip` | pkg/langruntime/langruntime.go:123-138 | parsing ID and version joined gives back both |
| `Runtimes.ListedResolves` | pkg/langruntime/langruntime.go:165-177 | with distinct IDs every listed name resolves to its own entry and version |
| `Runtimes.ResolvesIff` | pkg/langruntime/langruntime.go:165-177 | any string resolves exactly when its ID part and version part form a listed name |
| `Runtimes.ShapedNameValidIff` | pkg/langruntime/langruntime.go:101-177 | a name of the shape ID and version is valid exactly when it resolves |
| `Runtimes.JunkInTheMiddleResolves` | pkg/langruntime/langruntime.go:165-177 | text between the two parts is ignored: such names resolve unlisted |
| `Runtimes.AllResolveIff` | pkg/langruntime/langruntime.go:90-177 | with repeated IDs: all listed names resolve exactly when each version of a repeated ID is also under its first entry |
| `Runtimes.ProbeIsOwnIff` | pkg/langruntime/langruntime.go:141-163 | the liveness lookup reaches a listed runtime's entry exactly when its ID is all letters |

## Left out

- Client construction, kubeconfig, REST and websocket dialling, generated clientset, informer and deep-copy code: the API server, cache and queue are modelled by their contracts.
- MergeDeployments and the `deployment` configuration key: the key is taken as absent or `{}`.
- The registry: whether an image exists or a build job is accepted is an arbitrary answer. The job is a child of the step system; of its pod only the init containers are modelled, and in `Ensure` it is no object of the cluster.
- Server-side defaulting, status and controllers other than Kubeless: a live object changes only by the calls modelled, or arbitrarily between them in the step system.
- Races between the lookup and the update of one child are in the step system (`Controller`); `Ensure` runs one call at a time. An update that is answered with "already exists", which the code tolerates, cannot occur in it.
- The cached Function is shared by successive runs; that its labels were already marked by an earlier run is covered by taking the label map as arbitrary.
- A relist of the informer is a sequence of history steps of which any subset is enqueued.
- Deletion does not look at the created-by label, so same-named foreign objects may be deleted; nothing is claimed about them.
- Later changes of labels against the Service selector, which the code never updates: nothing is claimed.
- Path cleaning and `..` in archive members, and file modes: the commands act on a map from paths to contents.
- Shell syntax beyond words, single quotes, redirection of `echo` and `&&`; names with blanks, quotes or other special characters, which the source does not escape: for them the text has no claim, the command list does.
- The command of an installation or compilation phase is an arbitrary text; a shell runs it from the files as they are then.
- Torn file writes and power loss inside one write of the layer builder: a write happens whole or not at all. A partly parsed manifest is taken as unparsable.
- JSON, YAML, SHA-256 and UTF-8 internals: parameters with the laws listed under Assumptions; the archive tools are arbitrary functions.
- Probes, affinity and security context are opaque texts: they are copied, defaulted and compared, never interpreted. Quantities occur in container resources, size limits of volumes and metrics; environment entries that refer to resource fields are not modelled.
- logReq, GracefulShutdown and panics inside a handler: operating-system behaviour and user code.
- getKV, label, environment and node-selector parsing of the CLI, and every other command: flag plumbing.
- Triggers, topics, autoscale and log commands, metrics parsing, example functions.
