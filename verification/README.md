# A verified model of the IBM VPC block CSI driver

The driver implements the Container Storage Interface (version 1.11.0 of its
specification) for block volumes of a VPC. This project models, in Dafny, the parts of
it that decide something, and proves what they keep.

- **Requests to volumes** (`Capacity`, `Text`, `VolumeParameters`): how a create request's
  size is normalised, and how storage class parameters and secrets, two maps without an
  order, settle one volume. `VolumeParameters.Volume` is filled in by real loops that take
  the keys in any order; `Resolve` says without any order what comes out.
- **The controller** (`Provider`, `Inventory`, `Cloud`, `Controller`, `ControllerRuns`,
  `VolumeLifecycle`, `SnapshotHandle`, `SnapshotLifecycle`, `ControllerAnswers`, `Paging`):
  volumes and snapshots of an account, the requests on them, what each answers and leaves by
  its fields and faults, and any run of requests with whatever the provider does during each. `Controller.CSIControllerServer` is the server object; its methods are
  proved against functions, and the lemmas are about those functions.
- **Attaching** (`Attachments`, `AttachProtocol`, `AttachSerial`, `AttachConflicts`,
  `AttachUnlocked`): any number of publish and unpublish handlers at once, each a program
  counter that a schedule moves one step at a time, with a lock per instance or without.
- **The node** (`Mounter`, `NodeServer`, `NodeEffects`, `NodeHistories`, `NodeOutcomes`,
  `NodeAnswers`, `NodeRecovery`, `NodeIsolation`): a mount table that the four node calls change,
  each mounter call free to fail, to fail after taking effect, or to leave a mount behind.
- **The hand-off** (`HandOff`): the device path from the controller's attachment to the
  node's mount.

`dafny verify dfyconfig.toml` checks everything.

## The environment

The provider, the mounter, the clock and the request ids are parameters. Every provider
call takes a fault: it goes well, it fails, or it takes effect and still reports an error.
A lookup is accurate or reports an error of some kind whatever is there. The provider
either rejects duplicate names or does not. Ids, resource names and device paths are
whatever the provider issues; an id that is empty or taken is refused. A node call carries
a list of faults, one for each mounter call in turn, and none when the list is over.

Assumed of libraries: an exact mount probe on paths that exist, `CleanupMountPoint` as the
vendored source has it, `GetDeviceNameFromMount` reporting the device of the first mount at
a path, and a provider that keeps one attachment per volume and instance, shows its device
path once it is attached, refuses to attach a volume that is being detached, and refuses to
shrink a volume.

Strings stand for their bytes; white space is that of single bytes. Sizes are 64-bit: sums and products wrap and division
truncates.

## Where the code and its promises part

The code is modelled as it is. Each of these has a lemma with a concrete input and a lemma
with the exact condition.

- `RoundUpBytes` wraps above 2^63 - 2^30: a huge request shrinks to the minimum size
  (`Capacity.OverflowingRequestShrinks`, `Capacity.AdequateExactlyWhenWellPosed`).
- An sdp range that sets no required size normalises to zero bytes
  (`Capacity.SdpRangeWithoutRequiredIsEmpty`, `Capacity.AdequateExactlyWhenWellPosed`). The
  comment at `pkg/ibmcsidriver/controller_helper.go:72` says that rounding gives at least
  one GiB.
- A limit that is not a multiple of a GiB can be exceeded
  (`Capacity.UnalignedLimitIsExceeded`, `Capacity.CapacityAgainstLimit`).
- A lookup error does not stop CreateVolume, and the vendored library reports any failed
  volume fetch as "not found": a retry can make a second volume
  (`VolumeLifecycle.MisreportedLookupDuplicates`, `ControllerRuns.DuplicateExactlyWhen`), and
  DeleteVolume can succeed over a volume that stays
  (`VolumeLifecycle.MisreportedLookupKeepsVolume`, `VolumeLifecycle.DeleteConverges`).
  DeleteSnapshot likewise (`SnapshotLifecycle.MisreportedDeleteKeepsSnapshot`,
  `SnapshotLifecycle.SnapshotDeleteConverges`).
- ListSnapshots answers a bare snapshot id, or a resource name of another account, without
  looking it up (`Paging.AbsentSnapshotIsListed`,
  `Paging.BareIdIsEchoedExactlyWhen`,
  `Paging.ResourceNameIsEchoedExactlyWhen`).
- ControllerExpandVolume answers the requested size, not the rounded one that was granted
  (`VolumeLifecycle.UnalignedExpansionIsUnderstated`, `VolumeLifecycle.AnswerIsSizeExactlyWhen`).
- The shipped manifest disables the lock, and the handlers are then not serialisable
  (`AttachUnlocked.UnlockedIsNotSerialisable`). They are, whatever the provider does, exactly when
  no unpublish, and no publish of a supported capability, name the same volume and instance
  (`AttachUnlocked.SerialisableExactlyWhen`).
- NodePublishVolume succeeds over whatever is mounted at the target already, as its own
  comment admits: a writable mount for a read-only request, or a bare directory
  (`NodeRecovery.ReadOnlyRetryFindsWritableMount`, `NodeRecovery.EarlyPublishHidesTheDevice`,
  `NodeRecovery.PublishedAsAskedExactlyWhen`).
- A device link that does not resolve makes a repeated NodeStageVolume stack mounts, against
  the section "NodeStageVolume" of the CSI specification
  (`NodeRecovery.UnresolvedLinkStacksMounts`, `NodeOutcomes.StagingMountsExactlyWhen`).
- A capability without an access type is not refused: NodeStageVolume crashes, and
  NodePublishVolume returns neither a response nor an error
  (`NodeOutcomes.UnsetAccessTypeIsNotRefused`, `NodeOutcomes.CrashExactlyWhen`,
  `NodeOutcomes.NoReplyExactlyWhen`).

## Model

| member | source | states |
|---|---|---|
| AttachSerial.Serialisable | pkg/ibmcsidriver/controller.go:225-285 | With the lock enabled, after any schedule of any number of publish and unpublish handlers, every instance whose lock is free holds exactly what running its handlers one at a time in lock-acquisition order leaves there, and every answer is a validation refusal or the one that serial run gives |
| AttachSerial.StepInv | pkg/ibmcsidriver/controller.go:225-331 | One step of any handler keeps the invariant behind that: a held instance, with its holder left alone, would end as the serial run does |
| AttachSerial.MutualExclusion | pkg/ibmcsidriver/controller.go:226-228 | In every reachable state at most one handler of an instance is between lock and unlock |
| AttachSerial.BlockedBySameNodeOnly | pkg/ibmcsidriver/controller.go:305-307 | A handler that cannot move waits for a busy handler of its own instance, which can itself move; other instances never block it |
| AttachSerial.AllReleased | pkg/ibmcsidriver/controller.go:212-229 | When all handlers have answered no lock is held, and each order lists exactly the handlers that passed validation, once each |
| AttachSerial.SomeoneCanMove | pkg/ibmcsidriver/controller.go:225-307 | No deadlock: while some handler has not answered, some handler can move |
| AttachSerial.Completes | pkg/ibmcsidriver/controller.go:225-331 | From any reachable state the handlers can all be brought to an answer, within a bounded number of steps |
| AttachSerial.OrderRespectsRealTime | pkg/ibmcsidriver/controller.go:226-228 | A handler that had answered before another of its instance asked for the lock comes first in the order: the serialisation is a linearisation |
| AttachProtocol.FinishIsWhole | pkg/ibmcsidriver/controller.go:230-285 | The step-by-step handler, left alone, is the whole handler: the two descriptions agree on state and answer |
| AttachProtocol.StepsCommute | pkg/ibmcsidriver/controller.go:305-331 | Steps of handlers of different instances never disable each other and commute |
| AttachProtocol.StepsDescend | pkg/ibmcsidriver/controller.go:225-331 | Every step brings the system strictly closer to its end, lock or no lock |
| AttachUnlocked.UnlockedIsNotSerialisable | deploy/kubernetes/driver/kubernetes/manifests/controller-server.yaml:133 | As shipped, with the lock disabled: a concrete pair, a schedule with both handlers busy at once, and a publish that fails although every serial run lets it succeed |
| AttachUnlocked.SerialisableExactlyWhen | pkg/ibmcsidriver/controller.go:225-331 | With the lock disabled and nothing being detached already, requests are serialisable under every schedule and whatever the provider does if and only if no unpublish, and no publish of a supported capability, name the same volume and instance |
| AttachUnlocked.WellMetSerialisableExactlyWhen | pkg/ibmcsidriver/controller.go:225-331 | The same condition is exact already for handlers whose provider calls all go well |
| AttachUnlocked.RivalsCollide | pkg/ibmcsidriver/controller.go:225-331 | For any such pair, whatever other requests there are, a schedule has both busy at once and fails the publish |
| AttachConflicts.NoRivalsNoLockNeeded | pkg/ibmcsidriver/controller.go:225-331 | Without such a pair every schedule is serialisable in the order of the decisive calls, lock or no lock, whatever faults the handlers meet: same answers, and the same instance once nobody is busy |
| AttachConflicts.DecisionsRespectRealTime | pkg/ibmcsidriver/controller.go:225-331 | That order, too, respects real time: a handler that had answered before another of its instance was past the lock comes first |
| AttachConflicts.LawStep | pkg/ibmcsidriver/controller.go:250-331 | Any step of any handler keeps the law behind that: the serial run is ahead of the instance by exactly the waits still owed |
| AttachConflicts.ActOnVolume | pkg/ibmcsidriver/controller.go:250-268 | The attach or detach call, made on the lagging instance, matches the whole handler run on the serial one |
| AttachUnlocked.OneAtATimeNeedsNoLock | vendor/github.com/IBM/ibm-csi-common/pkg/utils/lock_store.go:56-68 | A schedule in which handlers never overlap on an instance has the same effect without the lock as with it, rivals or not |
| Attachments.PublishedMeansAttached | pkg/ibmcsidriver/controller.go:250-284 | A successful publish leaves exactly that volume attached, under the attachment the attach call produced, and its context carries the device path that the wait reported for it |
| Attachments.UnpublishedMeansDetached | pkg/ibmcsidriver/controller.go:318-331 | A successful unpublish removes that attachment and no other |
| Attachments.PublishIsIdempotent | pkg/ibmcsidriver/controller.go:250-284 | Publishing again changes nothing, whatever fails; it succeeds if and only if nothing hinders it, and then hands out the same device path |
| Attachments.HandlersTouchOneVolume | pkg/ibmcsidriver/controller.go:225-331 | Whatever fails on the way, a handler changes no attachment but its own volume's |
| Attachments.NotFoundExactlyWhen | pkg/ibmcsidriver/controller.go:230-260 | A publish answers "not found" if and only if the volume lookup, or the attach call about the node, says so |
| Attachments.RefusedEarlyChangesNothing | pkg/ibmcsidriver/controller.go:235-249 | A handler refused for its capability, its session or its lookup changes nothing |
| Attachments.MergeContext | pkg/ibmcsidriver/controller_helper.go:480-494 | Merging the extra entries in any order gives the same context, and keeps the device path unless an extra entry names it |
| Attachments.ObjectionAnswers | pkg/ibmcsidriver/controller.go:211-223 | Which requests are refused before the lock, and with what |
| Attachments.PublishAnswers | pkg/ibmcsidriver/controller.go:230-285 | What a publish answers, by its mode, session, lookup, the state of the attachment and its two calls |
| Attachments.UnpublishAnswers | pkg/ibmcsidriver/controller.go:309-331 | What an unpublish answers |
| Attachments.PublishedContext | pkg/ibmcsidriver/controller_helper.go:480-494 | Each of the five entries of the context of a successful publish |
| Controller.CSIControllerServer.ControllerPublishVolume | pkg/ibmcsidriver/controller.go:204-285 | Refused before the lock, or run whole under it; on every way out the locks are as before and only the named instance can have changed |
| Controller.CSIControllerServer.ControllerUnpublishVolume | pkg/ibmcsidriver/controller.go:288-332 | The same for unpublish |
| Controller.CSIControllerServer.CreateVolume | pkg/ibmcsidriver/controller.go:67-162 | The handler's answer and new account are those of the create specification, errors in the source's order |
| Controller.CSIControllerServer.DeleteVolume | pkg/ibmcsidriver/controller.go:165-201 | The handler's answer and new account are those of the delete specification |
| Controller.CSIControllerServer.ControllerExpandVolume | pkg/ibmcsidriver/controller.go:650-686 | The handler's answer and new account are those of the expand specification |
| Controller.CSIControllerServer.CreateSnapshot | pkg/ibmcsidriver/controller.go:446-504 | The handler's answer and new account are those of the snapshot specification |
| Controller.CSIControllerServer.DeleteSnapshot | pkg/ibmcsidriver/controller.go:507-544 | The handler's answer and new account are those of the snapshot delete specification |
| Inventory.ById | vendor/github.com/IBM/ibmcloud-volume-vpc/block/provider/get_volume.go:28-53 | A lookup by id finds an entry with that id, or there is none |
| Inventory.ByName | vendor/github.com/IBM/ibmcloud-volume-vpc/block/provider/get_volume.go:59-87 | A lookup by name finds an entry with that name, or there is none |
| ControllerRuns.RunKeepsNames | pkg/ibmcsidriver/controller.go:142-161 | Over any run of requests ids stay unique, and so do volume and snapshot names if lookups by name are truthful or the provider rejects duplicates |
| ControllerRuns.ApplyTouchesOneId | pkg/ibmcsidriver/controller.go:142-200 | No request changes anything but the entry under its own id |
| ControllerRuns.DuplicateExactlyWhen | pkg/ibmcsidriver/controller_helper.go:357-390 | One create request makes a second volume of a name if and only if its lookup errs over a name that is there and the provider makes the volume all the same |
| ControllerRuns.CreateEffect | pkg/ibmcsidriver/controller.go:75-161 | A create request adds exactly the resolved volume when it is not refused, not found, granted and issuable, and otherwise changes no volume |
| ControllerRuns.VolumeLasts | pkg/ibmcsidriver/controller.go:67-201 | Over any run that does not delete or expand it, a volume stays exactly as it is |
| ControllerRuns.SnapshotLasts | pkg/ibmcsidriver/controller.go:446-544 | Over any run that does not delete it, a snapshot stays exactly as it is |
| VolumeLifecycle.CreatedMeansThere | pkg/ibmcsidriver/controller.go:142-161 | A successful create answers for a volume that is there under the requested name, of exactly the normalised size |
| VolumeLifecycle.CreatedSizeIsLeastAdequate | pkg/ibmcsidriver/controller.go:146-161 | The size answered is the least GiB multiple that is at least the requested size and the profile minimum, for well posed requests |
| VolumeLifecycle.CreateIsIdempotent | pkg/ibmcsidriver/controller.go:142-149 | Whatever comes in between, short of deleting or expanding it, a repeat with the same name and normalised size returns the same id and bytes and makes nothing; another size is refused and changes nothing |
| VolumeLifecycle.CreateOverExisting | pkg/ibmcsidriver/controller.go:142-149 | A create over a taken name changes nothing and succeeds if and only if the size there is the normalised one; the answer then describes that volume, its own tags included |
| VolumeLifecycle.NewVolumeIsAsAsked | pkg/ibmcsidriver/controller_helper.go:393-440 | A volume just made has the normalised size, the resolved zone, the IOPS and the snapshot asked for, and the answer describes it: ids, zone, IOPS, source, and the requested region or else the driver's |
| VolumeLifecycle.RetryDuplicates | pkg/ibmcsidriver/controller.go:142-161 | From any account in which the name is free, a retry whose lookup fails, however classified, makes a second volume of the same name when the provider allows it |
| VolumeLifecycle.MisreportedLookupDuplicates | pkg/ibmcsidriver/controller.go:142-161 | A concrete request for which that happens |
| VolumeLifecycle.NewVolumeIsLabelled | vendor/github.com/IBM/ibmcloud-volume-vpc/block/provider/create_volume.go:167-172 | The answer about a new volume is labelled with the trimmed class tags, secret tags and extra labels, those present, with commas between, whether or not the provider keeps tags |
| VolumeLifecycle.DeleteConverges | pkg/ibmcsidriver/controller.go:187-200 | A successful delete changes nothing but that id, which is still there if and only if the lookup said "not found" about a volume that is there |
| VolumeLifecycle.MisreportedLookupKeepsVolume | pkg/ibmcsidriver/controller.go:190-194 | A concrete delete that succeeds over a volume that stays |
| VolumeLifecycle.RepeatedDeletesDoNothing | pkg/ibmcsidriver/controller.go:190-194 | Any number of repeats succeed, change nothing and reach no provider delete |
| VolumeLifecycle.DeletedStaysDeleted | pkg/ibmcsidriver/controller.go:187-200 | After a truthful delete the id stays gone through any run that does not issue it again |
| VolumeLifecycle.ExpandGrantsEnough | pkg/ibmcsidriver/controller.go:667-685 | A successful expansion never shrinks, overshoots by less than a GiB when it sets the size, and touches nothing else; it leaves at least the requested size, unless the size was unknown and the request overflows, and then never |
| VolumeLifecycle.AnswerIsSizeExactlyWhen | pkg/ibmcsidriver/controller.go:677-685 | The answer equals the size there if and only if the request was GiB-aligned and set the size without overflow, or both are zero |
| VolumeLifecycle.UnalignedExpansionIsUnderstated | pkg/ibmcsidriver/controller.go:685 | A concrete expansion by an unaligned size, answered unrounded |
| SnapshotLifecycle.SnapshotCreateIsIdempotent | pkg/ibmcsidriver/controller.go:482-503 | Whatever comes in between, short of deleting it, a repeat for the same name and volume answers with the same snapshot and makes nothing; another source volume is refused and changes nothing |
| SnapshotLifecycle.SnapshotDuplicateExactlyWhen | pkg/ibmcsidriver/controller.go:482-503 | One request makes a second snapshot of a name if and only if its lookup errs over a name that is there and the provider makes it all the same |
| SnapshotLifecycle.SnapshotDeleteConverges | pkg/ibmcsidriver/controller.go:532-543 | A successful delete changes nothing but the snapshot its handle names, which is still there if and only if the provider wrongly said it was not |
| SnapshotLifecycle.MisreportedDeleteKeepsSnapshot | pkg/ibmcsidriver/controller.go:535-540 | A concrete delete that succeeds over a snapshot that stays |
| SnapshotLifecycle.RepeatedSnapshotDelete | pkg/ibmcsidriver/controller.go:535-540 | Deleting an absent snapshot succeeds and leaves volumes and snapshots alone |
| SnapshotLifecycle.RunKeepsHandles | pkg/ibmcsidriver/controller.go:446-544 | Over any run every snapshot's handle goes on naming it, if the provider issues well-formed resource names |
| SnapshotLifecycle.HandleDeletesWhatItNamed | pkg/ibmcsidriver/controller.go:532-535 | The handle a create returned, used after any run that does not delete that snapshot, deletes exactly that snapshot |
| ControllerAnswers.CreateServedExactlyWhen | pkg/ibmcsidriver/controller.go:75-139 | A create goes on to the provider if and only if it has a name, capabilities all of the one mode, accepted parameters, a session, and no content source or a snapshot |
| ControllerAnswers.CreateRefusals | pkg/ibmcsidriver/controller.go:75-128 | Otherwise the first thing that is wrong decides the error, and nothing changes |
| ControllerAnswers.NewVolumeAnswers | pkg/ibmcsidriver/controller.go:142-161 | For a name not found, a create succeeds if and only if the call goes well and the volume can be made; otherwise which error, and always what is added to the account |
| ControllerAnswers.SpacedOutExactly | pkg/ibmcsidriver/controller.go:131-137 | A source is taken for a resource name if and only if its text is "crn:" and more, with any blanks before each of these letters |
| ControllerAnswers.SourceIsRecorded | pkg/ibmcsidriver/controller.go:125-138 | A request with a snapshot source is accepted, and the new volume and its answer record that source |
| ControllerAnswers.DeleteAnswers | pkg/ibmcsidriver/controller.go:173-200 | Over all faults: told that the volume is gone a delete succeeds without asking; else it asks, and succeeds if and only if the volume is there and the call goes well; and every error |
| ControllerAnswers.DeleteRemoves | pkg/ibmcsidriver/controller.go:187-200 | A volume that is there is gone afterwards if and only if the delete reached the provider and took effect, whatever it answered; nothing else changes |
| ControllerAnswers.ExpandRefusals | pkg/ibmcsidriver/controller.go:657-675 | What an expansion is refused with for its id, its session, and each way its lookup can go |
| ControllerAnswers.ExpandAnswers | pkg/ibmcsidriver/controller.go:677-685 | A volume that is there is expanded, and the size asked for answered, if and only if the call goes well and the size, rounded up, is not below the one there or the one there counts as enough |
| ControllerAnswers.SnapshotRefusals | pkg/ibmcsidriver/controller.go:461-480 | What creating a snapshot is refused with before the provider is asked, and that nothing else is refused |
| ControllerAnswers.NewSnapshotAnswers | pkg/ibmcsidriver/controller.go:496-503 | For a name not found: exactly when it succeeds, the four fields of the answer, and what the account then holds |
| ControllerAnswers.ExistingSnapshotAnswers | pkg/ibmcsidriver/controller.go:482-489 | A snapshot that is found is answered for, field by field, if and only if it is of the volume named |
| ControllerAnswers.SnapshotDeleteAnswers | pkg/ibmcsidriver/controller.go:515-543 | Over all faults, what deleting a snapshot answers, and that it reaches the provider once |
| ControllerAnswers.SnapshotDeleteRemoves | pkg/ibmcsidriver/controller.go:532-543 | The snapshot that the handle names is gone afterwards if and only if the call took effect; nothing else changes |
| SnapshotHandle.HandleRoundTrip | pkg/ibmcsidriver/controller_helper.go:454-464 | Parsing a resource name of at least ten colon-free segments gives back its last segment and its account |
| SnapshotHandle.BareExactlyWhenFewColons | pkg/ibmcsidriver/controller_helper.go:458-463 | Text is taken whole as the id if and only if it has fewer than nine colons, and the account is then empty |
| SnapshotHandle.AccountRoundTrip | pkg/ibmcsidriver/controller_helper.go:443-451 | The account comes back from "a/" followed by a slash-free account |
| SnapshotHandle.AccountIsSecondPart | pkg/ibmcsidriver/controller_helper.go:443-451 | Of any segment the account is what stands between its first two slashes, or after the only one; none without a slash |
| SnapshotHandle.ParsingIsIdempotent | pkg/ibmcsidriver/controller_helper.go:454-464 | Parsing the id that parsing gave gives it again |
| Paging.ListVolumes | pkg/ibmcsidriver/controller.go:379-420 | One page: the volumes with a capacity, in the page's order, and the page's next token; each provider error under its own kind |
| Paging.ListVolumesIsComplete | pkg/ibmcsidriver/controller.go:391-419 | Following the tokens over any number of pages gathers every volume with a capacity, in listing order, once each, and nothing else |
| Paging.FollowingListsTheRest | pkg/ibmcsidriver/controller.go:391-419 | The same from the middle: from any token on, exactly the filtered rest of the listing |
| Paging.SizedIsOrderedFilter | pkg/ibmcsidriver/controller.go:403-414 | The loop's result picks exactly the volumes with a capacity, in increasing position |
| Paging.ListSnapshots | pkg/ibmcsidriver/controller.go:547-627 | By handle, one snapshot, none, or an echo; without one, a page of the snapshots of the source volume, or of all |
| Paging.ListSnapshotsIsComplete | pkg/ibmcsidriver/controller.go:599-626 | Following the tokens with a source volume, or none, gathers the whole rest of that listing, in order |
| Paging.ListSnapshotsOfVolume | pkg/ibmcsidriver/controller.go:600-604 | With a provider that keeps to the filter, exactly the snapshots of the source volume named are answered, or all if none is |
| Paging.OwnNameListsIt | pkg/ibmcsidriver/controller.go:565-583 | Whatever source volume or page is asked for, any text that names a snapshot of the own account, with a truthful lookup, lists one entry with that snapshot's resource name, volume, size and readiness, and no next token |
| Paging.HandleListsIt | pkg/ibmcsidriver/controller.go:565-583 | In particular the snapshot's own handle does |
| Paging.AbsentIsNotListed | pkg/ibmcsidriver/controller.go:568-575 | A handle of the own account lists nothing when the snapshot is not there or its lookup fails |
| Paging.AnsweredBlindlyExactlyWhen | pkg/ibmcsidriver/controller.go:565-595 | The whole answer to a handle, whatever else is asked for, is independent of the account if and only if it names another account than the driver's; it is then echoed as ready |
| Paging.BareIdIsEchoedExactlyWhen | pkg/ibmcsidriver/controller.go:584-595 | A bare id is answered blindly if and only if the driver knows its account |
| Paging.ResourceNameIsEchoedExactlyWhen | pkg/ibmcsidriver/controller.go:565-595 | A resource name is answered blindly if and only if its account is not the driver's |
| Paging.AbsentSnapshotIsListed | pkg/ibmcsidriver/controller.go:584-595 | A concrete snapshot that does not exist is listed as ready |
| Paging.ListVolumesErrors | pkg/ibmcsidriver/controller.go:388-400 | A volume listing fails if and only if there is no session or no page, and which error answers which |
| Paging.ListSnapshotsErrors | pkg/ibmcsidriver/controller.go:553-613 | Which error answers which session and which failed page; the page asked for is that of the source volume; a handle never fails once there is a session |
| VolumeParameters.GetVolumeParameters | pkg/ibmcsidriver/controller_helper.go:102-268 | A request is accepted if and only if the order-free rules accept it, and the volume is then exactly the declared one; a blamed key is really at fault |
| VolumeParameters.Volume.ReadParameters | pkg/ibmcsidriver/controller_helper.go:107-187 | The loop over the class parameters, in any order, ends in the declared draft |
| VolumeParameters.Volume.OverrideParams | pkg/ibmcsidriver/controller_helper.go:270-354 | The loop over the secrets, in any order, ends in the declared override |
| VolumeParameters.ParameterOrderIsIrrelevant | pkg/ibmcsidriver/controller_helper.go:107-187 | Every order of the class parameters folds to the same draft |
| VolumeParameters.SecretOrderIsIrrelevant | pkg/ibmcsidriver/controller_helper.go:277-345 | Every order of the secrets folds to the same draft |
| VolumeParameters.PickPreferredSegments | pkg/ibmcsidriver/controller_helper.go:505-513 | The first preferred topology with segments is picked |
| VolumeParameters.PickFsType | pkg/ibmcsidriver/controller_helper.go:229-244 | Only the first mount capability decides the file system type |
| VolumeParameters.ResolvedFieldsAreSet | pkg/ibmcsidriver/controller_helper.go:193-212 | Profile, capacity and resource group are set, and IOPS only where the profile takes them |
| VolumeParameters.ResolvedFieldsAreInRange | pkg/ibmcsidriver/controller_helper.go:115-156 | Region, key and file system type respect their limits |
| VolumeParameters.EncryptionPrecedence | pkg/ibmcsidriver/controller_helper.go:142-155 | For every order of parameters and of secrets the process ends with the key of: secret "false", secret key, class "false", class key, in that precedence |
| VolumeParameters.PlacementPrecedence | pkg/ibmcsidriver/controller_helper.go:277-349 | For every order, zone, region and resource group fall from the secret, even an empty one, to the class, and an empty group to the configured one |
| VolumeParameters.ProcessedIsSettled | pkg/ibmcsidriver/controller_helper.go:107-354 | For every order the process ends in the declared volume |
| VolumeParameters.SecretTrueDoesNotRestoreClassKey | pkg/ibmcsidriver/controller_helper.go:286-301 | For every order, a key the class switched off comes back if and only if the secrets hold one |
| VolumeParameters.TagRoundTrip | pkg/ibmcsidriver/controller_helper.go:302-308 | Joining the resolved tags gives the trimmed class tags, a comma, and the trimmed secret tags |
| VolumeParameters.PerformancePrecedence | pkg/ibmcsidriver/controller_helper.go:165-179 | For every order, IOPS and throughput come from a secret that is not empty, else from the class; the profile, name and size are the class's and the request's |
| VolumeParameters.AcceptedExactlyWhen | pkg/ibmcsidriver/controller_helper.go:188-263 | Accepted if and only if parameters and secrets are valid, there is a profile, the limit fits, there are capabilities, the first file system asked for is known, and there is a zone or a topology |
| VolumeParameters.ParametersValidExactlyWhen | pkg/ibmcsidriver/controller_helper.go:107-187 | The parameters are valid if and only if each value keeps its limit, the profile is one of five, and no name is unknown |
| VolumeParameters.SecretsValidExactlyWhen | pkg/ibmcsidriver/controller_helper.go:277-345 | The secrets are valid if and only if each value keeps its limit and no name is one that only a class may use |
| VolumeParameters.ZoneIs | pkg/ibmcsidriver/controller_helper.go:255-265 | The zone is the one asked for unless blank, else that of the first preferred topology with segments |
| VolumeParameters.FileSystemIs | pkg/ibmcsidriver/controller_helper.go:229-244 | The file system is that of the first capability that asks for one, ext4 if left open, none if none asks |
| VolumeParameters.IopsOnlyWhereTaken | pkg/ibmcsidriver/controller_helper.go:250-253 | IOPS are kept for custom and sdp profiles only |
| Text.ParseUndoesDecimal | pkg/ibmcsidriver/controller_helper.go:171-179 | The decimal text of a number parses to it if it fits 32 bits, and is refused if not |
| Text.ParseNeedsDigits | pkg/ibmcsidriver/controller_helper.go:173-175 | Text that parses is digits after at most one sign |
| Text.TrimSpaceSplits | pkg/ibmcsidriver/controller_helper.go:129 | Trimming takes white space off both ends and nothing else |
| Text.JoinUndoesSplit | pkg/ibmcsidriver/controller_helper.go:127-131 | Joining undoes splitting |
| Text.JoinAppend | pkg/ibmcsidriver/controller_helper.go:305-307 | Joining distributes over appending non-empty lists |
| Common.AreVolumeCapabilitiesSupported | pkg/ibmcsidriver/controller_helper.go:81-98 | True if and only if every capability names a registered mode |
| Capacity.CapacityAcceptance | pkg/ibmcsidriver/controller_helper.go:55-60 | Refused if and only if the limit is set and below the requested size or the minimum volume size, and with which of the two errors |
| Capacity.CapacityIsLeastAdequate | pkg/ibmcsidriver/controller_helper.go:62-78 | The result is the least GiB multiple that is at least the requested size and the profile minimum |
| Capacity.AdequateExactlyWhenWellPosed | pkg/ibmcsidriver/controller_helper.go:36-78 | An accepted request comes out adequate if and only if it does not overflow and an sdp range asks for something |
| Capacity.RoundUpIsCeiling | vendor/github.com/IBM/ibm-csi-common/pkg/utils/utils.go:60-72 | On the exact range rounding up is the ceiling on GiB |
| Capacity.RoundUpOverflows | vendor/github.com/IBM/ibm-csi-common/pkg/utils/utils.go:60-72 | Past it the sum wraps and the result is negative |
| Capacity.OverflowingRequestShrinks | pkg/ibmcsidriver/controller_helper.go:62-75 | The largest request of all normalises to ten GiB |
| Capacity.SdpRangeWithoutRequiredIsEmpty | pkg/ibmcsidriver/controller_helper.go:62-75 | An sdp range without a required size normalises to zero bytes |
| Capacity.CapacityAgainstLimit | pkg/ibmcsidriver/controller_helper.go:55-75 | The result stays below the limit plus one GiB, and exceeds the limit if and only if the requested size lies above its aligned part |
| Capacity.UnalignedLimitIsExceeded | pkg/ibmcsidriver/controller_helper.go:55-75 | A concrete request whose result exceeds its limit |
| Capacity.CapacityMonotone | pkg/ibmcsidriver/controller_helper.go:36-78 | A larger requested size never gets a smaller volume |
| Capacity.CapacityFixpoint | pkg/ibmcsidriver/controller_helper.go:201-212 | Asking again for what was granted grants it again, and it survives bytes to GiB to bytes |
| NodeServer.CSINodeServer.NodePublishVolume | pkg/ibmcsidriver/node.go:106-179 | The call, run step by step with every mounter call free to fail, ends in the specified state and outcome |
| NodeServer.CSINodeServer.NodeUnpublishVolume | pkg/ibmcsidriver/node.go:182-207 | The same for unpublish |
| NodeServer.CSINodeServer.NodeStageVolume | pkg/ibmcsidriver/node.go:210-309 | The same for stage |
| NodeServer.CSINodeServer.NodeUnstageVolume | pkg/ibmcsidriver/node.go:312-338 | The same for unstage |
| NodeServer.CSINodeServer.ProcessMount | pkg/ibmcsidriver/node_helper.go:57-94 | The same for the bind mount with rollback |
| NodeServer.CSINodeServer.ProcessMountForBlock | pkg/ibmcsidriver/node_helper.go:101-147 | The same for raw block |
| NodeServer.CSINodeServer.FindDevicePath | pkg/ibmcsidriver/node_helper.go:33-55 | The same for the device path check |
| NodeServer.CollectMountOptions | pkg/ibmcsidriver/node.go:578-586 | The given flags come first, and nouuid is added for xfs and for nothing else |
| NodeServer.RefusedExactlyWhen | pkg/ibmcsidriver/node.go:113-137 | Each of the four calls is refused if and only if a field is missing or the mode is not the one registered |
| NodeAnswers.RefusalAnswers | pkg/ibmcsidriver/node.go:113-137 | And which field is answered with which error |
| NodeAnswers.PublishProbe | pkg/ibmcsidriver/node.go:141-157 | A publish whose probe fails reports it; one that finds the target mounted succeeds and changes nothing |
| NodeAnswers.BindAnswers | pkg/ibmcsidriver/node_helper.go:57-94 | What a bind mount answers for every fault, and when it leaves a mount behind |
| NodeAnswers.BlockBindAnswers | pkg/ibmcsidriver/node_helper.go:129-147 | What binding a raw device answers for every fault |
| NodeAnswers.BlockAnswers | pkg/ibmcsidriver/node_helper.go:101-128 | What precedes it: the device and its second look, the directory, and the error of each |
| NodeAnswers.StageAnswers | pkg/ibmcsidriver/node.go:247-308 | What a file system stage answers, by the first call to go wrong |
| NodeAnswers.ReadOnlyExactlyWhenAsked | pkg/ibmcsidriver/node.go:159-163 | A mount that a publish adds is read-only if and only if that was asked for |
| NodeAnswers.DirOfSegment | pkg/ibmcsidriver/node_helper.go:116-118 | The directory made for a raw device target is what precedes its last segment |
| NodeEffects.RollbackGuarantee | pkg/ibmcsidriver/node_helper.go:63-93 | Success leaves the one mount asked for; a clean failure leaves the target unmounted; only the two errors of the cleanup can leave a mount behind |
| NodeEffects.BlockGuarantee | pkg/ibmcsidriver/node_helper.go:101-147 | For raw block only a failed removal of the target can mean that a mount was left |
| NodeEffects.PublishEffect | pkg/ibmcsidriver/node.go:141-178 | A publish changes mounts at its target only, and only from none to one |
| NodeEffects.StageEffect | pkg/ibmcsidriver/node.go:247-308 | A stage changes mounts at its staging path only, by at most one, and not if the device is recognised there; one that a success adds is that device with the file system asked for, or ext4, and the flags asked for, nouuid exactly for xfs, and defaults |
| NodeEffects.StagingBlockChangesNothing | pkg/ibmcsidriver/node.go:239-245 | Staging a raw block volume changes nothing at all |
| Mounter.CleanupSummary | vendor/k8s.io/mount-utils/mount_helper_common.go:31-157 | Cleanup touches one path, takes at most its topmost mount, and succeeds only when the path is unmounted and gone |
| Mounter.CleanupFaultFree | vendor/k8s.io/mount-utils/mount_helper_common.go:31-157 | Without faults it succeeds if and only if there was at most one mount |
| NodeHistories.TargetDepth | pkg/ibmcsidriver/node.go:141-175 | Over any history with any faults a path that is never a staging path carries at most one mount |
| NodeHistories.StagingDepth | pkg/ibmcsidriver/node.go:273-308 | While links resolve, a staging path used for one device holds that device at most once |
| NodeHistories.TargetBacking | pkg/ibmcsidriver/node.go:141-175 | If the caller publishes a file system only while it is staged, the target exposes that device at most once and nothing else |
| NodeHistories.LifecycleIsInOrder | pkg/ibmcsidriver/node.go:141-175 | A caller that publishes only after a stage that succeeded, with no unstage since, publishes only while it is staged |
| NodeHistories.KnownStagedIsMounted | pkg/ibmcsidriver/node.go:247-308 | What the caller has been told is staged is mounted, whatever else has failed |
| NodeHistories.BlockBacking | pkg/ibmcsidriver/node.go:169-171 | If the target is kept for one raw block device, it exposes that device at most once and nothing else, whether or not links resolve |
| NodeHistories.StagingStaysEmpty | pkg/ibmcsidriver/node.go:239-245 | A staging path used for raw block volumes only never carries a mount |
| NodeRecovery.RecoveryUp | pkg/ibmcsidriver/node.go:198-308 | After any such history, one stage and one publish without faults leave the device mounted once at the staging path and once, through it, at the target, and change no other mounts; the options of a mount left over from before are not put right |
| NodeRecovery.RecoveryUpInLifecycle | pkg/ibmcsidriver/node.go:198-308 | The same for a caller that goes by the answers it has had |
| NodeRecovery.RecoveryUpBlock | pkg/ibmcsidriver/node.go:141-175 | The same for a raw block volume, whether or not links resolve |
| NodeRecovery.RecoveryDown | pkg/ibmcsidriver/node.go:329-337 | After any faulty history that stages only this device at the path, one unpublish and one unstage without faults remove both mounts and change no others |
| NodeRecovery.RecoveryDownBlock | pkg/ibmcsidriver/node.go:329-337 | The same for raw block volumes, whether or not links resolve |
| NodeRecovery.PublishedAsAskedExactlyWhen | pkg/ibmcsidriver/node.go:141-157 | A successful publish, of a file system or raw, has produced the mount asked for if and only if the target was free or already carried it |
| NodeOutcomes.StagingMountsExactlyWhen | pkg/ibmcsidriver/node.go:273-286 | A successful stage adds no mount if and only if the device is mounted there and its link resolved: every link does, or the resolving call met no fault |
| NodeOutcomes.StagedOutline | pkg/ibmcsidriver/node.go:247-308 | A stage fails up to the mount check leaving all mounts alone, or takes the path for staged, or goes on to mount, according to the faults at known positions |
| NodeOutcomes.CrashExactlyWhen | pkg/ibmcsidriver/node.go:288-294 | A call crashes if and only if it is a stage without an access type that is not refused, names a device, passes the mount check and is not taken for staged |
| NodeOutcomes.NoReplyExactlyWhen | pkg/ibmcsidriver/node.go:169-178 | A call gives neither a reply nor an error if and only if it is a publish without an access type that is not refused, and the probe finds the target free |
| NodeOutcomes.UnsetAccessTypeIsNotRefused | pkg/ibmcsidriver/node.go:169-178 | A concrete stage that crashes and a concrete publish that is silent |
| NodeRecovery.ReadOnlyRetryFindsWritableMount | pkg/ibmcsidriver/node.go:149-157 | A retried read-only publish can succeed over a writable mount |
| NodeRecovery.EarlyPublishHidesTheDevice | pkg/ibmcsidriver/node.go:149-157 | A publish before the stage hides the device from the target for good |
| NodeRecovery.UnresolvedLinkStacksMounts | pkg/ibmcsidriver/node.go:282-301 | With an unresolved link a second stage stacks a second mount, and the unstage fails |
| NodeIsolation.Isolation | pkg/ibmcsidriver/node.go:106-338 | Seen from one set of paths, any interleaving with calls elsewhere is the same as its own calls alone: same mounts, same paths, same answers |
| NodeIsolation.Conservation | pkg/ibmcsidriver/node.go:106-338 | A history that finds and leaves nothing mounted at those paths has the mount table of the history without it |
| NodeIsolation.LifeCycleLeavesNoTrace | pkg/ibmcsidriver/node.go:198-337 | A successful stage, publish, unpublish, unstage cycle, interleaved with anything on other paths, leaves the mount table as if it had never been |
| HandOff.ContextCarriesDevicePath | pkg/ibmcsidriver/controller_helper.go:480-494 | The node reads from the publish context the device path that the wait reported for the attachment the attach call produced |
| HandOff.StagingMountsAttachedDevice | pkg/ibmcsidriver/node.go:247-298 | Staging with that context, whatever fails on the way and whatever is mounted there, succeeds only over that device: the oldest mount already, or the new topmost one, with the file system and options asked for |
| HandOff.BlockPublishMountsAttachedDevice | pkg/ibmcsidriver/node.go:169-171 | The same for publishing a raw block volume |
| HandOff.AttachedDeviceReachesTarget | pkg/ibmcsidriver/controller.go:262-284 | End to end, after any faulty history that keeps the two paths for the volume, a stage and a publish show the attached device at the target, once |
| HandOff.AttachedDeviceReachesBlockTarget | pkg/ibmcsidriver/controller.go:262-284 | The same for a raw block volume |

## Left out

- Logging, metrics, error texts and request ids beyond one opaque context entry: no effect on state.
- gRPC server, sockets, signals, identity calls, driver wiring and configuration reading: plumbing.
- `udevadm`, `blockdev`, file system statistics, formatting and resizing: only whether they fail.
- Sleeps, environment variables, NodeGetInfo, NodeGetVolumeStats, NodeExpandVolume, ValidateVolumeCapabilities and the unimplemented calls: single-branch.
- Concurrent creates of one name: no lock covers them, so the claims about names are about one request after another.
- A volume attached to one node only: the driver never checks it, so it is not claimed.
- Whether the provider's listing changes between two pages of a listing: the pages are those of one listing.
- AttachSerial.Serialisable: which provider outcomes a handler meets is fixed for that handler and does not depend on when it runs; the device path the provider assigns and the faults are part of the request.
- AttachUnlocked.SerialisableExactlyWhen: about instances where nothing is being detached to begin with; its "if" does without that (AttachConflicts.NoRivalsNoLockNeeded).
- AttachUnlocked.OneAtATimeNeedsNoLock: a sufficient condition on one schedule; the exact condition on the requests is that of AttachUnlocked.SerialisableExactlyWhen.
- Controller.CSIControllerServer.ControllerPublishVolume: whether the volume exists is what the environment's lookup reports, not read from the account; and a call is modelled from the moment its lock was free.
- Controller.CSIControllerServer.CreateVolume: a repeated request is compared by size only, as in the source, so zone, profile and content source of an existing volume are not compared.
- VolumeParameters.GetVolumeParameters: parameter names are an enumeration with one case for all unknown names, an empty list of capabilities stands for a missing one, and which of several wrong keys is blamed depends on the order, as in the source.
- VolumeLifecycle.ExpandGrantsEnough: about volumes whose size, if it is known, is not negative.
- ControllerAnswers.ExpandAnswers: about volumes whose size, if it is known, is not negative.
- VolumeParameters.TagRoundTrip: trims the ASCII white space, byte by byte; white space that takes several bytes is not trimmed.
- Mounter.CleanupSummary: the variant that forces an unmount after a timeout is not used by the driver and not modelled.
- NodeIsolation.Isolation: creating a directory does not create its ancestors, and the parent of a block target is its text before the last slash, without cleaning of dots and repeated slashes.
- NodeRecovery.RecoveryUp: does not fix the options and the file system type of mounts left over from before, and says nothing about the file system's size; a stage repeated after a failed resize returns at the already-staged check.
- SnapshotLifecycle.HandleDeletesWhatItNamed: for providers whose resource names name the snapshot and the account; creation times are not modelled.
