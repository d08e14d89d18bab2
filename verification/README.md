# Verified models of the Docker engine daemon

This project models, in Dafny, the parts of the Docker engine whose correctness depends on more than one function at a
time, and proves what those parts promise about every input, every run or every reachable state.

| files | what they model |
|---|---|
| `Values.dfy` | types that several modules share |
| `Images.dfy`, `Forest.dfy`, `ImageStore.dfy` | the image store: configurations, parent links, children index, layer references, restart |
| `ImageDelete.dfy`, `AncestorFilter.dfy`, `LayerHistory.dfy` | deleting and pruning images, the ancestor filter, histories from commit to listing |
| `LayerDownload.dfy`, `ManifestV1.dfy`, `PullEndpoints.dfy`, `PushOrder.dfy` | resumable blob downloads, schema 1 manifests, endpoint fallback, v1 push order |
| `ProbeHistory.dfy`, `Lifecycle.dfy` | health status, and container state with wait channels and the health monitor protocol |
| `Resources.dfy`, `MountPaths.dfy`, `Mounts.dfy` | resource validation and defaults, mount order and assembly |
| `EscapeCopy.dfy`, `Ports.dfy` | terminal input with the detach keys, the port column of the container list |

Where the source updates something in place there is a class whose methods are proved equal to a function on values
(`Snapshot() == F(old(Snapshot()))`); the lemmas are about those functions and about runs of them. Digests are ideal:
an image ID is the digest of exactly one configuration, and a chain ID is the list of the layer digests beneath it.
What files, the kernel, the network, containerd and other foreign calls answer is an argument of the operation, so a
claim for all arguments covers every answer. `dafny verify dfyconfig.toml` checks the whole project.

Several promises turn out to hold only under a condition. Each of these has the exact condition as an if-and-only-if
and a lemma at a concrete failing input:

- A Create call whose layer lookup or digest-set insertion fails leaves its configuration in the backend, so a restart
  brings back an image that the live store did not have; if the insertion failed it also keeps a layer reference.
- Create writes the backend before it takes the lock. If the same image is deleted in between, the store ends up with
  an image whose configuration is gone.
- A download whose temporary file cannot be sought, or whose file write fails and is retried, goes on with a verifier
  that remembers other bytes than the file holds, and can hand over a file that was never verified.
- An event handler that stops a health monitor with the container locked never finishes when the monitor is just about
  to record a result, because recording needs the same lock.
- A start whose state cannot be written to disk, or a stop request, leaves a running container without its monitor.
- The detach keys are missed when an odd number of false starts lead up to them: ctrl-p ctrl-p ctrl-q does not detach,
  and a second ctrl-p ctrl-q does.
- Mounts sorted by the number of path parts do not hide each other, with three exceptions: two on the same directory
  under different spellings, such as /data and /data/ (tmpfs destinations are not cleaned, and duplicates are looked for
  by string), the root after a top-level directory, and an ancestor of a relative destination. The comment on the sort
  calls the order lexicographic; the code counts path separators.
- A user mount hides the default mounts that are kept on or below its directory: one on /sys hides the control groups.
- A privileged container on a writable root gets a writable /sys even where the user asked for a read-only bind mount.
- The default swap limit is twice the memory limit only while doubling does not overflow 64 bits.

Where the code and its own wording disagree the model follows the code; the warning about CPU percent, for instance, is
appended as two separate strings.

## Model

| member | source | states |
|---|---|---|
| `Forest.RelinkAcyclicIff` | image/store.go:230-242 | giving an image a parent keeps the parent links free of cycles if and only if the image is not that parent or one of its ancestors |
| `Forest.RelinkLeaf` | daemon/commit.go:221-225 | an image without children can be given any parent but itself without making a cycle |
| `Forest.AcyclicSubset` | image/store.go:211-222 | removing parent links never makes a cycle |
| `Forest.DescendantsUnfold` | daemon/list.go:606-613 | the descendants of an image are itself and the descendants of its children, both directions |
| `Forest.DescendantsShrink` | daemon/list.go:606-613 | without cycles a child has strictly fewer descendants, which is why the recursive walk ends |
| `ImageStore.CountLayers` | image/store.go:120-125 | the loop counts the history entries that own a layer, as a set of positions |
| `Images.NonEmptyCounts` | image/store.go:120-125 | the recursive count used below is that number |
| `ImageStore.Store.Write` | image/store.go:106-133 | the half of Create before the lock: the configuration is written if and only if it decodes and its history names no more layers than it has |
| `ImageStore.Store.Register` | image/store.go:136-164 | the half under the lock, for every combination of repetition, missing layer and failed digest insertion |
| `ImageStore.Store.Create` | image/store.go:106-165 | both halves: the whole new state; an ID is returned if and only if the configuration decodes and fits and the image is known or its layer and digest entry are available; no other image changes |
| `ImageStore.Store.SetParent` | image/store.go:230-242 | the whole new state, including the half-done update when the image is not stored; success if and only if the parent is known and the image stored |
| `ImageStore.Store.Delete` | image/store.go:203-228 | the whole new state; success if and only if the image is known |
| `ImageStore.Store.Walk` | image/store.go:63-92 | the first pass of a restart loads exactly the readable configurations with one layer reference each, or stops exactly when one cannot be loaded, leaving the images loaded so far and their references |
| `ImageStore.Store.Load` | image/store.go:70-88 | one readable configuration is loaded if and only if its layer and digest entry are available; otherwise only a reference already taken on its layer stays |
| `ImageStore.Store.FillChildren` | image/store.go:94-101 | the second pass makes the children sets exactly the inverse of the parent links |
| `ImageStore.Store.Restore` | image/store.go:63-104 | a restart succeeds if and only if every readable image can be loaded, and then rebuilds images, children and digests from the backend with one reference per image and none leaked; a failed one leaves some images loaded and at most one further reference |
| `ImageStore.CreatedIndexed` | image/store.go:106-165 | an uninterrupted Create keeps the in-memory index in agreement with the backend's parent links, whatever the foreign calls answer |
| `ImageStore.RegisteredIndexedIff` | image/store.go:136-164 | taking an image on board keeps that agreement if and only if its configuration is still in the backend |
| `ImageStore.DeletedInBetween` | image/store.go:130-139 | a delete between the two halves of Create leaves an image whose configuration is gone |
| `ImageStore.ReparentedMeaning` | image/store.go:230-242 | re-parenting records the parent, moves the image from the old parent's children to the new one's, and changes nothing else; one that is not stored gets no link but becomes a child all the same |
| `ImageStore.ReparentedIndexedIff` | image/store.go:230-242 | re-parenting keeps that agreement if and only if the image is stored |
| `ImageStore.DeletedIndexed` | image/store.go:203-228 | deleting keeps it, removes exactly the image, its own link and its children's links |
| `ImageStore.StepIndexedIff` | image/store.go:106-242 | one call, or one half of a Create call, keeps the index in agreement if and only if what it links or takes on board is in the backend by then |
| `ImageStore.RunIndexed` | image/store.go:106-242 | so does every run of such calls in any interleaving: children maps mirror parent links and no link dangles |
| `ImageStore.RestartAgreesIff` | image/store.go:63-104 | the image set and children maps rebuilt by a restart are the live ones if and only if no configuration is stranded |
| `ImageStore.StepStranded` | image/store.go:130-162 | exactly how each call changes the set of stranded configurations |
| `ImageStore.RunStrandedIff` | image/store.go:106-242 | from any state and over any run with interleaved halves of Create, a configuration is stranded in the end if and only if it was at the start or some call stranded it, and no later call took it on board |
| `ImageStore.TraceAt` | image/store.go:106-242 | what that statement calls stranding and taking on board is what each call does in the state it meets |
| `ImageStore.RunStrandsNothing` | image/store.go:106-242 | a run in which every Create call is uninterrupted and gets its layer and digest entry strands nothing new, from any state and with any other calls |
| `ImageStore.MissingLayerStrands` | image/store.go:130-151 | a Create call whose layer is missing has the next restart bring up an image that the live store does not have |
| `ImageStore.RunSurvivesRestartIff` | image/store.go:63-104 | after a run that keeps the index in agreement, a restart rebuilds exactly the live images and children if and only if nothing stays stranded |
| `ImageStore.RunBacked` | image/fs.go:113-156 | over every run the backend holds decodable configurations only, and no link of one that is gone |
| `ImageStore.RestartedIndexedIff` | image/store.go:63-104 | after any run a restart leaves nothing stranded, and brings the index in agreement if and only if no parent link leads to a configuration that is gone |
| `ImageStore.RestartedIndexed` | image/store.go:63-104 | after a run that kept the index in agreement it always does, and loses no live image |
| `ImageStore.RetainConserved` | image/store.go:143-158 | an image taken on board with one reference keeps the count of references per chain ID |
| `ImageStore.ReleaseConserved` | image/store.go:221-226 | an image removed with one release keeps it |
| `ImageStore.RegisteredConserved` | image/store.go:139-165 | taking an image on board keeps the count, a repeated Create takes no second reference, and a failed digest insertion adds exactly its own leak |
| `ImageStore.DeletedConserved` | image/store.go:203-228 | so does deleting |
| `ImageStore.StepConserved` | image/store.go:106-242 | every call, and each half of Create, keeps the references on each chain ID equal to the images on it plus the leaked ones |
| `ImageStore.RunConserved` | image/store.go:70-242 | in every state reached from an empty or restarted store, by any calls in any interleaving, references on a chain ID are one per image on it plus those leaked by failed digest insertions, and nothing else |
| `ImageStore.FailedInsertionLeaks` | image/store.go:147-162 | a failed digest insertion leaves a reference on the layer and no image |
| `ImageStore.StepAcyclicIff` | image/store.go:203-242 | from any state without cycles, a call keeps the parent links free of them if and only if it does not put a stored image below itself |
| `ImageStore.RunAcyclic` | image/store.go:106-242 | over every run without such a call there is never a cycle |
| `ImageStore.EmptyStart` | image/store.go:46-61 | an empty store meets everything the run lemmas ask of their starting state |
| `ImageDelete.Daemon.CheckConflict` | daemon/image_delete.go:349-397 | a conflict is found if and only if one of the asked kinds exists, and it is the first of them in the order of the checks |
| `ImageDelete.Daemon.HasIffPresent` | daemon/image_delete.go:349-397 | each kind of conflict as the store's children index sees it is there if and only if the parent links, containers and references say so |
| `ImageDelete.FreeIff` | daemon/image_delete.go:349-397 | nothing stands in the way of a deletion if and only if there is no conflict to report, where the one to report exists, counts, and has none before it in the order of the checks |
| `ImageDelete.Daemon.NoConflictIffFree` | daemon/image_delete.go:349-397 | no conflict if and only if no image has it as parent, no container uses it and, unless forced, nothing refers to it; and a conflict that is found is the one to report |
| `ImageDelete.Daemon.UntaggedConflict` | daemon/image_delete.go:148-155 | the check that ignores references answers as if they had been removed already, in the conflict it names too |
| `ImageDelete.IsSingleReference` | daemon/image_delete.go:176-197 | true if and only if there is a reference, all are of one repository and at most one is a tag |
| `ImageDelete.SingleIff` | daemon/image_delete.go:174-197 | that answer does not depend on the order in which references are listed |
| `ImageDelete.Daemon.RemoveReference` | daemon/image_delete.go:226-234 | removes one reference and records it |
| `ImageDelete.Daemon.RemoveAllReferences` | daemon/image_delete.go:241-257 | removes exactly the references to the image and records each once |
| `ImageDelete.Daemon.RemoveDigests` | daemon/image_delete.go:118-135 | removes exactly the digest references of one repository and records each once |
| `ImageDelete.Daemon.Untag` | daemon/image_delete.go:95-141 | removes the reference, and with it exactly the digests of its repository if it was the last tag there; tells whether references remain |
| `ImageDelete.DroppedIff` | daemon/image_delete.go:118-135 | what untagging takes away, reference by reference |
| `ImageDelete.Daemon.ContainerUsing` | daemon/image_delete.go:80-80 | finds a container that uses the image if and only if there is one |
| `ImageDelete.Daemon.Remove` | daemon/image_delete.go:315-329 | image, links and references go together and nothing else does |
| `ImageDelete.Daemon.TryDelete` | daemon/image_delete.go:290-329 | deletes if and only if nothing stands in the way and the store knows the image; a refusal changes nothing and, unless quiet, names a conflict that exists and has none before it in the order of the checks; an unknown image loses its references only |
| `ImageDelete.ChainExtends` | daemon/image_delete.go:331-340 | pruning from the parent after deleting the child is pruning one ancestor chain, each member free once the one below is gone |
| `ImageDelete.ExhaustedExtends` | daemon/image_delete.go:331-340 | where pruning stopped after the child was gone, it could not have gone on in the original state either |
| `ImageDelete.OutcomeExtends` | daemon/image_delete.go:290-341 | both together with the final state: one deletion in front of a pruned chain is a pruned chain |
| `ImageDelete.OutcomeUntagged` | daemon/image_delete.go:148-171 | deleting with references in place and deleting after untagging end the same way |
| `ImageDelete.UntaggedGone` | daemon/image_delete.go:290-341 | an image, a link or a reference is left if and only if it was there and does not belong to a deleted image, whether or not the image was untagged first |
| `ImageDelete.Daemon.DeleteHelper` | daemon/image_delete.go:290-341 | what is deleted is exactly the longest free beginning of the ancestor chain (one image without prune), all and only their links and references go, and the records are those images in order |
| `ImageDelete.Daemon.UntagAndDelete` | daemon/image_delete.go:90-143 | the contract of the whole call once it is not refused |
| `ImageDelete.Daemon.DeleteByReference` | daemon/image_delete.go:74-143 | the contract of the whole call when a reference is given: a refusal names a container that uses the image |
| `ImageDelete.Daemon.DeleteByID` | daemon/image_delete.go:144-171 | the contract of the whole call when an ID is given: a refusal names the conflict to report once single references are out of the way |
| `ImageDelete.Daemon.ImageDelete` | daemon/image_delete.go:63-172 | a conflict is reported if and only if the call is refused, it is really there and the first in the order of the checks, and nothing has changed; an image is unrecognised if and only if the call comes to deleting one the store does not know, and then exactly its references are gone; images go if and only if nothing stands in the way, with exactly their links and references; otherwise references are untagged at most; every removed reference and image is recorded exactly once; the index stays in agreement |
| `AncestorFilter.ClosedUnderDescendants` | daemon/list.go:606-613 | a marked set that contains the children of its members contains all descendants, so skipping a marked image loses nothing |
| `AncestorFilter.ImageFilter.Populate` | daemon/list.go:606-613 | on links without cycles the walk ends and marks exactly the image and its descendants in addition |
| `AncestorFilter.ImageFilter.Fold` | daemon/list.go:272-290 | an image is selected if and only if it descends from one of the given images that exist |
| `LayerHistory.Commit` | daemon/commit.go:158-193 | the committed history and layers, and a base whose history fits its layers gives a configuration that Create does not refuse |
| `LayerHistory.Import` | daemon/import.go:98-115 | an imported configuration has one layer and one entry that owns it, and is not refused by Create |
| `LayerHistory.RunFits` | image/store.go:113-128 | over every run, every stored image has at most as many layer-owning history entries as layers |
| `LayerHistory.LinesMeaning` | daemon/image_history.go:25-54 | entry i is on the i-th line from the bottom, sized by the layers up to its own |
| `LayerHistory.SizeStep` | daemon/image_history.go:28-45 | the j-th layer-owning entry is sized from the first j layers |
| `LayerHistory.Sizes` | daemon/image_history.go:19-54 | the loop's lines are that list; it fails with too many layers only for images whose history does not fit, and otherwise exactly when a layer is missing, which it names |
| `LayerHistory.LinesSomeIff` | daemon/image_history.go:25-54 | the lines are complete if and only if every layer that an entry owns is there |
| `LayerHistory.LinesShow` | daemon/image_history.go:25-54 | an entry without a layer shows size 0, any other the size of the layer that it owns, the next one above those owned by older entries |
| `LayerHistory.FillIDs` | daemon/image_history.go:56-79 | line k carries the image k parent links up, and none where that chain has ended |
| `LayerHistory.AncestorAtIsUp` | daemon/image_history.go:71-78 | that chain is the one the store's parent links define |
| `LayerHistory.AllStored` | daemon/image_history.go:71-78 | in the store the chain never ends early at a missing parent |
| `LayerHistory.ImageHistory` | daemon/image_history.go:13-82 | a stored image never has too many layers to list; the listing is complete if and only if every owned layer is there, and then each entry is on its line with its own size, and the newest lines carry the IDs up the parent chain |
| `LayerDownload.LayerDescriptor.TruncateDownloadFile` | distribution/pull_v2.go:309-324 | file and verifier start over together, or only the verifier when truncating fails |
| `LayerDownload.LayerDescriptor.Copy` | distribution/pull_v2.go:242-242 | file and verifier both grow by everything read |
| `LayerDownload.LayerDescriptor.Finish` | distribution/pull_v2.go:242-298 | the attempt from the copy onwards, for each way it can end |
| `LayerDownload.LayerDescriptor.Download` | distribution/pull_v2.go:156-298 | the whole new descriptor and outcome of an attempt, for every answer of file system and registry |
| `LayerDownload.LayerDescriptor.Fetch` | distribution/xfer/download.go:239-291 | attempts are repeated until success, a final error, or the fifth, each on the descriptor the one before left |
| `LayerDownload.RetriedIff` | distribution/pull_v2.go:156-298 | over the fields of the attempt and the length of the file, exactly when an attempt may be retried: a wrong digest may only after a resumed download whose file could be emptied |
| `LayerDownload.SucceedsIff` | distribution/pull_v2.go:156-298 | exactly when an attempt hands over a file, and that it is what was kept followed by what was read |
| `LayerDownload.RetryKeeps` | distribution/pull_v2.go:156-298 | what an attempt that may be retried leaves in the file: an interruption loses nothing that was read, and the file is emptied only to start over |
| `LayerDownload.FaultlessStep` | distribution/pull_v2.go:253-298 | when nothing fails and the registry is honest, the blob is handed over if and only if the file continued is a beginning of it; otherwise the file is emptied and the attempt may be retried |
| `LayerDownload.Recovers` | distribution/xfer/download.go:239-291 | from any in-step descriptor whose file is not longer than the blob, or than the registry says it is, two such attempts hand over exactly the blob, even if the file was no part of it |
| `LayerDownload.RetryInStepIff` | distribution/pull_v2.go:156-298 | after an attempt that may be retried, the verifier has consumed exactly the file if and only if the attempt did not slip: no failed write lost bytes, and no file the verifier remembers was replaced without being truncated in the same attempt |
| `LayerDownload.VerifiedIffHanded` | distribution/pull_v2.go:253-298 | on success the bytes verified are the bytes handed over if and only if the attempt did not replace a file the verifier remembers |
| `LayerDownload.TransferVerified` | distribution/xfer/download.go:239-291 | over every sequence of interruptions, resumptions, truncations and retries without such a slip, a file handed over has the digest |
| `LayerDownload.ReplacedFileUnverified` | distribution/pull_v2.go:170-182 | a failed seek on a resumed download hands over an unverified file |
| `LayerDownload.LostBytesUnverified` | distribution/pull_v2.go:242-251 | a failed write that is retried hands over an unverified file |
| `LayerDownload.HonestStep` | distribution/pull_v2.go:156-298 | with a registry that serves the true blob, the file stays a prefix of it, and an attempt that reaches the end succeeds |
| `LayerDownload.HonestTransfer` | distribution/xfer/download.go:239-291 | over every run with such a registry, success hands over exactly the blob |
| `ManifestV1.Manifest.Verify` | distribution/pull_v2.go:778-808 | accepted if and only if digest, schema version and lengths are right and there is a layer |
| `ManifestV1.NoStrayDuplicates` | distribution/pull_v2.go:832-843 | true if and only if equal image IDs are adjacent |
| `ManifestV1.Manifest.DropRepeats` | distribution/pull_v2.go:845-853 | the backward loop keeps the last entry of every run of equal IDs in both lists, and fails if and only if a link is broken |
| `ManifestV1.CollapseLockstep` | distribution/pull_v2.go:845-853 | layers and history shrink together |
| `ManifestV1.CollapseKeepsLast` | distribution/pull_v2.go:845-853 | what is kept is the last entry of each run, in order, and nothing else |
| `ManifestV1.CollapsedIsChain` | distribution/pull_v2.go:812-856 | what is left of an acceptable history is an unbroken parent chain of distinct images down to one without a parent, with the same top and no ID lost or added |
| `ManifestV1.AcceptableIff` | distribution/pull_v2.go:812-856 | a history is acceptable if and only if what collapsing leaves of it is such a chain |
| `ManifestV1.BlobOwned` | distribution/pull_v2.go:452-482 | the layer of an entry that is not throw-away is the blob at that entry's place among the converted entries that own a layer |
| `ManifestV1.Manifest.ReadHistory` | distribution/pull_v2.go:813-825 | the history is decoded if and only if every entry is well formed with an ID of 64 lower-case hexadecimal digits |
| `ManifestV1.Manifest.FixManifestLayers` | distribution/pull_v2.go:812-856 | accepted if and only if the history decodes and is acceptable; then both lists are collapsed in place and form such a chain |
| `ManifestV1.Manifest.Descriptors` | distribution/pull_v2.go:454-482 | succeeds if and only if every entry's throw-away flag and history decode; then the converted history is reversed, there is one blob for each entry that owns a layer, and every layer is the blob of its own entry, bottom first |
| `ManifestV1.Manifest.Prepare` | distribution/pull_v2.go:428-482 | all of it together: both lists collapsed, the converted history in order, as many blobs as entries that own a layer, and every remaining layer the blob of its own entry, bottom first |
| `PullEndpoints.NoDowngrade` | distribution/pull.go:119-154 | in every run, no v1 endpoint is tried after a confirmed v2 attempt and no plaintext one for a host confirmed over TLS |
| `PullEndpoints.VisitedIff` | distribution/pull.go:119-154 | an endpoint is skipped if and only if an earlier attempt that fell back found a v2 registry, or a working connection over TLS to the same host; otherwise it is tried if and only if its version is 1 or 2 |
| `PullEndpoints.SkippedForCause` | distribution/pull.go:119-130 | an endpoint is skipped only because an earlier attempt ruled it out |
| `PullEndpoints.ReportedLastKept` | distribution/pull.go:155-166 | whatever errors were met, the one reported is the last that is not a "not supported" after a proper one |
| `PullEndpoints.ReportedMeaning` | distribution/pull.go:155-182 | when all endpoints could be built, that is the last proper error, or the last "not supported" when there is no other |
| `PullEndpoints.ReportedAt` | distribution/pull.go:155-182 | when no attempt decided, the error reported is that of the last endpoint that is neither skipped nor a "not supported" after a proper error |
| `PullEndpoints.Remember` | distribution/pull.go:155-166 | the two variables of the loop always hold that error and whether a proper one was met |
| `PullEndpoints.Look` | distribution/pull.go:119-168 | one endpoint is skipped, unusable or tried exactly as what was learned before demands |
| `PullEndpoints.Pull` | distribution/pull.go:97-183 | every run: success if and only if the last attempt succeeded, all before it fell back, an aborting error is returned as it is, and otherwise the error of the last endpoint whose error counts |
| `PushOrder.OrderedMeaning` | distribution/push_v1.go:236-262 | in an ordered upload list every upload names its layer's parent, that parent is uploaded before it, and no dependency is repeated |
| `PushOrder.UnderClosed` | distribution/push_v1.go:243-249 | a remembered layer has all layers beneath it remembered, so cutting the recursion short loses nothing |
| `PushOrder.MissingOrdered` | distribution/push_v1.go:236-262 | appending the dependencies still missing keeps the order and adds exactly the layers beneath |
| `PushOrder.MissingChained` | distribution/push_v1.go:236-262 | nothing superfluous: each missing dependency is followed at once by an upload that names it as its parent |
| `PushOrder.AppendImage` | distribution/push_v1.go:185-191 | so does appending an image with them |
| `PushOrder.AppendChained` | distribution/push_v1.go:185-191 | and leaves nothing superfluous |
| `PushOrder.SingleTagOrdered` | distribution/push_v1.go:202-234 | the list for a single tag, made without the memo, is complete and ordered by itself |
| `PushOrder.Pusher.GenerateDependencyImages` | distribution/push_v1.go:236-262 | the uploads are exactly the layers not yet remembered, bottom first, and afterwards all are remembered |
| `PushOrder.Pusher.ImageListForTag` | distribution/push_v1.go:202-234 | an image is listed if and only if it and its top layer can be opened, after exactly its missing dependencies |
| `PushOrder.Pusher.AddImage` | distribution/push_v1.go:183-191 | extends an ordered list to an ordered list that covers one more image |
| `PushOrder.MentionsDistinct` | distribution/push_v1.go:179-183 | the tagged images in the order of first mention: exactly those, and each once |
| `PushOrder.MentionsInOrder` | distribution/push_v1.go:179-183 | of two images the one listed first is mentioned first |
| `PushOrder.TagsOfConcat` | distribution/push_v1.go:171-178 | the tags of an image are collected association by association, in order |
| `PushOrder.Pusher.GetImageList` | distribution/push_v1.go:167-200 | every dependency once, parents first and nothing superfluous, every tagged image once with its own top layer in the order of first mention, exactly the needed layers, and all tags by image; fails if and only if nothing is tagged or an image cannot be opened |
| `ProbeHistory.Monitored.HandleProbeResult` | daemon/health.go:109-142 | the whole new health record after one result |
| `ProbeHistory.StreakIsLongestFailingSuffix` | daemon/health.go:127-137 | the streak used below is the length of the longest failing suffix |
| `ProbeHistory.RecordedStep` | daemon/health.go:109-142 | one result takes the record of a history to the record of the longer history |
| `ProbeHistory.HistoryDetermines` | daemon/health.go:109-142 | for every result sequence since monitoring began, status, streak, the last five log entries and the status events are functions of the whole history |
| `ProbeHistory.StatusMeaning` | daemon/health.go:109-142 | unhealthy if and only if the last results, as many as configured or three, are all failures; still starting if and only if not so and none has passed |
| `ProbeHistory.LogMeaning` | daemon/health.go:118-125 | the log is the last five results, counting those of earlier runs |
| `ProbeHistory.ChangesMeaning` | daemon/health.go:138-141 | reported statuses alternate and the last one reported is the current one |
| `Lifecycle.Container.OpenMonitorChannel` | container/health.go:32-39 | a new channel if and only if there was none |
| `Lifecycle.Container.CloseMonitorChannel` | container/health.go:42-52 | the channel and the monitor listening on it are gone |
| `Lifecycle.Container.UpdateHealthMonitor` | daemon/health.go:224-239 | the monitor after an update, for every state |
| `Lifecycle.Container.InitHealthMonitor` | daemon/health.go:245-264 | the monitor and the record after a start |
| `Lifecycle.Container.StateChanged` | daemon/monitor.go:14-100 | the whole new state for every notification, and the invariants kept |
| `Lifecycle.UpdateInv` | daemon/health.go:224-239 | after an update of a container with a health record there is a monitor if and only if it runs unpaused with a probe |
| `Lifecycle.HandleInv` | daemon/monitor.go:14-100 | every notification keeps the invariants |
| `Lifecycle.NextInv` | daemon/health.go:146-201 | so does every step of a monitor |
| `Lifecycle.RunInv` | daemon/monitor.go:14-100 | in every reachable state the flags agree, no wait channel is closed twice and the current one is open, and there is at most one live monitor, exactly when there is a stop channel, listening on it |
| `Lifecycle.InitialInv` | container/state.go:36-40 | a new container starts out that way |
| `Lifecycle.WaiterReleasedIff` | container/state.go:129-144 | a waiter is released if and only if a stop or restart comes after it took the channel |
| `Lifecycle.RunShows` | container/state.go:205-258 | over every run, process ID, exit code and flags are those of the last start, exit or restart |
| `Lifecycle.NextPaused` | daemon/monitor.go:86-96 | exactly how each step changes whether the container is paused |
| `Lifecycle.RunCountsRestarts` | daemon/monitor.go:47-52 | over every run, each restart is counted once |
| `Lifecycle.OneProbeAtATime` | daemon/health.go:154-198 | over every run, a monitor starts no second probe before the first has come back, not even after a timeout |
| `Lifecycle.StoppedForGood` | container/health.go:42-52 | a monitor that has been stopped never takes another step and records no further result |
| `Lifecycle.StartReplacesMonitor` | daemon/health.go:245-264 | a saved start stops the monitor there was and begins with a new one |
| `Lifecycle.NextAlignedIff` | daemon/monitor.go:77-96 | a step keeps the monitor running exactly when it should if and only if it is neither an unsaved start that would need one nor a stop request for a container that runs |
| `Lifecycle.RunAligned` | daemon/health.go:224-273 | so it is over every run without such a step |
| `Lifecycle.Realigns` | daemon/monitor.go:21-96 | whatever was missed before, an out-of-memory notification, an exit, a restart, a saved start and a pause or resume that is carried out put the monitor right again |
| `Lifecycle.UnsavedStartMisses` | daemon/monitor.go:77-85 | a start that cannot be saved leaves a running container with a probe unmonitored |
| `Lifecycle.StopRequestMisses` | daemon/stop.go:39-53 | so does a stop request until the container has stopped |
| `Lifecycle.StopFinishesIff` | container/health.go:42-52 | stopping a monitor can come to an end if and only if the handler does not hold the lock while the monitor is about to record a result |
| `Lifecycle.HandlingStays` | daemon/health.go:109-111 | in that case nothing at all can happen |
| `Lifecycle.StopBlocksForever` | daemon/monitor.go:28-37 | that case is reached by a container that exits just after a probe has answered |
| `Lifecycle.RecordChanges` | daemon/health.go:182-194 | only a live monitor's result and a fresh start change the health record |
| `Lifecycle.RecordIsHistory` | daemon/health.go:146-201 | over every run between two starts the record is what the recorded results make of it, whichever monitors recorded them |
| `Lifecycle.RecordSinceStart` | daemon/health.go:109-264 | from a fresh start on, over every run, status, streak, log and events are the functions of all results recorded since, whatever came before |
| `Resources.Keep` | daemon/daemon_unix.go:404-428 | a list of device limits is dropped with a warning if and only if it is set and unsupported |
| `Resources.HostConfig.VerifyMemoryLimits` | daemon/daemon_unix.go:272-291 | accepted if and only if the limits left after dropping unsupported ones are consistent; then exactly those and their warnings, and otherwise what the early end leaves |
| `Resources.HostConfig.VerifySwappiness` | daemon/daemon_unix.go:292-302 | the same for swappiness |
| `Resources.HostConfig.VerifyReservation` | daemon/daemon_unix.go:303-313 | the same for the reservation |
| `Resources.HostConfig.VerifyKernelMemory` | daemon/daemon_unix.go:314-325 | the same for kernel memory |
| `Resources.HostConfig.VerifyMemoryExtras` | daemon/daemon_unix.go:292-325 | the three together, and what an early end leaves |
| `Resources.HostConfig.VerifyProcesses` | daemon/daemon_unix.go:326-340 | the same for the out-of-memory and process limits, which are never refused |
| `Resources.HostConfig.VerifyCPU` | daemon/daemon_unix.go:343-368 | the same for shares, period, quota and percent |
| `Resources.HostConfig.VerifyCpuset` | daemon/daemon_unix.go:371-390 | the same for CPU and memory-node lists |
| `Resources.HostConfig.VerifyWeight` | daemon/daemon_unix.go:393-403 | the same for block weight and the unsupported limits |
| `Resources.HostConfig.VerifyDevices` | daemon/daemon_unix.go:404-428 | the same for the device lists, which are never refused |
| `Resources.HostConfig.VerifyContainerResources` | daemon/daemon_unix.go:268-431 | all groups in order; field by field, a setting keeps its value unless it was set and the kernel lacks it, and is dropped exactly then if the configuration is accepted; the warnings are exactly those due, each once and in order; an accepted result is in range in every setting |
| `Resources.HostConfig.VerifyAll` | daemon/daemon_unix.go:268-431 | the groups in turn, each on what the ones before it left, and what a refusal leaves behind |
| `Resources.LeftFates` | daemon/daemon_unix.go:268-431 | also a refusal drops only what was set and the kernel lacks |
| `Resources.FatesUnique` | daemon/daemon_unix.go:268-431 | what is kept and dropped field by field determines the result |
| `Resources.AcceptsIff` | daemon/daemon_unix.go:268-431 | accepted if and only if what is left after dropping is in range, and the memory limit was 0 or at least 4 MB before |
| `Resources.WarningsDue` | daemon/daemon_unix.go:268-431 | the warnings are exactly those due, each once and in the order of the checks |
| `Resources.MemoryChangesWarned` | daemon/daemon_unix.go:276-340 | a memory or process setting changes if and only if its warning is there, but for two that change silently: swap when the memory limit goes, and an out-of-memory setting that asked for nothing |
| `Resources.CPUChangesWarned` | daemon/daemon_unix.go:343-374 | a processor setting changes if and only if its warning is there |
| `Resources.DeviceChangesWarned` | daemon/daemon_unix.go:393-428 | a block device setting changes if and only if its warning is there |
| `Resources.RefusedAgain` | daemon/daemon_unix.go:268-431 | a refused configuration stays refused on the same kernel, although the refusal has changed it in place |
| `Resources.HostConfig.AdaptContainerSettings` | daemon/daemon_unix.go:231-266 | the defaults, with 64-bit wrap-around of the default swap limit: only what is not set is filled in, and shares are brought into the range from 2 to 262144 |
| `Resources.AdaptedDefaulted` | daemon/daemon_unix.go:231-266 | what defaulting does to each setting, and that it changes no other |
| `Resources.DefaultSwapIff` | daemon/daemon_unix.go:242-245 | the default swap limit is twice the memory limit, and positive, if and only if doubling does not overflow |
| `Resources.SwapOverflows` | daemon/daemon_unix.go:242-245 | a memory limit of 2^62 bytes gets a negative swap limit, and a start accepts it |
| `Resources.MemoryStable` | daemon/daemon_unix.go:272-291 | a prepared configuration passes the memory checks again, unchanged and without a warning, even after an overflow |
| `Resources.ExtrasStable` | daemon/daemon_unix.go:292-340 | it passes the next checks again, changing nothing but a default the kernel does not know |
| `Resources.CPUStable` | daemon/daemon_unix.go:343-390 | it passes the processor checks again, unchanged and without a warning, also after shares were clamped |
| `Resources.WeightStable` | daemon/daemon_unix.go:393-403 | it passes the block weight checks again, unchanged and without a warning |
| `Resources.DevicesStable` | daemon/daemon_unix.go:404-428 | it passes the device checks again, unchanged and without a warning |
| `Resources.StartRepeatsCreate` | daemon/start.go:71-78 | what creation admits, every start on the same kernel admits again, changes nothing of, and warns about only for kernel memory on an old kernel |
| `Resources.ValidationAloneStableIff` | daemon/daemon_unix.go:326-334 | without the defaults that follow it, repeated validation changes nothing if and only if the kernel supports disabling the out-of-memory killer |
| `EscapeCopy.Watch` | container/container.go:498-509 | reads on exactly while single reads spell out the keys, and keeps everything read |
| `EscapeCopy.Round` | container/container.go:494-509 | one round of the loop reads a piece of the stream and detaches only on exactly the keys |
| `EscapeCopy.CopyEscapable` | container/container.go:487-539 | for every chunking of the input, every key sequence and every write result: what was read is what was given to the destination, write by write, followed on detach by exactly the keys; a failed or short write ends the copy, and only what it took has arrived; otherwise everything has, and the copy ends where the reads say; the count is that of the bytes arrived, and 0 on detach |
| `EscapeCopy.DetachedByKeys` | container/container.go:498-507 | detaching is never spurious: the last reads were the keys, one at a time |
| `EscapeCopy.KeysDetachIff` | container/container.go:498-509 | keys whose first one does not come again among them are recognised, also after earlier ones were missed, if and only if an even number of false starts lead up to them |
| `EscapeCopy.DetachesAtFirstEven` | container/container.go:494-509 | when no read fails, the copy detaches exactly at the first spelling of the keys that an even number of false starts lead up to |
| `EscapeCopy.TiledDetachesIff` | container/container.go:494-509 | when no read before fails, the copy detaches on any keys at a given read if and only if they are spelled there and the reads before it fall into rounds, each a beginning of the keys and one read that breaks it |
| `EscapeCopy.TiledEndsIff` | container/container.go:494-536 | when no read before fails, the copy ends at a given read, with its error or well at the end of the input, if and only if that read has one and the reads up to it fall into rounds |
| `EscapeCopy.KeysDetach` | container/container.go:498-509 | any keys are recognised when no earlier read was their first key alone |
| `EscapeCopy.RepeatedFirstKeyMissed` | container/container.go:488-509 | ctrl-p ctrl-p ctrl-q does not detach |
| `EscapeCopy.SecondTryDetaches` | container/container.go:488-509 | ctrl-p ctrl-q typed after it does |
| `MountPaths.PartsAreNames` | daemon/volumes.go:57-60 | the sort key of a cleaned path is its number of names, but the root counts as one |
| `MountPaths.PlaceStep` | container/container_unix.go:413-416 | a path names a directory part by part: an empty part and "." stay, ".." goes one up but never above the root, and anything else goes one down |
| `MountPaths.NamesStep` | daemon/volumes.go:57-60 | cleaning goes part by part too, and keeps a ".." that nothing before it in a relative path can undo |
| `MountPaths.AncestorHasFewerParts` | daemon/volumes.go:45-60 | among absolute paths a proper ancestor has a smaller key, except the root against a top-level directory |
| `MountPaths.HidesInOrderIff` | daemon/volumes.go:45-60 | in the order by that key a later mount is on the directory of an earlier one or above it if and only if both are on the same directory, it is on the root and the other on a top-level directory, or it is above the other and one of them is relative |
| `MountPaths.SamePlaceIff` | container/container_unix.go:413-416 | two destinations are the same directory if and only if they clean to the same path below the root |
| `MountPaths.CleanSamePlaceIff` | daemon/oci_linux.go:476-480 | for absolute destinations that are clean already that is equality of the strings, which is what the duplicate test compares |
| `MountPaths.TrailingSlashSamePlace` | container/container_unix.go:400-411 | a trailing slash makes another string of the same directory, with the same sort key |
| `MountPaths.RelativeSortsEarly` | daemon/volumes.go:57-60 | a relative path sorts with the absolute path of its parent |
| `MountPaths.RootNotSortedFirst` | daemon/volumes.go:57-60 | the root and a top-level directory have equal keys |
| `MountPaths.PlaceRoundTrip` | daemon/volumes.go:57-60 | cleaning a path spelled out from plain names gives those names back |
| `Mounts.Spec.DropOverridden` | daemon/oci_linux.go:462-474 | keeps exactly the defaults no user mount replaces, in order |
| `Mounts.KeptMeaning` | daemon/oci_linux.go:462-474 | a default is kept if and only if its destination is not taken and it is not below a taken /dev |
| `Mounts.Spec.HasDestination` | daemon/oci_linux.go:476-480 | finds a duplicate if and only if there is one |
| `Mounts.Spec.Add` | daemon/oci_linux.go:475-536 | a user mount is refused if and only if it is a duplicate or the host does not allow it; otherwise it is appended and the root's propagation strengthened as needed |
| `Mounts.Spec.AddAll` | daemon/oci_linux.go:475-536 | all are added, or it fails if and only if two share a destination or one is not allowed |
| `Mounts.Spec.Adjust` | daemon/oci_linux.go:538-573 | the read-only and privileged adjustments of every mount |
| `Mounts.ClearReadOnly` | daemon/oci_linux.go:703-711 | removes exactly the read-only option |
| `Mounts.Spec.SetMounts` | daemon/oci_linux.go:456-576 | all of it together, failing if and only if two user mounts share a destination or one is not allowed; the mounts it leaves are the kept defaults and then the user's, each with the source, kind, propagation and read-only option it should have |
| `Mounts.Spec.Assemble` | daemon/oci_linux.go:456-576 | the three parts in turn: dropping, adding and adjusting |
| `Mounts.AllMadeIff` | daemon/oci_linux.go:482-524 | a user mount is allowed if and only if a shared one has a shared source, a slave one a shared or slave source, and tmpfs options are valid |
| `Mounts.BindOptions` | daemon/oci_linux.go:526-533 | a user's bind mount has the read-only option if and only if it is not writable, and each propagation word if and only if it was asked for |
| `Mounts.MadeAsAsked` | daemon/oci_linux.go:482-573 | the same after all adjustments, with source and kind the user's, except that a privileged container on a writable root has a writable /sys |
| `Mounts.KeptFromDefault` | daemon/oci_linux.go:538-573 | a kept default is read-only in the end if and only if it was or the root is, unless it is one of the three writable ones, /sys of a privileged container on a writable root, or a cleared cgroup mount; nothing else of it changes |
| `Mounts.AdjustedAsExpected` | daemon/oci_linux.go:456-576 | both for every mount of the assembled list, in order |
| `Mounts.AssembledDistinct` | daemon/oci_linux.go:462-536 | distinct defaults and distinct user mounts give distinct destinations |
| `Mounts.AssembledSound` | daemon/oci_linux.go:456-576 | the result ends with the user's mounts in their order and has distinct destinations if the defaults had |
| `Mounts.SortedHidesIff` | daemon/oci_linux.go:660-669 | user mounts sorted by depth hide an earlier one in these three cases and in no other |
| `Mounts.UserHiddenIff` | daemon/oci_linux.go:456-576 | in the assembled list a user mount is hidden if and only if a later one is in one of these three cases with it |
| `Mounts.CleanUserHiddenIff` | daemon/oci_linux.go:456-576 | when all destinations are absolute and clean, if and only if it is on a top-level directory and one on the root comes later |
| `Mounts.TrailingSlashHides` | daemon/oci_linux.go:475-496 | a bind mount on a directory and a tmpfs on the same one with a trailing slash are accepted together, and the later hides the other |
| `Mounts.DefaultHiddenIff` | daemon/oci_linux.go:462-536 | a kept default is hidden if and only if the user mounts something on its directory or an ancestor of it |
| `Mounts.DefaultsNested` | oci/defaults_linux.go:24-61 | the six defaults are on different directories and none hides an earlier one |
| `Mounts.SysHidesCgroups` | oci/defaults_linux.go:24-61 | over the six defaults, a user mount on /sys replaces the one there and hides the control groups below it, and nothing else |
| `Mounts.RootGrows` | daemon/oci_linux.go:500-524 | strengthening mount by mount gives the propagation stated for the whole list |
| `Mounts.RootWeakest` | daemon/oci_linux.go:500-524 | that propagation serves every mount, and every other one that does so without falling below the root's own is at least as strong; it is the root's own, shared or recursive slave |
| `Mounts.RootServesAll` | daemon/oci_linux.go:500-524 | that propagation is at least as strong as every shared or slave mount requires |
| `Mounts.ReadOnlyBindStaysIff` | daemon/oci_linux.go:526-563 | a user's read-only bind mount stays read-only if and only if it is not /sys of a privileged container on a writable root |
| `Mounts.PrivilegedSysWritable` | daemon/oci_linux.go:552-560 | there it becomes writable |
| `Mounts.DefaultsReadOnlyIff` | daemon/oci_linux.go:538-573 | with a read-only root every other default mount ends up read-only if and only if it is not a cleared cgroup mount |
| `Ports.LessTotal` | api/common.go:39-53 | the comparison is a strict total order: ports that do not precede each other are equal |
| `Ports.LessTransitive` | api/common.go:39-53 | and it is transitive |
| `Ports.SortSorts` | api/common.go:67-67 | sorting gives a sorted permutation |
| `Ports.SortedBy` | api/common.go:39-53 | the sorted list is by private port, then address, then public port, then protocol |
| `Ports.BeforeIff` | api/common.go:44-52 | strings are in dictionary order |
| `Ports.SortedUnique` | api/common.go:34-53 | there is only one sorted permutation, so any correct sort gives it |
| `Ports.OrderIrrelevant` | api/common.go:58-100 | the order in which ports are listed does not matter |
| `Ports.SortKeeps` | api/common.go:67-93 | sorting changes neither the ports of a key nor the host mappings, with multiplicity |
| `Ports.KeyRoundTripIff` | api/common.go:70-112 | formatting reads address and protocol back from a key if and only if neither contains a slash |
| `Ports.AccountStep` | api/common.go:68-93 | one port keeps the ranges shown and open equal to the ports seen, for every key |
| `Ports.SeparateStep` | api/common.go:78-92 | one port of sorted distinct ports keeps the ranges of a key apart |
| `Ports.Place` | api/common.go:78-92 | opens, extends or closes a group as needed, and keeps the key order |
| `Ports.GroupPorts` | api/common.go:68-93 | after the loop every grouped port is in exactly one range or open group, mappings are complete, and the keys are in the order of first mention |
| `Ports.FirstKeysInOrder` | api/common.go:79-84 | of two keys the one listed first is mentioned first |
| `Ports.ShowGroups` | api/common.go:94-97 | the open groups are shown once each in key order, and ranges stay apart |
| `Ports.SortDistinct` | api/common.go:67-67 | sorting keeps ports distinct |
| `Ports.ApartOnce` | api/common.go:91-97 | ranges that keep apart show no port twice |
| `Ports.DisplaySorted` | api/common.go:68-99 | the output for sorted ports: the ranges of a key are exactly its ports in order, and the rest are the host mappings |
| `Ports.ReadsBack` | api/common.go:68-118 | read port by port, the output is the list of ports: each with its own address, public port and protocol, as often as it is listed, when none contains a slash |
| `Ports.DisplayablePorts` | api/common.go:58-100 | for ports listed in any order, expanding the ranges of a key gives exactly its listed ports with multiplicity, ascending, and no range is empty; the host mappings are exactly the ports published under another number; the output reads back as the list of ports when none contains a slash; ranges of one key neither overlap nor touch if and only if no port is listed twice under a key; and the output ends with the last range of each key in the order of first mention and then the mappings |

## Left out

- ImageStore.Store.Create: a configuration without a root file system section, which the source dereferences, and write errors of the backend are not modelled.
- ImageStore.Store.Delete: failures of the backend and of the digest set, which the source ignores or only logs, are taken not to happen.
- ImageDelete.Daemon.ImageDelete: resolving and parsing the argument is left to the caller, so a given reference is one that leads to the image; the interleaving of untagged and deleted records, the layers that a release deletes, and errors of the reference store are not modelled.
- AncestorFilter.ImageFilter.Populate: links with a cycle are excluded, because the source's recursion does not end on them.
- LayerDownload.LayerDescriptor.Download: progress output, cancellation and removal of temporary files are not modelled.
- LayerHistory.ImageHistory: tags, times and comments of the lines are not modelled.
- ManifestV1.Manifest.Prepare: Windows base layers, signatures and the later download and Create are not part of it.
- PushOrder.Pusher.GetImageList: JSON configurations, v1 image IDs and the release of referenced layers are not modelled.
- Lifecycle.Container.StateChanged: one handler runs at a time and a send on the stop channel is one step with its receive; exec processes, times, error texts and clean-up after an exit are not modelled.
- Lifecycle.WaiterReleasedIff: the exit code that a released waiter reads later is not stated, because a restart may have reset it by then.
- Resources.HostConfig.VerifyContainerResources: the warnings of a refused configuration, which its caller drops, are not stated, and the checks of other settings (security options, namespaces, networking) are not modelled.
- EscapeCopy.KeysDetach: one direction only; the exact condition for all key sequences is TiledDetachesIff.
- Mounts.SortedHidesIff: sorting is represented by its result, a list ordered by path depth; where equal depths go is left open. A relative destination is taken from the container's root; what the runtime makes of it is not part of this model.
- Mounts.Spec.SetMounts: tmpfs options and the mount state of the host are answers of the host.
- Ports.DisplayablePorts: the text of ranges and mappings is not modelled beyond what a reader gets back from it, and sorting is insertion sort, which gives the same result as any other sort by this total order.
- Searching images by ID prefix, heads, and the digest set's lookup.
- Schema 2 manifests, manifest lists and v1 pulls.
- The container link index, and the name and ID shortcut of the container list.
- Merging of resource updates into a running container, of which only the delta is validated.
- Windows and Solaris variants, libnetwork, containerd, graph drivers, JSON, tar and hashing.
