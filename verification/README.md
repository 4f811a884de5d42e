# Rancher Turtles: a verified model

Rancher Turtles is a Kubernetes operator that imports Cluster API (CAPI) clusters into Rancher and manages CAPI
providers. This project models its stateful parts in Dafny and proves what they promise. Check it with
`dafny verify dfyconfig.toml`.

## What is modelled

**Import, un-import and cleanup** (`Tables`, `Downstream`, `ImportDecision`, `Import*`). The import controller and
the cleanup controller act on CAPI clusters and Rancher clusters, which users, Rancher, other keys and the API
server change as well. `ImportProtocol` is a transition system over unboundedly many clusters in which every request
a controller sends is one step: between any two requests anybody may act, and the controller may crash. A write is
carried out and answered, lost, or carried out with the answer lost; it is guarded by resource versions; a deleting
object without finalizers disappears.

- `FreshRun`: every read shows the present object. `CachedRun`: the reads through the cache (the first get, the get
  of the finalizer retry, the list, the namespace, the cleanup controller's object) show any object that is outdated or
  is what is stored, so any that was stored at some time; the read before a create (import_controller.go:417) stays
  fresh. Every read may fail.
- Assumed: reconciles are serialised per key, users neither forge owner labels nor strip the turtles finalizer from
  a CAPI cluster. The three owner labels are one field, `owner`.
- `ImportController` holds the controller's methods statement by statement, against a server object (`ImportServer`)
  on which others act between any two requests and which drops requests and answers and may answer from a stale cache.
  `Reconcile` is proved to be a run of the transition system, fresh when the cache is, so everything proved about runs
  holds of the methods; left alone, it computes exactly `ImportQuiet.Reconcile`, about which convergence and deletion
  are proved.

**Two writers of one config Secret** (`SecretRounds`, `SecretSync`, `Credentials`, `Base64`). The syncers all read,
then each of them writes. The results are for any number of writers; the source has two. Assumed of the server:
StringData is merged over Data, an update without a version is unconditional, an update that changes nothing keeps
the version, Secrets are read without a cache.

**Manifests from cert-manager to wrangler** (`ManifestRewrite`, `WranglerPatcher`, `CertManagerCleanup`). The rewrite
is proved on the objects in place, with Go's map order left open, and the cluster cleanup under failing requests.

**clusterctl configuration and versions** (`SemVer`, `ClusterctlConfig`, `ProviderDefaults`). The provider merge, the
image layers, version precedence, and the version state machine over repeated runs.

**Example collection** (`ExampleCollection`). The stack of directories, its termination, and what the maps hold.

## What the code does not keep

These properties fail, and the model says when.

- A cluster that is annotated as imported is imported again through a stale cache, exactly when the cache shows it as it
  was before, its namespace is labelled true and its own label does not refuse (`ReimportedExactly`,
  `StaleReimportIsReachable`). A list that shows nothing although there is a Rancher cluster makes a second one, and
  nothing else does (`OneRancherPerKey`, `DuplicatedExactly`, `DuplicateIsReachable`).
- With fresh reads too, a Rancher cluster that a user deletes comes back when the cleanup controller removes the
  finalizer before the import controller has stored the annotation (`OrderDecides`, `CleanupFirstIsReachable`).
- A deleting CAPI cluster that holds the turtles finalizer and is annotated as imported, or has no control plane,
  is never released while that lasts: the early returns of Reconcile come first (`SettlesExactly`, `StuckForever`,
  `StuckIsReachable`).
- A failed read of the Destination is only logged by DefaultSynchronizer.Get, although List.Sync is built to stop on
  errors: the update that follows is unconditional and drops what it does not manage (`ForeignKeptExactly`,
  `LostReadDrops`). A round stops exactly when the credentials are missing or the read of them fails
  (`GoesOnExactly`, `SyncSecrets`).
- The round that creates the Secret reports success although only the last writer's entries are in it
  (`CreatingIsSilent`); any other reported success of agreeing writers is true (`SuccessMeans`). Writers that disagree on an entry rewrite the Secret for ever (`DisagreementNeverRests`).
- When the source of the credentials is missing, the condition names missing keys instead, because Sync runs after
  a failed Get (`GetAndSync`). A reference to it without a colon makes SecretMapperSync.GetSecret index out of range
  (`GetSecretSplits`); the model ends the round there, and the CRD's validation keeps such references out.
- Directories that share a key, as a/b and a-b do, lose one of their contents (`CompleteExactly`,
  `CollidingIsIncomplete`).
- Moving images to a registry with a path repeats the path (`RelocatedIdempotentExactly`).

## Model

| member | source | states |
|---|---|---|
| ImportDecision.AnnotatedImportExactly | util/util.go:49-78 | An annotated cluster is still auto-imported exactly when its own label is absent or true and its namespace is labelled true. |
| ImportDecision.AutoImportExactly | util/util.go:34-78 | The whole decision: the own true label wins unless annotated, any other own label refuses, else the namespace decides; an error exactly when it is asked and unreadable. |
| ImportDecision.ParseBoolExactly | util/util.go:34-46 | The texts that count as true and as false. |
| ImportBranches.BeginExactly | internal/controllers/import_controller.go:141-182 | The first read leads to the finalizer, into reconcile, or back, exactly as the cluster needs the finalizer or passes both guards; nothing is written. |
| ImportBranches.AddFinalizerExactly | internal/controllers/import_controller.go:159-182 | The finalizer is added to what is stored, and to nothing else, exactly when the update is accepted; then the guards decide, and an answered conflict leads to another attempt. |
| ImportProtocol.SendCapiPatch | internal/controllers/import_controller.go:187-196 | A merge patch with optimistic lock is applied only to the version it was computed from, and then overlays exactly the changed fields. |
| ImportProtocol.SendRancherPatch | internal/controllers/import_controller.go:268-279 | The same for the deferred patch of a Rancher cluster. |
| ImportProtocol.DeleteMany | internal/controllers/import_controller.go:500-513 | DeleteAllOf marks exactly the named objects that have finalizers, and exactly those named without finalizers disappear. |
| ImportBranches.RequestsWrite | internal/controllers/import_controller.go:136-515 | Every request writes one kind of thing, a lost write nothing, and what answers no pending request changes nothing. |
| ImportSafety.MemoryRun | internal/controllers/import_controller.go:136-515 | Whatever the cache shows, over whole runs everything a controller holds is outdated or is what is stored, and past the guards it has a control plane and no annotation. |
| ImportSafety.ReconcileIsIsolated | internal/controllers/import_controller.go:208-232 | A reconcile for one key never changes CAPI or Rancher clusters of another, even with a stale cache. |
| ImportSafety.FreshInvStep | internal/controllers/import_controller.go:205-345 | Uniqueness, no orphans and what each pending request relies on are kept by every step of anybody. |
| ImportSafety.NoOrphans | internal/controllers/import_controller.go:154-170 | In every reachable state an owned, not deleting Rancher cluster has a CAPI cluster that exists and holds the turtles finalizer. |
| ImportUnique.OneRancherPerKey | internal/controllers/import_controller.go:208-232 | In every run from an initial state, through any cache, as long as no reconcile is told that nothing is owned when something is, at most one Rancher cluster carries a key's owner labels, so taking the first item of a list is no choice. |
| ImportUnique.FreshListsAreTrue | internal/controllers/import_controller.go:219-224 | Fresh lists are enough for that. |
| ImportSafety.FinalizerLeavesLast | internal/controllers/import_controller.go:235-266 | The turtles finalizer leaves a CAPI cluster only when no live Rancher cluster of it is left. |
| ImportOnce.MarkAndReleaseTogether | internal/controllers/import_controller.go:473-498 | The annotation appears only together with the removal of the finalizer, and no request of a reconcile takes it away. |
| ImportOnce.NoReimport | internal/controllers/import_controller.go:334-344 | After reconcileDelete stored the annotation, no Rancher cluster of the key appears in any run until a user removes it or the cluster is gone: for any labels with fresh reads, for any cache when the namespace is not found labelled true. |
| ImportAgain.RefusedIsNotReimported | util/util.go:60-64 | A cluster whose own label refuses is not imported again under any cache and whatever the namespace says. |
| ImportCache.CreatesExactly | internal/controllers/import_controller.go:154-344 | The reconciles of an idle key create a Rancher cluster through a cache exactly when it shows a cluster that gets past the guards, shows that nothing is owned, and what is stored is admitted by its label or the namespace's the cache shows. |
| ImportCache.ReimportedExactly | internal/controllers/import_controller.go:414-430 | An annotated cluster is imported again exactly when the cache can show it as it passed the guards, an empty list and its namespace labelled true, and its own stored label is absent or true. |
| ImportCache.DuplicatedExactly | internal/controllers/import_controller.go:208-232 | A key with one Rancher cluster gets a second one exactly when the cache can show an empty list and a cluster that gets past the guards, and what is stored is admitted. |
| ImportAgain.StoredIsGenuine | internal/controllers/import_controller.go:141-150 | Whatever was stored at some point of a run is among what a cache may show at its end. |
| ImportAgain.StaleReimportIsReachable | internal/controllers/import_controller.go:179-182 | From an initial state, with fresh reads and without an edit, a run in which the annotation is stored, and then reconciles that import again by reading the cluster as it was stored before. |
| ImportAgain.OrderDecides | internal/controllers/cleanup_controller.go:60-74 | When the cleanup controller comes first nothing is annotated and the next reconcile imports again exactly when that is still allowed; when the import controller comes first the annotation is stored. |
| ImportAgain.CleanupFirstIsReachable | internal/controllers/cleanup_controller.go:65-69 | With fresh reads and without an edit, a run that deletes a Rancher cluster and has it back, unannotated. |
| ImportAgain.DuplicateIsReachable | internal/controllers/import_controller.go:219-232 | From an initial state, a run that imports a cluster, and then a reconcile that makes a second Rancher cluster because its list, and nothing else it reads, is as it was at the start. |
| ImportOnce.ReleaseFollowsStore | internal/controllers/import_controller.go:235-250 | A reconcile about to remove a Rancher finalizer has itself stored annotation and CAPI finalizer removal in one earlier write, over whole runs with any cache. |
| ImportOnce.OnlyReleaseTakesFinalizer | internal/controllers/import_controller.go:244-250 | No other request takes the turtles finalizer off a Rancher cluster. |
| ImportWrites.ReconcileAddsNew | internal/controllers/import_controller.go:294-344 | All an undisturbed reconcile adds is one Rancher cluster: owned by the key, named as it, with its description or the default text, no creator, migrated, unmanaged version, external exactly with caapf, and the turtles finalizer only. |
| ImportWrites.ReconcileCreatesExactly | internal/controllers/import_controller.go:332-344 | Where a Rancher cluster is missing, an undisturbed reconcile creates that one exactly when the import is allowed; the CAPI cluster gains the finalizer and keeps the fleet-addon one for now. |
| ImportWrites.OwnedWasCreated | internal/controllers/import_controller.go:294-344 | In every cached run a Rancher cluster that gains the owner labels of a key was stored, as new, by one create of a reconcile of that key. |
| ImportWrites.OwnedBecomes | internal/controllers/import_controller.go:322-345 | An undisturbed reconcile of an imported cluster adds the finalizer and the no-creator annotation, keeps the external-fleet one exactly with caapf, notes a finished migration, drops the fleet-addon finalizer without caapf, and changes nothing else. |
| ImportWrites.ReleasesExactly | internal/controllers/import_controller.go:473-498 | The writes that let a CAPI cluster go take the turtles finalizer only, and set the annotation to "true" or leave the spec alone. |
| ImportWrites.RancherReleasesExactly | internal/controllers/import_controller.go:244-250 | The release of a Rancher cluster takes the turtles finalizer only. |
| ImportWrites.UnimportsExactly | internal/controllers/import_controller.go:226-252 | When the Rancher cluster is being deleted, an undisturbed reconcile annotates the CAPI cluster, takes the turtles finalizer off both and changes nothing else, whether the CAPI cluster is being deleted or not. |
| ImportWrites.DeletesExactly | internal/controllers/import_controller.go:252-266 | Otherwise, when the CAPI cluster is being deleted, it deletes exactly its Rancher clusters and takes the turtles finalizer off the CAPI cluster, unannotated. |
| ImportWrites.CleanupExactly | internal/controllers/cleanup_controller.go:60-75 | The cleanup reconcile takes the turtles finalizer, and nothing else, exactly from an owned Rancher cluster that is being deleted. |
| ImportWrites.ReconcileGuards | internal/controllers/import_controller.go:398-411 | An undisturbed reconcile writes objects into its own downstream cluster only, and none while a cleanup job runs there. |
| ImportManifest.AddAllExactly | internal/controllers/helpers.go:320-337 | Applying leaves existing objects unchanged, adds every object of the manifest and nothing else. |
| ImportManifest.AddAllFirst | internal/controllers/helpers.go:320-337 | A new object is as its first occurrence in the manifest says. |
| ImportManifest.RetryFromPrefix | internal/controllers/helpers.go:214-233 | Retrying after any prefix was applied gives what one clean run gives. |
| ImportManifest.ReadyExactly | internal/controllers/helpers.go:235-268 | Readiness holds exactly when every document decodes and no object of the manifest is being deleted. |
| ImportManifest.CheckExactly | internal/controllers/helpers.go:235-298 | Wait, ready or failed, each exactly: a cleanup job or an object under deletion asks to wait, else a broken document fails. |
| ImportManifest.ReadableAre | internal/controllers/helpers.go:214-233 | The objects of a manifest are those of its documents before the first broken one. |
| ImportManifest.RemoteClient.CreateObject | internal/controllers/helpers.go:320-337 | One create, where an object that exists is no error. |
| ImportManifest.RemoteClient.CreateRawManifest | internal/controllers/helpers.go:270-283 | A document is applied up to the first failing object; a broken one not at all. |
| ImportManifest.RemoteClient.CreateImportManifest | internal/controllers/helpers.go:214-233 | Success creates every object of every document, failure exactly a prefix; what existed is unchanged and nothing else appears. |
| ImportManifest.RemoteClient.CheckDeletion | internal/controllers/helpers.go:300-318 | Asks to wait exactly when the object exists and is being deleted. |
| ImportManifest.RemoteClient.VerifyRawManifest | internal/controllers/helpers.go:285-298 | Passes only a document that decodes and none of whose objects is being deleted. |
| ImportManifest.RemoteClient.ValidateImportReadiness | internal/controllers/helpers.go:235-268 | Passes only a cluster that is ready for the manifest and has no running cleanup job. |
| ImportManifest.RemoteClient.RemoveFleetNamespace | internal/controllers/helpers.go:177-212 | Reports the migration only when the old agent namespace is gone and the new one exists, and touches nothing else. |
| ImportManifest.RemoteClient.ApplyWhenReady | internal/controllers/import_controller.go:398-411 | Whatever fails, nothing is written while a cleanup job runs, a document does not decode or an object of the manifest is being deleted; else a prefix of the manifest is. |
| ImportQuiet.ReconcileRuns | internal/controllers/import_controller.go:136-203 | A reconcile without faults is a fresh run of the protocol that ends with nothing in flight. |
| ImportDeletion.DeletionSettles | internal/controllers/import_controller.go:174-266 | From any reachable state (any crash point), one fault-free import reconcile and the cleanups leave nothing held in deletion, exactly unless the CAPI cluster is stuck: deleting, held, and annotated or without control plane. |
| ImportDeletion.SettlesExactly | internal/controllers/import_controller.go:174-266 | Some number of such rounds settles the deletion exactly unless the cluster is stuck. |
| ImportDeletion.StuckForever | internal/controllers/import_controller.go:174-182 | In every run, with any cache, a stuck cluster stays stuck until somebody takes the annotation away or its control plane comes back. |
| ImportDeletion.ReleasedSticks | internal/controllers/import_controller.go:136-266 | No request of a reconcile puts the finalizer back on a deleting CAPI cluster. |
| ImportDeletion.StuckIsReachable | internal/controllers/import_controller.go:179-182 | A fresh run from an initial state that ends with a stuck cluster, which stays so in every run that keeps the annotation. |
| ImportConvergence.EveryChangeLowers | internal/controllers/import_controller.go:287-412 | Whatever Rancher and the downstream cluster answer, as long as the import is allowed and nothing is being deleted, a reconcile that changes anything strictly lowers the rank, and at rank zero it changes nothing. |
| ImportConvergence.Progress | internal/controllers/import_controller.go:287-412 | When they answer, a reconcile changes nothing exactly at rank zero. |
| ImportConvergence.Converges | internal/controllers/import_controller.go:136-203 | Finitely many reconciles reach a state in which reconciling writes nothing. |
| ImportConvergence.RankZeroIsImported | internal/controllers/import_controller.go:287-412 | At rank zero the Rancher cluster exists, both finalizers are in place, and an agent that is not ready has its token and every manifest object. |
| ImportCommute.OthersCommute | internal/controllers/import_controller.go:136-203 | What others do does not depend on a reconcile's memory, nor reach into it. |
| ImportServer.ListOwned | internal/controllers/import_controller.go:208-224 | A list with the owner labels shows every owned cluster and no other. |
| ImportServer.BothFresh | internal/controllers/import_controller.go:136-203 | Fresh reads of one reconcile and of all others make a fresh run. |
| ImportServer.BothCached | internal/controllers/import_controller.go:136-203 | Reads of one reconcile through a stale cache and honest others make a cached run. |
| ImportRequests.ListSame | internal/controllers/import_controller.go:226-232 | With one owned cluster at most, every complete list leads to the same next request. |
| ImportController.GetClusterRegistrationManifest | internal/controllers/helpers.go:61-96 | Creates a missing token and then waits; a manifest comes only from the published URL. |
| ImportController.Register | internal/controllers/import_controller.go:374-411 | Only the token of the cluster or, when it was ready and has no running cleanup job, a prefix of the manifest on its downstream cluster changes. |
| ImportController.MigrateFleet | internal/controllers/import_controller.go:358-372 | Only the old agent namespace may start to terminate. |
| ImportController.DownstreamWork | internal/controllers/import_controller.go:346-411 | A ready and migrated agent needs nothing; no object is written while a cleanup job runs; without faults exactly the quiet work is done. |
| ImportController.CAPIImportReconciler.TryAddFinalizer | internal/controllers/import_controller.go:159-167 | One attempt follows the protocol and conflicts only when it may be repeated. |
| ImportController.CAPIImportReconciler.AddFinalizer | internal/controllers/import_controller.go:154-170 | The bounded retry follows the protocol and ends with the stored cluster or gives up. |
| ImportController.CAPIImportReconciler.PassGuards | internal/controllers/import_controller.go:138-187 | Get, finalizer and early returns follow the protocol. |
| ImportController.CAPIImportReconciler.ReconcileDelete | internal/controllers/import_controller.go:473-498 | The run continues with annotation and finalizer removal as one patch; an error skips the Rancher finalizer. |
| ImportController.CAPIImportReconciler.ReleaseRancher | internal/controllers/import_controller.go:244-250 | The removal of the Rancher finalizer continues the run. |
| ImportController.CAPIImportReconciler.DeleteDependentRancherCluster | internal/controllers/import_controller.go:500-515 | DeleteAllOf continues the run; only its success leads to the finalizer. |
| ImportController.CAPIImportReconciler.DropFinalizer | internal/controllers/import_controller.go:259-265 | The removal of the CAPI finalizer continues the run. |
| ImportController.CAPIImportReconciler.ShouldAutoImportUncached | internal/controllers/import_controller.go:414-430 | The uncached read replaces what is in memory, and only a positive decision leads to a create. |
| ImportController.CAPIImportReconciler.NamespaceAllows | util/util.go:67-77 | Only a true label that was read leads to a create. |
| ImportController.CAPIImportReconciler.CreateMissing | internal/controllers/import_controller.go:294-344 | The create continues the run; undisturbed, the Rancher cluster it stores has the owner, the display name, the description or the default text, the annotations and the finalizer the source gives it. |
| ImportController.CAPIImportReconciler.WorkOn | internal/controllers/import_controller.go:346-411 | The downstream work continues the run, writes no object while a cleanup job runs and, undisturbed, is exactly the quiet one. |
| ImportController.CAPIImportReconciler.PatchRancher | internal/controllers/import_controller.go:268-281 | The deferred patch continues the run. |
| ImportController.CAPIImportReconciler.ReconcileNormal | internal/controllers/import_controller.go:287-412 | Every branch continues the run up to the final patch. |
| ImportController.CAPIImportReconciler.ListOwnedClusters | internal/controllers/import_controller.go:208-232 | The list continues the run; undisturbed, its order does not matter. |
| ImportController.CAPIImportReconciler.ReconcileCluster | internal/controllers/import_controller.go:205-285 | Every branch of reconcile continues the run up to the final patch. |
| ImportController.CAPIImportReconciler.PatchCluster | internal/controllers/import_controller.go:194-196 | The final patch ends the run with nothing in flight. |
| ImportController.CAPIImportReconciler.Reconcile | internal/controllers/import_controller.go:136-203 | With others acting between any two requests, any of them lost and any cached read stale, a reconcile is a cached run of the protocol; with fresh reads it is a fresh run and keeps the invariant; undisturbed it computes the quiet reconcile, adds nothing but a Rancher cluster as new for the stored CAPI cluster, and writes no object while a cleanup job runs. |
| ImportController.ReconcileCleanup | internal/controllers/cleanup_controller.go:60-75 | The cleanup reconcile is a run of the protocol for whatever cluster it read; it takes the turtles finalizer, and nothing else, from one that is being deleted and holds it, and leaves any other and the CAPI clusters alone. |
| Base64.RoundTrip | internal/sync/secret_mapper_sync.go:182-184 | Decoding (section 4 of RFC 4648) what was encoded gives the bytes back. |
| Base64.Canonical | internal/sync/secret_mapper_sync.go:182-184 | A text that decodes is the encoding of what it decodes to. |
| Base64.AlphabetIs | internal/sync/secret_mapper_sync.go:182-184 | The alphabet of section 4 of RFC 4648. |
| Base64.EncodeIs | internal/sync/secret_mapper_sync.go:182-184 | Three bytes are one 24-bit number in four digits, most significant first, padded with "=" at the end. |
| Credentials.Validate | internal/sync/secret_mapper_sync.go:121-129 | Finds a missing source exactly when there is one. |
| Credentials.Into | internal/sync/secret_mapper_sync.go:327-340 | Writes exactly the targets: the source bytes, a text that decodes to them, or one that decodes to the rendered template, and nothing where sources are missing; reports an error exactly then. |
| Credentials.AwsEntries | internal/sync/secret_mapper_sync.go:58-71 | The four AWS targets with their sources. |
| Credentials.AzureEntries | internal/sync/secret_mapper_sync.go:72-81 | The eight Azure targets, each raw one and its encoded partner from one source. |
| Credentials.VsphereEntries | internal/sync/secret_mapper_sync.go:82-85 | The two vSphere targets. |
| Credentials.GcpEntries | internal/sync/secret_mapper_sync.go:86-88 | The GCP target, encoded. |
| Credentials.DigitaloceanEntries | internal/sync/secret_mapper_sync.go:89-92 | Both DigitalOcean targets, raw and encoded. |
| Credentials.KnownExactly | internal/sync/secret_mapper_sync.go:57-92 | The known providers. |
| Credentials.MappedKeys | internal/sync/secret_mapper_sync.go:57-92 | Exactly the provider's targets are written. |
| Credentials.MapsEachTarget | internal/sync/secret_mapper_sync.go:57-92 | The targets of a provider are distinct, so each holds its own conversion. |
| Credentials.EncodedDecodesToRaw | internal/sync/secret_mapper_sync.go:157-184 | A base64 entry decodes to the raw entry mapped from the same source, for all contents. |
| Credentials.TemplateDecodes | internal/sync/secret_mapper_sync.go:131-153 | A template entry decodes to the rendered text. |
| Credentials.SuffixHasPartner | internal/sync/secret_mapper_sync.go:70-79 | Every target named X_B64 has a raw target X with the same source. |
| Credentials.GetSecretSplits | internal/sync/secret_mapper_sync.go:217-227 | A reference "namespace:name" is split at its first colon, and there is no name exactly when a reference has none. |
| SecretRounds.SatisfiedExactly | internal/sync/core.go:61-105 | A write changes nothing exactly when entries, finalizer and owner are in place, and puts them there. |
| SecretRounds.FirstUnsatisfiedWrites | internal/sync/interface.go:44-66 | A round on a stored Secret writes for the first writer that is not satisfied; the conflicts of the later ones change nothing. |
| SecretRounds.LastWriterRemains | internal/sync/client.go:40-61 | A round without a Secret leaves only the entries of the last writer. |
| SecretRounds.CreatingIsSilent | internal/sync/client.go:55-58 | That round reports no error. |
| SecretRounds.SuccessExactly | internal/sync/interface.go:55-66 | A round on a stored Secret reports no error exactly when nobody but the last writer had to write. |
| SecretRounds.SuccessMeans | internal/sync/interface.go:55-66 | When agreeing writers report no error, all entries are in place exactly when the Secret was there before or the last writer brings the entries of all. |
| SecretRounds.RoundProgresses | internal/controllers/operator_reconciler.go:489-506 | A round satisfies one more writer and disappoints none, or changes nothing because all are satisfied. |
| SecretRounds.Converges | internal/controllers/operator_reconciler.go:489-506 | As many rounds as writers satisfy all, and nothing changes afterwards. |
| SecretRounds.ConvergesExactly | internal/controllers/operator_reconciler.go:489-506 | Rounds ever satisfy all writers exactly when the writers agree on common entries and the server accepts the finalizer. |
| SecretRounds.DisagreementNeverRests | internal/sync/interface.go:55-66 | Disagreeing writers store a new version in every round. |
| SecretRounds.RoundsKeepForeign | internal/sync/core.go:61-93 | No number of rounds touches entries and finalizers of others. |
| SecretRounds.TwoWritersConverge | internal/controllers/operator_reconciler.go:489-506 | From any Secret or none, two rounds reach the stored data overridden by variables and credentials, with the foregroundDeletion finalizer and one owner, and later rounds change neither data nor version. |
| SecretRounds.ForeignKeptExactly | internal/sync/core.go:49-76 | Whatever happened since its read, a write keeps entries it does not manage exactly when the read succeeded, or the update was lost or refused, or there were none. |
| SecretRounds.VanishedIsReported | internal/sync/client.go:40-61 | A Secret that has gone since it was read is not created again and the write fails; one that was never there is created. |
| SecretSync.SecretServer.Patch | internal/sync/client.go:40-61 | Update, then create when nothing is found, under any faults. |
| SecretSync.SecretSync.Get | internal/sync/core.go:49-59 | Fills the Destination; a failed read leaves it empty without an error. |
| SecretSync.SecretSync.Apply | internal/sync/core.go:61-105 | One write of the Destination, with the finalizer and the provider as the only owner, under any faults. |
| SecretSync.SecretSync.SetFinalizers | internal/sync/core.go:78-93 | Adds the finalizer unless it is there. |
| SecretSync.SecretMapperSync.Get | internal/sync/secret_mapper_sync.go:230-283 | Fails exactly when the credentials are not located, by reference or by annotations, or the request for them is not answered. |
| SecretSync.LocatedExactly | internal/sync/secret_mapper_sync.go:230-268 | The first cloud credential with the name referred to, or else with the name and driver annotations in cattle-global-data, is located; none exactly when there is none. |
| SecretSync.SecretMapperSync.Sync | internal/sync/secret_mapper_sync.go:286-318 | StringData becomes the mapped entries, and the condition says mapped exactly when every source key is present. |
| SecretSync.GetAndSync | internal/sync/interface.go:47-49 | Exactly ReadOne under any faults; Sync follows a failed Get, so for a known provider the condition names missing keys and never the missing source. |
| SecretSync.SyncList | internal/sync/interface.go:44-53 | Error, Destinations and the requests used are exactly those of ReadList, under any faults. |
| SecretSync.ApplyList | internal/sync/interface.go:55-66 | The writes in order and whether one failed, exactly ApplyWith, under any faults. |
| SecretRounds.AnsweredRound | internal/controllers/operator_reconciler.go:489-506 | Without faults a round is the one whose convergence is proved, or nothing when a source is missing. |
| SecretRounds.GoesOnExactly | internal/controllers/operator_reconciler.go:496-500 | A round goes on to write exactly when the credentials are there and the second request, the one for them, is answered; no other failing read stops it. |
| SecretRounds.ReadWritesKeepUnmanaged | internal/sync/core.go:61-76 | When every Destination was read, no fault of the writes touches an unmanaged entry. |
| SecretRounds.SecondArrives | internal/controllers/operator_reconciler.go:489-506 | A faultless round on a Secret that has the variables brings in all credentials and reports no error. |
| SecretRounds.LostReadDrops | internal/sync/core.go:49-59 | When the first read alone is lost the round goes on and an entry that nobody manages is gone. |
| SecretSync.NewList | internal/sync/secret_mapper_sync.go:194-215 | The list has the mapper exactly when credentials are given by either name and the provider is aws, azure, vsphere, gcp or digitalocean; there is no list exactly when then their name cannot be split. |
| SecretSync.SyncSecrets | internal/controllers/operator_reconciler.go:489-506 | Whatever requests fail, exactly RoundWith; it writes if and only if the credentials are there and the request for them is answered. A faultless round on a Secret that has the variables leaves every target of the provider in it with the value from the cloud credential that is meant. |
| ManifestRewrite.AnnotationCorrect | internal/provider/wrangler.go:69-104 | A Service gets the secret of the last Certificate named by the last webhook configuration that refers to it; all others keep their annotations. |
| ManifestRewrite.RewriteSucceedsExactly | internal/provider/wrangler.go:128-189 | The rewrite fails exactly when a Certificate has no secret name, an annotation names no Certificate, or an annotated webhook configuration does not decode. |
| ManifestRewrite.RewriteRemovesCertManager | internal/provider/wrangler.go:106-120 | No Certificate, Issuer or object with the inject annotation is left. |
| ManifestRewrite.RewriteSelects | internal/provider/wrangler.go:106-120 | The rewritten manifest holds exactly the objects that are neither Certificate nor Issuer, in order. |
| ManifestRewrite.RewriteIdempotent | internal/provider/wrangler.go:69-123 | Rewriting twice is rewriting once. |
| ManifestRewrite.RewritesCommute | internal/provider/rancher.go:26-48 | Rewriting and labelling CRDs can be done in either order. |
| WranglerPatcher.GetCertificates | internal/provider/wrangler.go:128-151 | Certificates by key, or an error. |
| WranglerPatcher.GetServices | internal/provider/wrangler.go:156-190 | Services that annotated configurations refer to, or an error. |
| WranglerPatcher.AddWebhookServices | internal/provider/wrangler.go:192-242 | The services of one configuration, later ones over earlier ones. |
| WranglerPatcher.ServicesWellKeyed | internal/provider/wrangler.go:206-213 | Every service is stored under its own key. |
| WranglerPatcher.AnnotateService | internal/provider/wrangler.go:89-103 | One object against the service map, the same for every iteration order. |
| WranglerPatcher.AnnotateServices | internal/provider/wrangler.go:86-104 | All objects in place. |
| WranglerPatcher.StripAndFilter | internal/provider/wrangler.go:106-122 | Returns the objects that are neither Certificate nor Issuer, in order; all lose the inject annotation and no other. |
| WranglerPatcher.WranglerPatcher | internal/provider/wrangler.go:69-123 | Returns exactly the objects that are neither Certificate nor Issuer, themselves and in order, rewritten as specified; an error leaves every object unmodified. |
| WranglerPatcher.AddClusterIndexedLabelFn | internal/provider/rancher.go:26-48 | Labels exactly the CRDs in place. |
| CertManagerCleanup.Cluster.DeleteAll | internal/provider/wrangler.go:262-300 | Each deletion lowers what remains by one; on success none of the kind is left. |
| CertManagerCleanup.SelectedExactly | internal/provider/wrangler.go:467-495 | What is selected, and what of it remains to be cleaned, by label value, namespace, kind and annotation. |
| CertManagerCleanup.SelectorExactly | internal/provider/wrangler.go:482-485 | There is a selector exactly when both label values are allowed. |
| CertManagerCleanup.Cluster.StripAll | internal/provider/wrangler.go:327-363 | Each update lowers what remains by one; on success none of the kind is annotated. |
| CertManagerCleanup.Cluster.RestartAll | internal/provider/wrangler.go:434-465 | Selected Deployments are restarted and nothing else changes. |
| CertManagerCleanup.CleanupCertManagerResources | internal/provider/wrangler.go:247-378 | Resources of others are untouched, the provider's lose Certificates, Issuers and the inject annotation and have Deployments restarted, nothing else; each carried-out write lowers the count by one, and the condition is set only when nothing of cert-manager is left, after which nothing is done. |
| CertManagerCleanup.CleanupEventually | internal/provider/wrangler.go:247-378 | After any failing runs one without faults finishes, with exactly as many writes in total as there was to do. |
| SemVer.PrecedenceTotal | internal/controllers/clusterctl/config.go:258-259 | Precedence (section 11 of Semantic Versioning 2.0.0) is total and antisymmetric. |
| SemVer.PrecedenceExactly | internal/controllers/clusterctl/config.go:258-259 | Precedence as the section words it: major, minor, patch, a pre-release below its release, pre-releases by their first difference. |
| SemVer.PrecedenceTransitive | internal/controllers/clusterctl/config.go:258-259 | Precedence is transitive. |
| ClusterctlConfig.MergeProviders | internal/controllers/clusterctl/config.go:129-149 | The base in order with each slot replaced by its last override, then every other override in order; where the base repeats a key its last slot is replaced. |
| ClusterctlConfig.MergeIs | internal/controllers/clusterctl/config.go:129-149 | The merge slot by slot, without the merge function. |
| ClusterctlConfig.GetProviderVersion | internal/controllers/clusterctl/config.go:207-215 | The version of the first provider with the name and, up to case, the kind, else "latest". |
| ClusterctlConfig.VersionOfUrl | internal/controllers/clusterctl/config.go:217-228 | The version is the second to last segment of the URL; a URL without a slash has the latest. |
| ClusterctlConfig.LookupIsLayered | internal/controllers/clusterctl/config.go:129-149 | For distinct base keys and plain kinds, searching the merged list gives the last override of a base provider and the first override of a new one. |
| ClusterctlConfig.Relocate | internal/controllers/clusterctl/config.go:163-181 | Every image moves to the registry, for every map order. |
| ClusterctlConfig.RelocatedIs | internal/controllers/clusterctl/config.go:163-203 | The first segment gives way to the registry with exactly one separator, and the tag stays. |
| ClusterctlConfig.OverrideImages | internal/controllers/clusterctl/config.go:184-191 | The last override of a name wins; names are those of both layers. |
| ClusterctlConfig.LastImageIs | internal/controllers/clusterctl/config.go:184-191 | Which override is the last of a name. |
| ClusterctlConfig.ClusterConfig | internal/controllers/clusterctl/config.go:106-194 | Fails exactly when a setting cannot be read; otherwise providers and images are layered. |
| ClusterctlConfig.RelocatedIdempotentExactly | internal/controllers/clusterctl/config.go:163-203 | Moving an image twice is moving it once exactly when the registry is a host without a slash. |
| ProviderDefaults.AdvanceClamps | internal/provider/defaults.go:98-161 | After a successful run the version is empty, "latest" or at most the catalogue's, and with automatic updates the catalogue's. |
| ProviderDefaults.AdvanceExactly | internal/provider/defaults.go:98-161 | A run fails exactly when a version that counts does not parse; else the version becomes the catalogue's unless the provider is unknown or an update, due for an unset, "latest" or older version, is left to the user. |
| ProviderDefaults.AdvanceLowersExactly | internal/provider/defaults.go:112-158 | A run lowers a version exactly when it was beyond the catalogue. |
| ProviderDefaults.ConditionExactly | internal/provider/defaults.go:115-158 | The condition is Unknown for an unknown provider, whose version stays; else True exactly when the version now is the catalogue's. |
| ProviderDefaults.MessagesExactly | internal/provider/defaults.go:112-158 | What the condition says in each case. |
| ProviderDefaults.ParsedCuts | internal/controllers/clusterctl/config.go:240-259 | One leading "v" of a version does not count. |
| ProviderDefaults.NeverDecreases | internal/provider/defaults.go:98-161 | Over any runs with growing catalogue versions and any toggling of updates, a version within the catalogue never decreases and stays within. |
| ProviderDefaults.FindCatalogue | internal/provider/defaults.go:101-106 | The catalogue's version is that of the layered lookup. |
| ProviderDefaults.CAPIProvider.SetFeatures | internal/provider/defaults.go:169-178 | Feature variables override those of the status: each is "true" or "false" under its name. |
| ProviderDefaults.CAPIProvider.SetDefaultProviderSpec | internal/provider/defaults.go:72-96 | References get a namespace, the config secret is set, variables are layered; nothing else changes. |
| ProviderDefaults.CAPIProvider.SetLatestVersion | internal/provider/defaults.go:98-161 | Version and condition advance as specified; an error leaves both. |
| ProviderDefaults.CAPIProvider.SetProviderSpec | internal/provider/defaults.go:46-69 | The whole run; an error keeps the defaults and leaves out the provider's own variables. |
| ProviderDefaults.VariablesPrecedence | internal/provider/defaults.go:46-96 | Provider-specific variables win over features, those over the spec, that over the status; other keys stay, and the config secret has a namespace. |
| ProviderDefaults.SpecIs | internal/provider/defaults.go:46-96 | The variables, the config secret and the manifest reference after a successful run, by name and value. |
| ProviderDefaults.SecondRunChangesNothing | internal/provider/defaults.go:46-178 | A second run with the same catalogue changes neither spec nor variables, and keeps the status of the condition exactly unless the condition announced the update untruly before. |
| ProviderDefaults.RunsKeepSincere | internal/provider/defaults.go:116-158 | No run leaves a condition that announces an update untruly. |
| ProviderDefaults.SettledAfterAnyRuns | internal/provider/defaults.go:46-178 | For a provider that starts without the condition, after any runs, a second run with the same catalogue changes neither spec, variables nor the status of the condition. |
| ExampleCollection.JoinYamls | examples/main.go:135-146 | Every text that is not empty, in order, each after a separator. |
| ExampleCollection.JoinedSeparates | examples/main.go:104-146 | The joined text of a directory holds every file once, in order, with only separators added and at least one before each. |
| ExampleCollection.YamlsSelect | examples/main.go:119-131 | The YAML files of a directory, in order. |
| ExampleCollection.KeyIs | examples/main.go:69-72 | The key is the path below the prefix with dashes for slashes. |
| ExampleCollection.Examples.CollectFiles | examples/main.go:104-132 | Pushes the subdirectories in order and collects the directory's own files under its key. |
| ExampleCollection.VisitLowers | examples/main.go:65-80 | Visiting a directory lowers the number of directories in pending subtrees by one. |
| ExampleCollection.VisitCovers | examples/main.go:104-117 | Every directory is visited or below one that is pending. |
| ExampleCollection.CompleteExactly | examples/main.go:65-98 | Every file is found under its directory's key exactly when directories that share a key have the same content. |
| ExampleCollection.CollidingIsIncomplete | examples/main.go:69-72 | The directories a/b and a-b, with one file each, are never collected completely. |
| ExampleCollection.Examples.CollectTree | examples/main.go:64-80 | The stack loop ends for every tree, and what it returns is complete exactly when keys tell directories apart. |
| ExampleCollection.Examples.Collect | examples/main.go:60-101 | The same for both maps. |
| ExampleCollection.ClosestMatch | examples/main.go:183-194 | A nearest key, whatever the map order. |

## Left out

- Manager wiring, watches, predicates and event mapping: a reconcile may happen for any key at any time.
- The in-memory effect of a get: it replaces the object a controller holds, while Go decodes into it and may keep map entries the server no longer has.
- The downstream cluster: the requests of one reconcile to it happen as one step of the protocol, although each of them may fail; what others do there happens before or after.
- CAPI and Rancher clusters hold the fields the controllers use; labels and annotations that they never read are not there.
- Downloading the manifest, TLS and CA selection, YAML and JSON decoding: a manifest is a sequence of documents that decode into objects or do not.
- Requeue intervals, logging, events and timestamps.
- The owner labels: that Rancher or users forge or change them.
- Secret syncers: other writers between the reads and the writes of a round appear in ForeignKeptExactly only, convergence is for the writers alone; names of managed fields and kinds.
- Credential templates: rendering is a parameter, and the AWS template's text is not part of this model.
- CertManagerCleanup.CleanupCertManagerResources: objects vanish when deleted, that is, Certificates and Issuers carry no finalizers of others.
- CleanupWranglerResources: it has the same loops as its counterpart for one kind.
- The parser of semantic versions (github.com/blang/semver) is a parameter; case folding of provider kinds is one too.
- ProviderDefaults.CAPIProvider.SetProviderSpec: a nil map in the status, on which the source panics, is a precondition.
- Reading the embedded examples cannot fail; regular expressions and the Levenshtein distance are left to parameters.
- The phases of cluster-api-operator, the health check and UI plugin controllers, and the conversion tables of kinds.
