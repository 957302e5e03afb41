# naisd in Dafny

naisd is a deploy daemon: it takes a request, a manifest and a list of Fasit resources, turns them into Kubernetes objects
and writes those with get, modify, create or update. Its HTTP handlers run at the same time and hold no locks; whatever
keeps them from undoing each other's work is the API server's resource versions. This project models that reconciler as a
protocol over a versioned store and proves what it keeps, together with the parts of the daemon that have to agree with each
other (environment variables, the Secret, the certificate volume) and its text translations, validation, rollout status and
Fasit registration.

## How the model is built

- **The API server** (`Kubernetes`). Objects under keys, each with a version; version 0 is the empty resourceVersion. Create
  fails if the key exists, Update fails if it does not or if a non-empty version is stale, every success hands out a version
  never seen before. `Cluster` is the client with its mutable state; a list of faults says which call the network loses, and
  whether before or after it took effect. `World` is the same on values.
- **The reconciler** (`Steps`, `Reconciler`). Everything the daemon does to one object is a step: look, decide, write.
  `DeployPlan` and `DeletePlan` list the steps of a request. The methods of `Reconciler` follow the daemon function by
  function over a `Cluster`; each is proved to be its step, and `CreateOrUpdateK8sResources` and `DeleteK8sResources` to be
  runs of their plans, under all faults. The results about plans are therefore results about these methods.
- **Handlers at the same time** (`Interleaving`, `Histories`, `SharedRules`, `Isolation`, `Independence`). A state machine in
  which any number of requests look and write in any order, under any faults, while others change objects from outside.
  Its log of commits is what the serializability results speak about.
- **Walks over maps** (`Walks`, `Environment`, `Secrets`, `Reordering`). Go leaves the order within a map open, so each walk
  takes any remaining key, and the results hold for all orders. A pod is a function of its request and of the orders of its
  walks, and of nothing else.
- **What a deploy works out** (`Deploys`). `RightInputs` says what the plan of a deploy has to contain, or the error that is
  reported instead; two deploys of one request need not agree on it.
- **What a deploy leaves** (`DeployedObjects`, `Delivery`). The objects in the cluster after a deploy that got through, under
  their keys and field by field, and how secrets, certificates and properties reach the container; both are stated about the
  store, and say nothing about steps.
- **Texts** are sequences of characters. Case mapping is ASCII only. What Go's standard library and Kubernetes decide is a
  parameter: `parse` for `url.Parse`, `parses` for the quantity parser, `isLetter` for the letters of `\p{L}`.

Where the source does something that its purpose does not ask for, the model keeps it, and a lemma says exactly when it
matters:

- map walks take a new order on each run, so a further deploy of the same request leaves everything as it is but the
  Deployment, and that too exactly when no map of any resource has two entries (`FurtherDeploy`, `FurtherDeploysAgreeExactly`);
- the Redis quantity validators look at the wrong list, so that a validated manifest can still panic (`RedisPanicsExactly`),
  after account, role binding and service have been written (`RedisBreaksOffExactly`, `BrokenOffDeploy`);
- a deletion fails unless the shared configmap exists (`DeleteSucceedsExactly`), and the delete endpoint, which does not know
  the team, leaves the rule file of any application deployed with one (`EndpointMissesRules`);
- an application has its rule file for itself exactly when team, name and namespace are free of dashes
  (`RuleFileOwnedExactly`), and its hostname exactly when it is in the default namespace and every dash of its name is
  followed by "default" (`HostnameOwnedExactly`);
- a lost look makes service account and role binding create what exists (`WrongChoicesInRun`);
- rewriting the alert rules of one manifest twice prefixes them twice (`RewritingIsNotIdempotent`);
- proxy variables and `ELECTOR_PATH` go in without the duplicate check (`ContainerNames`), an application called
  `vault-secrets` gets two volumes of one name (`VolumeNamesClash`), a path that begins with two slashes keeps them
  (`BeginsWithOneSlash`), and an option line with a space in a value cannot be read back (`OptionsRoundTrip`).

## Model

| member | source | states |
|---|---|---|
| Kubernetes.PerformMovesOn | api/resourcecreator.go:965-1013 | what the API server is trusted with: a call hands out only new versions, and keeps versions non-empty and objects under keys of their kind |
| Kubernetes.Cluster.Get | api/resourcecreator.go:874-963 | a look finds the object, its absence, or an error, and changes nothing |
| Kubernetes.Cluster.Create | api/resourcecreator.go:965-1013 | creation fails on an existing key; a lost answer reports failure although the object is there |
| Kubernetes.Cluster.Update | api/resourcecreator.go:965-1013 | an update fails on an absent key and on a stale non-empty version, and otherwise gives the object a new version |
| Kubernetes.Cluster.Delete | api/resourcedeleter.go:69-89 | a deletion fails on an absent key and otherwise removes the object |
| Steps.NoWrongChoice | api/resourcecreator.go:965-1013 | from any store with non-empty versions, at no point of any plan that nobody disturbs does the daemon create what exists, update what does not or update with a stale version; all calls but deletions and refusals are accepted |
| Runs.WrongChoicesInRun | api/serviceaccount.go:33-42 | under any faults a wrong choice is made exactly where the look of the service account or role binding step is lost and the object is there |
| Steps.RewriteNeedsVersion | api/rolebinding.go:10-19 | an object that is found is rewritten successfully exactly when it has a version, except for the role binding, which is written without one |
| Steps.ReplayKeeps | api/resourcecreator.go:683-755 | a whole plan keeps versions non-empty and objects under keys of their kind |
| Runs.StepTakesPlaceOrNot | api/resourcecreator.go:757-872 | whatever the network does, a step happens as a whole or not at all, and has happened unless it reports failure |
| Runs.RunEffect | api/resourcecreator.go:683-755 | an object is untouched by a run, or changed by its one step of the plan; a run that got past that step without failure has changed it |
| Runs.DeployTargetsDistinct | api/resourcecreator.go:683-755 | no two steps of a deploy write the same object |
| Runs.QuietRunIsClean | api/resourcecreator.go:683-755 | without faults and interference every plan whose Deployments could be worked out, and whose configmap exists if it deletes, goes through |
| Interleaving.AcceptedWriteIsAtomic | api/resourcecreator.go:981-1013 | a write that the server accepts has the effect of looking and writing at that very moment, however old its look is |
| Interleaving.Serializable | api/api.go:87-98 | any interleaving of any handlers, with outside changes and lost messages, leaves the store, versions included, as if the writes that took effect had been whole steps one after the other |
| Interleaving.StaleUpdateIsRejected | api/resourcecreator.go:1007-1013 | an update based on a stale look changes nothing and ends its request |
| Histories.LogFollowsPlans | api/resourcecreator.go:683-755 | in any interleaving each request commits steps of its own plan only, in plan order, each once at most, and none it has not come to |
| Histories.SequentialIsInterleaving | api/api.go:132-222 | every run of one request under any faults is one of the interleavings, with the same store and the same stopping point |
| SharedRules.NoLostUpdates | api/resourcecreator.go:757-778 | after any interleaving the shared rule files are the fold, in commit order, of the successful operations' changes to their own files |
| SharedRules.RunKeepsAccounted | api/resourcecreator.go:757-778 | every writing step a handler got past is in the log, and nothing is logged that no handler planned |
| SharedRules.FinishedRulesSurvive | api/prometheus.go:67-90 | once a deploy got past writing its rules they stay as written, whatever others do to other files of the same configmap |
| SharedRules.ReplicasPreserved | api/resourcecreator.go:87-110 | in any interleaving with an outside scaler, a deploy's write of an existing Deployment carries the replica count of the moment of the write |
| Convergence.RetryConverges | api/resourcecreator.go:683-755 | whatever was tried before and wherever it stopped, a plan run to its end leaves the contents of one untroubled run |
| Convergence.FurtherRunChangesNothing | api/resourcecreator.go:683-755 | after any run that was completed, under whatever faults, running the very same steps again changes no content, even when cut short |
| Convergence.DeployCovers | api/resourcecreator.go:683-755 | a deploy writes over everything that an earlier deploy may have written that used no more parts of the cluster |
| Convergence.DeployConverges | api/resourcecreator.go:683-755 | a deploy that gets through ends like one untroubled run of its steps, whatever was tried before: other versions of the application count as long as they used no more parts of the cluster; the same steps again, from the store it really left, change no content |
| Convergence.CompletedDeployHadSpec | api/resourcecreator.go:683-755 | a deploy only gets through if its pod, and its Redis if enabled, could be worked out |
| Deploys.DeploySucceedsExactly | api/resourcecreator.go:683-755 | in a quiet cluster a deploy gets through exactly when the variable names are distinct, the proxy address is usable if asked for, a used vault is configured, and the quantities of pod and enabled Redis parse |
| Deploys.FurtherDeploy | api/resourcecreator.go:376-438 | after a deploy that got through, under whatever faults and after whatever attempts, a further deploy of the same request leaves every content as it is but the Deployment's, and there nothing but the order of the entries' variables and of the volume's items |
| Deploys.FurtherDeploysAgreeExactly | api/resourcecreator.go:376-438 | no further deploy of the request changes any content exactly when no map of any resource has two entries |
| Deploys.RedisBreaksOffExactly | api/redis.go:125-140 | a deploy of a validated manifest breaks off at Redis exactly when Redis is enabled and one of its quantities slipped through |
| Deploys.BrokenOffDeploy | api/resourcecreator.go:683-704 | such a deploy has left service account, role binding and service, and has changed nothing else |
| Reordering.WantedOnlyReordered | api/resourcecreator.go:112-153 | two Deployments made for one request differ in nothing but the order of the entries' variables and of the certificate volume's items |
| Reordering.DeploymentsAgreeExactly | api/resourcecreator.go:376-438 | all Deployments made for one request are the same exactly when no map of any resource has two entries |
| Walks.SingleEntriesOneWalk | api/resourcecreator.go:385-427 | where every map has at most one entry there is only one walk |
| Walks.WalkLength | api/resourcecreator.go:385-427 | every walk visits each entry once |
| Walks.RankSpelled | api/resourcecreator.go:584-599 | where references are shared, later resources come after earlier ones and certificates after secrets |
| Deletion.DeleteRemoves | api/resourcedeleter.go:11-67 | a deletion that reports success has removed all objects of the application but its role binding and, where its deletion failed, Redis; its rule file is gone and nothing else has changed |
| Deletion.DeleteSucceedsExactly | api/resourcedeleter.go:91-104 | an untroubled deletion succeeds exactly when the shared configmap exists |
| Deletion.DeleteTwice | api/resourcedeleter.go:11-67 | deleting again succeeds and changes no content |
| Deletion.RedisFailuresArePassedOver | api/resourcedeleter.go:24-34 | whatever happens to the two deletions of Redis, the request goes on to its end |
| Deletion.DeleteUndoesDeploy | api/resourcedeleter.go:11-67 | from a cluster without the application, a deploy of any extent and a clean deletion leave at most the role binding |
| Deletion.DeployStaysHome | api/resourcecreator.go:683-755 | a deploy, however far it gets, changes only its application's objects and its own rule file |
| Deletion.EndpointMissesRules | api/api.go:268-292 | a deletion through the endpoint leaves the rule file exactly when the application was deployed with a team; its objects go either way |
| Isolation.FootprintsDisjoint | api/redis.go:125-140 | two applications have no object in common exactly when they are in different namespaces, or neither is the other or the other plus `-redis` |
| Isolation.OthersDoNotMatter | api/resourcecreator.go:683-755 | in any interleaving an application's objects and rule file are what its own commits alone make of them |
| Isolation.StrangersUntouched | api/resourcecreator.go:683-755 | an object that belongs to none of the applications at work keeps its content and version |
| Isolation.OperationsCommute | api/resourcedeleter.go:11-67 | deploys and deletions of applications that are apart succeed in either order with the same contents |
| Isolation.PlansCommute | api/resourcecreator.go:683-755 | whole plans of applications that are apart commute, up to versions |
| Independence.DeployAmongOthers | api/resourcecreator.go:683-755 | a deploy that gets through, amid any requests for other applications and any faults, leaves its application as the same deploy in a quiet cluster would |
| Independence.RunKeepsAlone | api/resourcecreator.go:683-755 | at every moment of such a run the application is where the steps passed so far would have brought it alone |
| Reconciler.GetExisting | api/resourcecreator.go:874-963 | nothing found is no error, any other failure is |
| Reconciler.CreateOrUpdateResource | api/resourcecreator.go:965-1013 | an object with a version is updated under it, one without is created |
| Reconciler.CreateServiceAccountIfNotExist | api/serviceaccount.go:33-42 | an existing account is left alone; otherwise, or when the look fails, one is created |
| Reconciler.CreateOrUpdateRoleBinding | api/rolebinding.go:10-19 | written anew in full, without a version |
| Reconciler.CreateOrUpdateService | api/resourcecreator.go:830-842 | labels, selector and port are set, the cluster address and other labels kept |
| Reconciler.CreateOrUpdateRedisInstance | api/redis.go:107-140 | the Redis deployment is set for the application plus `-redis`; a quantity that does not parse ends the request after the look and before the write |
| Reconciler.CreateOrUpdateRedisService | api/redis.go:142-185 | an existing service keeps its ports and selector, only its labels are set |
| Reconciler.WriteDeployment | api/resourcecreator.go:87-110 | an existing Deployment keeps its replica count, a new one gets one replica; a pod that could not be worked out is an error before any write |
| Reconciler.CreateOrUpdateDeployment | api/resourcecreator.go:844-858 | is that step, with a pod that is worked out exactly when it can be, fixed but for the order of walks, and otherwise with the first error |
| Reconciler.CreateOrUpdateSecret | api/resourcecreator.go:860-872 | no Secret is made for no data; otherwise every reference is in its data, with the value of the entry that comes in the last map where several share it |
| Reconciler.CreateOrUpdateAutoscaler | api/resourcecreator.go:651-681 | the bounds are truncated to 32 bits and the scale target is the application |
| Reconciler.CreateOrUpdateAlertRules | api/resourcecreator.go:757-778 | no rules, no write; otherwise only the application's own file is set, under the version that was read; the manifest's rules are rewritten in place exactly when the configmap could be read |
| Reconciler.CreateOrUpdateIngress | api/resourcecreator.go:792-807 | annotations and rules are set, an existing ingress keeps its labels |
| Reconciler.CreateOrUpdateK8sResources | api/resourcecreator.go:683-755 | a deploy is a run of its plan under any faults and fails exactly when the plan was not completed; if it got through, all objects it is for are in the cluster, field by field, as in the row of `CompletedDeployLeavesEverything`; the manifest's rules are rewritten exactly when it came to read the configmap |
| DeployedObjects.CompletedDeployLeavesEverything | api/resourcecreator.go:683-755 | from any store and under any faults, a deploy that got through has left the account, the binding with its subject and role, the service with selector, port 80 and the address it had, the Deployment with the replicas it had, the Secret, the autoscaler with the manifest's bounds in 32 bits, and, where asked for, the Redis pair, the rule file and the ingress; labels are set and others kept |
| DeployedObjects.RulesLeft | api/prometheus.go:29-90 | the rule file has every rule of the manifest with its name prefixed, the namespace put into its expression and the team's label, and no other file has changed |
| DeployedObjects.AutoscalerLeft | api/resourcecreator.go:651-681 | the autoscaler scales the application within bounds that agree with the manifest's in 32 bits |
| DeployedObjects.RedisLeft | api/redis.go:47-123 | Redis runs the manifest's image and quantities, or the defaults, beside its exporter |
| Reconciler.DeleteIngress | api/resourcedeleter.go:119-130 | deletes what it finds; nothing found is success |
| Reconciler.DeleteAutoscaler | api/resourcedeleter.go:106-117 | deletes what it finds; nothing found is success |
| Reconciler.DeleteConfigMapRules | api/resourcedeleter.go:91-104 | takes the application's file out of the configmap under the version read, and fails if there is no configmap |
| Reconciler.DeleteServiceAccount | api/serviceaccount.go:23-31 | nothing to delete is success |
| Reconciler.DeleteService | api/resourcedeleter.go:69-74 | nothing to delete is reported as missing, not as failure |
| Reconciler.DeleteDeployment | api/resourcedeleter.go:76-82 | nothing to delete is reported as missing, not as failure |
| Reconciler.DeleteRedisDeployment | api/resourcedeleter.go:132-139 | the deployment of the application plus `-redis` is deleted |
| Reconciler.DeleteRedisService | api/resourcedeleter.go:141-147 | the service of the application plus `-redis` is deleted |
| Reconciler.DeleteSecret | api/resourcedeleter.go:84-89 | nothing to delete is reported as missing, not as failure |
| Reconciler.DeleteK8sResources | api/resourcedeleter.go:11-67 | a deletion is a run of its plan under any faults, in which a failed deletion of Redis is passed over, and fails exactly when the plan was not completed |
| Delivery.DeployedReferencesResolve | api/resourcecreator.go:376-438 | after a completed deploy no variable of the application's container refers to a Secret, or a key of one, that is not in the store |
| Delivery.DeployedSecretReachesContainer | api/resourcecreator.go:584-599 | after a completed deploy exactly one variable refers to the key of each secret, under its proper name, and the stored Secret has its value there; no other variable has that name exactly when no appended one does |
| Delivery.DeployedPropertyReachesContainer | api/resourcecreator.go:385-392 | after a completed deploy a variable of the proper name holds each property's value; no other variable has that name exactly when no appended one does |
| Delivery.DeployedDefaultsReachContainer | api/resourcecreator.go:505-544 | after a completed deploy the container is told application, version, namespace, cluster and, where they apply, Fasit environment, Redis host and elector |
| Delivery.DeployedProxyReachesContainer | api/resourcecreator.go:451-503 | after a completed deploy with web proxy the container has its addresses in both cases, taken from the daemon's environment in either case, and JVM options that point to the same proxy |
| Delivery.DeployedCertificateReachesContainer | api/resourcecreator.go:304-343 | after a completed deploy a variable holds each certificate's path, a mounted volume shows the Secret's key there, and the key holds the certificate; no other variable has that name exactly when no appended one does |
| Delivery.ContainerNames | api/resourcecreator.go:229-239 | the names of all variables of the container are distinct exactly when no entry is called like a proxy variable or, with a leader elector, ELECTOR_PATH |
| Environment.CheckForDuplicates | api/resourcecreator.go:345-367 | reports a clash exactly when an existing variable has the name or the secret key of the new one, and then the clash with the first that has |
| Environment.ClashMeansSameName | api/resourcecreator.go:345-367 | equal secret keys force equal names, so that the secret-key branch is never reached |
| Environment.AddResource | api/resourcecreator.go:387-429 | whatever the order within its maps, a resource adds one variable per entry, or the names are not distinct |
| Environment.CreateResourceVariables | api/resourcecreator.go:376-431 | succeeds exactly when default, Redis and resource names are pairwise distinct, whatever the order, with one variable per entry |
| Environment.CreateEnvironmentVariables | api/resourcecreator.go:376-438 | the same with the proxy variables appended; every property is there under its name with its value; the error is a duplicate if there is one and otherwise that of the proxy address |
| Environment.CreateProxyEnvironmentVariables | api/resourcecreator.go:451-483 | appends the upper- and lower-case addresses that are set and the JVM options |
| Environment.BaseNamesDistinct | api/resourcecreator.go:505-544 | the variables that are always there never clash with each other |
| Environment.DistinctWhenListed | api/resourcecreator.go:376-438 | distinct names in any result mean distinct names of all entries, so that no order hides a clash |
| NaisResources.NamesAndReferencesAgree | api/fasit.go:134-150 | two entries have the same variable name exactly when they have the same reference |
| NaisResources.ReferenceSpelled | api/fasit.go:142-166 | a reference is the mapped name, or the property alone in application properties, or the property behind the resource's name, in lower case with underscores for dots, colons and dashes |
| Secrets.CreateSecretData | api/resourcecreator.go:584-599 | the data have as many keys as there are secrets and certificates, so that nothing was overwritten, exactly when all references are distinct; then every value is at its reference, and where references are shared the later map wins |
| Secrets.DistinctEntriesHaveDistinctReferences | api/resourcecreator.go:345-367 | the duplicate check of the variables is what makes the writes of the Secret lossless |
| Secrets.HeldDataUnique | api/resourcecreator.go:584-599 | the data are the same for every order of the walks |
| Secrets.OrderIsIrrelevant | api/resourcecreator.go:376-438 | all successful walks yield the same set of variables, and the exact number |
| Secrets.CreateCertificateVolume | api/resourcecreator.go:304-331 | the volume projects each certificate once, and there is none without certificates |
| Secrets.SecretAgreement | api/resourcecreator.go:376-438 | exactly one variable refers to each secret's key, and the Secret has that secret there |
| Secrets.PropertyAgreement | api/resourcecreator.go:385-392 | exactly one variable is called as each property, and it holds the property's value |
| Secrets.NoDanglingReference | api/resourcecreator.go:376-438 | no variable refers to another Secret or to a key that the data do not have |
| Secrets.CertificateAgreement | api/resourcecreator.go:304-343 | one variable, the only one of its name, holds each certificate's path, exactly one item of the volume puts a file there, and the file is that certificate |
| Secrets.ProxyNames | api/resourcecreator.go:433-434 | names stay distinct with the proxy variables exactly when no entry is called like one of them |
| Secrets.AppendedNames | api/resourcecreator.go:229-239 | the same for anything that is appended without a check |
| PodSpecs.CreatePodSpec | api/resourcecreator.go:179-255 | succeeds exactly when names are distinct, proxy and vault are usable if used and the quantities parse; the pod - image, resources, account, variables, mounts and volumes - is then fixed but for the order of the walks, and otherwise the first thing in the way is the error |
| PodSpecs.RightPodRuns | api/resourcecreator.go:186-227 | the first container runs the application's image with the manifest's resources and the variables in the order of some walk |
| PodSpecs.RightPodMountsDeclared | api/resourcecreator.go:179-255 | every mount of every container names a volume of the pod |
| PodSpecs.RightPodProjects | api/resourcecreator.go:241-245 | with certificates, the first container mounts a declared volume that projects each of them |
| PodSpecs.PodCompany | api/resourcecreator.go:229-252 | the elector is in the pod exactly if asked for, and the vault's containers, volume and mount exactly if the daemon has a vault and the manifest wants secrets; each vault container is told address, paths, role and whether it is the sidecar |
| PodSpecs.WantedFields | api/resourcecreator.go:112-177 | selector, strategy and annotations of the Deployment, key by key |
| PodSpecs.CreateDeploymentSpec | api/resourcecreator.go:112-153 | fails exactly when the pod does and with its error; otherwise carries that pod with the selector, strategy and annotations of the manifest |
| PodSpecs.AddVaultContainers | internal/vault/vaultcontainer.go:106-129 | the shared volume is mounted in every container named as the application, and the vault's containers are added |
| PodSpecs.VaultMountsDeclared | internal/vault/vaultcontainer.go:106-129 | mounts stay declared through the vault |
| PodSpecs.AddVault | internal/vault/vaultcontainer.go:86-104 | an incomplete vault configuration is an error exactly when the vault is used |
| PodSpecs.VolumeNamesClash | api/resourcecreator.go:241-253 | the pod's volume names are distinct unless certificates meet a vault in an application whose label is the vault volume's name |
| Alerts.AddTeamLabel | api/prometheus.go:49-61 | every rule gets the team label in place, if there is a team |
| Alerts.PrefixAlertNames | api/prometheus.go:33-39 | every name is prefixed in place |
| Alerts.SubstituteNamespaceVariables | api/prometheus.go:41-47 | every expression has the namespace put in, in place |
| Text.ReplaceAllExactly | api/prometheus.go:41-47 | replacing puts the namespace in the place of every occurrence and changes nothing else |
| Alerts.AddRules | api/prometheus.go:67-90 | sets the application's own file to its rewritten rules and no other file; the manifest's rules stay rewritten |
| Alerts.RewritingIsNotIdempotent | api/prometheus.go:33-61 | rewriting rewritten rules gives the same only if there are none: each deploy needs a fresh manifest |
| App.RuleFileInjective | api/prometheus.go:63-65 | for a team and application without dashes the rule file determines team, application and namespace |
| App.RuleFileOwnedExactly | api/prometheus.go:63-65 | no other application has the same rule file exactly when team, application and namespace are free of dashes |
| App.RuleFileCollision | api/prometheus.go:87-87 | two teams that have the same rule file |
| App.HostnameInjective | api/resourcecreator.go:613-619 | under one subdomain, for applications without dashes, the ingress hostname determines application and namespace |
| App.HostnameOwnedExactly | api/resourcecreator.go:613-619 | no other application in any namespace has the same hostname exactly when it is in the default namespace and every dash of its name has "default" behind it |
| App.OtherNamespaceShares | api/resourcecreator.go:613-619 | outside the default namespace the hostname is always also that of an application in the default namespace |
| App.HostnameCollision | api/resourcecreator.go:613-619 | two applications that have the same hostname |
| Ingresses.CreateIngressRules | api/resourcecreator.go:809-828 | the rule for the application's own host, the rule for its name on the public host in the sbs zone, then one rule per ingress of each load balancer config in order, each with the ingress's host and its path with a slash in front |
| Ingresses.RulesAreRooted | api/resourcecreator.go:809-828 | that many rules, all for the application's service and with rooted paths |
| Ingresses.ParseLoadBalancerConfig | api/fasit.go:604-635 | the result is one block per config with a url, in order; every host in a block is that url, and its paths are comma-free and joined with commas give the config's text; an error exactly when there are configs and none has a url |
| Ingresses.ConfiguredRootsServed | api/resourcecreator.go:819-825 | each piece between commas of a config's text has a rule for the config's url |
| Ingresses.NormalPathExactly | api/resourcecreator.go:630-647 | a path with a slash in front stays; otherwise it gets one, and only the first pair of slashes becomes one |
| Ingresses.PathIsRooted | api/resourcecreator.go:630-647 | every path begins with a slash |
| Ingresses.NormalPathIdempotent | api/resourcecreator.go:630-647 | normalising twice is normalising once |
| Ingresses.BeginsWithOneSlash | api/resourcecreator.go:630-647 | a path begins with exactly one slash exactly when the input does not begin with two |
| ProxyOptions.JavaProxyOptions | proxyopts/proxyopts.go:83-98 | fails exactly for an address that cannot be parsed or lacks host or port; where nothing contains a space, the line reads back as: both host options once with the host, both port options once with the port, or none of the four without an address, the exceptions once if there are any, and nothing else |
| ProxyOptions.MangleWildcard | proxyopts/proxyopts.go:59-68 | exactly the entries with a leading dot get a star |
| ProxyOptions.FormatOptions | proxyopts/proxyopts.go:27-33 | the options one after the other, with spaces between them |
| ProxyOptions.NoProxyMeaningPreserved | proxyopts/proxyopts.go:59-81 | a host is excepted by NO_PROXY exactly when one of the JVM's patterns matches it |
| ProxyOptions.OptionsRoundTrip | proxyopts/proxyopts.go:16-33 | the option line reads back as the options exactly when no value contains a space |
| ProxyOptions.TranslationRoundTrip | proxyopts/proxyopts.go:83-98 | both for the whole translation: read back exactly when host, port and exceptions are free of spaces, and the same hosts go past the proxy |
| ApplicationProperties.ParseProperties | api/fasit.go:558-574 | every line that passes the filter sets its key, the last one for a key decides, other properties stay, and the raw text is taken out |
| ApplicationProperties.RoundTrip | api/fasit.go:558-574 | printing entries, with noise in between and duplicates overridden, and parsing the text gives back exactly those entries |
| ApplicationProperties.ListingMeansEntries | api/fasit.go:558-574 | lines that list the entries of any map, in any order, mean that map |
| ApplicationProperties.PairReadBack | api/fasit.go:562-566 | one pair comes back exactly when its value is not empty and does not end in white space; it may contain equals signs |
| ApplicationProperties.LineReadExactly | api/fasit.go:559-566 | a line with an equals sign says what it looks like exactly when its key is made of letters, digits, underscores and dots and its value is not empty and does not end in white space |
| ApplicationProperties.TrimmedExactly | api/fasit.go:565-565 | trimming takes all white space from both ends of a line, and nothing else |
| ApplicationProperties.IndentationIsNoise | api/fasit.go:565-568 | white space around a line does not change what it says |
| ApplicationProperties.CommentsAreNoise | api/fasit.go:562-570 | blank lines and comments set nothing |
| Manifests.ValidateManifest | api/manifest.go:211-239 | the errors are those of the validators that object, and none exactly when none does |
| Manifests.ValidatedExactly | api/manifest.go:211-423 | a manifest passes exactly when its image has no tag, its replicas and threshold are in bounds, its quantities parse, nothing is missing, its strategy is known and the Redis quantities that are looked at parse |
| Manifests.DefaultsFillGaps | api/defaults.go:20-71 | defaults close each gap with their own value, leave what is given and touch nothing else |
| Manifests.RedisDefaultsFillGaps | api/redis.go:28-45 | the same for Redis, and once is enough |
| Manifests.MainResourcesNeverPanic | api/resourcecreator.go:546-559 | a validated manifest never makes the quantity parser panic on the main container, so that no deploy of it breaks off there |
| Manifests.RedisPanicsExactly | api/manifest.go:385-423 | a validated manifest panics at Redis exactly when Redis is enabled and Requests is empty and Limits.Memory is set and invalid, or Limits is empty and Requests.Cpu is set and invalid |
| Manifests.RedisPanicExample | api/redis.go:28-45 | a manifest that validates and panics |
| Manifests.DefaultsValidate | api/defaults.go:20-71 | an empty manifest with its defaults passes every check |
| Rollout.DeploymentExceededProgressDeadline | api/deploymentstatus.go:132-140 | true exactly when some condition says so |
| Rollout.DeploymentStatus | api/deploymentstatus.go:102-130 | the status of a Deployment, case by case |
| Rollout.SucceededMeansRolledOut | api/deploymentstatus.go:102-130 | success means exactly: generation observed, no deadline exceeded, and all replicas updated and available, as many as desired; failure means exactly an exceeded deadline |
| Rollout.StatusCodesTell | api/api.go:224-250 | each HTTP status stands for one state of the Deployment |
| Rollout.WaitForDeploy | cli/cmd/wait.go:11-31 | success exactly when the first response other than 202 is 200, and otherwise the error of that response |
| Rollout.WaitIsSound | cli/cmd/wait.go:11-31 | a client is told of success exactly when the Deployment was there all along, in progress and then rolled out |
| Fasit.CreateOrUpdateFasitResources | api/fasit.go:236-267 | the resources before a failure are in place and, on success, all, as in the row of `PlacedIsRegistered`; one id per resource, in order; without faults success exactly when all types are known |
| Fasit.PlacedIsRegistered | api/fasit.go:718-801 | an exposed resource of a known type is registered with url, description, wsdl and token of the last of its name; in all zones if one of its name asks for that, otherwise in the scope it had or, if new, in the zone of the deploy; it keeps its id or gets a new one; every other name stays as it was |
| Fasit.CreateOrUpdate | api/fasit.go:241-264 | a resource not found is created, one found is updated under its id, any other answer is an error |
| Fasit.PayloadKeepsName | api/fasit.go:763-801 | exactly the known types have a payload, and it is found again under the alias and type it was looked up by |
| Fasit.PlacedIsInPlace | api/fasit.go:718-733 | the last exposed resource of a name describes it, and one for all zones among them makes it so for good |
| Fasit.SecondRunChangesNothing | api/fasit.go:236-267 | a second run creates nothing and changes no id, scope or description |
| Fasit.RetryConverges | api/fasit.go:236-267 | a run after one that broke off anywhere ends as if that had not happened, ids included |
| Fasit.IdsIdentify | api/fasit.go:236-267 | repeats get equal ids, different names different ones, and a second run the same |

## Left out

- HTTP, authentication, Sensu, Kafka, metrics, logging, the command line and everything else around the reconciler; of the
  deploy handler only the reconciling phase is modelled, so the order in which it reads the manifest, asks Fasit, reconciles
  and reports is not.
- YAML and JSON: a rule file is the document it stands for, and marshalling never fails. Load balancer configs are read
  after the JSON parser.
- Reconciler.CreateOrUpdateK8sResources: models a panic of the quantity parser as an error that ends the request. Quantities are
  carried as text. The results of the single writes are not returned.
- PodSpecs.CreateDeploymentSpec: leaves out the constant and directly copied fields of the pod and of the Deployment (probes, life cycle, ports,
  pull policy, labels of the template, deadlines) and the arguments of the elector's container.
- Steps.NoWrongChoice: covers stores whose objects all have versions, as a real API server's have; `RewriteNeedsVersion` says
  what happens otherwise, and `WrongChoicesInRun` what happens under faults.
- Deletion.DeleteRemoves: does not model foreground deletion and finalizers; a deletion takes effect at once. Redis deployments,
  deleted through the older API group, are in the same store as all others.
- Convergence.DeployConverges: assumes that the attempts used no more parts of the cluster than the deploy that gets through,
  because a deploy does not remove what an earlier manifest enabled.
- SharedRules.NoLostUpdates: concerns the shared configmap; role bindings, which are written without a version, are overwritten by the
  last writer, with the same content for the same application.
- SharedRules.ReplicasPreserved: concerns Deployments that exist at the moment of the write.
- Independence.DeployAmongOthers: concerns deploys; for deletions `Isolation.OthersDoNotMatter` says the same in terms of
  commits.
- Manifests: `mergo` is modelled as "an empty field takes the default", on values, and only for the fields named here.
- Environment, NaisResources: case mapping beyond ASCII. Contents of secrets and certificates are character sequences.
  Nil and empty maps are one.
- Fasit.CreateOrUpdateFasitResources: assumes that a lookup finds what was stored under the same alias and type (in any case of letters),
  that ids are positive and not reused, and that a payload of `null` is rejected. Environment, application and zone of the
  lookups are fixed for a run. The query string of the WSDL address is kept as its parts.
- Fetching used resources, secrets and certificates from Fasit, application instances, deployment events and image names.
- Rollout.WaitForDeploy: the endless loop is one over the responses at hand; running out of them means still waiting.
