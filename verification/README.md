# A verified model of the notebook service's core

This project models the parts of the Renku notebook service that hold state, branch a lot or promise
a round trip, in Dafny 4.11, and proves what they promise. `dafny verify dfyconfig.toml` checks all of
it. Each module follows a component of the service.

- **Git proxy token store** (`TokenProtocol`, `TokenSafety`, `TokenLiveness`, `TokenStores`, `TokenSolo`,
  `RefreshSchedule`, `TokenTicks`). Request goroutines and one ticker share two read-write locks, a
  Renku token pair and a map of Git tokens. `TokenProtocol` has one step for each acquire, read, HTTP
  outcome, write and release; HTTP outcomes and time are inputs. The safety results hold for every
  schedule; for deadlocks a waiting writer also blocks new readers, as Go's locks do. The class `TokenStore` has the methods as
  they run alone; `TokenSolo` and `TokenTicks` prove that uninterrupted calls and checks of the protocol
  agree with it, and `TokenTicks` that the attempts before a lapse are made in every interleaving.
- **Session manifest** (`Json`, `Pods`, `SessionPatches`, `PatchGenerators`, `ManifestForm`, `Manifest`,
  `ManifestResult`, `ManifestPlaces`, `ManifestMembers`, `ManifestContents`, `ManifestCheck`, `EnvOverrides`,
  `TokenPatches`, `SessionTokens`). `Json` evaluates RFC 6902 add, remove, replace and test over JSON
  documents. `SessionPatches` has one function for each patch generator; the generators that loop are
  methods in `PatchGenerators`. The results say what the whole
  sequence does to every base manifest, with the names and values that are there afterwards written out
  and everything else proved unchanged, when it fails, that the override check never objects to it, and
  that the token renewal works on what it made.
- **Sessions in two namespaces** (`Sessions`, `Watcher`, `ServerPatches`, `SessionClients`, `SessionStore`,
  `CacheSync`). The classes are the clients and the watcher's caches; `SessionStore` interleaves their
  requests, with each cached answer coming from an earlier state of each namespace. The clients' methods are tied to
  the steps of that protocol. Anybody may ask to delete or patch any server; a server is created under a
  name of its own user and labelled with that user, as `server.py:327-338` does, and patched with patches
  that keep that label, as those of `ServerPatches` are proved to.
  `CacheSync` is the start of the watcher with its channels.
- **Migration** (`MergePatches`, `Migration`). RFC 7386 merge patches, the paging API and the migration
  loop, stopped anywhere.
- **Image references** (`Patterns`, `Images`, `ImageForms`, `ImageText`, `ImageNames`). A small theory of
  deterministic patterns with the assertions of Python's `re`, the nine patterns of the parser, the same
  in characters, and the parser itself. Python's `$` also matches before a newline at the end, and so it does here.
- **Sizes, resource classes, repository status** (`Text`, `Rounding`, `ByteSize`, `ResourceClasses`,
  `GitStatus`).

What turned out to hold only under a condition is stated with the condition:

- The manifest fails for servers that combine user secrets, cloud storage and repositories: the secrets'
  init container comes first and moves the clone container from index 2 to 3.
- Listing servers for an empty user name differs between cache and API.
- Caches that lag behind by different amounts can show a server in both namespaces although it never
  was; the error for two results then comes from the cached lookup, never from the uncached one.
- Unmerged entries do not make a repository unclean, and a branch name with a character such as U+2028
  is cut off, since `splitlines` breaks there.
- A class that occurs in several resource pools is taken from the last of them: the inner `break` leaves
  the outer loop going.
- The leeway of the token store is four check periods only for periods up to the longest whose quadruple
  fits into 64-bit nanoseconds.
- A size within five million bytes of a whole number of gigabytes, but not one, rounds up or down to a
  whole number and is printed differently the second time: 1,000,000,001 bytes as "1.00G" and then "1G".
- Changing the resource class fails for a server without a quota label when the new class has a
  priority, since the JSON Patch replaces that label.
- `general.test` calls the test operation a part of RFC 6901; it is section 4.6 of RFC 6902.

## Model

| member | source | states |
|---|---|---|
| TokenSafety.RefreshChain | git-https-proxy/tokenstore/main.go:192-223 | In every reachable state of any number of request threads and the ticker, the stored pair is what the accepted responses leave (an empty refresh token keeps the old one), every accepted refresh carried the newest refresh token of its time, and so does the one in flight (section 6 of RFC 6749) |
| TokenSafety.FailedRefreshChangesNothing | git-https-proxy/tokenstore/main.go:214-222 | A step changes the pair only by accepting a response, and then to exactly what the response says; a failure changes neither token |
| TokenSafety.ReturnsAreGood | git-https-proxy/tokenstore/main.go:76-95 | Every token ever returned is that of the latest exchange accepted for its provider at the final read, accepted during the call or, when the call first read it, without an expiry or expiring at or after now plus leeway in seconds; never the zero value of a missing key |
| TokenSafety.CallDecides | git-https-proxy/tokenstore/main.go:76-95 | A call asks for an exchange exactly when its entry was missing or has an expiry above zero and below now plus leeway in seconds, and else goes on to the final read |
| TokenSafety.TokenDecides | git-https-proxy/tokenstore/main.go:150-187 | A request gives up on a Renku token that cannot be parsed, while the ticker tries to refresh it; one without an expiry is never refreshed, and any other exactly when its expiry is not after now plus leeway |
| TokenSafety.InvReachable | git-https-proxy/tokenstore/main.go:51-72 | Every schedule from the initial state keeps the lock, refresh-chain and exchange invariants |
| TokenSafety.LockInvStep | git-https-proxy/tokenstore/main.go:76-147 | Each step keeps the locks in agreement with where the threads are |
| TokenSafety.GitInvStep | git-https-proxy/tokenstore/main.go:76-147 | Each step keeps the token map equal to the latest accepted exchanges, and each call informed |
| TokenLiveness.WritersExclude | git-https-proxy/tokenstore/main.go:103-105 | A write section of a lock overlaps no other section of it |
| TokenLiveness.NoRaces | git-https-proxy/tokenstore/main.go:76-223 | While a thread may write the map of Git tokens or the Renku pair, no other thread reads or writes it |
| TokenLiveness.LockOrder | git-https-proxy/tokenstore/main.go:103-167 | A holder of the Renku lock asks for no lock and a holder of the Git lock at most for the Renku lock; no lock is taken recursively |
| TokenLiveness.NoDeadlock | git-https-proxy/tokenstore/main.go:76-244 | While a thread is inside a call or a check, some such thread can move, even when a waiting writer keeps new readers out |
| TokenLiveness.FinishingIsBounded | git-https-proxy/tokenstore/main.go:76-244 | Without new calls, any scheduling of the busy threads takes at most a known number of steps |
| TokenLiveness.CanAlwaysFinish | git-https-proxy/tokenstore/main.go:76-244 | From every reachable state the calls in flight can be finished even when waiting writers keep new readers out, and then both locks are free |
| TokenStores.TokenStore.constructor | git-https-proxy/tokenstore/main.go:51-72 | A new store holds the configured pair and no Git tokens |
| TokenStores.TokenStore.RefreshRenkuAccessToken | git-https-proxy/tokenstore/main.go:192-223 | Updates the pair from an accepted response, keeps it on a failure, and reports the refresh token it carried |
| TokenStores.TokenStore.GetValidRenkuAccessToken | git-https-proxy/tokenstore/main.go:150-167 | Refreshes only an expired token; the new store and the token are those of the specification function |
| TokenStores.TokenStore.RefreshGitAccessToken | git-https-proxy/tokenstore/main.go:103-147 | Exchanges the Renku token and stores the result for the provider; the Renku pair may be refreshed even when the exchange fails |
| TokenStores.TokenStore.GetGitAccessToken | git-https-proxy/tokenstore/main.go:76-95 | Without an exchange when the entry is there and not due, by its own numbers; else the token of an accepted exchange, stored under the provider, or an error; the whole call is that of the specification function |
| TokenStores.TokenStore.PeriodicTokenRefresh | git-https-proxy/tokenstore/main.go:226-244 | The ticker over any number of ticks: which attempt was made at which time with which token, and the pair it leaves |
| TokenTicks.StoreFollowsSchedule | git-https-proxy/tokenstore/main.go:226-244 | In every run of the protocol whose checks are not interleaved, whatever happens between them, the pair at each tick is the one that the sequential method computes from the accepted responses |
| TokenTicks.CheckIsRecorded | git-https-proxy/tokenstore/main.go:226-244 | What that method records of a tick is what the check of the protocol finds, and it attempts a refresh exactly when the record says so |
| TokenTicks.LapseInProtocol | git-https-proxy/tokenstore/main.go:172-244 | In every interleaving in which each check ends before the next tick, a refresh token that was not due at one tick and lapses by the tick after a later one was attempted by four consecutive checks, all begun before its expiry; only the last of them may find it just replaced |
| TokenSolo.CallAlone | git-https-proxy/tokenstore/main.go:76-147 | A call of the interleaved protocol that nothing interrupts leaves the store and returns the token that the sequential method computes |
| RefreshSchedule.LeewayIsFourPeriods | git-https-proxy/config/config.go:115-121 | In 64-bit nanoseconds the leeway is four times the period exactly for periods up to the longest that does not overflow, and wraps beyond it |
| RefreshSchedule.LapseNeedsFourAttempts | git-https-proxy/tokenstore/main.go:172-184 | A refresh token that was not flagged at one tick, is there at a later one and lapses within a period of it has been attempted at four consecutive ticks before its expiry, whatever happens to it after that |
| RefreshSchedule.LapseNeedsFourFailures | git-https-proxy/tokenstore/main.go:172-184 | A refresh token that was not flagged at one tick lapses only after the attempts of four consecutive ticks, all before its expiry, did not replace it |
| ManifestResult.PatchesApply | renku_notebooks/api/classes/server.py:294-325 | On every admissible base manifest the generated sequence succeeds if and only if user secrets, cloud storage and repositories do not come together, and then every array is that of the base with exactly the listed additions; ManifestContents and ManifestMembers spell the result out |
| ManifestMembers.SpecMembersAfter | renku_notebooks/api/amalthea_patches/general.py:10-144 | In the pod spec of the result tolerations, affinity and enableServiceLinks (false) are always set, nodeSelector exactly without node affinities, and priorityClassName is the class of the server, or as in the base without one |
| ManifestMembers.RootMembersAfter | renku_notebooks/api/classes/server.py:294-325 | At the top of the result image_pull_secret is set exactly for a private image, renviron exactly for a nonempty environment, serviceRpcServer exactly for a registered user with repositories, and each storage has its -pv and its -secret; otherwise they are as in the base |
| ManifestMembers.NothingElseChanges | renku_notebooks/api/classes/server.py:294-325 | Every place apart from the five arrays and from the members that are set is what it was in the base |
| ManifestContents.ContainersAfter | renku_notebooks/api/classes/server.py:294-325 | The notebook container has the arguments jupyter notebook, its own env followed by the seven service variables and those of the user, and the mounts one by one; the proxy its exchanged and appended arguments, two variables and a mount; the other containers stay; git-proxy and git-sidecar follow exactly for a registered user with repositories, with each variable by name and value |
| ManifestContents.InitsAfter | renku_notebooks/api/amalthea_patches/init_containers.py:16-228 | The init containers in their order: init-user-secrets, init-certificates, download-image (no env), git-clone with its variables by name and value, then one for each repository, provider and storage |
| ManifestContents.VolumesAfter | renku_notebooks/api/classes/server.py:294-325 | The volumes of the base and behind them those of shared memory, .Renviron, user secrets, host keys, certificates and storages, with their sources |
| ManifestContents.PullSecretsAfter | renku_notebooks/api/amalthea_patches/jupyter_server.py:105-153 | The pull secrets gain the one of the session exactly for a private image |
| ManifestContents.ServicePortsAfter | renku_notebooks/api/amalthea_patches/ssh.py:6-61 | The service gains the configured port exactly when ssh is enabled |
| ManifestResult.WrongContainersFail | renku_notebooks/api/amalthea_patches/general.py:147-176 | If an expected container is not in its place, the whole sequence fails |
| ManifestResult.NextStorage | renku_notebooks/api/amalthea_patches/cloudstorage.py:13-34 | Each storage adds its mount, its volume and its variable of the clone container, in order |
| ManifestResult.FirstStorageFails | renku_notebooks/api/amalthea_patches/cloudstorage.py:20-33 | Behind the user secrets initContainers/2 is the image download, which has no env, so the first storage fails |
| Manifest.GeneralRuns | renku_notebooks/api/amalthea_patches/general.py:147-233 | Tests, placement and shared memory run on every admissible base, with what they add to the arrays |
| Manifest.JupyterRuns | renku_notebooks/api/amalthea_patches/jupyter_server.py:15-317 | Arguments, environment, pull secret, service links, R environment and user secrets, with what each adds |
| Manifest.SidecarPatchesRun | renku_notebooks/api/amalthea_patches/git_sidecar.py:141-226 | Git proxy and sidecar containers, the replaced and appended proxy arguments, the e-mail variable and ssh, with what each adds |
| Manifest.InitPatchesRun | renku_notebooks/api/amalthea_patches/init_containers.py:101-228 | Certificates, image download, clone and proxy certificates, with what each adds |
| Manifest.InjectRuns | renku_notebooks/api/amalthea_patches/inject_certificates.py:11-53 | containers/1 gains the certificate mount, and for registered users the variable that names the file |
| SessionTokens.TestedContainersAreAddressed | renku_notebooks/api/amalthea_patches/general.py:158-176 | containers/0 and containers/1 of the result are the two containers whose names were tested |
| SessionTokens.StoragesReachTheClone | renku_notebooks/api/amalthea_patches/cloudstorage.py:13-34 | Without user secrets initContainers/2 is git-clone, and its env is its own followed by GIT_CLONE_STORAGE_MOUNTS_i for each storage in order |
| SessionTokens.StartedSessionIsRenewable | renku_notebooks/api/classes/k8s_client.py:249-332 | In the statefulset of every session started for a registered user with repositories, the token renewal finds all the tokens that the manifest put there, its operations apply, and afterwards no variable of these names in a container of these names holds an old token; the base has any number of containers, none of them called git-proxy |
| PatchGenerators.BuildTests | renku_notebooks/api/amalthea_patches/general.py:147-176 | The loop builds one test for each of the first two containers of a registered user, or the first of an anonymous one, at its place and with its name |
| PatchGenerators.BuildEnv | renku_notebooks/api/amalthea_patches/jupyter_server.py:15-85 | The loop appends the service variables and those of the user, and fails exactly when a variable of the user would give one of the seven of the service another value |
| PatchGenerators.BuildGitCloneEnv | renku_notebooks/api/amalthea_patches/init_containers.py:25-99 | The environment of the clone container grows by the user, then one variable for each repository and one for each provider, in order |
| PatchGenerators.BuildGitSidecar | renku_notebooks/api/amalthea_patches/git_sidecar.py:11-226 | No patch for an anonymous user or without repositories; else three: the container, the replaced argument before the six appended ones, and the RPC service |
| PatchGenerators.BuildCloudStorage | renku_notebooks/api/amalthea_patches/cloudstorage.py:8-34 | The loop over the storages builds the patches in order |
| EnvOverrides.CheckEnvironmentVariablesOverrides | renku_notebooks/api/classes/server.py:172-197 | Accepts exactly when every variable that is appended to an environment has a name and a value and no two give one variable of one path, but for the case of ASCII letters, different values; a duplicate is reported only for such a pair |
| EnvOverrides.OrderDoesNotMatter | renku_notebooks/api/classes/server.py:172-197 | Without clashes, the effective value (last entry wins) of every variable is the same for every order of the operations |
| EnvOverrides.AcceptedPatchesCommute | renku_notebooks/api/classes/server.py:172-197 | The same for every permutation of accepted patches |
| ManifestCheck.GeneratedPatchesAreAccepted | renku_notebooks/api/classes/server.py:207-210 | Whatever the generators put together passes the check: its duplicate error is never raised for a generated manifest |
| ManifestCheck.EnvOpsOfAll | renku_notebooks/api/classes/server.py:294-325 | The environment operations of a manifest are those of the main container, the proxy and the clone, and no others |
| TokenPatches.GetStatefulsetTokenPatches | renku_notebooks/api/classes/k8s_client.py:249-332 | Builds the operations that the specification function says, or fails with a TypeError when it would search a list that is missing |
| TokenPatches.TokensAreRenewed | renku_notebooks/api/classes/k8s_client.py:249-332 | The operations apply exactly when every variable found holds a literal value; then each ends with its new token, every other place is unchanged, and every order gives the same statefulset (section 4.3 of RFC 6902) |
| TokenPatches.RenewalIsIdempotent | renku_notebooks/api/classes/k8s_client.py:249-332 | Generating the operations again from the result gives the same ones, and they change nothing |
| TokenPatches.NothingOldStays | renku_notebooks/api/classes/k8s_client.py:249-332 | Where the variables that are found are the only ones of their names, no variable of these names, in a container of these names, keeps an old token |
| TokenPatches.DistinctNamesSuffice | renku_notebooks/api/classes/k8s_client.py:249-332 | The same where no list has two containers of one name and no environment two variables of one name |
| TokenPatches.FirstIsRenewed | renku_notebooks/api/classes/k8s_client.py:259-330 | By names and places: the first variable of each name, in the first container of its name, holds its token afterwards: access and refresh token in git-proxy, the access token in git-clone and init-user-secrets |
| TokenPatches.FirstNamed | renku_notebooks/util/kubernetes_.py:89-104 | The first item of the name, or none when no item has it |
| Sessions.GetServerAgrees | renku_notebooks/api/classes/k8s_client.py:379-464 | With an up-to-date watcher of two distinct namespaces, the cached lookup and the fallback give the same server, None or error for every name and user |
| Sessions.GetServerAgreesInOne | renku_notebooks/api/classes/k8s_client.py:379-464 | The same when no session namespace is configured |
| Sessions.ListServersAgreesIff | renku_notebooks/api/classes/k8s_client.py:418-432 | Both ways list the same multiset of servers if and only if the user is not empty or all servers carry the empty user label |
| Sessions.EmptyUserListsDiffer | renku_notebooks/api/classes/k8s_client.py:418-432 | One server of any user is listed for the empty user by the cache and not by the API |
| Watcher.ListChosen | k8s-watcher/cache.go:68-83 | A lister gives each selected server once |
| Watcher.LabelValuesAre | k8s-watcher/cache.go:68-83 | A selector accepts at most 63 letters and digits, with - _ . inside only |
| Watcher.CacheCollection.ListByUser | k8s-watcher/cache.go:68-83 | One cache: all servers for an empty user, an error for a value no selector accepts, else exactly the servers whose label names the user |
| Watcher.CacheCollection.GetByUserID | k8s-watcher/cache_collection.go:76-88 | Each server as often as there are caches that show it, in whatever order the map is ranged over; for a user exactly the servers whose label names that user |
| Watcher.CacheCollection.GetByName | k8s-watcher/cache_collection.go:116-136 | One result for each cache that has the name |
| Watcher.CacheCollection.GetByNameAndUserID | k8s-watcher/cache_collection.go:92-112 | One result for each cache that has the name with this user, whose label names the user; servers of others are passed over |
| SessionClients.NamespacedK8sClient.CreateServer | renku_notebooks/api/classes/k8s_client.py:91-113 | Adds the server to the namespace unless the name is taken or the API fails, and then asks for it until it is seen, at most ten times; the server stays when that fails |
| SessionClients.AwaitedIff | renku_notebooks/util/retries.py:30-38 | The wait ends with the first read that is not empty, with the server or an intermittent error, and with a timeout exactly when ten reads are empty |
| SessionClients.AwaitedIsPolled | renku_notebooks/api/classes/k8s_client.py:107-113 | The answer of that wait is where the same reads lead the creator in the protocol |
| SessionClients.NamespacedK8sClient.DeleteServer | renku_notebooks/api/classes/k8s_client.py:158-172 | Removes the server of the name, and fails when there is none |
| SessionClients.NamespacedK8sClient.PatchServer | renku_notebooks/api/classes/k8s_client.py:115-138 | Changes one server only, to what the patch makes of it, and fails when there is none or the patch does not apply |
| SessionClients.NamespacedK8sClient.GetServer | renku_notebooks/api/classes/k8s_client.py:174-189 | The server, None, or an intermittent error |
| SessionClients.NamespacedK8sClient.ListServers | renku_notebooks/api/classes/k8s_client.py:191-206 | The servers with the label; an invalid selector counts as an empty list |
| SessionClients.JsServerCache.GetServer | renku_notebooks/api/classes/k8s_client.py:379-398 | None, the one server, or a programming error for several |
| SessionClients.JsServerCache.ListServers | renku_notebooks/api/classes/k8s_client.py:362-377 | The list of the watcher, or a cache error |
| SessionClients.K8sClient.GetServer | renku_notebooks/api/classes/k8s_client.py:434-464 | Cache first; the fallback asks the session namespace and then the Renku one; a server of another user is not found. With an up-to-date watcher or the API: the server exactly when one namespace holds it and its label names the user |
| SessionClients.K8sClient.ListServers | renku_notebooks/api/classes/k8s_client.py:418-432 | Cache first, then the servers of both namespaces. For a user that a selector can name: exactly the servers whose label names the user, each once for each namespace |
| SessionClients.K8sClient.CreateServer | renku_notebooks/api/classes/k8s_client.py:490-498 | An existing own server is returned; else the request is carried out as the protocol says: a new name is there afterwards in the session namespace, or in the Renku one when there is no other, and a taken name or a failed request changes nothing |
| SessionClients.K8sClient.DeleteServer | renku_notebooks/api/classes/k8s_client.py:518-528 | The request is carried out as the protocol says. With lookups that are answered, the server of an owner is removed, that one alone, from the namespace that holds it; a server of somebody else stays, with the error for a missing one |
| SessionClients.K8sClient.PatchServer | renku_notebooks/api/classes/k8s_client.py:500-512 | The request is carried out as the protocol says. With lookups that are answered, the server of an owner becomes what the patch makes of it and is the answer; everything else stays, each error exactly in its case |
| SessionClients.LookupsAgree | renku_notebooks/api/classes/k8s_client.py:434-464 | A client that may bypass an up-to-date watcher finds the same with and without it |
| SessionClients.ListsAgreeIff | renku_notebooks/api/classes/k8s_client.py:418-432 | It lists the same servers with and without it if and only if the user is not empty or all servers carry the empty user label; for a value that no selector accepts both lists are empty |
| ServerPatches.Hibernates | renku_notebooks/api/notebooks.py:658-678 | Hibernating applies to every server, sets the flag and the six annotations by name and value, and never changes whose session it is |
| ServerPatches.HibernationSays | renku_notebooks/api/notebooks.py:642-656 | What is written down is the branch, the commit, true or false for an entry other than unmerged or ignored, and true or false for nothing ahead or behind |
| ServerPatches.Resumes | renku_notebooks/api/notebooks.py:682-696 | Resuming clears the flag, changes nothing outside the spec, and keeps whose session it is |
| ServerPatches.ClassChangesIff | renku_notebooks/api/notebooks.py:592-624 | The JSON Patch for another class applies if and only if resources and class annotation are there and, when the quota is to be replaced or removed, its label is too |
| ServerPatches.PriorityNeedsLabel | renku_notebooks/api/notebooks.py:605-613 | A server without a quota label can change to a class without a priority and not to one with a priority |
| ServerPatches.ClassChanges | renku_notebooks/api/notebooks.py:592-624 | Resources and class annotation become what was asked for, the quota label the priority, or is removed when the server seen had one and there is none, and every place apart from them stays |
| ServerPatches.ClassKeepsUser | renku_notebooks/api/notebooks.py:605-621 | Whatever the prefix of the labels, changing the class keeps whose session it is |
| SessionStore.OneServerPerName | renku_notebooks/api/classes/k8s_client.py:434-464 | Over all interleavings of lookups from stale caches, creates, waits, deletes and patches by any user, and outside deletions, no name is ever in both namespaces |
| SessionStore.FallbackNeverFindsTwo | renku_notebooks/api/classes/k8s_client.py:443-457 | The uncached lookup never raises the error for two results |
| SessionStore.SessionFirstIsSafe | renku_notebooks/api/classes/k8s_client.py:445-452 | A name read in the session namespace is in no later state of the Renku namespace |
| SessionStore.RenkuFirstIsUnsafe | renku_notebooks/api/classes/k8s_client.py:445-452 | Asking in the opposite order can find two servers: a schedule that does so |
| SessionStore.CacheCanFindTwoIff | renku_notebooks/api/classes/k8s_client.py:379-398 | Caches that are stale by different amounts can answer with two servers if and only if the Renku namespace holds a server at first |
| SessionStore.PerformTouchesOwnServer | renku_notebooks/api/classes/k8s_client.py:490-528 | A request that is carried out adds a server whose name is nowhere yet, or changes exactly one server, which belongs to its user before and after, although anybody may ask to delete or patch it |
| SessionStore.StrangersChangeNothing | renku_notebooks/api/classes/k8s_client.py:462-464 | A request to delete or patch the server of another user never gets past its lookup, fails before the API is asked to do it, and no step of it changes anything |
| SessionStore.AnybodyMayAsk | renku_notebooks/api/classes/k8s_client.py:490-528 | Requests of anybody to delete any server arrive, those to patch it in a way that keeps its label, and those to create a server of their own with their label |
| SessionStore.OwnerDeletes | renku_notebooks/api/classes/k8s_client.py:518-528 | A delete of the owner, seen by its lookup, gets past it, and carried out it removes exactly that server from the namespace that holds it |
| SessionStore.OwnerPatches | renku_notebooks/api/classes/k8s_client.py:500-512 | A patch of the owner gets past its lookup, and carried out it makes of exactly that server what the patch says, which is the answer |
| SessionStore.CreatorCreates | renku_notebooks/api/classes/k8s_client.py:490-498 | A create of a name that is nowhere gets past its lookup, and carried out it adds the server with this manifest |
| SessionStore.CreatorFinds | renku_notebooks/api/classes/k8s_client.py:490-498 | A create of an own name that is there ends with the server that is there |
| SessionStore.FallbackSeesPresent | renku_notebooks/api/classes/k8s_client.py:443-457 | With nothing between its two reads, the lookup without the cache comes to the state of a lookup in a cache that is up to date |
| SessionStore.AnswersAreOwn | renku_notebooks/api/classes/k8s_client.py:434-528 | Every server that a request answers with is the one asked for and belongs to the user who asked |
| SessionStore.WaitEnds | renku_notebooks/api/classes/k8s_client.py:107-113 | A creator that does not see its server has had it removed; while it is there, the next read ends the wait with the server of the creator |
| SessionStore.InvStep | renku_notebooks/api/classes/k8s_client.py:434-528 | Each step keeps one server for each name, the shrinking Renku namespace, and what requests in flight rely on and answer |
| CacheSync.Synchronize | k8s-watcher/cache_collection.go:18-48 | The loop over what it receives: returns after one true for each namespace, ends the program at the first false or the timeout |
| CacheSync.ReturnsOnlyWhenAllSynced | k8s-watcher/cache_collection.go:18-48 | It returns only if WaitForCacheSync succeeded for every namespace |
| CacheSync.AnythingElseIsFatal | k8s-watcher/cache_collection.go:38-45 | A received false or timeout is the last thing that happens |
| CacheSync.TimerCanEnd | k8s-watcher/cache_collection.go:21-25 | While reports are missing the timer can fire, and its message ends the program |
| CacheSync.FalseMeansFailed | k8s-watcher/cache.go:46-52 | False is reported only by a goroutine whose wait has failed |
| CacheSync.NobodyCountsTwice | k8s-watcher/cache.go:46-52 | No goroutine is counted twice, although one that failed goes on to send true after its false |
| CacheSync.CanReturnIff | k8s-watcher/cache_collection.go:18-48 | While the program runs, it can still return if and only if no wait has failed |
| Patterns.GreedyIff | renku_notebooks/api/classes/image.py:190-208 | For patterns whose runs are each followed by a character outside their class, a greedy matcher without backtracking finds the only match, or there is none |
| Images.MatchHasShape | renku_notebooks/api/classes/image.py:194-200 | Everything that a pattern matches has its shape, and the groups capture the parts |
| ImageForms.ShapeMatches | renku_notebooks/api/classes/image.py:194-200 | Everything of that shape matches, also with a newline at its end |
| ImageForms.PatternsAreDeterministic | renku_notebooks/api/classes/image.py:203-242 | All nine patterns are of this kind |
| ImageForms.OneWayToRead | renku_notebooks/api/classes/image.py:203-245 | A string matches one of the nine patterns at most, and splits into its groups in one way |
| ImageForms.ParseReads | renku_notebooks/api/classes/image.py:244-265 | A string is accepted exactly when it has one of the nine shapes of the patterns; too many interpretations never occur |
| ImageText.ParseIff | renku_notebooks/api/classes/image.py:187-265 | Accepted are exactly nine forms, written out in ranges of characters and without the patterns: for each the image with registry-1.docker.io, library and latest filled in; everything else has no interpretation |
| ImageText.OthersAreErrors | renku_notebooks/api/classes/image.py:194-200 | A character outside letters, digits and . _ - / : @ anywhere but in a final newline is an error |
| ImageText.ProjectImage | renku_notebooks/api/classes/image.py:238-243 | registry.renku.ch/group/my-project:0123abc is the image my-project of group with the tag 0123abc |
| ImageNames.FromPath | renku_notebooks/api/classes/image.py:187-265 | The loop over the patterns accepts exactly the texts of the nine forms in characters, with the image each form stands for, and otherwise finds no interpretation |
| ImageNames.Normalises | renku_notebooks/api/classes/image.py:187-265 | Writing an accepted image as host, name and tag with "@" parses back to it, and with ":" exactly when the tag has no colon |
| ImageNames.ParsedIff | renku_notebooks/api/classes/image.py:187-265 | The images that come out are exactly those with a dotted host, a name with a namespace, and a tag |
| ImageNames.ColonIff | renku_notebooks/api/notebooks.py:334-339 | The reference put together from registry, project path and short commit parses to the image built beside it if and only if the three have the right shape |
| MergePatches.MergeSets | resource_schema_migrations/migration_1.py:58-72 | A value that the patch holds, neither an object nor null, ends up in its place |
| MergePatches.MergeRemoves | resource_schema_migrations/migration_1.py:58-72 | A member that is null in the patch is not there afterwards |
| MergePatches.MergeTwice | resource_schema_migrations/migration_1.py:58-72 | Applying a merge patch (section 2 of RFC 7386) again changes nothing |
| MergePatches.MergeElsewhere | resource_schema_migrations/migration_1.py:58-72 | A merge patch changes nothing that it does not name |
| Migration.BuildPatch | resource_schema_migrations/migration_1.py:36-64 | The patch of one server, or the KeyError of one without annotations |
| Migration.LabelledAfter | resource_schema_migrations/migration_1.py:58-62 | A migrated server carries schema version "1" under the label schemaVersion with the prefix |
| Migration.LoweredAfter | resource_schema_migrations/migration_1.py:41-57 | Its annotations projectName and namespace with the prefix are in lower case, where they are there |
| Migration.NothingLeftToLower | resource_schema_migrations/migration_1.py:49-57 | A migrated server has no capital letter of ASCII left in these two |
| Migration.SameElsewhere | resource_schema_migrations/migration_1.py:41-72 | Everything but that label and those two annotations is as it was |
| Migration.AdjustAnnotations | resource_schema_migrations/migration_1.py:10-75 | Pages to the end of the list; wherever it stops, the servers patched so far are as they should be and the others untouched; it finishes exactly when it can read them all; a dry run changes nothing |
| Migration.CrashesDoNotMatter | resource_schema_migrations/README.md:15-18 | After any number of crashes at any places, one more run comes to what one undisturbed run would have come to, and can finish exactly when that could |
| Migration.SecondRunChangesNothing | resource_schema_migrations/README.md:15-18 | A second run changes nothing, and after a run that finished every server is labelled |
| ResourceClasses.FindAcceptableClass | renku_notebooks/api/classes/data_service.py:201-226 | None exactly when no matching class of any pool has cpu, memory times 1,000,000,000, gpu and default storage times 1,000,000,000 at least as requested; otherwise the offer of such a class with the priority class of its pool, and no such class is smaller in all four |
| ResourceClasses.ChooseIff | renku_notebooks/api/classes/data_service.py:213-226 | The pass chooses nothing exactly when nothing is acceptable, and only something acceptable |
| ResourceClasses.OneMoreOffer | renku_notebooks/api/classes/data_service.py:213-226 | One more class is chosen exactly when it matches and is enough and, if there is a choice already, smaller in cpu, memory, gpu and storage |
| ResourceClasses.ChosenIsMinimal | renku_notebooks/api/classes/data_service.py:213-226 | No acceptable class is strictly smaller than the chosen one in all four amounts, and none before it is as small in all four |
| ResourceClasses.DifferencesCompare | renku_notebooks/api/schemas/server_options.py:130-150 | Comparing the differences to the request is the same as comparing the classes |
| ResourceClasses.ServerOptions.constructor | renku_notebooks/api/schemas/server_options.py:62-68 | A missing storage becomes one gigabyte in the unit that is used |
| ResourceClasses.ServerOptions.Minus | renku_notebooks/api/schemas/server_options.py:130-138 | The difference in all four amounts |
| ResourceClasses.ServerOptions.SetStorage | renku_notebooks/api/schemas/server_options.py:121-128 | The storage converted to the unit of the object, rounded half to even |
| ResourceClasses.FromResourceClass | renku_notebooks/api/schemas/server_options.py:181-195 | Cpu and gpu as in the class; its memory and its default storage times 1,000,000,000 |
| ResourceClasses.ValidateClassStorage | renku_notebooks/api/classes/data_service.py:154-188 | The last pool that has the class decides, and in it the first such class; the options have its cpu, its gpu, its memory times 1,000,000,000 and the storage asked for times 1,000,000,000; each error exactly in its case |
| Rounding.RoundsToNearest | renku_notebooks/api/schemas/custom_fields.py:92 | Rounding gives a nearest integer, and of two the even one |
| ByteSize.DeserializeAcceptsIff | renku_notebooks/api/schemas/custom_fields.py:78-92 | Accepted are exactly the numbers with a digit, with or without fraction, with a known unit or none |
| ByteSize.DeserializeReads | renku_notebooks/api/schemas/custom_fields.py:78-92 | The value read is the integer nearest to the number times the unit, and of two the even one |
| ByteSize.UnitsAre | renku_notebooks/api/schemas/custom_fields.py:43-62 | The units and their values: 1 for none and b, the powers of 1000 for k to e with or without b, the powers of 1024 for ki to ei, with capitals except for the i |
| ByteSize.RoundTrip | renku_notebooks/api/schemas/custom_fields.py:64-92 | The field accepts its own output and reads it as the nearest hundredth of a gigabyte |
| ByteSize.NearestIsNear | renku_notebooks/api/schemas/custom_fields.py:64-92 | That is within 5,000,000 bytes, equal exactly for multiples of 10,000,000, and stable when repeated |
| ByteSize.NearestKeepsOrder | renku_notebooks/api/schemas/custom_fields.py:64-92 | Larger sizes are never read as smaller ones |
| ByteSize.TextStaysIff | renku_notebooks/api/schemas/custom_fields.py:64-76 | A size is printed the same way after it was printed and read back if and only if it is a whole number of gigabytes or more than five million bytes away from one |
| ByteSize.TextChanges | renku_notebooks/api/schemas/custom_fields.py:64-92 | One byte more than a gigabyte is printed as 1.00G, read as one gigabyte, and then printed as 1G |
| GitStatus.Status | git_services/git_services/sidecar/commands/base.py:31-57 | The loop over the lines, with None for a ValueError, gives what the specification function says |
| GitStatus.SplitJoined | git_services/git_services/sidecar/commands/base.py:42 | Lines without breaks in them are found again |
| GitStatus.BreaksAre | git_services/git_services/sidecar/commands/base.py:42 | The ten characters that end a line, and a carriage return with a newline as one end |
| GitStatus.LinesSpelledOut | git_services/git_services/sidecar/commands/base.py:44-57 | The headers, the counts and the entries of that format in characters |
| GitStatus.RoundTrip | git_services/git_services/sidecar/commands/base.py:31-65 | Rendering a repository in porcelain v2 and reading it recovers branch, commit, ahead and behind (zero without an upstream) and clean, field by field |
| GitStatus.CleanIff | git_services/git_services/sidecar/commands/base.py:56-57 | Clean exactly when all entries are unmerged or ignored |
| GitStatus.ConflictCountsAsClean | git_services/git_services/sidecar/commands/base.py:56-57 | A repository with only a conflict counts as clean |
| GitStatus.BranchIsCutOff | git_services/git_services/sidecar/commands/base.py:42-57 | For names without blanks, as Git has them, the branch that is read is the first line of its name, also when the upstream repeats the name; commit and counts are right, and no unclean repository reads as clean |
| GitStatus.BranchIsLost | git_services/git_services/sidecar/commands/base.py:52-53 | The branch a, U+2028, b with an upstream of the same name is read as a |
| GitStatus.BranchRecoveredIff | git_services/git_services/sidecar/commands/base.py:52-53 | The branch is recovered if and only if no character of it ends a line for splitlines, whatever the upstream is called |

## Left out

- HTTP, Kubernetes, GitLab and registry traffic: every request is an outcome given by the caller or the schedule; wire formats are not modelled.
- JWT decoding, base64, hashing and the escaping of user names: a JWT is an optional expiry and whether it can be parsed.
- TokenStores.TokenStore.PeriodicTokenRefresh: its attempts take no time, since the method runs alone; `TokenTicks.LapseInProtocol` lets them take time, up to the next tick. Ticks that are dropped since an attempt takes longer are not modelled.
- Image, resources, ports, probes and security context of the containers that the patches append: no later operation addresses them.
- Tolerations, affinity, node selector, pull secret, R environment, the service of the git sidecar and the claims and secrets of storages are values by name; how they are computed is not modelled.
- The configuration of repositories' providers and the rendering of repositories and providers as JSON text: they are given as text.
- The lower case of letters outside ASCII, in annotations and in paths of operations.
- ManifestResult.PatchesApply: says nothing about members of the manifest outside its five arrays; `ManifestMembers` does.
- What the owner of a name is: `SessionStore` takes it as a function of the name; the hash in the names is not modelled.
- The API's own checks of a patched object, and a JSON null in a new object's labels: a refusal is an outcome of the request.
- Patching the statefulset's priority class after the server's, and the tokens before a resume: `TokenPatches` has the latter on its own.
- The text of a selector is taken as one label and one value; a user name with a comma or an operator in it would be read as several requirements by the API.
- Servers that other programs create, or change while a page of the migration is read: the migration works alone on its namespace; a request that fails counts as a crash.
- Floating point: cpu is a real number and sizes are exact rationals.
- ServerOptions' equality, limits and conversion to gigabytes, the default class, affinities and tolerations of classes.
- Python's int on blanks, underscores and digits outside ASCII in the counts of ahead and behind.
- The raw output that status returns beside the fields, and the other git commands of the sidecar.
- CpuField, GpuField, server names, ready container counts, error codes and other members that follow from reading one body.
- The Git cloner, the liveness watcher, Flask routes, schemas, Helm and Docker files.
