# ClientNamespace provisioning, modelled and proved

This project models the operator that turns a `ClientNamespace` resource into a namespace full of Kubernetes objects,
and takes it down again. It proves what holds over whole histories of runs: runs that are cut off at any call, calls
that fail, calls that take effect and still report an error, reads that miss an existing object, spec edits between
runs, and other clients at work in the same cluster.

## How the model is built

- **Objects, Api.** A cluster is a map from keys to objects, one client's stored resource, a flag saying whether the
  controller process lives, and an audit log of the writes that took effect. Every API call of a run has a *site*; the
  environment `Env` maps sites to faults (`Drop`, `Ambiguous`, `Stale`, `CrashBefore`, `CrashAfter`), gives the random
  numbers, the map iteration order, the order of list results, and what other clients' namespaces look like just before
  each call. A status write is refused on a version conflict and when a condition type is repeated, as the CRD's
  list-map declaration demands.
- **Contents, Pipeline, Deletion.** What each object contains; a provisioning run as a sequence of actions with early
  exit, and its ending; the deletion phase. These are functions, so that runs can be composed into histories.
- **Cluster, Operator.** The controller's code in its own imperative form: a mutable API server, a mutable in-memory
  resource, and one method for each Go method, with its loops and early returns. `Reconcile` is proved to leave exactly
  the world that the function `ReconcileAny` gives, so every theorem about the functions is one about the methods.
- **Passwords, DomainDn, InitScript, ServiceStatuses.** The data kernels: password generation and rendering, the
  domain-to-DN mapping (section 3 of RFC 2247), the init script, the service status list.
- **Runs, Histories, Births.** What every run does whatever the faults; histories of runs, spec edits and interference,
  whose states are called reachable; which run made an object. `Lifecycle` adds deletion requests to histories.
- **Phases, PhaseLog, Prefix, PlanOrder, Invariants, Agreement, CleanRuns, Recovery, Completeness, FailureReports,
  Closure, Origins, Lifecycle, Leftovers, NonInterference, Interleavings.** The theorems. A *calm* run is one in which
  every call is undisturbed, except that reads whose errors the code ignores may fail or be stale.
- **Programs, Schedules.** The controller as a program that makes one call at a time and continues with the answer, and
  any number of such programs scheduled call by call on one shared store.
- **Written, Reasons.** What the stored objects and conditions say, as text and in terms of the spec their makers read.
- **Strandings, Hindrances, Provisos, AdminProvisos, Discrepancies.** Histories that show where a property stops holding, each with
  the exact condition.

## Main results

- *Recovery* has a sharp boundary: from any reachable state a client can still become Ready exactly when it is Ready, or
  not Failed and without the `glauth-ldaps` route. The success path appends a second Ready condition that the schema
  refuses, and the route's existence check looks for an object of another kind, so the intended recovery from every
  unready state does not hold. Both ways to get stranded are reachable: any single refused create, failing read or
  failing draw that is not ignored, and a crash right after the route was created.
- *Creation order*: for a fixed spec the client's objects are always a prefix of the plan, each created once.
- *Agreement* is decided exactly, over every history: database and S3, the admin passwords, Dex's login and certificate
  coverage each agree if and only if a condition on the runs that made the two objects holds. Trust root and Glauth's
  password always agree before a deletion request; Ninegate and Dex fit only by chance, because they read different
  keys. Under plain provisos database, S3 and admin passwords agree, and each proviso is shown to be needed by a history
  that keeps the others and ends Ready.
- *After a deletion request* objects that are both left agree exactly as before, but an object of a swept kind can be
  lost while any other is left: a certificate can outlive its CA.
- *Phases*: every single phase write follows the table, and between runs Failed and Ready are never left.
- *Contents*: over every history passwords, hosts, certificate names, directory bases, the init script and labels are what
  the spec read by the maker of each object says.
- *Ready means complete*, and references close exactly when Ninegate comes with Glauth.
- *Failure reports*, where they are stored, name the failing step and its error by an exact table, but the services under
  shifted names: two different failures store the same condition.
- *Deletion* takes only what is the client's. When the resource is let go is decided exactly in terms of the faults;
  nothing of the client is then left, unless the read of its namespace failed.
- *Isolation*: however the calls of any number of controllers are scheduled on one store, each client fares as if alone,
  and once all runs have ended the cluster is that of a serial schedule.

## Model

| member | source | states |
|---|---|---|
| Recovery.ExactRecovery | operator/internal/controller/clientnamespace_controller.go:97-186 | From every reachable state (any faulted or crashed runs, any spec edits) with a services section, a run in which at most errors occur that the code ignores ends with Ready stored if and only if the phase was Ready, or no Ready condition is stored and the `glauth-ldaps` route does not exist |
| Recovery.ReadyReachable | operator/internal/controller/clientnamespace_controller.go:682-714 | From every reachable state Ready can be reached by some continuation if and only if the client is not stranded (not Failed, and not unready with the route in place); then one undisturbed run suffices, after an edit if the spec has no services section |
| Recovery.StrandedForever | operator/internal/controller/ingress.go:256-295 | A stranded client stays stranded under all further runs, edits and interference: the route check looks for a Secret, so a second attempt ends in already-exists |
| Strandings.ReadyOrStranded | operator/internal/controller/clientnamespace_controller.go:110-190 | With a services section, every run without a crash whose calls on the resource itself (fetch, finalizer write, status writes) go through ends Ready or stranded: any error of a call on a child object that is not ignored is final |
| Strandings.FailureIsStored | operator/internal/controller/clientnamespace_controller.go:682-714 | A stopped run in a living process stores Failed with its one condition exactly when the write of Failed takes effect and a service's own write before it did not leave the run with an outdated resource; otherwise phase and conditions stay |
| Strandings.OneDropStrands | operator/internal/controller/clientnamespace_controller.go:386-406 | From any reachable state that is not Ready, one refused create of any planned object that does not exist yet strands the client for good |
| Hindrances.OneFailedReadStrands | operator/internal/controller/clientnamespace_controller.go:386-395 | From any reachable state that is not Ready, one failing read of any object the run looks for, there or not, the fallback certificates included, strands the client for good |
| Hindrances.OneUnreadCaStrands | operator/internal/controller/ingress.go:67-71 | So does one run that cannot read the CA, even if every certificate is there |
| Hindrances.OneFailedDrawStrands | operator/internal/controller/clientnamespace_controller.go:279-282 | So does a failing draw for the admin password, the CA or a certificate that is planned and not there yet |
| Strandings.FirstDropStrands | operator/internal/controller/clientnamespace_controller.go:682-714 | The smallest such history: a new client whose namespace create is dropped is stranded in phase Failed |
| Strandings.CrashAfterRouteStrands | operator/internal/controller/ingress.go:256-295 | A crash right after the route has been created strands a client that is still Provisioning and never reported an error |
| Recovery.RouteBlocks | operator/internal/controller/ingress.go:256-295 | No run gets through while the route exists, whatever the faults |
| Recovery.NoServicesNeverReady | operator/internal/controller/ingress.go:89-98 | The services section is dereferenced without a nil check: without one, no history ever reaches Ready |
| Prefix.PrefixTheorem | operator/internal/controller/clientnamespace_controller.go:110-172 | For a fixed spec, after any history of faults and crashes, the client's objects are exactly a prefix of the plan, the effective creates are exactly these in plan order, and the prefix has only grown |
| Prefix.Conservation | operator/internal/controller/clientnamespace_controller.go:386-406 | Over the whole history, effective creates are as many as existing objects and never more than the plan has |
| Prefix.PlanIsDistinct | operator/internal/controller/clientnamespace_controller.go:110-172 | A plan lists no object twice |
| PlanOrder.PlanIs | operator/internal/controller/clientnamespace_controller.go:110-172 | The plan of a run equals the creation order written out object by object: namespace, secrets, CA, certificates, enabled services in start-up order, ingress rules, route, policies |
| Histories.HistoryIsWriteOnce | operator/internal/controller/clientnamespace_controller.go:386-406 | No later step of a history, spec edits included, changes or removes a client's object |
| Phases.PhaseMachine | operator/internal/controller/clientnamespace_controller.go:97-108 | Between any two points of a history the phase moved along the table that whole runs allow; Failed and Ready are never left; from Ready on status and objects are unchanged |
| PhaseLog.EveryWriteIsOneStep | operator/internal/controller/clientnamespace_controller.go:97-108 | Write by write over every history: each phase write that took effect is one step from the phase stored before it (to Provisioning from no phase or Pending; from Provisioning to itself, Failed or Ready; from Failed to itself; from Ready nowhere), and the phase stored last is the one in the resource |
| Phases.RunMoves | operator/internal/controller/clientnamespace_controller.go:97-108 | One run from a coherent status: phase moves along the table, the status stays coherent, a Ready client is left alone |
| Phases.FailedHasOneCondition | operator/internal/controller/clientnamespace_controller.go:682-714 | A stored Failed always comes with exactly one condition, of type Ready and status False |
| Phases.ReadyAfterFailedIsInvalid | operator/internal/controller/clientnamespace_controller.go:174-183 | The unconditionally appended Ready condition is accepted if and only if none is stored yet |
| Completeness.ReadyMeansComplete | operator/internal/controller/clientnamespace_controller.go:110-186 | A run that newly stores Ready has every plan object in place, namespace, secret name and endpoint recorded, exactly the six service entries ready and all other entries untouched |
| Completeness.ReadyOwnsThePlan | operator/internal/controller/clientnamespace_controller.go:110-172 | For a fixed spec, a Ready client owns exactly the objects of its plan |
| FailureReports.ServiceFailureIsReported | operator/internal/controller/clientnamespace_controller.go:150-162 | A run from any reachable state that stops on a service's account stopped at an action of service i, right after those that got through, and the objects of the services below i exist. If the process lives and its last writes allow, stored are Failed, one condition with service i's reason and the error, the services below i ready, i not ready with the error, and every other name of the list as before; otherwise phase and conditions stay |
| Reasons.EveryFailureHasItsReason | operator/internal/controller/clientnamespace_controller.go:110-172 | Every failure, over every history: a run that stops with an error stopped at one action, right after those that got through; if its last writes allow, the stored status gives that action's reason by a table of the objects, in which each service stands under its neighbour's name, and the error; it names the namespace and the admin secret exactly if their steps were passed, and notes a service's failure in the service list |
| FailureReports.SameReportForTwoFailures | operator/internal/controller/clientnamespace_controller.go:716-722 | Two runs of the same new client, each with one dropped create, store the same phase and the same condition "NamespaceFailed": one client has no namespace, the other has one and lacks the configuration of PostgreSQL |
| Agreement.SingleTrustRoot | operator/internal/controller/ingress.go:20-138 | In every state of a history (before a deletion request) every stored certificate is signed by the one stored CA; the self-signed fallbacks never reach the store |
| Agreement.GlauthCarriesStoredPassword | operator/internal/controller/glauth_controller.go:84-121 | In every state of a history (before a deletion request) Glauth's connection string carries the stored POSTGRES_PASSWORD |
| Agreement.CertificateCoverage | operator/internal/controller/ingress.go:161-183 | While the domain is not edited and before a deletion request, every stored ingress rule names a stored certificate that lists the rule's host |
| Origins.CoverageExactly | operator/internal/controller/ingress.go:161-183 | Exactly, over every history: a stored rule's certificate is stored and covers the rule's host if and only if the run that made the rule and the run that made the certificate read the same domain |
| Leftovers.LifeAndAfter | operator/internal/controller/clientnamespace_controller.go:84-87 | Up to the first deletion request a lifecycle is a history; a resource is going away exactly from then on, and the objects of the history only become fewer |
| Leftovers.TrustRootForLife | operator/internal/controller/ingress.go:20-138 | Over whole lifecycles, deletion included: one CA signs every certificate that is ever left, and a CA that is left is that one |
| Leftovers.GlauthForLife | operator/internal/controller/glauth_controller.go:84-121 | Over whole lifecycles: while Glauth's configuration and the password secret are both left, they agree |
| Leftovers.CoverageForLife | operator/internal/controller/ingress.go:161-183 | Over whole lifecycles: while a rule and its certificate are both left, coverage holds if and only if their makers read the same domain |
| Leftovers.AgreementForLife | operator/internal/controller/clientnamespace_controller.go:427-449 | Over whole lifecycles: while the Ninegate secret and a root secret are both left, they disagree under exactly the condition of histories |
| Leftovers.AnyTwoCanPart | operator/internal/controller/clientnamespace_controller.go:192-231 | After a deletion request any two planned objects, the first of a swept kind, can be separated: a lifecycle ends with the resource let go, the first gone and the second left |
| Leftovers.AgreementEndsWithDeletion | operator/internal/controller/clientnamespace_controller.go:214-223 | In particular a certificate can outlive the CA, Glauth's configuration the password it carries, and an ingress rule its certificate |
| Discrepancies.CoverageNeedsConstantDomain | operator/internal/controller/ingress.go:161-183 | After a cut-off run, an edit and a calm run to Ready, the rule is covered if and only if the edit kept the domain |
| Agreement.DatabaseAndS3Agree | operator/internal/controller/clientnamespace_controller.go:302-384 | With constant overrides and, where there is no override, truthful password reads and a working generator, `database-url` and `s3-secret-key` carry exactly the stored passwords, and the URL reads back to the stored password if and only if the override has no `@` |
| Origins.AgreementExactly | operator/internal/controller/clientnamespace_controller.go:302-384 | Exactly, over every history and without a proviso: Ninegate disagrees with a root secret if and only if that secret was there before the run that made the Ninegate secret, and that run worked with another password than the stored one |
| Births.Born | operator/internal/controller/clientnamespace_controller.go:386-406 | Every stored object of a history was made by the run of one determined step and has stayed as that run left it |
| Provisos.InterruptedDisagrees | operator/internal/controller/clientnamespace_controller.go:427-449 | After a run cut off before the Ninegate secret, an edit and a second run in which at most ignored errors occur, Ninegate disagrees with the database secret, or with the S3 secret, if and only if the second run works with another password than the first; the client ends Ready all the same |
| Provisos.AgreementNeedsTruthfulReads | operator/internal/controller/clientnamespace_controller.go:439-444 | For either root secret, a history with one failing or stale password read that keeps the other provisos and ends in disagreement |
| Provisos.AgreementNeedsConstantOverrides | operator/internal/controller/clientnamespace_controller.go:429-436 | For either root secret, a history with one edited override in which every read is truthful and every password generated, and that ends in disagreement |
| Provisos.AgreementNeedsRandomness | operator/internal/controller/clientnamespace_controller.go:446-448 | For either root secret, a history with one ignored generator error that keeps the other provisos and ends in disagreement |
| Agreement.AdminCredentialsAgree | operator/internal/controller/clientnamespace_controller.go:334-344 | Over all histories without a password reference and with truthful cross-reads, admin secret, `app-admin-password` and the Dex bind password are equal and not empty |
| Origins.NinegateAdminExactly | operator/internal/controller/clientnamespace_controller.go:334-344 | Exactly, over every history: Ninegate's admin password is the stored one if the run that made it could read it and it was there before or the run made it itself for want of a reference; else a new one |
| Origins.DexAdminExactly | operator/internal/controller/dex_controller.go:93-113 | The same for Dex's bind password; and Dex's secret for Ninegate is what its maker read of the stored `app-secret` |
| Origins.AdminsAgreeExactly | operator/internal/controller/clientnamespace_controller.go:334-344 | Over every history Ninegate and Dex use the same admin password if and only if what their makers took for it is equal |
| Origins.AdminBorn | operator/internal/controller/clientnamespace_controller.go:263-300 | The stored admin password is the one its maker generated, and not empty |
| AdminProvisos.ReferenceSeparatesAdmins | operator/internal/controller/clientnamespace_controller.go:263-267 | With a password reference nothing follows it: after a first run that ends Ready, Ninegate and Dex agree on the admin password if and only if two independently generated passwords are equal |
| AdminProvisos.LyingReadSeparatesAdmins | operator/internal/controller/dex_controller.go:93-102 | If a cross-read of the admin credentials fails in a first run, its reader agrees with the stored password if and only if two independently generated passwords are equal; the client is Ready all the same |
| AdminProvisos.AdminAgreementNeedsProvisos | operator/internal/controller/clientnamespace_controller.go:334-344 | Histories that break the admin agreement while keeping the other proviso, for the reference and for either cross-read |
| Agreement.DexCarriesAppSecret | operator/internal/controller/dex_controller.go:104-113 | Over all histories in which this cross-read is truthful and the app secret can be generated, Dex's secret for Ninegate is the stored `app-secret`, with or without a password reference |
| AdminProvisos.FailedSecretSeparatesLogin | operator/internal/controller/clientnamespace_controller.go:346-349 | If the app secret cannot be generated, the error is ignored, an empty secret is stored and Dex carries another one; the client is Ready |
| AdminProvisos.LoginNeedsProvisos | operator/internal/controller/dex_controller.go:104-113 | Histories in which Dex does not carry the stored app secret: one failing or stale read, or one failed generation, while the other proviso holds |
| Origins.LoginFitsByChance | operator/internal/controller/dex_controller.go:104-113 | Over every history, without a proviso: Dex's client secret is the one Ninegate sends if and only if what Dex's maker took for it (the generated app secret, a default for an empty one, or a new password after a failed read) equals another password that Ninegate's maker generated independently |
| Origins.SecretsBorn | operator/internal/controller/clientnamespace_controller.go:346-349 | In every state of a history both secrets of the stored Ninegate secret are the draws of the run that made it |
| Discrepancies.ReadyWithoutLogin | operator/internal/controller/ninegate_controller.go:180-180 | A faultless run that ends Ready with a Dex that refuses Ninegate |
| Closure.ReferentialClosure | operator/internal/controller/ninegate_controller.go:170-241 | In a Ready state of a fixed spec every Secret key, ConfigMap and volume a workload refers to exists if and only if Ninegate enabled implies Glauth enabled |
| Closure.IngressBackends | operator/internal/controller/ingress.go:161-237 | In a Ready state of a fixed spec, the Service behind a rule exists exactly for enabled Ninegate, Dex and RustFS; never for `rustfs-api` and the optional applications |
| Closure.PlanHas | operator/cmd/main.go:184-191 | A service object is planned exactly when it belongs to an enabled service |
| Written.RootSecretsWritten | operator/internal/controller/clientnamespace_controller.go:302-321 | Over every history: the stored database password is `postgresRootPassword` of the spec its maker read, the stored S3 password `rustfsRootPassword`, and without such an override the password drawn for that secret; users and database as text |
| Written.NinegatePasswordsWritten | operator/internal/controller/clientnamespace_controller.go:351-380 | Over every history: `database-url` is made of the stored PostgreSQL user, database and service name and of the override of the spec its maker read, else the password it found stored, else the one it drew; `s3-secret-key` likewise |
| Written.NinegateWritten | operator/internal/controller/clientnamespace_controller.go:350-381 | Over every history: `ldap-base` is the labels of the domain its maker read, each prefixed with `dc=` and joined by commas, and reads back to the domain if and only if that has no `,dc=`; the three addresses as text; storage as the RustFS service and the stored RustFS user say |
| Written.NinegateRefersToItsSecret | operator/internal/controller/ninegate_controller.go:170-241 | The stored Ninegate workload refers to every key of the stored Ninegate secret and to no other, to both volumes and to Glauth's configuration |
| Written.GlauthWritten | operator/internal/controller/glauth_controller.go:84-121 | Over every history: Glauth's connection is made of the user, password and database in the stored database secret, and its base is the domain's labels |
| Written.DexWritten | operator/internal/controller/dex_controller.go:115-120 | Over every history: Dex's base is the domain's labels, and its two further clients have passwords drawn for them |
| Written.OneDirectory | operator/internal/controller/dex_controller.go:120-120 | Ninegate, Glauth and Dex search under the same base if their makers read the same domain, and for domains without a comma only then |
| Written.RulesWritten | operator/internal/controller/ingress.go:161-183 | Over every history: a stored rule has the application's name, or `s3` for the RustFS API, before the domain its maker read, names the application's certificate (that of RustFS for the API) and its own name as backend |
| Written.HostsApart | operator/internal/controller/ingress.go:161-183 | Two stored rules made from one domain never share a host |
| Written.CertificatesWritten | operator/internal/controller/ingress.go:80-138 | Over every history: a stored certificate lists the application's host, for RustFS also the host of its API, of the domain its maker read |
| Written.RouteWritten | operator/internal/controller/ingress.go:278-278 | Over every history: the stored route passes `glauth.` and the domain its maker read, and the stored certificate of Glauth lists that host if and only if its maker read the same domain |
| Written.InitScriptWritten | operator/internal/controller/postgresql_controller.go:75-134 | Over every history and every map order: the stored init script creates `ninegate` first and then exactly `nextcloud`, `wordpress` and `dolibarr` as enabled in the spec its maker read, each once |
| Written.EveryObjectIsLabelled | operator/internal/controller/clientnamespace_controller.go:555-562 | Every stored object of a history carries the three labels of its client as text; exactly the objects of services and the Ninegate secret also carry an application label, which names their service |
| Written.WorkloadsWritten | operator/internal/controller/postgresql_controller.go:205-223 | What the other workloads refer to, and what volumes, services and the two policies are |
| Written.NamespaceWritten | operator/internal/controller/clientnamespace_controller.go:243-258 | The namespace records domain, plan and admin mail of the spec its maker read |
| Written.AdminWritten | operator/internal/controller/clientnamespace_controller.go:263-300 | The admin secret has user name and mail of the spec its maker read, which has no password reference, and a password of 24 characters |
| Deletion.DeletionTakesOwnOnly | operator/internal/controller/clientnamespace_controller.go:606-665 | A deletion run under any faults creates and changes nothing; what disappears was of the six swept kinds with all three labels as text, or went with a namespace labelled for the client |
| Written.DeletionSparesOthers | operator/internal/controller/clientnamespace_controller.go:606-612 | Unless the namespace goes, a deletion run keeps every own object that lacks one of the three labels or has another value for it, whatever the lists show |
| Written.LeftAfterDeletion | operator/internal/controller/clientnamespace_controller.go:606-665 | After a deletion run in which only the namespace read failed and everything was listed, exactly the namespace, the ingress rules, the route and the policies are left |
| Deletion.FinalizerGoesLast | operator/internal/controller/clientnamespace_controller.go:192-231 | When a deletion run lets go of the resource, the namespace remains if and only if it existed and its read failed or its label names another client; with labelled objects, nothing of the client remains if and only if nothing was there or the read did not fail |
| Deletion.LetsGoExactly | operator/internal/controller/clientnamespace_controller.go:192-231 | When a deletion run lets go, as an iff on the faults: the process survives the lists and deletes, no error of the namespace's deletion counts, and the finalizer write takes effect; failing lists and deletes of child objects never matter |
| Deletion.DroppedReadOrphans | operator/internal/controller/clientnamespace_controller.go:214-223 | One dropped read of the namespace: the resource is let go and the namespace, if there is one, stays |
| Deletion.SwallowedErrorOrphans | operator/internal/controller/clientnamespace_controller.go:214-223 | With a failing namespace read and no other fault the resource is let go, and exactly the objects survive that were not listed or are of a kind the sweep does not know |
| Deletion.CalmDeletionLeavesNothing | operator/internal/controller/clientnamespace_controller.go:192-231 | An undisturbed deletion run removes every object and the resource |
| Deletion.OthersFinalizersStay | operator/internal/controller/clientnamespace_controller.go:225-229 | A deletion run takes off the controller's own finalizer and no other; a resource that others hold stays, with its spec and status |
| Deletion.SweepFacts | operator/internal/controller/clientnamespace_controller.go:606-665 | The sweep removes only labelled objects of its six kinds, and all of them when nothing disturbs it |
| Lifecycle.NothingIsCreatedAfterDeletion | operator/internal/controller/clientnamespace_controller.go:84-87 | From the deletion mark on, no step of any lifecycle creates anything, and the client's objects only become fewer |
| Lifecycle.NothingOutlivesTheClient | operator/internal/controller/clientnamespace_controller.go:89-95 | Over whole lifecycles whose namespace reads do not fail: when the resource is gone or let go, no object of the client is left |
| Lifecycle.NamespaceOutlivesTheClient | operator/internal/controller/clientnamespace_controller.go:214-223 | Why that proviso is needed: a first run, a deletion request and a deletion run with one dropped namespace read end with the resource let go and the namespace still there |
| NonInterference.RunIsIsolated | operator/internal/controller/clientnamespace_controller.go:111-112 | What any run does to its client does not depend on the rest of the cluster, whatever happens there before each call; left alone it changes nothing outside its namespace |
| Programs.ControllerIsReconcile | operator/internal/controller/clientnamespace_controller.go:70-231 | The controller as a program that makes one call at a time and sees only the answers, its random numbers and the order of its maps ends in exactly the world of the whole run, under any faults and any activity of others |
| Schedules.EveryScheduleIsSolo | operator/internal/controller/clientnamespace_controller.go:70-231 | Any number of clients' programs on one shared store, scheduled call by call in any order: at every moment each has the program state, resource, writes and objects it would have alone after as many calls |
| Schedules.OwnTurnsSuffice | operator/internal/controller/clientnamespace_controller.go:70-231 | No client waits for another: after enough turns of its own its run has ended as the whole run does alone, whatever the others do |
| Schedules.CompleteSchedulesAgree | operator/internal/controller/clientnamespace_controller.go:70-231 | All schedules in which every run ends leave the same store and the same resources and writes |
| Schedules.EveryScheduleIsSerial | operator/internal/controller/clientnamespace_controller.go:70-231 | Every schedule in which all runs end leaves the cluster of a schedule that serves one client after the other |
| Schedules.OutsidersUntouched | operator/internal/controller/clientnamespace_controller.go:111-112 | No schedule touches an object that belongs to none of the clients |
| Interleavings.EveryInterleavingIsSerial | operator/internal/controller/clientnamespace_controller.go:206-217 | However the effective writes of two clients' runs are merged, each run seeing any foreign contents before each of its calls, the store is that of one run after the other |
| Interleavings.RunIsTold | operator/internal/controller/clientnamespace_controller.go:70-231 | Every run writes into its client's namespace only, and replaying its logged writes gives exactly the client's objects |
| Interleavings.ShuffleParts | operator/internal/controller/clientnamespace_controller.go:605-665 | In any merge of two clients' writes each client's part is the replay of its own, and the rest is untouched |
| NonInterference.CallsStayHome | operator/internal/controller/clientnamespace_controller.go:111-112 | Each single call leaves everything outside the client's namespace as it was just before |
| Objects.NsNameInjective | operator/internal/controller/clientnamespace_controller.go:111-111 | Different clients own different namespaces |
| Objects.NamesIdentify | operator/internal/controller/clientnamespace_controller.go:323-324 | No two of the controller's objects share kind and name |
| Invariants.HistoryIsSane | operator/internal/controller/clientnamespace_controller.go:110-172 | The inductive invariant behind the agreement results holds in every reachable state, for every set of promises that user and environment keep |
| Invariants.BuildWelcome | operator/internal/controller/clientnamespace_controller.go:323-384 | Every object a run builds keeps the invariant, given what the run has established so far |
| Invariants.PasswordLoads | operator/internal/controller/clientnamespace_controller.go:427-449 | Under the promises, the password a run holds is usable and equals the stored one |
| Runs.ReconcileShape | operator/internal/controller/clientnamespace_controller.go:70-108 | Every run either stops before provisioning, or performs the actions of the stored spec from a consistent state and finishes |
| Runs.WriteOnce | operator/internal/controller/clientnamespace_controller.go:386-406 | No run changes or removes an object of the client |
| Runs.Done | operator/internal/controller/clientnamespace_controller.go:386-406 | A run that got through has every object it was to ensure |
| Runs.DeadRunIsInert | operator/internal/controller/clientnamespace_controller.go:70-190 | After a crash a run has no further effect |
| CleanRuns.EnsureWorks | operator/internal/controller/clientnamespace_controller.go:386-406 | Undisturbed get-else-create succeeds |
| CleanRuns.RouteWorks | operator/internal/controller/ingress.go:256-295 | Undisturbed, the route step succeeds if and only if the route does not exist |
| Passwords.GenerateRandomPassword | operator/internal/controller/clientnamespace_controller.go:542-553 | The buffer loop yields what the stream of numbers generates; a result has the requested length and only charset characters |
| Passwords.GenerateSucceeds | operator/internal/controller/clientnamespace_controller.go:546-551 | A password is produced exactly when none of the numbers it draws fails |
| Passwords.GeneratedRoundTrips | operator/internal/controller/clientnamespace_controller.go:542-553 | Every generated password is read back exactly from the database URL, the Glauth connection string and the quoted Dex field |
| Passwords.UrlRoundTrip | operator/internal/controller/clientnamespace_controller.go:351-351 | A password is read back from the database URL if and only if it has no `@` |
| Passwords.ConnectionRoundTrip | operator/internal/controller/glauth_controller.go:98-98 | A password is read back from the connection string if and only if it has no space |
| Passwords.QuotedRoundTrip | operator/internal/controller/dex_controller.go:161-161 | A YAML reader that resolves every escape of a double-quoted scalar reads the password back if and only if it has no double quote, no backslash, no control character and no line break |
| DomainDn.ReplaceDotsWithDC | operator/internal/controller/glauth_controller.go:326-335 | The accumulating loop equals split on dots, prefix each label with `dc=`, join with commas |
| DomainDn.DnIsJoinedLabels | operator/internal/controller/glauth_controller.go:326-335 | The character-wise replacement equals the joined labels |
| DomainDn.DnRoundTrip | operator/internal/controller/glauth_controller.go:326-335 | A DN reader recovers the domain if and only if the domain does not contain `,dc=` |
| DomainDn.DnInjective | operator/internal/controller/glauth_controller.go:326-335 | On comma-free domains the mapping is injective |
| DomainDn.DnCollision | operator/internal/controller/glauth_controller.go:326-335 | With commas it is not: a family of colliding domains |
| DomainDn.DnLength | operator/internal/controller/glauth_controller.go:326-335 | Output length is input length plus 3 for each label |
| InitScript.GenerateInitSQL | operator/internal/controller/postgresql_controller.go:109-134 | The loop over a map in any iteration order yields the script of the wanted databases, which reads back as them if and only if no needed name contains a semicolon |
| InitScript.ScriptParses | operator/internal/controller/postgresql_controller.go:109-134 | For any catalog the script reads back as `ninegate` followed by exactly the wanted databases if and only if no needed name contains a semicolon |
| InitScript.ScriptIsOrderIndependent | operator/internal/controller/postgresql_controller.go:109-134 | For any catalog and every iteration order: the script creates `ninegate` first and each needed database exactly once if and only if the needed names are distinct, differ from `ninegate` and contain no semicolon |
| ServiceStatuses.ServiceNameInjective | operator/internal/controller/clientnamespace_controller.go:716-722 | No two service indices share a name, including the numbered tail |
| ServiceStatuses.UpsertIsMapUpdate | operator/internal/controller/clientnamespace_controller.go:667-680 | An upsert is a map update and keeps names unique |
| ServiceStatuses.AllReadyRefines | operator/internal/controller/clientnamespace_controller.go:150-162 | After the loop over any number of services each is ready, other entries are untouched, names stay unique |
| ServiceStatuses.FailureAt | operator/internal/controller/clientnamespace_controller.go:150-162 | A failure at i: names below i ready, i not ready with its message, the rest unchanged |
| Api.Get | operator/internal/controller/clientnamespace_controller.go:72-81 | A read changes nothing of the client; what it finds is what is stored |
| Api.CreateFacts | operator/internal/controller/clientnamespace_controller.go:386-406 | A create adds at most the one object, into an existing namespace, and logs exactly that; no error means it was added |
| Api.StatusUpdateFacts | operator/config/crd/bases/provisioning.ninekube.io_clientnamespaces.yaml:393-395 | A status write is stored whole or not at all, only from the current version and with distinct condition types |
| Api.ShapeFacts | operator/internal/controller/clientnamespace_controller.go:208-210 | The effect of each fault on a write |
| Pipeline.EnsureFacts | operator/internal/controller/clientnamespace_controller.go:386-406 | Get-else-create adds at most the one object, with content built from an unchanged namespace; success means it exists |
| Pipeline.RouteFacts | operator/internal/controller/ingress.go:256-295 | The route step succeeds only by creating the route, unless a Secret of its name exists |
| Pipeline.ExecFacts | operator/internal/controller/clientnamespace_controller.go:110-172 | Frame of every action: what it may add, and which parts of the in-memory resource it may change |
| Pipeline.IndexOfReady | operator/internal/controller/clientnamespace_controller.go:687-698 | The first Ready condition, or the length of the list |
| Contents.LabelsMatch | operator/internal/controller/clientnamespace_controller.go:555-562 | Every created object carries the three client labels as text, and so matches the selector of the sweep |
| Operator.ClientNamespaceReconciler.Reconcile | operator/internal/controller/clientnamespace_controller.go:70-190 | The imperative run, fault by fault, leaves exactly the world the specification function gives: provisioning or deletion |
| Operator.ClientNamespaceReconciler.ReconcileDelete | operator/internal/controller/clientnamespace_controller.go:192-231 | Sweep, drop the namespace, remove the finalizer: exactly the deletion phase |
| Operator.ClientNamespaceReconciler.CleanupClientResources | operator/internal/controller/clientnamespace_controller.go:606-665 | The six list-and-delete passes, exactly |
| Operator.ClientNamespaceReconciler.DeleteListed | operator/internal/controller/clientnamespace_controller.go:611-617 | One list-and-delete pass with ignored errors |
| Operator.ClientNamespaceReconciler.ProvisionFromPhase | operator/internal/controller/clientnamespace_controller.go:97-108 | The phase check and the Provisioning write, exactly |
| Operator.ClientNamespaceReconciler.Provision | operator/internal/controller/clientnamespace_controller.go:110-190 | All actions in order, first failure recorded, success marked ready: exactly the pipeline and its ending |
| Operator.ClientNamespaceReconciler.GetOrCreatePassword | operator/internal/controller/clientnamespace_controller.go:427-449 | The override of the named storage field, else stored, else generated; any read error counts as nothing stored |
| Operator.ClientNamespaceReconciler.EnsureServiceCerts | operator/internal/controller/ingress.go:67-107 | Loads the CA, panics without a services section, ensures the certificates in order with early exit |
| Operator.ClientNamespaceReconciler.EnsureIngresses | operator/internal/controller/ingress.go:142-191 | Ensures the rules, with their hosts as text, in order with early exit, then the route |
| Operator.ClientNamespaceReconciler.EnsurePVCs | operator/internal/controller/ninegate_controller.go:72-113 | The loop ensures both volumes with early exit |
| Operator.ClientNamespaceReconciler.UpdateServiceStatus | operator/internal/controller/clientnamespace_controller.go:667-680 | The scan-and-overwrite loop equals the upsert |
| Operator.ClientNamespaceReconciler.SetFailed | operator/internal/controller/clientnamespace_controller.go:682-714 | The scan-or-append loop and the status write, exactly |
| Operator.ClientNamespaceReconciler.FailService | operator/internal/controller/clientnamespace_controller.go:153-161 | The two status writes of a failing service, exactly |
| Operator.ClientNamespaceReconciler.MarkReady | operator/internal/controller/clientnamespace_controller.go:174-186 | The unconditional append and the final status write, exactly |
| Operator.ClientNamespaceReconciler.RunServices | operator/internal/controller/clientnamespace_controller.go:150-163 | The service loop performs the service stages in order and stops at the first failure |

## Left out

- X.509, RSA and PEM: signing is a constructor that records the CA and the DNS names; parsing a generated CA gives it back.
- The text of the Glauth and Dex configuration files: modelled as the settings the code fills in, with readers for the three rendered passwords.
- Images, probes, ports, resource amounts, storage sizes and classes, certificate issuer names: constants or one-branch defaults that no property here depends on.
- Readiness of pods, watches, requeue timing, caches of the resource itself: a run reads the current resource; child reads may be stale.
- Namespace termination: a deleted namespace takes its contents along at once; finalizers of child objects are not modelled.
- Two resources of the same name in different Kubernetes namespaces: the CRD is namespaced but the child namespace depends on the name only, so they would share it; a client is identified by its name here.
- Deleting and re-creating a resource of the same name: a history ends when the resource is gone.
- Validation of status writes other than repeated condition types, and invalid UTF-8 in domains.
- A panic is the end of a run without any further write; the framework's recovery is not part of this model.
- Operator.ClientNamespaceReconciler.EnsurePlain: the get-else-create code that the source repeats for each plain object is one method here.
- Logging, metrics, scheme registration, set-up, and `reconcileOptionalServices`, which only logs.
- Functions that nothing calls: getOrGeneratePassword, ensureCertificates, ensureSelfSignedCert, ensureCertFromSecret, SignCert.
- The check for an empty namespace in the service reconcilers: unreachable, since the run sets it before.
