# A verified model of the DBaaS controller

The controller gives every `DatabaseRequest` of a cluster a database: it places the request on a connection of a
provider, keeps a registry row with its credentials on that database server, creates the database and the user, and
publishes the connection as a Service and the credentials as a Secret. Any call may fail, be lost on its way back, or be
the last one before a crash, and the same request is then reconciled again. This project states what the controller keeps
in spite of that and proves it.

| file | what it models |
|---|---|
| `Registry.dfy` | one database server: the `users` table with its three UNIQUE constraints, databases, users, grants; every SQL statement is one step of an operation (`Op`, `Step`) |
| `Convergence.dfy` | sequential attempts of an operation, each cut at any statement |
| `RelationalDatabase.dfy` | `database.go` as a class whose methods execute those statements |
| `Workers.dfy` | the worker pool: statements of any number of workers interleaved, the per-request lock, restarts |
| `Placement.dfy` | the least-load search, the match of a seed, the look-up of a connection by name |
| `SecretKeys.dfy` | the entries of Secrets: what `getSecretData` hands out and what `dbInfoFromSeed` reads |
| `Cluster.dfy` | the stored request (spec, status, generation, resourceVersion, finalizer, deletion mark), the other objects, the API calls, and what others may do |
| `Reconcile.dfy` | `Reconcile` and everything it calls as a state machine, one step per API call or SQL statement, over an in-memory copy |
| `Safety.dfy`, `SafetySteps.dfy` | its inductive invariant, kept by outside moves and by every step of the controller |
| `Guarantees.dfy` | what the invariant means for runs: status, finalizer, placement |
| `Seeds.dfy`, `SeedPass.dfy` | what becomes of a seed's credentials over whole runs; exactly when a seed is taken over, and when that can be retried |
| `Deletion.dfy` | exactly when a deletion completes, and that cut passes do not change that |
| `Fixpoint.dfy` | what a successful pass leaves, and that nothing is written afterwards |
| `Conditions.dfy` | the conditions of the main results in terms of the objects, rows and entries themselves |
| `Completion.dfy`, `FirstPlacement.dfy` | exactly when a fault-free pass succeeds, for a placed and for a new request, and what it leaves |
| `Reporting.dfy` | what a fault-free pass reports, and exactly when the next one rests |
| `Failures.dfy` | what a failing call leads to, wherever in a pass it happens |
| `DatabaseRequestController.dfy` | `databaserequest_controller.go` as an object with methods, each proved to do what the machine does |
| `Providers.dfy` | the relational provider reconciler, with its loops |
| `MongoDb.dfy` | the MongoDB counterpart of the registry |

## How faults are modelled

* An operation on a database server has a program counter over its statements. Sequential attempts have a budget of statements that
  reach the server; in the pool, statements of different workers interleave, any of them may fail, and a restart clears all workers and the
  lock table.
* In the reconcile machine an API write is answered, refused without effect, or lost: it took effect but the caller sees an error.
  A read of the request may return any version ever stored. Between any two calls outside actors may create, edit or delete the request,
  put and remove any Secret and Service, the request's own included, change the providers, and other requests' workers may
  execute statements on the shared servers.
* An `Update` leaves out the fields that are `omitempty` and false, and the CRD's defaults for them are true: it stores
  `dropDatabaseOnDelete: true` for a request and `enabled: true` for a provider's connections, whatever was there.
* After an `Update` each in-memory status field is kept or replaced by the stored one, as an arbitrary choice.
* The methods of `DatabaseRequestController.DatabaseRequestReconciler` take a script of replies. A script that runs out is a crash, and every
  method's contract says that machine and method agree on what is left to do; `PassIsARun` carries the guarantees over.
* The fields of `Cluster.History` and `Cluster.Log` record what has happened, among it every provider list the cluster has held, so that
  it can be spoken of; nothing the controller does depends on them.

## What turned out not to hold

* *The early return* ("no updates to reconcile") is not reached by a request created in the normal way. Its first pass takes `ObservedGeneration` before its
  own `Update` stores the reference, which is a new generation; later passes find nothing changed, so the reason of Ready stays
  `DatabaseRequestCreated`, and the status, with the generation in it, is only written when that reason changes. `NewRequestNeverRests` says that after any number of
  fault-free passes the next one still makes its calls; `NextPassRestsIff` is the exact condition for a placed request, `RestsIff` that of the return itself.
* *The wish to keep the database* (`dropDatabaseOnDelete: false`) does not survive an `Update` of the controller: `KeepsWishIff` is the exact
  condition, and by `WishIsLost` every request loses it with its finalizer write. The spec of a settled request is therefore constant
  exactly for requests whose database is to be dropped (`PlacementSticks`, `InLineStays`). Likewise a provider's disabled connections become enabled with its
  finalizer write (`KeepsDisabledIff`).
* *A deleted request leaves no Service* holds unless somebody else creates one of that name after the pass has deleted it, such as another request of the
  namespace with the same `Spec.Name`, which works under another lock: `ServiceReturns` is a run in which the finalizer goes with the Service in place,
  `FinalizerRemovedSafely` and `OwnedGone` give the condition; the same for the Secret.
* *Sticky placement* needs current reads. `StaleReadSearches` gives the run in which a stale copy sends a pass to search again although a
  reference is stored; `SearchesIff` is the exact condition and `NoSecondSearch` the property for current reads.
* *Idempotence of dropping* (the interface comment at `internal/database/database.go:40`) holds for the registry, but PostgreSQL refuses to
  drop a role that still owns another database: `RetriesConverge` has this as an exact condition (`Completes`). `DropDatabase` keeps the row
  and inserts one if there is none.
* *Retrying a deletion* stops working when the password of the connection is kept in the very Secret the deletion removes (`OwnPasswordStrands`).
* *Retrying a seed* stops working between the deletion of its Secret and the `Update` that clears `Spec.Seed`: `SeedRetryIff` is the exact condition,
  `SeedStrands` a run that gets there, `SeedNotRetriable` what follows. The credentials are safe in the registry by then, unless another row
  stood in the way (`SeedNeverLost`), because `INSERT IGNORE` and `ON CONFLICT DO NOTHING` do not report it (`SetThenGet`).
* *A seed edited while a pass handles it* is lost: `EditedSeedIsLost` is a run in which the new contents are deleted and recorded nowhere,
  `DeletedContentsKeptIff` the exact condition. A seed nobody edits is never lost (`SeedNeverLost`).
* *The password in the row* opens the account exactly when the account did not exist before or had it already (`PasswordMatches`).
* *Looking the selected connection up by its name* can find another one of the same name: `SelectionAndLookupDisagree` is such a list,
  `SelectionAndLookupAgree` the exact condition. The names that the provider reconciler makes distinct are only distinct for providers that are Ready, and
  the selection does not look at that condition.
* *MongoDB*: a drop cut between `dropUser` and the deletion of the document cannot be completed by another drop (`DropRetriesIff`). A create makes its
  database before a document names it; the database stays behind if the create is cut there, and also, without any crash, if another
  create's upsert for the same key comes first (`UnnamedDatabaseIff`, `RacingCreates`; `UnrecordedDatabaseIff` for a create running alone). The SQL side has neither
  (`RetriesConverge`, `RunRecorded`).
* Request types `mongodb` and `mariadb` with a reference reach `handleService` without database information and panic there; the machine ends the
  pass at that point.

## Model

| member | source | states |
|---|---|---|
| Registry.OwnStep | internal/database/database.go:447-487 | every statement keeps the three UNIQUE constraints, only ever appends to the table, and leaves the operation with what its next program counter relies on |
| Registry.OtherStep | internal/database/database.go:259-414 | no statement of another request's operation disturbs what an operation has seen, created or dropped so far |
| Registry.Isolation | internal/database/database.go:219-228 | a statement for one request leaves every other request's row, database, user, password and MySQL grant as they were; and the PostgreSQL membership granted to the provider's login, unless that login is the user of the request served |
| Registry.StepRecorded | internal/database/database.go:273-346 | registration precedes creation: after every statement each new database and user is named by a row |
| Registry.LookupAppend | internal/database/database.go:239-247 | appending a row that clashes with none keeps the table unique and changes the look-up of its own key only |
| Convergence.AttemptKeeps | internal/database/database.go:259-414 | an attempt cut at any statement leaves the table unique with all earlier rows in place |
| Convergence.RetriesConverge | internal/database/database.go:259-414 | any number of cut create, drop or info attempts followed by a full one: it completes exactly when an uninterrupted run with the first row inserted would, ends in that run's state, and returns that row |
| Convergence.RetriesLikeOneRun | internal/database/database.go:40 | the same said of the runs themselves: the interrupted history cannot be told from one uninterrupted call |
| Convergence.FullAttempt | internal/database/database.go:259-353 | an uninterrupted call completes exactly when its row is there or is accepted (and the drop is not refused), and leaves exactly the closed-form state |
| Convergence.RetryWithRow | internal/database/database.go:465-475 | once the row exists no cut attempt changes where the next full one ends |
| Convergence.RetryWithoutRow | internal/database/database.go:477-486 | an attempt that finds no row either changes nothing or inserts its own draw, and then stays on course for it |
| Convergence.FinishFromRow | internal/database/database.go:278-346 | from the row on, every statement keeps the final state reachable and the operation ends there |
| Convergence.CreateLeaves | internal/database/database.go:273-346 | cut creates and a full one that completes leave the row, one database and one user more than before if they were missing (owned by that user on PostgreSQL, with the returned password), everything else as it was, and the one grant: on the database to the user, or of the user's role to the provider's login |
| Convergence.DropLeaves | internal/database/database.go:363-413 | a completed drop, however often cut, leaves its row and takes away exactly its database, its user and the grants to or of that user |
| Convergence.PasswordMatches | internal/database/database.go:286-291 | the returned password opens the account exactly when the account was absent or already had it |
| Convergence.SetIs | internal/database/database.go:591-604 | SetDatabaseInfo records the info exactly when no row clashes on key, username or database name, and otherwise changes nothing |
| Convergence.GetIs | internal/database/database.go:576-588 | GetDatabaseInfo run alone is the atomic get-or-create |
| Convergence.SetThenGet | internal/database/database.go:491-512 | reading back returns what was set exactly when no earlier row clashed or the request's own row already held it |
| Convergence.GetTwice | internal/database/database.go:576-588 | a second GetDatabaseInfo returns the same and changes nothing, whatever it would draw |
| RelationalDatabase.GenerateRandomString | internal/database/database.go:417-424 | the loop fills a string of the given length with characters of the alphabet only |
| RelationalDatabase.CreateUserInfo | internal/database/database.go:427-442 | lengths and shape of the drawn credentials, the namespace cut at 50 characters in the database name |
| RelationalDatabase.RelationalDatabase.DatabaseInfo | internal/database/database.go:447-487 | the method, wherever its connection fails, has done what the statements up to there do; on success it returns the row |
| RelationalDatabase.RelationalDatabase.CreateDatabase | internal/database/database.go:259-353 | the state is that of the operation cut at the budget; success exactly when it is done, with its row |
| RelationalDatabase.RelationalDatabase.DropDatabase | internal/database/database.go:356-414 | the same for the drop |
| RelationalDatabase.RelationalDatabase.GetDatabaseInfo | internal/database/database.go:576-588 | the same for the look-up |
| RelationalDatabase.RelationalDatabase.SetDatabaseInfo | internal/database/database.go:591-604 | the same for recording a seed |
| Workers.LockKeyInjective | internal/controller/databaserequest_controller.go:117-119 | "namespace/name" tells requests apart because neither part contains a slash |
| Workers.MutualExclusion | internal/controller/databaserequest_controller.go:1034-1044 | two different workers never hold the lock of the same request |
| Workers.EntersIff | internal/controller/databaserequest_controller.go:1034-1044 | a waiting worker can enter exactly when no worker is inside for the same request, in every reachable state |
| Workers.LockIsPassedOn | internal/controller/databaserequest_controller.go:117-119 | a worker inside can always leave, at the latest when its next statement fails, and the one that waits then enters |
| Workers.RunKeeps | internal/controller/databaserequest_controller.go:1034-1044 | over every interleaving, with restarts: locks match their holders, every operation in flight knows what it relies on, completed look-ups stay answered by their row |
| Workers.InsertNeverHitsKey | internal/database/database.go:477-486 | a worker about to INSERT still finds no row of its request, so the (name, namespace) constraint never rejects it |
| Workers.LookupIsAtomic | internal/database/database.go:465-486 | the SELECT-then-INSERT is linearizable: its last statement does what an atomic get-or-create does at that moment and the earlier ones change nothing |
| Workers.OneCredential | internal/database/database.go:529-551 | all look-ups ever completed for a request on a server returned the same credentials, those in its row |
| Workers.CompletedMeans | internal/database/database.go:271-352 | under any interleaving a completed create has its row, database and user there, a completed drop has database and user gone |
| Workers.RunIsolates | internal/database/database.go:363-413 | whatever workers do for other requests leaves a request's row, database, user, password and MySQL grant alone on every server; and its PostgreSQL membership, as long as no request has drawn the provider's login for its user |
| Workers.RunAppends | internal/database/database.go:465-511 | over every run the registry is append-only: the rows of a server stay in place |
| Workers.RunRecorded | internal/database/database.go:273-345 | at every statement boundary of every run each created database and user is named by a row of its server |
| Placement.PlaceIsLeastLoad | internal/controller/databaserequest_controller.go:925-980 | the search returns the leftmost connection of least load among enabled ones of matching selector and type, and fails exactly when a load does not resolve or none is below the maximum int |
| Placement.FindRelationalDatabaseProvider | internal/controller/databaserequest_controller.go:912-981 | the nested loops compute that search |
| Placement.LookUpConnection | internal/controller/databaserequest_controller.go:710-720 | the loop finds the last connection of the name |
| Placement.FindByDistinctName | internal/controller/databaserequest_controller.go:710-720 | with distinct names looking a connection up by its own name gives it back |
| Placement.SelectionAndLookupAgree | internal/controller/databaserequest_controller.go:679-720 | the later look-up by name yields the connection selected exactly when the last of that name in the selected provider is the same; with distinct names it always does |
| Placement.FindsItselfIff | internal/controller/databaserequest_controller.go:710-720 | looking a connection up by its own name gives it back exactly when the last of that name is the same |
| Placement.SelectionAndLookupDisagree | internal/controller/databaserequest_controller.go:679-720 | two connections of one name: the less loaded is selected, the other one found |
| Placement.FindSeedConnection | internal/controller/databaserequest_controller.go:855-877 | the loops find the last enabled connection with the seed's host and port and its provider |
| Placement.SeedMatch | internal/controller/databaserequest_controller.go:855-877 | what is found matches selector, type, host, port and is enabled; nothing is found exactly when nothing matches |
| Placement.SeedMatchIsLast | internal/controller/databaserequest_controller.go:855-877 | what is found is the last such connection of the last such provider, and something is found exactly when there is one |
| SecretKeys.DataKeyInjective | internal/controller/databaserequest_controller.go:618-627 | over service names the map from (name, field) to key is injective |
| SecretKeys.FiveKeys | internal/controller/databaserequest_controller.go:618-627 | with U the name in upper case and `_` for `-`, a Secret has exactly the entries U_USERNAME, U_PASSWORD, U_DATABASE, U_HOST and U_PORT, each holding its own field; the port reads back as its number |
| SecretKeys.AtoiDecimal | internal/controller/databaserequest_controller.go:657-664 | a number written in decimal reads back as itself exactly in the range of int |
| SecretKeys.AtoiPlus | internal/controller/databaserequest_controller.go:657-664 | so it does with a plus sign in front |
| SecretKeys.DbInfoFromSeed | internal/controller/databaserequest_controller.go:629-668 | a seed is read exactly when its five entries are there and the port is a number, and each field is the entry of its key |
| SecretKeys.DisjointSecrets | internal/controller/databaserequest_controller.go:618-627 | different service names give disjoint key sets |
| SecretKeys.UnderscoreCollides | internal/controller/databaserequest_controller.go:619 | outside that alphabet two names can share their keys |
| Cluster.GetProvider | internal/controller/databaserequest_controller.go:699-704 | the provider found bears the name, and none is found exactly when none does |
| Cluster.PasswordOf | internal/controller/databaserequest_controller.go:722-734 | the password is the entry `password` of the connection's Secret, and missing exactly if that is missing or empty |
| Conditions.RefersIff | internal/controller/databaserequest_controller.go:695-720 | with distinct provider names the reference resolves to a connection exactly if that is the last of its name in the one provider of the name |
| Conditions.PlaceIff | internal/controller/databaserequest_controller.go:912-981 | a position is selected exactly if it is the leftmost of least load among the enabled matching ones, with all loads resolved and its own below the maximum int |
| Safety.HappenKeeps | internal/controller/databaserequest_controller.go:114-119 | outside edits, deletions, any Secret and Service put or removed, provider changes and other requests' statements keep the invariant and take nothing a pass relies on from it |
| Safety.LaterKeepsPc | internal/controller/databaserequest_controller.go:114-119 | at every program counter what the pass knows survives any such move |
| SafetySteps.UpdateOk | internal/controller/databaserequest_controller.go:219-223 | Update writes spec and metadata only if the version is current, with dropDatabaseOnDelete true whatever it was, bumps the generation exactly when that changes the spec, and removes a deleted object with its finalizer |
| SafetySteps.CallOk | internal/controller/databaserequest_controller.go:109-254 | every step of the controller, answered in any way, keeps the invariant |
| SafetySteps.RunOk | internal/controller/databaserequest_controller.go:109-254 | so does every run of outside moves, stale reads, faults and restarts |
| SafetySteps.AfterReadOk | internal/controller/databaserequest_controller.go:121-150 | from any version a stale cache may return, a pass starts in a state of the invariant |
| SafetySteps.FinalizeOk | internal/controller/databaserequest_controller.go:206-223 | the pass's own Update may bump the generation after ObservedGeneration was taken, and what is then reported still only claims the observed one |
| SafetySteps.DeleteSeedOk | internal/controller/databaserequest_controller.go:338-352 | when the seed Secret goes, the credentials read from it are recorded on the matched server or a clashing row exists |
| SafetySteps.RemoveFinalizerOk | internal/controller/databaserequest_controller.go:484-499 | the write that removes the finalizer satisfies the deletion conditions at that moment: Service and Secret gone but for what others have put back, the drop made where the reference pointed in a provider list of this pass |
| Guarantees.StatusSound | internal/controller/databaserequest_controller.go:219-252 | in every version ever stored: no conditions, Ready=True without Error, or Ready=False with Error=True; ObservedGeneration never exceeds Generation |
| Guarantees.SkippedWriteStrandsNothing | internal/controller/databaserequest_controller.go:225-252 | when the last status write is skipped the stored conditions are already the ones it would have written, even after stale reads |
| Guarantees.SkipsOnlyWhenSynced | internal/controller/databaserequest_controller.go:144-150 | whenever a stored version is Ready=True at its generation or beyond (the early return), an earlier pass had brought Service and Secret into line with the spec of exactly that generation: with the connection the reference names in a provider list of that pass and the registry row on its server, or with the seed's match there and its credentials, which the row holds exactly if no other row stands in the way |
| Guarantees.CallHasEffect | internal/controller/databaserequest_controller.go:109-254 | a call of the controller changes the stored request in its status, its reference or seed (never a settled placement), its dropDatabaseOnDelete to true, or its finalizer, counting generations, and removes it only with the finalizer-removing write |
| Guarantees.FinalizerRemovedSafely | internal/controller/databaserequest_controller.go:451-515 | whenever the controller removes the finalizer, Service and Secret are absent but for what somebody else has put back since the pass deleted them, and, where a drop is asked for, the stored status names no connection and the database and user the request's row names are gone from the server of the connection the stored reference names in a provider list held since the pass began; in the current list, if it has not changed |
| Guarantees.DropsOnReferredServer | internal/controller/databaserequest_controller.go:695-733 | if nobody changes the providers during the pass, they are gone from the server the stored reference names when the finalizer goes |
| Guarantees.OwnedGone | internal/controller/databaserequest_controller.go:474-494 | if nobody else creates it after this pass deleted it, the Service (the Secret) is absent when the finalizer goes |
| Guarantees.ServiceReturns | internal/controller/databaserequest_controller.go:474-496 | a run in which somebody does, and the finalizer goes with the Service in place |
| Guarantees.ReferenceSticks | internal/controller/databaserequest_controller.go:789-795 | a settled reference is cleared only in the finalizer-removing write; apart from dropDatabaseOnDelete the spec is not changed |
| Guarantees.KeepsWishIff | api/v1alpha1/databaserequest_types.go:87-89 | an Update over an unchanged spec leaves it unchanged exactly if it says to drop the database or the write does not take effect |
| Guarantees.WishIsLost | internal/controller/databaserequest_controller.go:135-139 | the first write for a new request stores dropDatabaseOnDelete true, as a new generation if it was false |
| Guarantees.PlacementSticks | internal/controller/databaserequest_controller.go:161-184 | over every run without outside edits a settled request keeps its placement until it is gone, stale reads included, and its whole spec if that says to drop the database |
| Guarantees.ResolvesStoredReference | internal/controller/databaserequest_controller.go:695-720 | every look-up and drop goes to the connection the read reference names in a provider list held since the pass began, and that reference is the stored one while the version is current |
| Guarantees.NoSecondSearch | internal/controller/databaserequest_controller.go:168-184 | with current reads no later pass searches for a provider or creates a database once a reference is stored and the seed is nil |
| Guarantees.SearchesIff | internal/controller/databaserequest_controller.go:168-170 | while the stored request is settled, a pass searches exactly when the version it read is finalized, not deleted, does not skip, and has a seed or, if relational, no reference; from an unfinalized version it never does |
| Guarantees.StaleReadSearches | internal/controller/databaserequest_controller.go:121-170 | a run in which a stale version makes a pass search although a reference is stored |
| Seeds.SecretsTouched | internal/controller/databaserequest_controller.go:338-352 | apart from its own Secret the controller changes no Secret, and removes only the seed Secret of its request, at the one place |
| Seeds.SeedDeletionRecorded | internal/controller/databaserequest_controller.go:338-352 | the call that removes a seed Secret is the deletion of handleSeed, made by a pass that had read that seed |
| Seeds.SeedConserved | internal/controller/databaserequest_controller.go:308-352 | a seed Secret is deleted only after a successful ping, an enabled match on host, port, selector and type in a provider list of the cluster, and a successful record; from then on the request's row on that server has the entries `username`, `password` and `database` read from the Secret exactly if no other row stands in the way |
| Seeds.SeedNeverLost | internal/controller/databaserequest_controller.go:308-352 | at every step of every run a seed Secret that nobody edits has its contents, or they were recorded before it was deleted and the row has its entries `username`, `password` and `database` exactly if no other row stands in the way |
| Seeds.DeletedContentsKeptIff | internal/controller/databaserequest_controller.go:338-352 | contents thrown away are kept in the row exactly if they name the credentials that were read |
| SeedPass.EditedSeedIsLost | internal/controller/databaserequest_controller.go:553-557 | a run in which an edit between read and deletion is thrown away and recorded nowhere |
| SeedPass.SeedPassIff | internal/controller/databaserequest_controller.go:152-166 | a fault-free pass over a request with a seed reports Ready=True exactly when its Secret is there with five entries and a number for a port, the type is relational, and the last enabled connection at that host and port, of a provider of matching selector and type, has a password and a server of that type; otherwise Ready=False |
| SeedPass.SeedRetryIff | internal/controller/databaserequest_controller.go:338-352 | after any passes, cut at any call, with others' statements in between, while the request has its seed a fault-free pass takes it over exactly if its Secret is still there |
| SeedPass.SeedStrands | internal/controller/databaserequest_controller.go:338-352 | a run from an empty cluster in which the answer to the deletion of the seed Secret is lost and the request is stranded |
| SeedPass.SeedNotRetriable | internal/controller/databaserequest_controller.go:548-560 | from then on no pass gets anywhere |
| Deletion.PassProgresses | internal/controller/databaserequest_controller.go:109-254 | however a call is answered, a pass has strictly fewer calls left |
| Deletion.PassEnds | internal/controller/databaserequest_controller.go:109-254 | so every pass ends |
| Deletion.DeletesIff | internal/controller/databaserequest_controller.go:451-515 | a fault-free pass over a request being deleted completes exactly when no drop is asked for, the type is mongodb, or the reference is to a listed provider's last connection of its name which has a password and a server of that type, and there the row (or the draw, if that is free) names a user that owns no other database |
| Deletion.DropPass | internal/controller/databaserequest_controller.go:671-733 | with the connection resolved it completes exactly when the server's drop does |
| Deletion.DropTampers | internal/database/database.go:363-413 | a statement of a drop at most inserts the request's row and changes nothing about what stands in the way of the drop |
| Deletion.OtherTampers | internal/database/database.go:307-345 | another request's statement puts nothing in the way of this request's drop |
| Deletion.RetrySafe | internal/controller/databaserequest_controller.go:455-499 | after any number of passes cut at any call, a fault-free pass completes exactly when it would have at the start, with the row that exists by then |
| Deletion.RetrySafeAmongOthers | internal/controller/databaserequest_controller.go:455-499 | with other requests' statements and Services in between: a deletion that would have completed still does, unless the draw for a missing row has been taken, and one that would not completes only if they have dropped the database in the way |
| Deletion.OwnPasswordStrands | internal/controller/databaserequest_controller.go:484-494 | unless the connection's password is the deleted Secret: then no drop completes any more |
| Fixpoint.SuccessfulPass | internal/controller/databaserequest_controller.go:152-254 | after a pass that gets through its Update, with others' statements in between, the Service points at the referenced connection's hostname and the Secret holds, entry by entry, the credentials of the registry row and that connection's port; for a seed the row has them exactly if no other row stood in the way |
| Fixpoint.BroughtInLine | internal/controller/databaserequest_controller.go:356-448 | what the handlers bring about is what the reference and the registry call for |
| Fixpoint.InLineStays | internal/controller/databaserequest_controller.go:356-448 | from there any number of passes, with any failures, restarts and others' statements in between, write nothing to Service and Secret, nothing to the spec if it says to drop the database, and every registry is what the others' statements alone make of it |
| Fixpoint.ConvergesOnce | internal/controller/databaserequest_controller.go:152-254 | both together: one successful pass, then rest |
| Completion.ReadyIff | internal/controller/databaserequest_controller.go:152-254 | a fault-free pass over a settled request not ready at its generation, finalized or not, reports Ready=True exactly when the reference is to a listed provider's last connection of its name which has a password and a server of that type, and that has the row or takes the one drawn; otherwise Ready=False |
| Completion.OtherTypes | internal/controller/databaserequest_controller.go:187-203 | for the types without an implementation a pass touches no Service, Secret or server; without a reference it reports a missing one (mongodb) or a failed creation (mariadb), with one it ends in the panic |
| Reporting.ReportIs | internal/controller/databaserequest_controller.go:206-252 | a fault-free pass over a placed request whose Update changes nothing reports Ready=True without Error, with DatabaseRequestChanged exactly if the Service or Secret was there with other contents; and the generation and reference it observed, exactly if that reason was not stored already; Service and Secret are then in place |
| Reporting.RestsIff | internal/controller/databaserequest_controller.go:144-150 | a pass over a finalized version makes no call exactly if that is Ready=True with ObservedGeneration not below its generation, and then changes nothing |
| Reporting.NextPassRestsIff | internal/controller/databaserequest_controller.go:217-252 | after such a pass the next one rests exactly if the reason reported was not the one already stored |
| Reporting.NeverRests | internal/controller/databaserequest_controller.go:217-252 | a request in line, ready and created, but for an earlier generation, stays so: after any number of fault-free passes the next one still makes its calls |
| Failures.FailedCallStops | internal/controller/databaserequest_controller.go:257-298 | wherever a call fails or its answer is lost, the pass does nothing more but report it, as Ready=False and Error=True under the label of that call; a refused call has changed nothing |
| Failures.ErrorsAreLabelled | internal/controller/databaserequest_controller.go:257-298 | an object that is missing, a look-up without a result, a refused statement and a version no longer stored are reported under the same labels |
| Failures.DeletionRefusedIff | internal/controller/databaserequest_controller.go:453-473 | a deletion is refused before any call exactly for a drop of an unknown type (invalid type) or without a reference (failed drop) |
| FirstPlacement.FirstPassIff | internal/controller/databaserequest_controller.go:168-203 | a fault-free pass over a new request, as its user created it, reports Ready=True exactly when the search has a choice of least load and the last connection of its name there has a password and a server of that type, which has the row or takes the one drawn; otherwise Ready=False |
| FirstPlacement.FirstPassLeaves | internal/controller/databaserequest_controller.go:741-795 | what it then leaves: the spec as it was but for the reference to that connection (and the default), the same reference and the names of database and user in the status; on the server the row with the credentials, the database, the user and its grant; Service and Secret in place, and a status one generation behind |
| FirstPlacement.NewRequestNeverRests | internal/controller/databaserequest_controller.go:144-252 | if neither Service nor Secret is there with other contents at first, then after its first pass and any number of further fault-free ones the next pass still does not rest |
| DatabaseRequestController.PassIsARun | internal/controller/databaserequest_controller.go:109-254 | what the method Reconcile leaves behind, wherever it was cut, is a state the machine reaches, so the invariant holds in it |
| DatabaseRequestController.OperationIsAttempt | internal/controller/databaserequest_controller.go:741-818 | create, drop, info and record, however their calls are answered, leave the server as an attempt cut after as many statements leaves it and nothing else changed, and succeed exactly when that attempt is done and no answer was lost |
| DatabaseRequestController.PassIsSound | internal/controller/databaserequest_controller.go:109-254 | after any pass Ready and Error exclude each other, every finalizer so far was removed safely and every seed deleted so far was recorded first |
| DatabaseRequestController.DatabaseRequestReconciler.Reconcile | internal/controller/databaserequest_controller.go:109-254 | leaves exactly what the machine leaves from that read under the same replies, and with it a sound state: conditions exclusive, finalizers removed safely, deleted seeds recorded |
| DatabaseRequestController.DatabaseRequestReconciler.HandleError | internal/controller/databaserequest_controller.go:257-298 | sets both conditions and ends the pass as the machine does |
| DatabaseRequestController.DatabaseRequestReconciler.HandleSeed | internal/controller/databaserequest_controller.go:308-352 | reads, pings, matches, records and deletes as the machine does, or fails with the label handleError gets |
| DatabaseRequestController.DatabaseRequestReconciler.HandleService | internal/controller/databaserequest_controller.go:356-402 | creates, updates or leaves the Service as the machine does and reports an update |
| DatabaseRequestController.DatabaseRequestReconciler.HandleSecret | internal/controller/databaserequest_controller.go:405-448 | the same for the Secret |
| DatabaseRequestController.DatabaseRequestReconciler.DeleteDatabase | internal/controller/databaserequest_controller.go:451-515 | drops if asked to, deletes Service and Secret, removes the finalizer, in the machine's order |
| DatabaseRequestController.DatabaseRequestReconciler.CreateDatabase | internal/controller/databaserequest_controller.go:518-545 | places and creates for the relational types, does nothing for mongodb, fails for the rest |
| DatabaseRequestController.DatabaseRequestReconciler.CreateRelationalDatabase | internal/controller/databaserequest_controller.go:746-778 | search, look-up, create, status write, reference set in memory |
| DatabaseRequestController.DatabaseRequestReconciler.RelDbInfo | internal/controller/databaserequest_controller.go:999-1010 | resolves the reference and returns the row with the connection's host and port |
| DatabaseRequestController.DatabaseRequestReconciler.RelDbDeletion | internal/controller/databaserequest_controller.go:984-996 | resolves the reference, drops, stores the cleared status, clears the reference in memory only |
| DatabaseRequestController.DatabaseRequestReconciler.RunStatements | internal/controller/databaserequest_controller.go:746-818 | an operation's statements one after the other, any of which may be the last |
| Providers.DistinctIffAllCounted | internal/controller/relationaldatabaseprovider_controller.go:136-178 | the set of names is as large as the list exactly when no name occurs twice |
| Providers.CollectConnections | internal/controller/relationaldatabaseprovider_controller.go:136-178 | the first loop succeeds exactly when every connection has a password and the names are distinct, and describes every connection in order |
| Providers.ExamineConnections | internal/controller/relationaldatabaseprovider_controller.go:180-245 | the second loop gives one entry per connection in order, counts failures, and finds an enabled working connection exactly when there is one |
| Providers.PassKeeps | internal/controller/relationaldatabaseprovider_controller.go:91-285 | every pass, from any stored version, with edits before each write and any fault, keeps what Ready=True means |
| Providers.RunKeeps | internal/controller/relationaldatabaseprovider_controller.go:91-285 | so does every run |
| Providers.KeepsDisabledIff | api/v1alpha1/relationaldatabaseprovider_types.go:57-60 | an Update of an unchanged copy leaves the connections as they are exactly if all of them are enabled |
| Providers.ReadyMeans | internal/controller/relationaldatabaseprovider_controller.go:247-273 | whenever Ready=True for the stored generation: distinct names, one status entry per connection in order with its name, hostname and flag, one enabled and available, and look-up by name is exact |
| Providers.PassReports | internal/controller/relationaldatabaseprovider_controller.go:118-273 | an undisturbed pass over a provider not ready at its generation stores one entry per connection stored then, available and with its version exactly if it answers all three probes, Ready=True exactly if passwords are there, names are distinct and an enabled connection answers, and its generation as observed; without passwords or distinct names only Ready=False |
| Providers.ReadyThenRests | internal/controller/relationaldatabaseprovider_controller.go:118-127 | after a pass that reports Ready=True the next one over what it has stored changes nothing, whatever its calls do |
| Providers.PassLetsGo | internal/controller/relationaldatabaseprovider_controller.go:107-116 | a provider being deleted goes with its finalizer, and one without it is left alone |
| Providers.RefusedIsReported | internal/controller/relationaldatabaseprovider_controller.go:110-134 | a provider whose finalizer write is refused is otherwise as it was, and reported not ready |
| Providers.RelationalDatabaseProviderReconciler.ReconcileConnections | internal/controller/relationaldatabaseprovider_controller.go:136-273 | reports Ready=True exactly for a healthy provider and stores the entries of the generation examined |
| Providers.RelationalDatabaseProviderReconciler.Reconcile | internal/controller/relationaldatabaseprovider_controller.go:91-285 | leaves what a pass leaves; when it returns without an error over a version not deleted and not ready at its generation, the provider is stored Ready, or gone |
| Providers.RelationalDatabaseProviderReconciler.HandleError | internal/controller/relationaldatabaseprovider_controller.go:288-315 | stores Ready=False over the version it holds |
| MongoDb.OneCredentialWithoutLock | internal/database/mongodb/mongodb.go:228-236 | under any interleaving of callers, crashes included, all completed creates of a key return the stored document's credentials |
| MongoDb.CallsName | internal/database/mongodb/mongodb.go:150-259 | over sequential creates and drops cut at any command every auth account is named by a stored document |
| MongoDb.CreatesConverge | internal/database/mongodb/mongodb.go:198-259 | cut creates followed by a full one return the first stored draw and leave its document, database and account |
| MongoDb.AccountMatches | internal/database/mongodb/mongodb.go:238-259 | the password and the database returned are those of the account exactly if the user had no account before or had it with them; every other account is as it was |
| MongoDb.CreateIs | internal/database/mongodb/mongodb.go:209-259 | what a create has done after so many commands, and when it completes |
| MongoDb.DropIs | internal/database/mongodb/mongodb.go:157-192 | the same for a drop |
| MongoDb.DropRetriesIff | internal/database/mongodb/mongodb.go:173-192 | a cut drop can be completed by another exactly when the cut was not between dropUser and the deletion of the document |
| MongoDb.CreateHeals | internal/database/mongodb/mongodb.go:195-197 | a create always completes, also after such a cut, and a drop after it does too |
| MongoDb.UnrecordedDatabaseIff | internal/database/mongodb/mongodb.go:222-236 | a first create running alone leaves a database no document names exactly when it is cut between its first write and its upsert |
| MongoDb.UnnamedDatabaseIff | internal/database/mongodb/mongodb.go:222-236 | under any interleaving the database a create has drawn exists unnamed exactly between its first write and its upsert, or when another create's upsert for the key came first |
| MongoDb.RacingCreates | internal/database/mongodb/mongodb.go:222-236 | two interleaved creates that both complete, after which no document names the database of the second |
| MongoDb.MongoDBImpl.CreateUserAndDatabase | internal/database/mongodb/mongodb.go:198-260 | the state is that of the create cut at the budget, success exactly when it completed |
| MongoDb.MongoDBImpl.DropUserAndDatabase | internal/database/mongodb/mongodb.go:150-193 | the same for the drop |

## Left out

- Deletion.RetrySafe: speaks of runs of the controller alone and RetrySafeAmongOthers of those among other requests' work; an outside edit of reference, providers or password Secret changes the condition itself.
- Deletion.DeletesIff: asks that the version read is the stored one, since the API server refuses the writes of a pass over a stale one.
- Fixpoint.SuccessfulPass: speaks of a pass between whose calls nobody edits the request, its Service, its Secret or the providers; with such moves the pass still compares what it read (`SkipsOnlyWhenSynced`).
- FirstPlacement.FirstPassIff: asks that providers bear distinct names, as cluster-scoped objects do, and takes one draw and one set of loads for the whole pass.
- FirstPlacement.NewRequestNeverRests: asks that the connection's password is not kept in the request's own Secret, which the first pass overwrites, and that what a pass has observed stays in memory over an Update's response.
- Reporting.ReportIs: speaks of answers after which what has been observed stays in memory, and of distinct provider names.
- Providers.PassReports: speaks of a pass over the stored version whose calls are answered and between which nobody edits the provider; PassKeeps covers the rest.
- Seeds.SeedNeverLost: leaves out a seed that is the request's own Secret, which handleSecret overwrites.
- SeedPass.SeedRetryIff: asks that neither the seed nor the password of the matched connection is kept in the request's own Secret.
- MongoDb.OneCredentialWithoutLock: asks that nobody drops that key meanwhile, and takes the upsert as one atomic command.
- MongoDb.UnnamedDatabaseIff: asks that nobody drops the key meanwhile and that nobody else draws the same database name.
- Reads of Services, Secrets and providers return the current objects; only reads of the request may be stale.
- One pass at a time works on a request: this is what `Workers.MutualExclusion` gives, and other requests' statements enter the reconcile machine as outside moves. The lock itself is a field of the pool, not an object with a mutex.
- The search for a provider and its password and load reads are one step of the reconcile machine; its loops are in `Placement`.
- A statement that reaches the server only after the controller has been restarted and has begun anew; each statement is atomic and takes effect before the restart or not at all.
- UID, kind and resourceVersion inside the connection reference: the controller resolves it by the two names. The comparison of reference pointers at internal/controller/databaserequest_controller.go:178 only decides whether the observed one is set to the same value.
- Messages of conditions, events, metrics and logging.
- Connection caches shared by workers, drivers, quoting, DSN formatting, column lengths, and the session effect of USE.
- The distribution of random strings: draws are arbitrary values. Draws for MongoDB are a parameter; for a namespace of 63 characters its generator would be asked for a string of negative length.
- The result of Reconcile handed to the work queue and its back-off; any pass may follow any other.
- The MongoDB provider reconciler, which repeats the relational one; the controller's mongodb branches are stubs.
- AdditionalUsers, ForcedReconcilation and replica hostnames, which the reconcile logic does not use.
- Deepcopy code, CRD schemas, manager set-up, flags, end-to-end utilities and mocks.
