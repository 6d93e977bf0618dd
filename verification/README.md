# A model of the PeerBlade agent's peer lifecycle

The agent keeps two copies of the truth about its peers: a list on disk (`peers.json`) and the peer table of a live
WireGuard interface. There is no transaction across the two. Every change pushes one peer to the interface, saves the
list, and, if that fails, tries once to take the push back. A restart pushes the whole list again. This project models
that code and what surrounds it, and proves what holds of the two copies in every run: whichever device call or save
step fails, wherever the process dies or the power goes, and however the workers interleave.

`dafny verify dfyconfig.toml` checks everything.

## How it is put together

| modules | what they hold |
|---|---|
| `Prelude`, `Text`, `Sorting` | options and results; the string functions and numerals the agent relies on; sorting as some sorted permutation |
| `Ipv4`, `Keys`, `Device` | addresses, networks and keys as Go reads and prints them; the peer table with its routing rule, action by action |
| `Peers`, `Json`, `StateFile`, `Truncation` | records, validation, the address allocator; the file's text, its decoder, its size, and what the read limit does |
| `Filesystem`, `Store` | directory entries that a crash may bring back one by one; `Load` and `Save`, with a trace of every moment in between |
| `Operations`, `Protocol`, `Manager` | what each operation plans and does; what carrying out a plan keeps; the methods, proved to do just that and to answer as `Answers` says |
| `Reconciling`, `Runs`, `Linking` | reconciliation; all runs and their invariant; methods, their moments and crashes as events of runs |
| `Theorems`, `Recovery`, `Rollbacks` | what holds of all runs; coming back after an operation was cut off; what a rollback restores |
| `Configurations`, `Answers` | what a client reads in its configuration; when an operation succeeds and what is then so |
| `Spellings`, `Witnesses` | lists that defeat the string checks; concrete runs from a first start |
| `Import`, `Views`, `Snapshots`, `Merging`, `Collecting` | the wg-easy import; snapshots of the interfaces and the join with the managed list |
| `Dump`, `Adapter` | the dump format of `awg`, and device configurations as `awg set` commands |
| `Commands`, `Concurrency` | the command worker and what it has executed; all workers and both locks |

Everything the outside world decides is an input: whether a read fails, how far a device call gets, which step of a save
fails, what keys are drawn, which lists survive a loss of power. Methods that change state are proved equal to
specification functions (`PlanCreate`, `CarryOut`, `Push`, `Join`, `ParseDump` and so on), and the properties are proved
of those functions for all inputs. What they give is also said without them, in terms of the list, the table or the text
alone (`Answers.OperationAnswers`, `Answers.LoadIsExact`, `Import.ImportIsExact`, `Dump.DumpIsExact` and others).

## Assumptions

- A drawn private key is new: no list that may be read has its public key. `Library.pub` stands for Curve25519. That
  its public key is not on the device either, and that a peer that is switched or deleted was on it as listed, is
  assumed by `Rollbacks.RollbackIsExact` and `Rollbacks.LateFailureDiverges` alone.
- Between two restarts nothing but the agent changes the interface or the state directory. Before a restart the
  interface may hold anything, as long as no network belongs to two peers.
- A failed device call has carried out some initial part of its actions, possibly none or all of them.
- A file that was synced keeps its text; one that was not may come back with any text. A directory entry may come back
  with any value it had since the last successful sync of the directory (POSIX.1-2017, `rename()` and `fsync()`).
- `Ipv6Reader` stands for what Go's `net` package makes of spellings with colons.
- Where a configuration is read by its lines, the configured texts stay on one line each and the transport's lines begin
  no section (`Configurations.PlainConfig`).

## Where the code does less than it seems to

These are facts about the code as it is; each has a lemma with the exact condition.

- A save can fail after the rename. The new list is then in place, while the device is rolled back all the same; the two
  disagree unless the operation switched a peer to what it was (`Rollbacks.LateFailureDiverges`). In
  `Witnesses.ListedButAbsent` the first create of a fresh agent ends so.
- A rollback is exact if and only if nobody else held the peer's address, or the operation never gives it
  (`Rollbacks.RollbackIsExact`). A deleted peer that is put back starts a new session. In `Witnesses.OrphanIsRobbed` a
  failed undo leaves an orphan, and the next create, rolled back without a further failure, takes its address.
- `Reconcile` removes nothing: a peer it does not know survives and loses just the enabled addresses
  (`Reconciling.OrphansSurvive`).
- After a save that could not sync the directory, a loss of power may bring back a list older than the last one. The
  lists that an interrupted operation may come back to are exactly those that could be read when it began, and the
  planned one (`Recovery.RecoverableLists`); so it comes back to the one before or the one after if and only if no other
  could be read (`Recovery.PreOrPost`). In `Witnesses.OlderListReturns` it comes back to neither.
- Validation compares strings, the device compares keys and networks. Two spellings of one key, or two IPv4-mapped
  addresses, are accepted and cannot both be satisfied (`Spellings.SpelledTwice`, `Spellings.MappedAddresses`);
  `Spellings.ReconcileHoldsUnlessClashing` is the exact condition, and lists the agent writes meet it. An imported list
  does if its public keys are spelled canonically and its other keys stay on one line, for the import only trims them
  (`Import.ImportedIsGood`).
- An imported key spelled otherwise than the device spells it gets a second entry in a snapshot
  (`Merging.JoinDistinctAsKeys`).
- A key may be spelled over many lines, so a list that is accepted may be too long to be loaded again
  (`Spellings.TooLongToLoad`). The exact bound is in `Truncation.ReadBackIsExact`.
- The adapter sends no networks unless they replace the old ones, and the tool refuses a keepalive out of its range
  (`Adapter.SentIsAsked`). The manager always replaces, and sends no keepalive.
- A firewall mark in decimal notation is taken for hexadecimal unless it has one digit or at least nine
  (`Dump.DecimalDump`), a dump that says `off` for no mark is refused (`Dump.ToolDump`), and a large keepalive wraps
  around (`Dump.KeepaliveExact`).

## Model

| member | source | states |
|---|---|---|
| `Runs.RunsKeepInv` | agent/internal/nativewg/manager.go:145-268 | In every state of every run with failing calls, failing saves, failing rollbacks, crashes, losses of power and restarts: every list that may be read is valid and canonical, no network belongs to two peers, and while the agent is up no listed peer has a foreign network and each one whose own last operation did not end halfway holds exactly its preshared key and its address if enabled, else nothing |
| `Theorems.OperationFrame` | agent/internal/nativewg/manager.go:145-239 | An operation, finished or cut off at any moment, with any failures, changes neither the record nor the agreement of any key but its own (both directions) |
| `Protocol.WithinKeepsOthers` | agent/internal/nativewg/manager.go:182-189 | The same at every single moment of an operation |
| `Theorems.AddressIsExclusive` | agent/internal/nativewg/manager.go:280-302 | An enabled, settled peer is the only one on the device with its address |
| `Recovery.CrashConverges` | agent/internal/nativewg/manager.go:145-268 | An operation is cut off anywhere, then the agent is killed, loses power with any device coming up, or restarts in vain, any number of times; once a restart succeeds, the list is one that could be read before or the planned one, and the device agrees with all of it |
| `Recovery.KillConverges` | agent/internal/nativewg/store.go:101-140 | Without a loss of power it is the list before or the planned one |
| `Recovery.RecoverableLists` | agent/internal/nativewg/store.go:127-137 | A list can come back after an interrupted operation if and only if it could be read when that began, or is the planned one |
| `Recovery.PreOrPost` | agent/internal/nativewg/store.go:130-137 | Every recovery finds the list before or after the operation if and only if no other list could be read when it began |
| `Recovery.RestartAgrees` | agent/main.go:149 | A restart that succeeds leaves the list alone, the device in the closed form of the list and in agreement with each record |
| `Theorems.ConfigurationIsStable` | agent/internal/nativewg/manager.go:241-253 | Whatever happens short of deleting the key, a configuration that can be read is the same text |
| `Theorems.RunKeepsRecord` | agent/internal/nativewg/manager.go:195-239 | No such run changes a record but for its enabled flag, in any list that may be read |
| `Theorems.CreatedIsKept` | agent/internal/nativewg/manager.go:185-192 | The text CreatePeer returns belongs to a record that is then in every list that may be read |
| `Configurations.ConfigurationReadsBack` | agent/internal/nativewg/manager.go:373-417 | A reader of the rendered text finds each value under its name in its section |
| `Configurations.SectionsReadBack` | agent/internal/nativewg/manager.go:373-417 | Section by section, the text has exactly its lines: the client's key and address, the transport's lines, the DNS servers if there are any; and the server's key, preshared key, routes, endpoint and keepalive |
| `Configurations.ConfigurationFitsDevice` | agent/internal/nativewg/manager.go:173-192 | The key pair, preshared key and address a client reads are those the device has for it, and nobody else has the address |
| `Rollbacks.RollbackIsExact` | agent/internal/nativewg/manager.go:186-189 | Rolled back, list and crash images are as before, and the device's holdings are as before if and only if nobody else held the address; else just that address is gone |
| `Rollbacks.LateFailureDiverges` | agent/internal/nativewg/store.go:127-137 | After an error behind the rename, list and device agree on the subject if and only if it was switched to what it was |
| `Rollbacks.SwitchingAgain` | agent/internal/nativewg/manager.go:195-216 | A successful enable or disable, repeated, leaves the list whatever fails, and the device unless a call fails |
| `Rollbacks.DeletingAgain` | agent/internal/nativewg/manager.go:218-239 | A successful delete, repeated, changes nothing at all |
| `Protocol.CreateRollback` | agent/internal/nativewg/manager.go:187 | Pushing and removing a new peer takes its address from everyone and changes nothing else |
| `Protocol.SetEnabledRollback` | agent/internal/nativewg/manager.go:212 | Switching and switching back restores the peer, its session included |
| `Protocol.DeleteRollback` | agent/internal/nativewg/manager.go:235 | Deleting and putting back restores all but the session |
| `Protocol.SuccessAgrees` | agent/internal/nativewg/manager.go:206-215 | A successful operation leaves one list and its own peer in agreement, or gone |
| `Protocol.CarryOutHoldsHome` | agent/internal/nativewg/manager.go:206-214 | However an operation ends, no listed peer holds a network that is not its own |
| `Protocol.CreatePlanFor` | agent/internal/nativewg/manager.go:173-187 | Creating is about one new key and one unused address and leads to a valid canonical list |
| `Protocol.SetEnabledPlanFor` | agent/internal/nativewg/manager.go:206-212 | Switching sends the record as switched, and the old record to undo it |
| `Protocol.DeletePlanFor` | agent/internal/nativewg/manager.go:225-235 | Deleting sends a removal, and the old record to undo it |
| `Answers.OperationAnswers` | agent/internal/nativewg/manager.go:145-239 | In any state of any run, an operation succeeds if and only if it can be planned, its call to the device goes through and its list is saved; then one list remains: with a last record that has the given name, the drawn keys and the lowest free address, which the answer describes; or with the flag that was asked for; or without the key; and the device has that peer, and only it, with just that address, or no network, or not at all |
| `Answers.CreateIsExact` | agent/internal/nativewg/manager.go:149-181 | A create can be planned if and only if the trimmed name has 1 to 100 characters, the device key is read, the list is read and accepted, some host of 2 to 254 is free and keys are drawn |
| `Answers.SwitchIsExact` | agent/internal/nativewg/manager.go:198-210 | A switch can be planned if and only if the list is read and accepted, a record has that key string, and its address is readable as a network if it is to be enabled |
| `Answers.DeleteIsExact` | agent/internal/nativewg/manager.go:221-232 | A delete can be planned if and only if the list is read and accepted and a record has that key string |
| `Answers.LoadIsExact` | agent/internal/nativewg/manager.go:304-313 | A list is returned as it is if it is read and each of its records is valid and no two share an address or key; else none is |
| `Answers.RecordIsExact` | agent/internal/nativewg/manager.go:318-339 | Exactly which records are valid, for any address and any other texts |
| `Answers.ConfigurationIsExact` | agent/internal/nativewg/manager.go:241-253 | A configuration is given if and only if the list is read and accepted, a record has that key string and the device key is read; and it is that of such a record, line by line |
| `Answers.FailedCalls` | agent/internal/nativewg/manager.go:182-189 | A failed call leaves the list alone and the device part of the way, with nothing taken back; a failed undo leaves it part of the way back |
| `Answers.OwnKeySettled` | agent/internal/nativewg/manager.go:182-189 | An operation settles or unsettles no key but its own, and settles that if and only if it was saved, or rolled back |
| `Manager.Manager.CreatePeer` | agent/internal/nativewg/manager.go:145-193 | The method does what the specification says and is at a moment of its plan whenever it may die; it succeeds if and only if it can be planned, the call goes through and no step of the save fails; it touches nothing if it cannot be planned; a success is as `OperationAnswers` says |
| `Manager.Manager.SetEnabled` | agent/internal/nativewg/manager.go:195-216 | Likewise |
| `Manager.Manager.DeletePeer` | agent/internal/nativewg/manager.go:218-239 | Likewise |
| `Manager.Manager.Configuration` | agent/internal/nativewg/manager.go:241-253 | The configuration of a record with that very key string, or the failure, just as `ConfigurationIsExact` says |
| `Manager.Manager.Reconcile` | agent/internal/nativewg/manager.go:255-268 | A list that cannot be read or is not accepted is refused and nothing is sent; else it is pushed in order up to the first failure, and whenever the process may die the device is as after the same push with a call failing part of the way |
| `Manager.Manager.ListPeers` | agent/internal/nativewg/manager.go:270-278 | The list as it is if it is read and accepted, else the failure |
| `Manager.Manager.ApplyPeer` | agent/internal/nativewg/manager.go:280-302 | One configuration is sent, built from the parsed record, or none if it cannot be read |
| `Manager.Manager.RemovePeer` | agent/internal/nativewg/manager.go:352-363 | One removal is sent |
| `Manager.Manager.ReadState` | agent/internal/nativewg/manager.go:304-313 | What Load gives, as it is, if it is accepted; else the failure |
| `Linking.PerformedIsEvent` | agent/internal/nativewg/manager.go:145-239 | What a method does is an event of a run, and so is dying at any of its moments |
| `Linking.CrashIsEvent` | agent/internal/nativewg/store.go:101-140 | A loss of power is an event of a run |
| `Linking.SurvivorIsCrash` | agent/internal/nativewg/store.go:101-140 | Each such event is what some crash of the file system does |
| `Linking.ReconcileIsEvent` | agent/internal/nativewg/manager.go:255-268 | Reconcile is an event of a run |
| `Linking.ReconcileMomentIsEvent` | agent/internal/nativewg/manager.go:255-268 | Dying at any moment of Reconcile is an event of a run, one after which the agent is down |
| `Linking.StartsInInv` | agent/internal/nativewg/store.go:58-62 | The invariant holds at the first start, with no list or an imported canonical one |
| `Witnesses.FirstPeer` | agent/internal/nativewg/manager.go:145-193 | A run that goes well exists from any device: start, reconcile, create; the one listed peer is then on the device |
| `Witnesses.ListedButAbsent` | agent/internal/nativewg/store.go:127-137 | The same run with an error behind the rename ends with the peer listed and absent from the device, and either list may survive |
| `Witnesses.OlderListReturns` | agent/internal/nativewg/store.go:127-137 | After that run a second operation is cut off and power is lost: the list found is neither the one before it nor the one it planned |
| `Witnesses.OrphanIsRobbed` | agent/internal/nativewg/manager.go:185-189 | After a failed save whose undo fails, a second create is rolled back cleanly and takes the address from the orphan the first one left |
| `Linking.PlansKeepValid` | agent/internal/nativewg/manager.go:304-350 | No operation plans a list that validation refuses, even from a list that is spelled otherwise; it loads again just if it is within the limit |
| `Reconciling.ReconcileClosed` | agent/internal/nativewg/manager.go:255-268 | A completed Reconcile equals its closed form from any device; a failed one leaves the closed form as it was, so any retry reaches it |
| `Reconciling.ReconcileSucceeds` | agent/internal/nativewg/manager.go:262-266 | Reconcile of a good list succeeds if and only if each of its calls does |
| `Reconciling.ReconcileStops` | agent/internal/nativewg/manager.go:262-266 | At the first failing call, the records before are on the device as listed, that record is as far as its call got, and those behind are untouched |
| `Reconciling.ClosedAgrees` | agent/internal/nativewg/manager.go:255-268 | The closed form agrees with every record, gives nobody a foreign network, and is idempotent |
| `Reconciling.ClosedOrder` | agent/internal/nativewg/manager.go:262-266 | The order of the list does not matter |
| `Reconciling.OrphansSurvive` | agent/internal/nativewg/manager.go:255-268 | Whatever fails, a peer that is not listed keeps its entry, key and session; a completed Reconcile takes exactly the enabled listed addresses from it, a failed one some of them |
| `Reconciling.MomentBetween` | agent/internal/nativewg/manager.go:262-266 | At each moment of Reconcile of a good list, each entry lies between the first and the closed form, and the closed form is still the same, so any retry reaches it |
| `Spellings.ReconcileHoldsUnlessClashing` | agent/internal/nativewg/manager.go:280-302 | For any list and routing device, a completed Reconcile leaves what every record says if and only if no two records clash as keys and networks |
| `Spellings.GoodNeverClashes` | agent/internal/nativewg/manager.go:340-347 | Valid canonical lists never clash |
| `Spellings.SpelledTwice` | agent/internal/nativewg/manager.go:340-347 | A valid list with one key under two spellings clashes |
| `Spellings.MappedAddresses` | agent/internal/nativewg/manager.go:333-339 | A valid list with two IPv4-mapped addresses clashes |
| `Spellings.TooLongToLoad` | agent/internal/nativewg/store.go:82 | A valid list whose file Load refuses for its length |
| `Device.ConfigureIsSetPeer` | agent/internal/nativewg/manager.go:296-298 | A completed full configuration gives the peer its key and networks, takes them from all others, and keeps its session |
| `Device.ConfigureTouchesOnly` | agent/internal/nativewg/manager.go:296-298 | At every step of a configuration no other peer changes but for losing networks it gives |
| `Device.PerformKeepsRouted` | agent/internal/nativewg/manager.go:296-298 | No configuration, finished or not, gives a network to two peers |
| `Store.Store.Save` | agent/internal/nativewg/store.go:101-140 | Crash atomicity: at every step a reader, also after a crash, finds a whole list that could be read before or the new one; nil leaves only the new one; an error leaves the old one in place unless the rename was done; which steps lead to which end; no other file is touched, and none is left behind but a temporary one that cannot be removed after a failure |
| `Store.Store.Load` | agent/internal/nativewg/store.go:58-99 | What the text of the state file decodes to; no file is an empty list |
| `Store.Store.Install` | agent/internal/nativewg/store.go:127-139 | From the rename on: which end leaves which lists |
| `Store.Machine.ConfigureDevice` | agent/internal/nativewg/manager.go:296-298 | A call carries out an initial part of its actions, and every moment in between is such a part |
| `Filesystem.CrashReadsSurvivor` | agent/internal/nativewg/store.go:120-137 | After any crash Load finds one whole list, one it could have found since the last directory sync |
| `Filesystem.SurvivorsAreCrashOutcomes` | agent/internal/nativewg/store.go:120-137 | And each of those is found after some crash |
| `Filesystem.RenameReplacesState` | agent/internal/nativewg/store.go:127 | Renaming a synced file adds its list to what may be read, and nothing else |
| `Peers.ValidateState` | agent/internal/nativewg/manager.go:315-350 | The map-based loop accepts exactly the valid lists and reports the first offending item |
| `Peers.AllocatorExact` | agent/internal/nativewg/manager.go:485-498 | The allocated host is the lowest unused one in 2..254; it fails if and only if all 253 are taken |
| `Peers.FindAddress` | agent/internal/nativewg/manager.go:485-498 | The string-set search computes that |
| `Peers.GoodLength` | agent/internal/nativewg/manager.go:333-347 | Pigeonhole: no valid canonical list is longer than 253, and one of that length uses every host |
| `Peers.FindIndex` | agent/internal/nativewg/manager.go:500-507 | The first record with that key string |
| `Peers.ReadNetworks` | agent/internal/nativewg/manager.go:509-519 | All networks in order, or none if one cannot be read |
| `Peers.ApplyConfigOf` | agent/internal/nativewg/manager.go:281-298 | A valid canonical record asks for its own key, preshared key and one address, or for none if disabled |
| `Ipv4.DottedRoundTrip` | agent/internal/nativewg/manager.go:492 | Dotted spelling is unique: reading gives an address if and only if the text is its printing |
| `Ipv4.CidrIsExact` | agent/internal/nativewg/manager.go:512 | Behind an address and a slash just a length of 0 to 32 is read, and the bits behind it are cleared |
| `Keys.ParseKeyExact` | agent/internal/nativewg/manager.go:322-332 | Exactly which texts are read as a given key: the spelling of its sextets, up to line breaks and the two padding bits |
| `Keys.EveryKeyHasTwoSpellings` | agent/internal/nativewg/manager.go:343 | Every key has a second trimmed spelling that reads alike |
| `Keys.CanonicalKeysDiffer` | agent/internal/nativewg/manager.go:343 | Canonical spellings are the same key if and only if they are the same string |
| `Json.DocumentRoundTrip` | agent/internal/nativewg/store.go:114-118 | Decoding undoes the indented encoding, for any text |
| `Json.TrailingDataRefused` | agent/internal/nativewg/store.go:87-90 | A document is read if and only if nothing but blanks follows it |
| `StateFile.FileMembers` | agent/internal/nativewg/store.go:14-27 | The file is a document that has under their names the version 1 and, in order, all that each record says |
| `StateFile.OtherVersionsRefused` | agent/internal/nativewg/store.go:91-93 | Only version 1 is read |
| `StateFile.UnknownMembersRefused` | agent/internal/nativewg/store.go:83 | A record with an unknown member is refused |
| `StateFile.UnknownSettingsRefused` | agent/internal/nativewg/store.go:83 | So is a file with one |
| `StateFile.GoodListFits` | agent/internal/nativewg/store.go:82-98 | Every list the agent can reach is below the read limit and is read back as it was |
| `Truncation.ReadBackIsExact` | agent/internal/nativewg/store.go:81-90 | Any list is read back if and only if its file without the line feed is within the limit; else it is refused, never read in part |
| `Import.LoadWGEasyState` | agent/internal/nativewg/wgeasy.go:73-122 | The import gives what its specification says, for any order of the clients |
| `Import.ImportIsUnique` | agent/internal/nativewg/wgeasy.go:94-122 | That outcome is unique: same success or failure, same list, same summary |
| `Import.ImportIsExact` | agent/internal/nativewg/wgeasy.go:73-120 | An import succeeds if and only if the server's keys belong together and its address ends in 1, each client has a name, keys and a host of 2 to 254 in its /24, and no two share an address or a public key |
| `Import.ClientsImported` | agent/internal/nativewg/wgeasy.go:89-114 | Each client becomes one record with its name, keys, address and flag, and each record comes from a client; the summary counts them and names the server |
| `Import.ImportedInOrder` | agent/internal/nativewg/wgeasy.go:115-117 | The records rise by host |
| `Import.ValidPermutation` | agent/internal/nativewg/manager.go:315-350 | Validation accepts a list if it accepts a permutation of it |
| `Import.SortedImportUnique` | agent/internal/nativewg/wgeasy.go:115-117 | Distinct addresses give one sorted permutation |
| `Import.ImportedIsGood` | agent/internal/nativewg/wgeasy.go:100-118 | An import in the manager's /24 is valid there, with canonical addresses; the guarantees cover it if and only if the clients' public keys are canonical and their other keys on one line |
| `Snapshots.MapPeer` | agent/internal/wireguard/collector.go:112-130 | An entry is the peer with its networks sorted |
| `Snapshots.MapsPeerUnique` | agent/internal/wireguard/collector.go:112-130 | That entry is determined |
| `Snapshots.MappedReadsBack` | agent/internal/wireguard/collector.go:112-130 | Key, counters, keepalive in seconds, endpoint, handshake and networks can be read off the entry |
| `Snapshots.MapDevice` | agent/internal/wireguard/collector.go:89-110 | All peers, mapped, sorted by key and counted |
| `Snapshots.DeviceReadsBack` | agent/internal/wireguard/collector.go:89-110 | Name, key, port and mark are those of the device, and each peer has its entry |
| `Snapshots.ProperOrder` | agent/internal/wireguard/collector.go:82-84 | Devices rise by name and peers by key, in the order of strings |
| `Snapshots.Collect` | agent/internal/wireguard/collector.go:68-86 | The schema version, the time, and all devices but nil ones, mapped, sorted by name |
| `Snapshots.AllReported` | agent/internal/wireguard/collector.go:74-80 | Every device that is not nil is in the snapshot, and no other |
| `Snapshots.AddInterface` | agent/internal/amneziawg/collector.go:38-51 | The interface replaces the first of its name or is added; the result is sorted |
| `Snapshots.InterfaceOnce` | agent/internal/amneziawg/collector.go:38-48 | It occurs once if the source listed it at most once |
| `Snapshots.OthersKept` | agent/internal/amneziawg/collector.go:38-48 | Devices of other names are as before |
| `Merging.JoinManaged` | agent/internal/nativewg/snapshot.go:40-59 | The nested loops compute the entry-by-entry join |
| `Merging.JoinKeys` | agent/internal/nativewg/snapshot.go:40-59 | The keys of the result are those of device and list |
| `Merging.JoinDistinct` | agent/internal/nativewg/snapshot.go:40-59 | No key string occurs twice if none does in the device view |
| `Merging.JoinDistinctAsKeys` | agent/internal/nativewg/snapshot.go:41-52 | No key occurs twice if and only if each listed peer that is on the device is spelled canonically |
| `Merging.ManagedIsCarried` | agent/internal/nativewg/snapshot.go:41-58 | Each managed record is carried by the first entry of its key, which keeps its measurements, or by a new one without any, with its own key, name, networks and flag and the mark of the agent |
| `Merging.JoinShowsManaged` | agent/internal/nativewg/snapshot.go:40-59 | So for all records at once; entries that are not managed stay, and there are no others |
| `Merging.JoinKeepsMeasurements` | agent/internal/nativewg/snapshot.go:54-58 | No measurement changes, and nothing of an unmanaged peer |
| `Merging.Merge` | agent/internal/nativewg/snapshot.go:33-70 | Other devices are untouched, the managed one is joined so that it shows every record, sorted and counted; an error just if it is missing |
| `Merging.MergeKeepsProper` | agent/internal/nativewg/snapshot.go:60-61 | Sorting and counts are kept |
| `Merging.MergedDeviceUnique` | agent/internal/nativewg/snapshot.go:60 | The merged device is determined if the device view has no duplicate keys |
| `Collecting.CollectAll` | agent/internal/nativewg/snapshot.go:23-71 | The collectors in a row fail just if a source does, else if the list cannot be loaded, else if the interface is missing; else names and keys are sorted, counts right, the managed interface joined with exactly the list that was read, an adapter's interface there once |
| `Dump.ReadDump` | agent/internal/amneziawg/client.go:105-148 | The loops compute the parsing function |
| `Dump.ReadPeer` | agent/internal/amneziawg/client.go:150-198 | Likewise for one line |
| `Dump.PeerIsExact` | agent/internal/amneziawg/client.go:150-198 | A line is read if and only if it has eight fields or more and each of the eight can be read; and what each gives |
| `Dump.HeaderIsExact` | agent/internal/amneziawg/client.go:110-136 | Likewise the header, with four |
| `Dump.DumpIsExact` | agent/internal/amneziawg/client.go:105-148 | A dump is read if and only if its header is and each line behind it is blank or a peer's |
| `Dump.DumpReads` | agent/internal/amneziawg/client.go:105-220 | For any spelling of the mark, the dump is read as the device with the mark that this spelling is read as, or refused if it is not |
| `Dump.DumpRoundTrip` | agent/internal/amneziawg/client.go:105-220 | Reading undoes writing for any number of peers and networks, through three levels of splitting |
| `Dump.DecimalMark` | agent/internal/amneziawg/client.go:126-132 | A decimal mark is read as itself if and only if it has one digit or is at least 100000000 |
| `Dump.DecimalDump` | agent/internal/amneziawg/client.go:126-132 | So for the whole dump |
| `Dump.ToolDump` | agent/internal/amneziawg/client.go:126-132 | The dump of a tool that prints `off` for no mark is read back if there is one, and refused if there is none |
| `Dump.KeepaliveExact` | agent/internal/amneziawg/client.go:200-213 | A keepalive is read as itself if and only if its nanoseconds fit 63 bits |
| `Adapter.ArgsMean` | agent/internal/amneziawg/client.go:54-97 | The command line, keepalive included, means the configuration that was to be sent, or is refused for its keepalive |
| `Adapter.Client.ConfigureDevice` | agent/internal/amneziawg/client.go:49-103 | It succeeds if and only if it has a name and each command is accepted and finished with its key written out; else it stops at the first peer that does not end well: those before are applied in full, it as far as its command got, later ones not at all, and just these commands were run; no key file is left behind unless its removal fails |
| `Adapter.AdapterRefines` | agent/internal/amneziawg/client.go:53-101 | Configurations that are sent as they are have peer by peer the effect of one device configuration |
| `Adapter.SentIsAsked` | agent/internal/amneziawg/client.go:87-97 | What is sent is what was asked if and only if it does not add networks to old ones and the keepalive is in range |
| `Adapter.ManagerConfigsAreSent` | agent/internal/nativewg/manager.go:296-298 | The manager's configurations are sent as they are |
| `Commands.Worker.Execute` | agent/native_executor.go:15-38 | Each kind performs the operation of that name on the machine as it is, with its outcome and payload; the others leave the machine alone |
| `Commands.CreateCommand` | agent/native_executor.go:17-26 | `create_peer` creates the peer of that name, when and as `OperationAnswers` says, and its payload is a document with the name, key and configuration |
| `Commands.SwitchCommand` | agent/native_executor.go:31-34 | `enable_peer` switches the peer with that key on, and `disable_peer` off |
| `Commands.DeleteCommand` | agent/native_executor.go:27-28 | `delete_peer` takes it off the list and the device |
| `Commands.OtherCommand` | agent/native_executor.go:29-36 | All others leave the machine alone; `get_peer_configuration` tells the configuration of that key, and any other kind fails |
| `Commands.Worker.Poll` | agent/internal/controlplane/commands.go:29-52 | One poll adds one round to the history, in which the claimed command was executed as Execute does it, and fails just if claim or completion does |
| `Commands.Worker.RunCommands` | agent/internal/controlplane/commands.go:54-70 | The rounds up to the first failing one take place, that one included, and no others |
| `Commands.Worker.RunWithRetry` | agent/internal/controlplane/snapshot.go:133-158 | All rounds take place, in order, whatever fails |
| `Commands.WorkerTrace` | agent/internal/controlplane/commands.go:29-52 | Stopped anywhere: each claimed command is followed by its own execution and by one completion with its outcome; nothing else is executed or completed, and no claim comes in between |
| `Commands.WorkerMachine` | agent/internal/controlplane/commands.go:29-52 | The machine is as the claimed commands leave it, each performed by the manager exactly once, in the order of the claims, each from where the one before ended, delivered or not |
| `Commands.GenuineIsEvent` | agent/native_executor.go:15-38 | An execution is an event of a run, and so is dying at any of its moments |
| `Commands.CreatedReadsBack` | agent/native_executor.go:22-26 | The payload of a created peer is a document from which its name, key and configuration are read back |
| `Concurrency.InterleavingsKeepInv` | agent/internal/controlplane/snapshot.go:86-131 | In every interleaving the locks are exclusive, and list and device are those of the finished operations in a row, or show a moment of the one under way |
| `Concurrency.ReadsBetweenOperations` | agent/internal/nativewg/manager.go:270-278 | No list is read while an operation is under way |
| `Concurrency.ReportsAreCurrent` | agent/internal/nativewg/snapshot.go:23-31 | Each completed report read device and list in this order within its own collection; the list is that of all operations finished by the second read, the device that of those finished by the first, or a moment of the one then under way |
| `Concurrency.SerialIsRun` | agent/internal/nativewg/manager.go:145-239 | Operations in a row are a run |
| `Concurrency.InterleavingIsRun` | agent/internal/controlplane/snapshot.go:86-131 | With fresh keys, every state of every interleaving is one of a run or of a run with its last operation cut off, and satisfies the invariant of all runs |
| `Concurrency.StepsUnlessWaiting` | agent/internal/controlplane/snapshot.go:27-32 | A busy worker can step if and only if it waits for no lock that is held |
| `Concurrency.NoDeadlock` | agent/internal/controlplane/snapshot.go:27-32 | Whoever holds a lock that a worker waits for can step, or waits for another who can |

## Left out

- `NewManager` and the flags and environment read in `main.go`: branch-by-branch checks of the configuration; the model
  starts from a /24, an endpoint and a keepalive that were accepted.
- The Amnezia parameters: their lines of a configuration are arbitrary texts, and their range checks are not modelled.
- Key generation, Curve25519 and the device's own key: parameters, as the assumptions say.
- Permissions, symbolic links and modes of the state file and directory: they are part of a failing read or step.
- JSON that `Save` does not write: names that differ in case, nesting limits, and invalid UTF-8 are not modelled.
- A directory sync that fails but has taken effect, and a device call that fails after a later call was made.
- `Import.LoadWGEasyState`: starts from the decoded document; reading the file, its size limit, and the flags of the
  command that then saves the list are not modelled, nor is an import beside a running agent.
- `Dump.DumpRoundTrip`: endpoints are texts that the resolver gives back unchanged; resolving names is not modelled.
- `Commands.Worker.RunWithRetry`: timers and cancellation are reduced to the end of a given sequence of polls.
- `Concurrency.InterleavingsKeepInv`: the heartbeat worker and the uploads take no lock and are left out; device reads
  of a collection are one step.
- `Merging.JoinManaged`: entries are values; each entry's enabled flag is its own, as the per-iteration loop variables of
  the Go version in `go.mod` make it.
- The HTTP client, the control plane, the traffic report, the legacy executor, scripts and deployment files.
