# DXC save synchronisation, modelled in Dafny

DXC is a browser game. It keeps its saves in an IndexedDB store, and an
optional cloud-sync layer mirrors them to a remote. That remote is either the
game's own save server or a WebDAV share. A development build also serves a
small save API from the Vite dev server, backed by files on disk. This project
models that layer and proves what it promises:

- the local save store: key scheme, one-off migration of legacy
  `localStorage` saves, get/set/delete/list;
- the environment defaults and the stored sync configuration: defaults,
  normalisation, validation;
- the six-slot registry and the conversions between a local save and its
  transport form;
- the conflict resolver;
- the two providers (server and WebDAV): URL construction, headers,
  compression, response parsing and every remote operation;
- a sync pass (`syncWithProvider`): which slots it pushes, pulls, skips or
  reports as conflicts, the order of its calls to the provider, and the
  result it reports;
- the dev server's save API: routing, user and file-name sanitising, body
  decoding, listing with sorting, and read, write and delete on a directory
  per user.

Layout, one module per source concern:

| file | module | models |
|---|---|---|
| `wrappers.dfy`, `json.dfy`, `seqs.dfy`, `strings.dfy`, `base64.dfy`, `http.dfy` | `Wrappers`, `Json`, `Seqs`, `Strings`, `Base64`, `Http` | the value language: options, thrown-or-returned outcomes, JSON values with JavaScript truthiness, the string primitives the code relies on (`trim`, `startsWith`, digit runs, `String(n)`), Base64 (section 4 of RFC 4648), HTTP requests and replies |
| `sync_types.dfy` | `SyncTypes` | the save, cloud-save, configuration and result records of `utils/sync/types.ts` |
| `save_store.dfy` | `SaveStore` | `utils/saveStore.ts`, as a class `Store` whose fields are the object store, the migration flag and the legacy `localStorage` |
| `sync_env.dfy`, `sync_config.dfy` | `SyncEnv`, `SyncConfigRules` | `utils/sync/config.ts` and the configuration half of `utils/sync/index.ts` |
| `conflict_resolver.dfy` | `ConflictResolver` | `utils/sync/conflictResolver.ts` |
| `sync_slots.dfy`, `sync_engine.dfy` | `SyncSlots`, `SyncEngine` | the rest of `utils/sync/index.ts` |
| `webdav_sync.dfy`, `server_sync.dfy` | `WebDavSync`, `ServerSync` | `utils/sync/webdavSync.ts` and `utils/sync/serverSync.ts` |
| `dev_save_server.dfy` | `DevSaveServer` | the save middleware of `vite.config.ts` |

The network is a parameter. A remote is `Http.Server`, a function from the
requests sent so far to the reply to the latest one. Each provider method
returns the requests it sent together with its outcome. The sync pass
consults an abstract `Provider` oracle, which holds the outcome of each
provider call. It returns the store it leaves, the result, and the log of
provider calls in order. The clock, the device id, the checksum, JSON
parsing, gzip and `decodeURIComponent` are all parameters too.

The pass loop and the store migration loop are `while` loops in methods. Each
is proved equal to a specification function: `Sync` for the pass, `Migrate`
for the migration. Lemmas then state the properties of those functions.

## Model

| member | source | states |
|---|---|---|
| Seqs.Dedup | utils/sync/webdavSync.ts:83 | removing repeats (`Array.from(new Set(..))`) leaves no duplicates, keeps exactly the same members, and never lengthens the list |
| Seqs.DedupFirstOrder | utils/sync/webdavSync.ts:83 | the deduplicated list keeps its members in the order of their first occurrence, as a `Set` iterates in insertion order |
| Seqs.FirstIndex | utils/sync/webdavSync.ts:83 | the position of the first occurrence of a member: it holds that member and no earlier position does |
| Seqs.DedupOfDistinct | utils/sync/webdavSync.ts:83 | a list without repeats comes back unchanged |
| Strings.Trim | utils/sync/webdavSync.ts:4 | the trimmed string is empty exactly when every character is ECMAScript whitespace; otherwise it starts and ends with a non-space character |
| Strings.TrimIsSlice | utils/sync/webdavSync.ts:4 | the trimmed string is a slice of the input with only whitespace before and after it |
| Strings.StripTrailingSlashes | utils/sync/webdavSync.ts:6 | removing trailing slashes leaves a prefix of the input that does not end in `/`, and only slashes were removed |
| Strings.CollapseSpaces | utils/sync/serverSync.ts:54 | `replace(/\s+/g, ' ')`: the non-whitespace characters survive in order, every whitespace character of the result is a plain space, and no two are adjacent |
| Strings.CollapseMatchesScan | utils/sync/serverSync.ts:54 | on every string the collapse equals a one-pass scan that turns the first whitespace character of each run into one space and drops the rest of the run |
| Strings.FirstDigitRun | vite.config.ts:23 | `match(/(\d+)/)`: nothing exactly when the string has no digit; otherwise the maximal digit run that starts at the first digit |
| Strings.DigitsValueOfNatToString | utils/sync/index.ts:180 | reading back the decimal digits `String(n)` produces gives `n` |
| Base64.Encode | utils/sync/webdavSync.ts:19 | `btoa` output has a length that is a multiple of four |
| Base64.DecodeEncode | utils/sync/webdavSync.ts:19 | decoding the Base64 encoding of any byte sequence gives that sequence back |
| SaveStore.BuildSaveKey | utils/saveStore.ts:52-56 | an id whose text starts with `auto` is keyed `danmachi_save_<id>`; any other id is keyed `danmachi_save_manual_<id>` |
| SaveStore.KeyMarksAuto | utils/saveStore.ts:52-56 | the four characters after `danmachi_save_` are `auto` exactly when the id starts with `auto`, so a key shows its save type |
| SaveStore.BuildSaveKeyInjective | utils/saveStore.ts:52-56 | two ids with the same key have the same text, so two slots never share a record |
| SaveStore.TypeOf | utils/saveStore.ts:113 | a recorded type is recognised only when it is one of the three type names |
| SaveStore.Shape | utils/saveStore.ts:113-120 | a legacy value that has both a payload and a type is kept as it is. Anything else is wrapped: the key gives its id and type, the whole value becomes the payload when it has none, and the timestamp, summary and version get their defaults |
| SaveStore.ShapeWrapsBareState | utils/saveStore.ts:113-120 | a bare game state stored under a legacy key becomes a save whose payload is that state, with id and type from the key and the default summary and version |
| SaveStore.MigrateIdempotent | utils/saveStore.ts:96-128 | migration sets the flag, and migrating again changes nothing |
| SaveStore.MigrateByKey | utils/saveStore.ts:100-126 | on the first migration, a legacy save key that parses moves into the store in its shaped form and leaves `localStorage`. Any other key stays where it was, in both stores |
| SaveStore.Migrate | utils/saveStore.ts:96-128 | no contract of its own: the migration on values. `MigrateByKey`, `MigrateIdempotent` and `MigrateOnlySaveKeys` state its outcome key by key |
| SaveStore.MigrateOnlySaveKeys | utils/saveStore.ts:100-105 | migration removes only keys that contain `save_auto` or `save_manual` |
| SaveStore.Lookup | utils/saveStore.ts:66-71 | a key yields a record exactly when the store holds that key, and the record is the stored one |
| SaveStore.GetAfterSet | utils/saveStore.ts:66-75 | once migration is done, or when no legacy save waits under the key, a get after a set returns the record just set |
| SaveStore.PendingMigrationOverwrites | utils/saveStore.ts:66-75 | a set made before the first migration, on a key that has a parseable legacy save, is overwritten by that legacy save on the next get |
| SaveStore.DeleteOnlyThatKey | utils/saveStore.ts:77-79 | a delete removes that key and leaves every other key's record as it was |
| SaveStore.CollectSaveKeys | utils/saveStore.ts:100-105 | the collected keys are exactly the legacy keys that contain `save_auto` or `save_manual`, each listed once |
| SaveStore.AllRecords | utils/saveStore.ts:85-89 | the listed records are exactly the store's key and record pairs, one per key |
| SaveStore.Store.constructor | utils/saveStore.ts:14-28 | a freshly opened store is empty, not yet migrated, and sees the given `localStorage` |
| SaveStore.Store.SetSaveByKey | utils/saveStore.ts:73-75 | the store maps the key to the record, and nothing else changes |
| SaveStore.Store.DeleteSaveByKey | utils/saveStore.ts:77-79 | the key is removed, and nothing else changes |
| SaveStore.Store.ClearAllSaves | utils/saveStore.ts:81-83 | the object store is empty; the flag and `localStorage` are as they were |
| SaveStore.Store.MigrateLocalStorageSaves | utils/saveStore.ts:96-129 | the loop over the collected keys leaves exactly the state `Migrate` describes |
| SaveStore.Store.GetSaveByKey | utils/saveStore.ts:66-71 | migrates first, then returns the key's record in the migrated store |
| SaveStore.Store.ListSaveRecords | utils/saveStore.ts:85-89 | migrates first, then lists every record of the migrated store, once each |
| SaveStore.Store.GetSaveBySlotId | utils/saveStore.ts:91-94 | migrates first, then returns the record under the key built from the id |
| SyncEnv.ValueOr | utils/sync/config.ts:10-15 | a variable that is set and non-empty wins; otherwise the fallback is used |
| SyncEnv.GetSyncEnvConfig | utils/sync/config.ts:1-17 | the server is off exactly when its variable is exactly `false`; WebDAV and HTTPS are on exactly when theirs are exactly `true`; the endpoint and the base path are never empty |
| SyncEnv.EmptyEnvironment | utils/sync/config.ts:7-15 | with no variables: server on at `/api`, WebDAV and HTTPS off, user `local-dev` in a development build and empty otherwise, base path `/dxc-saves/` |
| SyncEnv.OnlyExactSpellingsCount | utils/sync/config.ts:7-9 | a flag value other than exactly `true` or `false` has no effect |
| SyncEnv.EmptyValueIsUnset | utils/sync/config.ts:10-15 | an empty variable behaves as an absent one |
| SyncConfigRules.GetDefaultSyncConfig | utils/sync/index.ts:35-60 | the server is chosen when it is enabled, otherwise WebDAV when that is enabled, otherwise no provider. Sync is enabled exactly when a provider is chosen. Auto-sync is off, the interval is 5, and conflicts are resolved by `newest` |
| SyncConfigRules.MergeServerConfig | utils/sync/index.ts:65-69 | a stored endpoint replaces the default only when it is non-empty; a stored user id always replaces it |
| SyncConfigRules.MergeWebdavConfig | utils/sync/index.ts:70-74 | a stored base path replaces the default only when it is non-empty; stored url, username and password always replace theirs |
| SyncConfigRules.NormalizeSyncConfig | utils/sync/index.ts:62-81 | with nothing stored, the defaults; otherwise each stored top-level field replaces its default and the two sub-configurations are merged field by field |
| SyncConfigRules.NormalizeFillsPaths | utils/sync/index.ts:62-81 | a normalised configuration always has a server endpoint and a WebDAV base path |
| SyncConfigRules.NormalizeIdempotent | utils/sync/index.ts:62-81 | storing a normalised configuration and normalising it again gives the same configuration |
| SyncConfigRules.ValidateSyncConfig | utils/sync/index.ts:83-96 | valid exactly when the configuration is usable; otherwise the first failing check's message (disabled, no provider, no endpoint, no user id, no WebDAV url, unknown provider) |
| SyncConfigRules.DisabledWhateverProvider | utils/sync/index.ts:84 | a disabled configuration is refused as disabled whatever its provider |
| SyncConfigRules.UnconfiguredDefaults | utils/sync/index.ts:35-96 | with no environment and nothing stored, the server at `/api` is chosen; that is valid in a development build and refused for the missing user id otherwise |
| ConflictResolver.ResolveConflict | utils/sync/conflictResolver.ts:3-11 | a fixed strategy is returned as it is. `newest` gives `local` exactly when the local timestamp is at least the remote one and `remote` exactly when it is smaller. The answer is never `newest` |
| ConflictResolver.NewestDependsOnlyOnTimestamps | utils/sync/conflictResolver.ts:9-10 | under `newest`, only the two timestamps matter |
| ConflictResolver.NewestSwap | utils/sync/conflictResolver.ts:9-10 | swapping the two sides under `newest` flips the verdict unless the timestamps are equal, where both orders keep the first argument |
| SyncSlots.RegistryShape | utils/sync/index.ts:16-23 | the registry holds slots 1 to 6 in order: three manual, then three automatic |
| SyncSlots.RegistryKeysAreStoreKeys | utils/sync/index.ts:16-23 | each registry key is the key the save store builds from that slot's id |
| SyncSlots.FindIn | utils/sync/index.ts:263 | `find` returns a slot exactly when one has the index, and the slot it returns has that index |
| SyncSlots.FindSlot | utils/sync/index.ts:263 | a registry slot exists exactly for indices 1 to 6, and it is the entry at that position |
| SyncSlots.ParseSlotIndex | utils/sync/index.ts:98-104 | no index exactly when the id has no digit; otherwise the non-negative value of its first digit run |
| SyncSlots.GetUserId | utils/sync/index.ts:117-121 | the configured server user id or WebDAV username, with `user`, `webdav` or `local` when empty; never empty |
| SyncSlots.SlotJson | utils/sync/index.ts:145 | a whole stored record used as a game state is a truthy object |
| SyncSlots.ReadLocalSave | utils/sync/index.ts:141-154 | a stored save is returned as it is when it has both a payload and a type. Otherwise it is relabelled with the slot's id and type and gets a payload, the whole record when it has none, with defaults for missing fields. The result always has a type and a truthy payload |
| SyncSlots.LocalRecord | utils/sync/index.ts:156-172 | nothing is written for a remote record without a payload. Otherwise the written record carries the slot's own id and type and the remote payload. An absent timestamp becomes now, an absent summary `<TYPE> SLOT <index>` and an absent version `3.0` |
| SyncSlots.PulledSaveReadsBack | utils/sync/index.ts:141-172 | a pulled save reads back exactly as it was written |
| SyncSlots.ToCloudSave | utils/sync/index.ts:174-191 | the transport form carries `slot_<index>`, the slot index, the user id, the device id, the payload and its checksum. An absent summary becomes `<TYPE> SLOT <index>` and an absent version `3.0` |
| SyncSlots.CloudIdParsesBack | utils/sync/index.ts:180 | parsing the digits of `slot_<n>` gives `n` back, so a remote record without a slot index still lands in its slot |
| SyncSlots.LocalCloudLocal | utils/sync/index.ts:156-191 | a complete local save converted to its transport form and pulled back into its slot is the same save |
| SyncEngine.Insert | utils/sync/index.ts:236 | `Map.set` keeps the map well formed, stores the value, and appends the key to the iteration order only when it is new |
| SyncEngine.RemoteIndex | utils/sync/index.ts:232-235 | a remote record's index is its `slotIndex` when present, otherwise the digits of its id. A zero or missing index files nothing |
| SyncEngine.RemoteMapOf | utils/sync/index.ts:229-237 | the remote map is a well-formed insertion-ordered map |
| SyncEngine.RemoteMapKeys | utils/sync/index.ts:229-237 | an index is in the remote map exactly when some listed record carries it |
| SyncEngine.RemoteMapHoldsLast | utils/sync/index.ts:231-237 | when several records carry one index, the map holds the last of them |
| SyncEngine.BuildRemoteMap | utils/sync/index.ts:229-237 | the loop builds exactly the remote map |
| SyncEngine.EntryOf | utils/sync/index.ts:239-246 | a slot has a local entry exactly when the store holds its key, and the entry is the transport form of the save read from it |
| SyncEngine.LocalMapOf | utils/sync/index.ts:248-252 | the local map is a well-formed insertion-ordered map |
| SyncEngine.LocalMapBySlot | utils/sync/index.ts:239-252 | an index is in the local map exactly when its slot's key is stored, and then it maps to that slot's entry |
| SyncEngine.BuildLocalMap | utils/sync/index.ts:239-252 | the loop over the registry builds exactly the local map |
| SyncEngine.Decide | utils/sync/index.ts:260-303 | a push needs a local copy, a pull a remote one and a registry slot, and a conflict both copies |
| SyncEngine.DecideCases | utils/sync/index.ts:265-302 | each of push, pull, skip and conflict holds exactly under its own condition. Local only means push. Remote only, on a registry slot, means pull. Two copies of the same version means skip. Otherwise the resolver decides, and `ask` means a conflict |
| SyncEngine.NewestDecides | utils/sync/index.ts:277-301 | under `newest`, differing versions are pushed when the local copy is at least as new and pulled otherwise |
| SyncEngine.Upload | utils/sync/index.ts:265-269 | an upload logs one call, counts a push only when the provider answers true, and fails the pass when the provider throws |
| SyncEngine.PullInto | utils/sync/index.ts:271-275 | a pull fetches the full record only when the listed one has no payload. It counts a pull exactly when the record written back has a payload and the write succeeds, and fails the pass when the fetch throws |
| SyncEngine.RunStepsAfterFailure | utils/sync/index.ts:320-328 | once a step throws, the remaining indices do nothing |
| SyncEngine.Step | utils/sync/index.ts:260-303 | no contract of its own: the work for one index. `StepLocalOnly`, `StepRemoteOnly`, `StepOutsideRegistry`, `StepSameVersion` and `StepDiffering` state it case by case |
| SyncEngine.RunSteps | utils/sync/index.ts:254-303 | no contract of its own: the loop up to its first error. `RunStepsAfterFailure`, `RunStepsLog` and `RunStepsWork` state it |
| SyncEngine.Conclude | utils/sync/index.ts:305-333 | no contract of its own: the result and the closing `disconnect`. `ConcludeReports` states that a failed loop gives `Failed(ErrorText(m))`, with status `error`, message `err?.message \|\| '同步失败'` and all counts 0, and that a finished loop gives its counts. `ConcludeFacts` and `ConcludeConsistent` state the call log and the summary rules |
| SyncEngine.Reconcile | utils/sync/index.ts:229-333 | no contract of its own: the pass after a successful listing. `ReconcileFacts` states the call log and the bounds. `ReconcileThrows` and `LoopThrowReported` state that a throwing upload or fetch gives the error result with its message |
| SyncEngine.Sync | utils/sync/index.ts:199-334 | no contract of its own: `syncWithProvider` on values. `InvalidConfigMakesNoCall`, `ConnectRefused`, `ListingThrowReported`, `LoopThrowReported`, `ErrorExactlyWhenACallThrew`, `DisconnectExactlyWhenConnected`, `ResultSummary` and `AtMostOneChangePerSlot` state it |
| SyncEngine.VisitIndices | utils/sync/index.ts:260-303 | the loop over the indices leaves exactly the tally the step function describes |
| SyncEngine.VisitIndex | utils/sync/index.ts:261-302 | one loop iteration is exactly one step |
| SyncEngine.UploadOne | utils/sync/index.ts:266-267 | the upload statement is exactly `Upload` |
| SyncEngine.PullOne | utils/sync/index.ts:272-273 | the pull statements are exactly `PullInto` |
| SyncEngine.SyncWithProvider | utils/sync/index.ts:199-334 | the whole pass (validation, connect, listing, maps, loop, result, disconnect) leaves exactly the run `Sync` describes |
| SyncEngine.ReconcileListed | utils/sync/index.ts:229-319 | from a successful listing, the pass leaves exactly the run `Reconcile` describes |
| SyncEngine.StepLocalOnly | utils/sync/index.ts:265-269 | a slot only stored locally is uploaded |
| SyncEngine.StepRemoteOnly | utils/sync/index.ts:271-275 | a registry slot only present remotely is pulled |
| SyncEngine.StepOutsideRegistry | utils/sync/index.ts:263-275 | a remote index outside the registry is ignored |
| SyncEngine.StepSameVersion | utils/sync/index.ts:278-283 | two copies with equal checksums or equal timestamps are left alone |
| SyncEngine.StepDiffering | utils/sync/index.ts:285-301 | differing copies are uploaded, pulled or reported as an `ask` conflict with both records, as the resolver says |
| SyncEngine.RunStepsLog | utils/sync/index.ts:260-303 | the loop only appends uploads and fetches to the call log, and only appends conflicts on registry slots |
| SyncEngine.RunStepsWork | utils/sync/index.ts:254-303 | the loop counts at most one push, pull or conflict per registry index it visits |
| SyncEngine.LocalMapInRegistry | utils/sync/index.ts:239-252 | every local index is a registry index |
| SyncEngine.AtMostSixRegistryIndices | utils/sync/index.ts:16-23 | a pass visits at most six registry indices |
| SyncEngine.InvalidConfigMakesNoCall | utils/sync/index.ts:203-213 | an invalid configuration returns the validation message without calling the provider or touching the store |
| SyncEngine.ConnectRefused | utils/sync/index.ts:215-227 | a connect that fails or throws ends the pass with an error after that single call, counts nothing, and leaves the store untouched |
| SyncEngine.ReconcileFacts | utils/sync/index.ts:229-333 | after a listing, the calls are connect, list, then only uploads and fetches, then a single final disconnect; at most six changes; every conflict is an `ask` on a registry slot |
| SyncEngine.ConcludeReports | utils/sync/index.ts:305-333 | the end of a pass appends `disconnect` to the loop's calls. A failed loop gives the error result with message `err?.message \|\| '同步失败'` and nothing counted; a loop that ran to the end gives its counts. The status is `error` exactly when the loop failed |
| SyncEngine.StepThrows | utils/sync/index.ts:261-302 | one index appends at most one call, and its work fails exactly when that call threw, with that call's message |
| SyncEngine.RunStepsThrows | utils/sync/index.ts:260-303 | the loop fails exactly when one of its calls threw. That call is then its last call and the failure carries its message, and no earlier call of the loop threw |
| SyncEngine.ListingThrowReported | utils/sync/index.ts:229-333 | a `listSaves` that throws after a successful `connect` gives the error result with its message and nothing counted, leaves the store untouched, and is followed by a single `disconnect` |
| SyncEngine.LoopThrowReported | utils/sync/index.ts:260-333 | an upload or fetch that throws inside the loop gives the error result with the loop's failure message and nothing counted, followed by `disconnect` |
| SyncEngine.ReconcileThrows | utils/sync/index.ts:229-333 | after a listing, the pass ends in an error exactly when some upload or fetch threw, and the error reports that call's message |
| SyncEngine.ErrorExactlyWhenACallThrew | utils/sync/index.ts:199-334 | a pass ends in an error exactly when the configuration is invalid, `connect` returns false, or some call throws; when a call throws, the result is the error with that call's message and all counts 0 |
| SyncEngine.ConcludeThrows | utils/sync/index.ts:305-333 | a loop that failed exactly on a throwing call ends in an error reporting that call's message, and in no error otherwise |
| SyncEngine.ReconcileDisconnects | utils/sync/index.ts:330-333 | after a listing, `disconnect` is the last call and happens once |
| SyncEngine.DisconnectExactlyWhenConnected | utils/sync/index.ts:329-333 | disconnect is called exactly when the configuration is valid and connect returned true, and then once, as the last call |
| SyncEngine.ResultSummary | utils/sync/index.ts:305-319 | an error counts nothing and has a message. Otherwise the status is `no-op` exactly when nothing changed and there is no conflict, and a message is set exactly when there are conflicts. Nothing is ever deleted |
| SyncEngine.AtMostOneChangePerSlot | utils/sync/index.ts:254-319 | pushes, pulls and conflicts together are at most six, and every conflict is an `ask` on a registry slot with both records |
| SyncEngine.CreateSyncService | utils/sync/index.ts:336-345 | no service when sync is disabled or no provider is chosen; the server provider for `server`; the WebDAV provider for `webdav`, which throws when the credentials cannot be encoded |
| SyncEngine.ValidConfigHasService | utils/sync/index.ts:336-345 | a valid server configuration always yields a service, and so does a valid WebDAV one whose credentials encode |
| WebDavSync.NormalizeUrl | utils/sync/webdavSync.ts:3-9 | blank stays blank. A url with a scheme loses its trailing slashes. Any other url gets `https://` or `http://` prepended and loses its trailing slashes |
| WebDavSync.NormalizeUrlTrailingSlash | utils/sync/webdavSync.ts:3-9 | a normalised url ends in `/` only when the trimmed input was nothing but slashes |
| WebDavSync.NormalizeBasePath | utils/sync/webdavSync.ts:11-15 | the base path always starts and ends with `/` and is `/` for a blank input; otherwise it is the trimmed input with a `/` put in front and at the end where one is missing |
| WebDavSync.NormalizeBasePathIdempotent | utils/sync/webdavSync.ts:11-15 | normalising a base path twice is normalising it once |
| WebDavSync.NormalizeBasePathKeeps | utils/sync/webdavSync.ts:11-15 | a path already wrapped in slashes, without surrounding spaces, is kept |
| WebDavSync.BuildAuthHeader | utils/sync/webdavSync.ts:17-21 | no header exactly when both credentials are empty. It throws exactly when `user:password` has a character above U+00FF. Otherwise `Basic ` followed by the Base64 of the Latin-1 bytes |
| WebDavSync.AuthHeaderDecodes | utils/sync/webdavSync.ts:17-21 | decoding a Basic header gives back `user:password` |
| WebDavSync.FileNameFromId | utils/sync/webdavSync.ts:23-27 | a file name always ends in `.json`: kept when it does, `.json` added after a `slot_` id, `slot_` and `.json` wrapped around any other id |
| WebDavSync.FileNameFromIdIdempotent | utils/sync/webdavSync.ts:23-27 | naming a file name again changes nothing |
| WebDavSync.CreateWebDavProvider | utils/sync/webdavSync.ts:29-34 | the provider holds the normalised url and base path and the auth header, and throws exactly when the header does |
| WebDavSync.BuildHeaders | utils/sync/webdavSync.ts:36-40 | the given headers, plus `Authorization` when there is a header |
| WebDavSync.EnsureCollection | utils/sync/webdavSync.ts:54-100 | `connect`: no url means false and no request. Otherwise a depth-0 PROPFIND, then MKCOL only after a 404, then a second PROPFIND only when the MKCOL fails. The verdict follows the replies; a network error throws |
| WebDavSync.LastSegment | utils/sync/webdavSync.ts:80 | the last non-empty path segment of an href, which contains no slash |
| WebDavSync.NameOf | utils/sync/webdavSync.ts:75-82 | no contract of its own: the name an href contributes. `NamesFromHrefs` states what the listing does with it |
| WebDavSync.NamesFromHrefs | utils/sync/webdavSync.ts:73-83 | throws exactly when a non-empty href cannot be URI-decoded. Otherwise it returns the names of every `slot_*.json` entry, each once, in the order in which they first appear |
| WebDavSync.FilesFromReply | utils/sync/webdavSync.ts:66-84 | a network error throws; a non-multistatus reply lists nothing; a multistatus reply lists the names of its hrefs |
| WebDavSync.ListFiles | utils/sync/webdavSync.ts:66-84 | sends one depth-1 PROPFIND and returns the listing of its reply |
| WebDavSync.SaveFromReply | utils/sync/webdavSync.ts:86-95 | a network error throws; a save is returned exactly when the reply is ok and parses; nothing otherwise |
| WebDavSync.Kept | utils/sync/webdavSync.ts:104-109 | the fetched saves keep only truthy records, each one a reply that parsed |
| WebDavSync.KeptAll | utils/sync/webdavSync.ts:104-109 | when every fetch succeeds, every file yields a save |
| WebDavSync.KeptSkipsFailure | utils/sync/webdavSync.ts:104-109 | a file whose GET is not ok, whose body does not parse, or whose body parses to a falsy value (`null`, `false`, `0`, `""`) is dropped by the `!!save` filter without affecting the others |
| WebDavSync.ListSaves | utils/sync/webdavSync.ts:104-109 | lists the files, then fetches each one in order, returning the saves that came back, or the first thrown error |
| WebDavSync.FetchFiles | utils/sync/webdavSync.ts:107 | sends one GET per file name in order, and returns the kept saves or the error that stopped it |
| WebDavSync.GetSave | utils/sync/webdavSync.ts:110-113 | GETs the file named after the id and returns what the reply yields |
| WebDavSync.UploadFileName | utils/sync/webdavSync.ts:116 | an upload's file name is a slot file name |
| WebDavSync.UploadIgnoresId | utils/sync/webdavSync.ts:115-116 | two saves for the same slot go to the same file, whatever their ids |
| WebDavSync.UploadSave | utils/sync/webdavSync.ts:114-124 | no slot index: false and no request. Otherwise one PUT of the JSON to `slot_<index>.json`, whatever the id says; the answer is the reply's ok status and a network error throws |
| WebDavSync.DeleteSave | utils/sync/webdavSync.ts:125-130 | sends one DELETE for the id's file; ok or 404 counts as deleted; a network error throws |
| ServerSync.NormalizeEndpoint | utils/sync/serverSync.ts:3-10 | blank stays blank. A url with a scheme or a root-relative path loses its trailing slashes. Anything else gets a scheme prepended and loses its trailing slashes |
| ServerSync.NormalizeEndpointNoTrailingSlash | utils/sync/serverSync.ts:3-10 | a normalised endpoint never ends in `/` |
| ServerSync.CompressPayload | utils/sync/serverSync.ts:14-28 | without a compression stream or when it fails, plain text and no header; otherwise the gzip bytes with `Content-Encoding: gzip` |
| ServerSync.CompressPayloadPreservesPayload | utils/sync/serverSync.ts:14-28 | when gunzip inverts gzip, the server receives exactly the payload |
| ServerSync.ShouldCompress | utils/sync/serverSync.ts:12 | no contract of its own: a payload is compressed when it is longer than 512 KiB; `UploadBody` states where this decides the body |
| ServerSync.CreateServerProvider | utils/sync/serverSync.ts:30-32 | the provider holds the normalised endpoint and the configured user id |
| ServerSync.BuildUrl | utils/sync/serverSync.ts:38-39 | with a user id, the encoded `userId` parameter is appended after `?` or, when the path already has a query, after `&` |
| ServerSync.BuildUrlSeparator | utils/sync/serverSync.ts:38-39 | exactly one separator is used, and it is `&` exactly when the path has a `?` |
| ServerSync.MakeRequest | utils/sync/serverSync.ts:34-47 | a request carries its verb, URL and body; its headers are the caller's plus `Content-Type`, the caller's winning, and `application/json` when the caller sets none |
| ServerSync.Preview | utils/sync/serverSync.ts:54 | the preview in error messages is the collapsed body when that has at most 200 characters, and its first 200 characters otherwise |
| ServerSync.ParseJsonResponse | utils/sync/serverSync.ts:50-66 | a value is returned exactly when the status is ok, the type is JSON and the text parses. Each failure, in that order, throws its own message with a preview |
| ServerSync.StatusErrorQuotesStatus | utils/sync/serverSync.ts:53-55 | the status error names the status code |
| ServerSync.Connect | utils/sync/serverSync.ts:69-77 | no endpoint: false and no request. Otherwise one summary GET, and true exactly when it answers with an ok status |
| ServerSync.ListSaves | utils/sync/serverSync.ts:81-85 | one summary GET; the saves array of the parsed reply, or an empty list when there is none; parse failures throw |
| ServerSync.GetSave | utils/sync/serverSync.ts:86-89 | one GET of the encoded save path; the parsed save, or the parse failure thrown |
| ServerSync.UploadBody | utils/sync/serverSync.ts:92-93 | a payload up to 512 KiB is sent as plain text; a larger one goes through compression |
| ServerSync.UploadSave | utils/sync/serverSync.ts:90-106 | no id: false and no request. Otherwise one PUT of the (possibly compressed) JSON to the save path; an ok reply gives true, and anything else throws |
| ServerSync.DeleteSave | utils/sync/serverSync.ts:107-113 | one DELETE of the save path; true on an ok status; otherwise the status error is thrown |
| DevSaveServer.MaskUserId | vite.config.ts:12 | each user-id character outside `[A-Za-z0-9_-]` becomes `_` |
| DevSaveServer.SanitizeUserId | vite.config.ts:11-12 | the sanitised id has at most 64 safe characters and is empty exactly when the id is blank; safe characters keep their place |
| DevSaveServer.SanitizeFileName | vite.config.ts:14-15 | same length, only characters from `[A-Za-z0-9_.-]`, each unsafe one replaced by `_` |
| DevSaveServer.SanitizeFileNameFixedPoints | vite.config.ts:14-15 | sanitising leaves a name unchanged exactly when every character is safe |
| DevSaveServer.NormalizeFileName | vite.config.ts:17-20 | the file name ends in `.json`, has only safe characters, and can never contain `/` or be `.` or `..` |
| DevSaveServer.NormalizeEmptyName | vite.config.ts:17-20 | an empty name becomes `slot_unknown.json` |
| DevSaveServer.NormalizeFileNameIdempotent | vite.config.ts:17-20 | normalising a normalised name changes nothing |
| DevSaveServer.StripLeadingSlashes | vite.config.ts:53 | removes exactly the leading slashes |
| DevSaveServer.VerbOf | vite.config.ts:52 | a missing or empty method reads as `GET`; any method other than the four handled ones is kept as a method the endpoint does not serve |
| DevSaveServer.Remainder | vite.config.ts:53 | the path below the API base is a suffix of the pathname, everything between the base and it is `/`, and it never starts with `/` |
| DevSaveServer.FindEntry | vite.config.ts:111-116 | a directory lookup finds the first file with that name, and nothing exactly when no file has it |
| DevSaveServer.ReadAfterWrite | vite.config.ts:135 | after writing a file, reading that name gives the written content |
| DevSaveServer.WriteKeepsOthers | vite.config.ts:135 | writing a file leaves every other name's lookup as it was |
| DevSaveServer.ChangesKeepNamesDistinct | vite.config.ts:135-141 | writing and unlinking keep a directory free of duplicate names |
| DevSaveServer.UnlinkRemoves | vite.config.ts:141 | after unlinking a file, its name is no longer found |
| DevSaveServer.ReadPayload | vite.config.ts:58-75 | requests without a body read nothing. A gzip-encoded body that fails to decompress is refused with its message, and so is one that does not parse. An empty body reads as nothing; any other body reads as its parsed value |
| DevSaveServer.BodyText | vite.config.ts:59-66 | no contract of its own: the body text, decompressed when the encoding names gzip. `ReadPayload` states the outcomes |
| DevSaveServer.ResolveUserId | vite.config.ts:77 | a query parameter wins, trimmed. Otherwise the body's string `userId`, and an empty id when there is none. A truthy `userId` that is not a string is reported separately |
| DevSaveServer.IndexFields | vite.config.ts:97 | spreading an array gives its indices as keys, the last index included |
| DevSaveServer.WithoutData | vite.config.ts:97-98 | the summary form of a record has every field but `data` |
| DevSaveServer.Shown | vite.config.ts:91-102 | a directory entry is listed exactly when it is a `.json` file whose content parses to an object; a summary listing drops its `data` |
| DevSaveServer.ListedMembers | vite.config.ts:88-106 | the listing holds exactly the shown form of each listable entry |
| DevSaveServer.SortFacts | vite.config.ts:107 | sorting by slot index gives a sorted permutation that keeps the order of equal keys (stable) |
| DevSaveServer.SortKey | vite.config.ts:107 | a numeric slot index sorts at its value, and so does a one-element array holding a number. A missing index, `null`, an object or an array of another length sorts at 0 |
| DevSaveServer.NumberOfValue | vite.config.ts:107 | `Number(v) \|\| 0` of a one-element array holding a number is that number |
| DevSaveServer.ListingContents | vite.config.ts:86-109 | the sorted listing is sorted by slot index and holds exactly the listable entries |
| DevSaveServer.ListSaves | vite.config.ts:88-106 | the loop over the directory builds exactly the listing |
| DevSaveServer.Prepared | vite.config.ts:129-134 | a stored object gets the resolved user id, its own id or the path name, and its own slot index or the one in the path. Other fields are kept and no others are added. An array is stored as it is |
| DevSaveServer.ServeRoot | vite.config.ts:86-109 | a GET on the base path answers the listing sorted by slot; any other method there answers 405; nothing changes |
| DevSaveServer.ServeGet | vite.config.ts:114-123 | GET answers the file's parsed content, 404 when there is no such file and 500 when it cannot be read or parsed, and changes nothing |
| DevSaveServer.ServePutRefused | vite.config.ts:125-128 | a PUT whose payload is not an object is refused with 400 and changes nothing |
| DevSaveServer.ServePut | vite.config.ts:125-137 | a PUT of an object writes the prepared record under the normalised name and answers ok; a directory of that name makes the write throw |
| DevSaveServer.ServeDelete | vite.config.ts:139-148 | DELETE unlinks an existing file and answers ok; a missing file answers ok unchanged; a directory of that name answers 500 |
| DevSaveServer.ServeOtherMethods | vite.config.ts:150 | any other method on a file answers 405 and changes nothing |
| DevSaveServer.Serve | vite.config.ts:86-150 | no contract of its own: the reply below the user directory. `ServeRoot`, `ServeGet`, `ServePut`, `ServeDelete` and `ServeOtherMethods` state it case by case |
| DevSaveServer.Admit | vite.config.ts:47-81 | requests outside the API base are passed on. An undecodable body is refused with its message and a blank user id with 400. A truthy non-string body `userId` crashes, and only that does. Every other request is admitted with its verb, user directory, path and payload |
| DevSaveServer.RespondTo | vite.config.ts:83-150 | no contract of its own: the admitted request served in its user's directory. `OnlyOwnDirectoryChanges` states what it may change |
| DevSaveServer.Respond | vite.config.ts:47-151 | no contract of its own: `localSyncMiddleware` on values, `Admit` followed by `RespondTo`; the contracts of those two and the lemmas about them state it |
| DevSaveServer.UndecodableBodyRefused | vite.config.ts:58-75 | a body that cannot be read answers 400 with the reason and changes no file |
| DevSaveServer.BlankUserIdRefused | vite.config.ts:77-81 | a user id that sanitises to nothing answers 400 and changes no file |
| DevSaveServer.BlankUserIdWithoutBody | vite.config.ts:77-81 | a GET or DELETE without a usable `userId` parameter is refused with 400 |
| DevSaveServer.OnlyOwnDirectoryChanges | vite.config.ts:83-84 | a request changes, at most, the directory of its own sanitised user |
| DevSaveServer.ServeKeepsNamesDistinct | vite.config.ts:111-148 | serving a request keeps a directory free of duplicate names |
| DevSaveServer.RespondKeepsWellFormed | vite.config.ts:83-148 | every user directory stays free of duplicate names after any request |
| DevSaveServer.ParamDecidesUser | vite.config.ts:77-78 | a usable query parameter decides the user, whatever the body says |
| DevSaveServer.PutSucceeded | vite.config.ts:125-137 | an ok PUT stored the prepared record in its user's directory and nothing else |
| DevSaveServer.PutThenGet | vite.config.ts:114-137 | a GET after an ok PUT, for the same user and path, returns the prepared record |
| DevSaveServer.PutThenList | vite.config.ts:86-137 | after an ok PUT, the full listing contains the prepared record |
| DevSaveServer.DeleteThenGet | vite.config.ts:114-148 | a GET after an ok DELETE of the same user and path answers 404 |
| DevSaveServer.SameUrlSameUser | vite.config.ts:52-81 | two body-less requests to the same url are admitted for the same user and path |
| DevSaveServer.Handle | vite.config.ts:47-151 | the middleware leaves exactly the reply and storage `Respond` describes |
| DevSaveServer.ServeDir | vite.config.ts:86-150 | the per-directory part of the handler leaves exactly what `Serve` describes |

## Left out

- The missing `await` at utils/sync/index.ts:241. As written, `readLocalSave` receives the unresolved promise of `getSaveByKey`. The registry loop then treats every slot as stored, and read-back goes wrong. The model follows the evident intent and awaits the lookup. `SyncEngine.EntryOf` states the intended behaviour, and no as-written variant is modelled.
- The `status !== 'error'` test at utils/sync/index.ts:308 can never be false at that point, so the model leaves it out.
- `Promise.all` at utils/sync/index.ts:239-246 and utils/sync/webdavSync.ts:107 is modelled as sequential calls in array order. Concurrency and interleaving are not modelled.
- JavaScript numbers are modelled as unbounded integers. Fractional timestamps, `NaN`, `Infinity` and the `Number.isFinite` check of `parseSlotIndex` on huge digit runs are outside the model.
- Strings are sequences of characters. UTF-16 surrogate pairs and code-point counting are not distinguished.
- JSON values are untyped trees with integer numbers. Only the shapes the code reads are given types.
- IndexedDB: opening the database, transactions, and request failures are not modelled. Every `SaveStore` operation succeeds. The sync pass still models a failed write: `writeLocalSave` catches a failing `setSaveByKey` and returns false (utils/sync/index.ts:166-171). Whether a write succeeds is the parameter `Ambient.writeOk`, and `SyncEngine.PullInto` counts a pull only when it holds.
- The listing order of IndexedDB `getAll` and of `localStorage` keys is not modelled. `SaveStore.AllRecords` and `SaveStore.Store.ListSaveRecords` promise only the set of records.
- `estimateSaveSize`, the last-sync timestamp written to `localStorage`, and the rest of `utils/saveStore.ts` outside the listed functions are not part of this model.
- `ensureDeviceId` and `Date.now` are parameters (`Ambient.deviceId` and `Ambient.now`).
- The checksum (SHA-256 via `crypto.subtle`, with its fallback and error sentinels) is an uninterpreted function of the payload.
- `SyncEngine.Provider` is an oracle that holds the outcome of each provider call. The pass is not linked to the request-level models in `ServerSync` and `WebDavSync`, and a provider's answers do not depend on earlier calls within one pass.
- `Http.Server` decides each reply from the history of requests. Timeouts, redirects and the browser's CORS behaviour are not modelled.
- ServerSync.GetSave, ServerSync.UploadSave and ServerSync.DeleteSave follow the code: a non-ok reply throws through `parseJsonResponse` instead of returning a value.
- SyncSlots.ToCloudSave requires a save that has a type. Every caller passes the result of `readLocalSave`, which always supplies one.
- Fields explicitly set to `undefined` cannot be distinguished from absent ones.
- DevSaveServer.SortBySlot is a pure insertion sort on sequences. The in-place `Array.prototype.sort` is not modelled; both are stable.
- DevSaveServer.NumberOfText models `Number(...)` only for optional-sign decimal integers. Any other text gives 0, as `Number(..) \|\| 0` does for `NaN`.
- SaveStore.TypeOf reads a `type` string outside `MANUAL`, `AUTO` and `CLOUD` as no type, because a slot's type is one of those three. In the source a truthy foreign string still makes a legacy record complete, and the model agrees there: `IsComplete` tests truthiness. The record is then stored without a type, and `SyncSlots.ReadLocalSave` later relabels it with its slot's type. The source would keep the foreign string and return the record unchanged.
- DevSaveServer.SortKey reads an array slot index the way `Number` does, through its string form: a one-element array counts as its element's string, and any other length is 0. An element that is an object counts as 0, as the string `[object Object]` does.
- DevSaveServer.UpperAscii changes only ASCII letters, where `toUpperCase` is Unicode-aware. The value it is used on, the HTTP method, is ASCII.
- On the dev server, failures of `mkdir`, `readdir`, `readFile` other than a missing file, `writeFile` and `unlink` are not modelled. The catch-all 500 reply (vite.config.ts:165-178) is the `Crashed` reply without its message text.
- A `content-encoding` header given as an array is not modelled; only a single header value is.
- `new URL(..)` is abstracted to the `Url` record: the path name, a query parameter lookup and the summary flag.
- `DOMParser`, `fetch`, gzip via `CompressionStream`, `JSON.parse`/`stringify` and `decodeURIComponent` are abstract function parameters. Only `btoa` is modelled concretely, as Latin-1 to Base64.
- DevSaveServer.PutThenGet, DevSaveServer.PutThenList and DevSaveServer.DeleteThenGet are stated over admitted requests. DevSaveServer.ParamDecidesUser and DevSaveServer.SameUrlSameUser link admissions back to raw requests.
- The `deleted` count of a sync result is always 0, because the pass never deletes.
- The `defineConfig` wiring and the list of plugins in vite.config.ts are build configuration, not behaviour.
