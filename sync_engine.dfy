/** The sync orchestrator (`syncWithProvider`, `createSyncService`): it
    matches the six local slots against the provider's listing index by
    index, pushes, pulls, skips or records a conflict for each, and sums up
    what it did. */
module SyncEngine {
  import opened Wrappers
  import opened Seqs
  import opened Json
  import opened SyncTypes
  import opened SaveStore
  import opened SyncSlots
  import opened SyncConfigRules
  import opened ConflictResolver
  import SyncEnv
  import WebDavSync
  import ServerSync

  // ----- The provider as the orchestrator sees it -----------------------------

  /** The provider's answers: what `connect` and `listSaves` resolve to, and
      what `getSave` and `uploadSave` resolve to for each argument. Each may
      throw. */
  datatype Provider = Provider(
    connect: Outcome<bool>,
    listSaves: Outcome<seq<CloudSaveSlot>>,
    getSave: string -> Outcome<Option<CloudSaveSlot>>,
    uploadSave: CloudSaveSlot -> Outcome<bool>)

  /** A provider call, in the order the orchestrator makes them. */
  datatype Call = Connect | ListSaves | GetSave(id: string) | UploadSave(save: CloudSaveSlot) | Disconnect

  /** What the orchestrator takes from its surroundings: `Date.now()`, the
      device id, the checksum of a payload, `JSON.parse` (for the store's
      migration) and whether the store accepts a write. */
  datatype Ambient = Ambient(
    now: int,
    deviceId: string,
    checksum: Json -> string,
    parse: string -> Option<Json>,
    writeOk: (string, SaveSlot) -> bool)

  // ----- Index-keyed maps in insertion order ----------------------------------

  /** A JavaScript `Map` keyed by slot index: the keys in insertion order and
      the value of each. */
  datatype IndexMap<V> = IndexMap(order: seq<int>, values: map<int, V>)

  ghost predicate WellFormed<V>(m: IndexMap<V>) {
    NoDuplicates(m.order) && (forall k :: k in m.order <==> k in m.values)
  }

  /** `map.set(k, v)`: a new key goes last, an existing one keeps its place. */
  function Insert<V>(m: IndexMap<V>, k: int, v: V): (r: IndexMap<V>)
    requires WellFormed(m)
    ensures WellFormed(r)
    ensures r.values == m.values[k := v]
    ensures r.order == if k in m.values then m.order else m.order + [k]
  {
    IndexMap(if k in m.values then m.order else m.order + [k], m.values[k := v])
  }

  /** `map.get(k)`. */
  function GetAt<V>(m: IndexMap<V>, k: int): Option<V> {
    if k in m.values then Some(m.values[k]) else None
  }

  function EmptyMap<V>(): (r: IndexMap<V>)
    ensures WellFormed(r)
  {
    IndexMap([], map[])
  }

  // ----- The remote map ------------------------------------------------------

  /** The index a listed record is filed under: its `slotIndex` when it has
      one, else the digits of its id; `0` and nothing mean it is dropped. */
  function RemoteIndex(r: CloudSaveSlot): (k: Option<int>)
    ensures k.Some? ==> k.value != 0
    ensures r.slotIndex.Some? ==> (k.Some? <==> r.slotIndex.value != 0) && (k.Some? ==> k == r.slotIndex)
    ensures r.slotIndex.None? ==>
      && (k.Some? <==> ParseSlotIndex(r.id).Some? && ParseSlotIndex(r.id).value != 0)
      && (k.Some? ==> k == ParseSlotIndex(r.id))
  {
    var index := if r.slotIndex.Some? then r.slotIndex else ParseSlotIndex(r.id);
    if index.None? || index.value == 0 then None else index
  }

  /** `remoteMap` after the `forEach` over the listing. */
  function RemoteMapOf(list: seq<CloudSaveSlot>): (m: IndexMap<CloudSaveSlot>)
    ensures WellFormed(m)
  {
    if list == [] then EmptyMap()
    else
      var m := RemoteMapOf(list[..|list| - 1]);
      match RemoteIndex(list[|list| - 1])
      case None => m
      case Some(k) => Insert(m, k, list[|list| - 1])
  }

  /** The listing is filed by index: an index is present exactly when some
      record carries it. */
  lemma RemoteMapKeys(list: seq<CloudSaveSlot>, k: int)
    ensures k in RemoteMapOf(list).values <==> exists i :: 0 <= i < |list| && RemoteIndex(list[i]) == Some(k)
  {
    if k in RemoteMapOf(list).values {
      var i := RemoteKeyCarried(list, k);
    } else {
      forall i | 0 <= i < |list| && RemoteIndex(list[i]) == Some(k)
        ensures false
      {
        RemoteKeyFiled(list, i, k);
      }
    }
  }

  /** Every key of the remote map is carried by the `i`th record. */
  lemma {:induction false} RemoteKeyCarried(list: seq<CloudSaveSlot>, k: int) returns (i: int)
    requires k in RemoteMapOf(list).values
    ensures 0 <= i < |list| && RemoteIndex(list[i]) == Some(k)
  {
    var init := list[..|list| - 1];
    RemoteKeysSnoc(list);
    if k in RemoteMapOf(init).values {
      i := RemoteKeyCarried(init, k);
      assert init[i] == list[i];
    } else {
      i := |list| - 1;
    }
  }

  /** The index every record carries is a key of the remote map. */
  lemma {:induction false} RemoteKeyFiled(list: seq<CloudSaveSlot>, i: int, k: int)
    requires 0 <= i < |list| && RemoteIndex(list[i]) == Some(k)
    ensures k in RemoteMapOf(list).values
  {
    var init := list[..|list| - 1];
    RemoteKeysSnoc(list);
    if i < |init| {
      assert init[i] == list[i];
      RemoteKeyFiled(init, i, k);
    }
  }

  /** The keys of the remote map after one more record. */
  lemma RemoteKeysSnoc(list: seq<CloudSaveSlot>)
    requires list != []
    ensures var before := RemoteMapOf(list[..|list| - 1]).values.Keys;
      var index := RemoteIndex(list[|list| - 1]);
      RemoteMapOf(list).values.Keys == if index.Some? then before + {index.value} else before
  {
  }

  /** A later record with the same index replaces an earlier one: the map
      holds the LAST record that carries the index. */
  lemma {:induction false} RemoteMapHoldsLast(list: seq<CloudSaveSlot>, i: int)
    requires 0 <= i < |list| && RemoteIndex(list[i]).Some?
    requires forall j :: i < j < |list| ==> RemoteIndex(list[j]) != RemoteIndex(list[i])
    ensures RemoteIndex(list[i]).value in RemoteMapOf(list).values
    ensures RemoteMapOf(list).values[RemoteIndex(list[i]).value] == list[i]
  {
    if i < |list| - 1 {
      var init := list[..|list| - 1];
      assert init[i] == list[i];
      RemoteMapHoldsLast(init, i);
    }
  }

  /** The `forEach` that fills `remoteMap`. */
  method BuildRemoteMap(list: seq<CloudSaveSlot>) returns (m: IndexMap<CloudSaveSlot>)
    ensures m == RemoteMapOf(list)
  {
    m := IndexMap([], map[]);
    var i := 0;
    while i < |list|
      invariant 0 <= i <= |list|
      invariant m == RemoteMapOf(list[..i])
    {
      assert list[..i + 1][..i] == list[..i];
      var remote := list[i];
      var index := if remote.slotIndex.Some? then remote.slotIndex else ParseSlotIndex(remote.id);
      if index.Some? && index.value != 0 {
        m := IndexMap(if index.value in m.values then m.order else m.order + [index.value], m.values[index.value := remote]);
      }
      i := i + 1;
    }
    assert list[..|list|] == list;
  }

  // ----- The local map -------------------------------------------------------

  /** A slot that has a local save, with the save's transport form. */
  datatype LocalEntry = LocalEntry(meta: LocalSlotMeta, cloud: CloudSaveSlot)

  /** The entry for one slot: none when the store has no save under its key.
      (The source calls `readLocalSave` without `await`, so `save` is a
      pending promise and every slot would get an entry built from it; the
      model reads the save as evidently intended.) */
  function EntryOf(meta: LocalSlotMeta, store: StoreState, config: SyncConfig, amb: Ambient): (r: Option<LocalEntry>)
    ensures r.Some? <==> meta.key in store.saves
    ensures r.Some? ==> r.value.meta == meta
    ensures r.Some? ==> r.value.cloud == ToCloudSave(ReadLocalSave(meta, Lookup(store, meta.key), amb.now).value, meta, config,
                                      amb.checksum, amb.deviceId)
  {
    match ReadLocalSave(meta, Lookup(store, meta.key), amb.now)
    case None => None
    case Some(save) => Some(LocalEntry(meta, ToCloudSave(save, meta, config, amb.checksum, amb.deviceId)))
  }

  /** `localMap` after the slots' entries were read and filed. */
  function LocalMapOf(slots: seq<LocalSlotMeta>, store: StoreState, config: SyncConfig, amb: Ambient)
    : (m: IndexMap<LocalEntry>)
    ensures WellFormed(m)
  {
    if slots == [] then EmptyMap()
    else
      var m := LocalMapOf(slots[..|slots| - 1], store, config, amb);
      match EntryOf(slots[|slots| - 1], store, config, amb)
      case None => m
      case Some(e) => Insert(m, e.meta.slotIndex, e)
  }

  /** Slot `k` of the registry has a local entry exactly when the store has a
      save under its key, and the entry is that save's transport form. */
  lemma {:induction false} LocalMapBySlot(slots: seq<LocalSlotMeta>, store: StoreState, config: SyncConfig, amb: Ambient, k: int)
    requires forall i, j :: 0 <= i < j < |slots| ==> slots[i].slotIndex != slots[j].slotIndex
    ensures k in LocalMapOf(slots, store, config, amb).values <==>
      exists i :: 0 <= i < |slots| && slots[i].slotIndex == k && slots[i].key in store.saves
    ensures forall i :: 0 <= i < |slots| && slots[i].slotIndex == k && slots[i].key in store.saves ==>
      LocalMapOf(slots, store, config, amb).values[k] == EntryOf(slots[i], store, config, amb).value
  {
    if slots != [] {
      var init, last := slots[..|slots| - 1], slots[|slots| - 1];
      LocalMapBySlot(init, store, config, amb, k);
      LocalValuesSnoc(slots, store, config, amb);
      assert forall i :: 0 <= i < |init| ==> init[i] == slots[i];
      if last.slotIndex == k && last.key in store.saves {
        assert forall i :: 0 <= i < |init| ==> init[i].slotIndex != k;
      }
    }
  }

  /** The values of the local map after one more slot. */
  lemma LocalValuesSnoc(slots: seq<LocalSlotMeta>, store: StoreState, config: SyncConfig, amb: Ambient)
    requires slots != []
    ensures var init, last := slots[..|slots| - 1], slots[|slots| - 1];
      var before := LocalMapOf(init, store, config, amb).values;
      LocalMapOf(slots, store, config, amb).values ==
        if last.key in store.saves then before[last.slotIndex := EntryOf(last, store, config, amb).value] else before
  {
  }

  /** Reading one more slot files its entry, if it has one. */
  lemma LocalMapOfSnoc(slots: seq<LocalSlotMeta>, i: int, store: StoreState, config: SyncConfig, amb: Ambient)
    requires 0 <= i < |slots|
    ensures LocalMapOf(slots[..i + 1], store, config, amb) ==
      var m := LocalMapOf(slots[..i], store, config, amb);
      match EntryOf(slots[i], store, config, amb)
      case None => m
      case Some(e) => Insert(m, e.meta.slotIndex, e)
  {
    assert slots[..i + 1][..i] == slots[..i];
  }

  /** The registry slots read one by one into `localMap` (the `Promise.all`
      over `LOCAL_SLOTS` and the `forEach` that files its results, done in
      one pass). */
  method BuildLocalMap(store: StoreState, config: SyncConfig, amb: Ambient) returns (m: IndexMap<LocalEntry>)
    ensures m == LocalMapOf(LocalSlots, store, config, amb)
  {
    m := IndexMap([], map[]);
    var i := 0;
    while i < |LocalSlots|
      invariant 0 <= i <= |LocalSlots|
      invariant m == LocalMapOf(LocalSlots[..i], store, config, amb)
    {
      LocalMapOfSnoc(LocalSlots, i, store, config, amb);
      var meta := LocalSlots[i];
      var save := ReadLocalSave(meta, Lookup(store, meta.key), amb.now);
      if save.Some? {
        var cloud := ToCloudSave(save.value, meta, config, amb.checksum, amb.deviceId);
        m := IndexMap(if meta.slotIndex in m.values then m.order else m.order + [meta.slotIndex],
                      m.values[meta.slotIndex := LocalEntry(meta, cloud)]);
      }
      i := i + 1;
    }
    assert LocalSlots[..|LocalSlots|] == LocalSlots;
  }

  // ----- The decision for one index -------------------------------------------

  /** What happens to one index. */
  datatype Decision = Push | Pull | Skip | Conflict

  /** The two sides are the same version: equal non-empty checksums, or
      equal timestamps. */
  predicate SameVersion(local: CloudSaveSlot, remote: CloudSaveSlot) {
    (local.checksum != "" && remote.checksum != "" && local.checksum == remote.checksum)
    || local.timestamp == remote.timestamp
  }

  /** The decision for an index, from its local entry, its remote record,
      its registry slot and the configured strategy. */
  function Decide(local: Option<LocalEntry>, remote: Option<CloudSaveSlot>, meta: Option<LocalSlotMeta>, strategy: Strategy)
    : (d: Decision)
    ensures d == Push ==> local.Some?
    ensures d == Pull ==> remote.Some? && meta.Some?
    ensures d == Conflict ==> local.Some? && remote.Some?
  {
    if local.Some? && remote.None? then Push
    else if local.None? && remote.Some? && meta.Some? then Pull
    else if local.Some? && remote.Some? && meta.Some? then
      if SameVersion(local.value.cloud, remote.value) then Skip
      else
        match ResolveConflict(local.value.cloud, remote.value, strategy)
        case Ask => Conflict
        case Local => Push
        case Remote => Pull
        case Newest => Skip
    else Skip
  }

  /** The cases are exhaustive and exclusive: each decision holds exactly
      under its own condition. */
  lemma DecideCases(local: Option<LocalEntry>, remote: Option<CloudSaveSlot>, meta: Option<LocalSlotMeta>, strategy: Strategy)
    ensures var d := Decide(local, remote, meta, strategy);
      var both := local.Some? && remote.Some? && meta.Some? && !SameVersion(local.value.cloud, remote.value);
      && (d == Push <==>
            (local.Some? && remote.None?) || (both && ResolveConflict(local.value.cloud, remote.value, strategy) == Local))
      && (d == Pull <==>
            (local.None? && remote.Some? && meta.Some?)
            || (both && ResolveConflict(local.value.cloud, remote.value, strategy) == Remote))
      && (d == Conflict <==> both && ResolveConflict(local.value.cloud, remote.value, strategy) == Ask)
      && (d == Skip <==>
            (local.None? && (remote.None? || meta.None?))
            || (local.Some? && remote.Some? && meta.Some? && SameVersion(local.value.cloud, remote.value))
            || (local.Some? && remote.Some? && meta.None?))
  {
    if local.Some? && remote.Some? && meta.Some? && !SameVersion(local.value.cloud, remote.value) {
      assert ResolveConflict(local.value.cloud, remote.value, strategy) != Newest;
    }
  }

  /** Under `newest`, a slot present on both sides with different versions
      is pushed when the local copy is at least as new and pulled when the
      remote one is newer; it never becomes a conflict. */
  lemma NewestDecides(local: LocalEntry, remote: CloudSaveSlot, meta: LocalSlotMeta)
    requires !SameVersion(local.cloud, remote)
    ensures Decide(Some(local), Some(remote), Some(meta), Newest) == (if local.cloud.timestamp >= remote.timestamp then Push else Pull)
  {
  }

  // ----- Carrying out the decisions --------------------------------------------

  /** The running totals of a pass, the store, the provider calls so far,
      and the message of an error that ended the pass. */
  datatype Tally = Tally(
    pushed: nat,
    pulled: nat,
    conflicts: seq<SyncConflict>,
    store: StoreState,
    calls: seq<Call>,
    failure: Option<string>)

  /** `uploadSave` of a local record; `pushed` counts it when it returns
      true, and an error ends the pass. */
  function Upload(provider: Provider, cloud: CloudSaveSlot, t: Tally): (r: Tally)
    requires t.failure.None?
    ensures r.calls == t.calls + [UploadSave(cloud)]
    ensures r.pushed == (if provider.uploadSave(cloud) == Returned(true) then t.pushed + 1 else t.pushed)
    ensures r.failure.Some? <==> provider.uploadSave(cloud).Threw?
    ensures r.pulled == t.pulled && r.conflicts == t.conflicts && r.store == t.store
  {
    var t1 := t.(calls := t.calls + [UploadSave(cloud)]);
    match provider.uploadSave(cloud)
    case Threw(m) => t1.(failure := Some(m))
    case Returned(ok) => if ok then t1.(pushed := t.pushed + 1) else t1
  }

  /** The record to pull: the listed one when it carries a payload, else the
      one `getSave` fetches by id. */
  function FullRemote(provider: Provider, listed: CloudSaveSlot): Outcome<Option<CloudSaveSlot>> {
    if Truthy(listed.data) then Returned(Some(listed)) else provider.getSave(listed.id)
  }

  /** Pulling into a slot: fetch when needed, then `writeLocalSave`;
      `pulled` counts the slot when the write happened. */
  function PullInto(provider: Provider, meta: LocalSlotMeta, listed: CloudSaveSlot, amb: Ambient, t: Tally): (r: Tally)
    requires t.failure.None?
    ensures r.calls == t.calls + (if Truthy(listed.data) then [] else [GetSave(listed.id)])
    ensures r.failure.Some? <==> FullRemote(provider, listed).Threw?
    ensures r.pushed == t.pushed && r.conflicts == t.conflicts
    ensures r.pulled == t.pulled + 1 <==>
      && FullRemote(provider, listed).Returned? && FullRemote(provider, listed).value.Some?
      && var rec := LocalRecord(meta, FullRemote(provider, listed).value.value, amb.now);
         rec.Some? && amb.writeOk(meta.key, rec.value)
    ensures r.pulled == t.pulled + 1 ==>
      r.store == Put(t.store, meta.key, LocalRecord(meta, FullRemote(provider, listed).value.value, amb.now).value)
    ensures r.pulled != t.pulled + 1 ==> r.pulled == t.pulled && r.store == t.store
  {
    var t1 := if Truthy(listed.data) then t else t.(calls := t.calls + [GetSave(listed.id)]);
    match FullRemote(provider, listed)
    case Threw(m) => t1.(failure := Some(m))
    case Returned(None) => t1
    case Returned(Some(full)) =>
      match LocalRecord(meta, full, amb.now)
      case None => t1
      case Some(rec) =>
        if amb.writeOk(meta.key, rec) then t1.(pulled := t1.pulled + 1, store := Put(t1.store, meta.key, rec)) else t1
  }

  /** The work done for one index. */
  function Step(provider: Provider, config: SyncConfig, amb: Ambient, lm: IndexMap<LocalEntry>, rm: IndexMap<CloudSaveSlot>,
                index: int, t: Tally): Tally
    requires t.failure.None?
  {
    var local, listed, meta := GetAt(lm, index), GetAt(rm, index), FindSlot(index);
    match Decide(local, listed, meta, config.conflictResolution)
    case Skip => t
    case Push => Upload(provider, local.value.cloud, t)
    case Pull => PullInto(provider, meta.value, listed.value, amb, t)
    case Conflict => t.(conflicts := t.conflicts + [SyncConflict(index, Some(local.value.cloud), listed, Some(Ask))])
  }

  /** The loop over the indices, up to the first error. */
  function RunSteps(provider: Provider, config: SyncConfig, amb: Ambient, lm: IndexMap<LocalEntry>, rm: IndexMap<CloudSaveSlot>,
                    indices: seq<int>, t0: Tally): Tally
  {
    if indices == [] then t0
    else
      var t := RunSteps(provider, config, amb, lm, rm, indices[..|indices| - 1], t0);
      if t.failure.Some? then t else Step(provider, config, amb, lm, rm, indices[|indices| - 1], t)
  }

  // ----- The whole pass --------------------------------------------------------

  const ConnectFailedMessage: string := "连接失败"
  const SyncFailedMessage: string := "同步失败"
  const ConflictsMessage: string := "存在冲突，需要手动处理"

  /** An error result: nothing counted. */
  function Failed(message: string): SyncResult {
    SyncResult(Error, Some(message), 0, 0, 0, [])
  }

  /** `err?.message || '同步失败'`. */
  function ErrorText(message: string): string {
    if message != "" then message else SyncFailedMessage
  }

  /** The result of a pass that ran to the end. */
  function Finished(pushed: nat, pulled: nat, conflicts: seq<SyncConflict>): SyncResult {
    var deleted := 0;
    SyncResult(
      if pushed + pulled + deleted == 0 && |conflicts| == 0 then NoOp else Success,
      if |conflicts| > 0 then Some(ConflictsMessage) else None,
      pushed, pulled, deleted, conflicts)
  }

  /** The outcome of `syncWithProvider`: the result, the local store
      afterwards and the provider calls made. */
  datatype SyncRun = SyncRun(result: SyncResult, store: StoreState, calls: seq<Call>)

  /** The indices visited: the local ones, then the remote ones not already
      local (`new Set([...localMap.keys(), ...remoteMap.keys()])`). */
  function Indices(lm: IndexMap<LocalEntry>, rm: IndexMap<CloudSaveSlot>): seq<int> {
    Dedup(lm.order + rm.order)
  }

  /** `syncWithProvider` on values. An invalid configuration stops before any
      call; a failed `connect` before `disconnect` is owed; after a
      successful `connect` every path ends with `disconnect`. Reading the
      local slots runs the store's migration first. */
  function Sync(provider: Provider, config: SyncConfig, store: StoreState, amb: Ambient): SyncRun {
    match ValidateSyncConfig(config)
    case Invalid(m) => SyncRun(Failed(m), store, [])
    case Valid =>
      match provider.connect
      case Threw(m) => SyncRun(Failed(ErrorText(m)), store, [Connect])
      case Returned(connected) =>
        if !connected then SyncRun(Failed(ConnectFailedMessage), store, [Connect])
        else
          match provider.listSaves
          case Threw(m) => SyncRun(Failed(ErrorText(m)), store, [Connect, ListSaves, Disconnect])
          case Returned(list) => Reconcile(provider, config, store, amb, list)
  }

  /** The part of the pass after a successful listing: read the slots (which
      migrates the store), file both sides by index and visit each index;
      `disconnect` ends it. */
  function Reconcile(provider: Provider, config: SyncConfig, store: StoreState, amb: Ambient, list: seq<CloudSaveSlot>)
    : SyncRun
  {
    Conclude(LoopTally(provider, config, store, amb, list))
  }

  /** The tally the loop of a pass leaves after a successful listing. */
  function LoopTally(provider: Provider, config: SyncConfig, store: StoreState, amb: Ambient, list: seq<CloudSaveSlot>)
    : Tally
  {
    var migrated := Migrate(store, amb.parse, amb.now);
    var rm := RemoteMapOf(list);
    var lm := LocalMapOf(LocalSlots, migrated, config, amb);
    RunSteps(provider, config, amb, lm, rm, Indices(lm, rm), Tally(0, 0, [], migrated, [Connect, ListSaves], None))
  }

  /** The end of the pass: the loop's error or its counts, then `disconnect`. */
  function Conclude(t: Tally): SyncRun {
    match t.failure
    case Some(m) => SyncRun(Failed(ErrorText(m)), t.store, t.calls + [Disconnect])
    case None => SyncRun(Finished(t.pushed, t.pulled, t.conflicts), t.store, t.calls + [Disconnect])
  }

  /** Once an error ended the pass, the remaining indices change nothing. */
  lemma {:induction false} RunStepsAfterFailure(provider: Provider, config: SyncConfig, amb: Ambient, lm: IndexMap<LocalEntry>,
                                                rm: IndexMap<CloudSaveSlot>, indices: seq<int>, n: int, t0: Tally)
    requires 0 <= n <= |indices|
    requires RunSteps(provider, config, amb, lm, rm, indices[..n], t0).failure.Some?
    ensures RunSteps(provider, config, amb, lm, rm, indices, t0) == RunSteps(provider, config, amb, lm, rm, indices[..n], t0)
  {
    if n < |indices| {
      var init := indices[..|indices| - 1];
      assert init[..n] == indices[..n];
      RunStepsAfterFailure(provider, config, amb, lm, rm, init, n, t0);
    } else {
      assert indices[..n] == indices;
    }
  }

  /** The `for (const index of indices)` loop, with its counters. */
  method VisitIndices(provider: Provider, config: SyncConfig, amb: Ambient, lm: IndexMap<LocalEntry>,
                      rm: IndexMap<CloudSaveSlot>, indices: seq<int>, store0: StoreState, calls0: seq<Call>)
    returns (t: Tally)
    ensures t == RunSteps(provider, config, amb, lm, rm, indices, Tally(0, 0, [], store0, calls0, None))
  {
    var t0 := Tally(0, 0, [], store0, calls0, None);
    t := t0;
    var i := 0;
    while i < |indices| && t.failure.None?
      invariant 0 <= i <= |indices|
      invariant t == RunSteps(provider, config, amb, lm, rm, indices[..i], t0)
    {
      assert indices[..i + 1][..i] == indices[..i];
      t := VisitIndex(provider, config, amb, lm, rm, indices[i], t);
      i := i + 1;
    }
    if i < |indices| {
      RunStepsAfterFailure(provider, config, amb, lm, rm, indices, i, t0);
    } else {
      assert indices[..i] == indices;
    }
  }

  /** The body of the loop for one index, statement by statement as the
      source runs it. `Step` is its specification: the lemmas about the pass
      reason about `Step`, which a function or lemma can call, and the
      `ensures` ties each run of this method to it. */
  method VisitIndex(provider: Provider, config: SyncConfig, amb: Ambient, lm: IndexMap<LocalEntry>,
                    rm: IndexMap<CloudSaveSlot>, index: int, before: Tally)
    returns (t: Tally)
    requires before.failure.None?
    ensures t == Step(provider, config, amb, lm, rm, index, before)
  {
    var localEntry, remoteEntry, meta := GetAt(lm, index), GetAt(rm, index), FindSlot(index);
    var action := Decide(localEntry, remoteEntry, meta, config.conflictResolution);
    t := before;
    if action == Push {
      t := UploadOne(provider, localEntry.value.cloud, before);
    } else if action == Pull {
      t := PullOne(provider, meta.value, remoteEntry.value, amb, before);
    } else if action == Conflict {
      t := before.(conflicts := before.conflicts + [SyncConflict(index, Some(localEntry.value.cloud), remoteEntry, Some(Ask))]);
    }
  }

  /** The push branch: `uploadSave`, counted when it returns true. The
      method follows the source's statements; `Upload` is the function the
      lemmas use, and the `ensures` says the two agree. */
  method UploadOne(provider: Provider, cloud: CloudSaveSlot, before: Tally) returns (t: Tally)
    requires before.failure.None?
    ensures t == Upload(provider, cloud, before)
  {
    t := before.(calls := before.calls + [UploadSave(cloud)]);
    match provider.uploadSave(cloud) {
      case Threw(m) => t := t.(failure := Some(m));
      case Returned(success) => if success { t := t.(pushed := t.pushed + 1); }
    }
  }

  /** The pull branch: fetch the full record when the listing has no
      payload, then write it into the slot. The method follows the source's
      statements; `PullInto` is the function the lemmas use, and the
      `ensures` says the two agree. */
  method PullOne(provider: Provider, meta: LocalSlotMeta, listed: CloudSaveSlot, amb: Ambient, before: Tally)
    returns (t: Tally)
    requires before.failure.None?
    ensures t == PullInto(provider, meta, listed, amb, before)
  {
    t := before;
    var fullRemote := Returned(Some(listed));
    if !Truthy(listed.data) {
      t := t.(calls := t.calls + [GetSave(listed.id)]);
      fullRemote := provider.getSave(listed.id);
    }
    match fullRemote {
      case Threw(m) => t := t.(failure := Some(m));
      case Returned(full) =>
        if full.Some? {
          var record := LocalRecord(meta, full.value, amb.now);
          if record.Some? && amb.writeOk(meta.key, record.value) {
            t := t.(pulled := t.pulled + 1, store := Put(t.store, meta.key, record.value));
          }
        }
    }
  }

  /** `syncWithProvider`. */
  method SyncWithProvider(provider: Provider, config: SyncConfig, store: StoreState, amb: Ambient)
    returns (result: SyncResult, after: StoreState, calls: seq<Call>)
    ensures SyncRun(result, after, calls) == Sync(provider, config, store, amb)
  {
    var validation := ValidateSyncConfig(config);
    if validation.Invalid? {
      return Failed(validation.message), store, [];
    }
    var connected := false;
    calls := [Connect];
    match provider.connect {
      case Threw(m) =>
        return Failed(ErrorText(m)), store, calls;
      case Returned(c) =>
        connected := c;
    }
    if !connected {
      return Failed(ConnectFailedMessage), store, calls;
    }
    calls := calls + [ListSaves];
    var remoteList: seq<CloudSaveSlot>;
    match provider.listSaves {
      case Threw(m) =>
        return Failed(ErrorText(m)), store, calls + [Disconnect];
      case Returned(list) =>
        remoteList := list;
    }
    assert Sync(provider, config, store, amb) == Reconcile(provider, config, store, amb, remoteList);
    result, after, calls := ReconcileListed(provider, config, store, amb, remoteList);
  }

  /** The pass after a successful listing. */
  method ReconcileListed(provider: Provider, config: SyncConfig, store: StoreState, amb: Ambient, remoteList: seq<CloudSaveSlot>)
    returns (result: SyncResult, after: StoreState, calls: seq<Call>)
    ensures SyncRun(result, after, calls) == Reconcile(provider, config, store, amb, remoteList)
  {
    var remoteMap := BuildRemoteMap(remoteList);
    after := Migrate(store, amb.parse, amb.now);
    var localMap := BuildLocalMap(after, config, amb);
    var t := VisitIndices(provider, config, amb, localMap, remoteMap, Indices(localMap, remoteMap), after, [Connect, ListSaves]);
    after := t.store;
    if t.failure.Some? {
      result := Failed(ErrorText(t.failure.value));
    } else {
      result := Finished(t.pushed, t.pulled, t.conflicts);
    }
    calls := t.calls + [Disconnect];
  }

  // ----- What one index does -------------------------------------------------

  /** Local only: the slot is uploaded, and `pushed` grows by one exactly
      when the upload returns true. */
  lemma StepLocalOnly(provider: Provider, config: SyncConfig, amb: Ambient, lm: IndexMap<LocalEntry>,
                      rm: IndexMap<CloudSaveSlot>, index: int, t: Tally)
    requires t.failure.None? && index in lm.values && index !in rm.values
    ensures Step(provider, config, amb, lm, rm, index, t) == Upload(provider, lm.values[index].cloud, t)
  {
  }

  /** Remote only, for a registry slot: the record is pulled into that slot
      (fetched first when the listing carries no payload). */
  lemma StepRemoteOnly(provider: Provider, config: SyncConfig, amb: Ambient, lm: IndexMap<LocalEntry>,
                       rm: IndexMap<CloudSaveSlot>, index: int, t: Tally)
    requires t.failure.None? && index !in lm.values && index in rm.values && 1 <= index <= 6
    ensures Step(provider, config, amb, lm, rm, index, t) == PullInto(provider, LocalSlots[index - 1], rm.values[index], amb, t)
  {
  }

  /** A remote index outside the registry causes no call and no change. */
  lemma StepOutsideRegistry(provider: Provider, config: SyncConfig, amb: Ambient, lm: IndexMap<LocalEntry>,
                            rm: IndexMap<CloudSaveSlot>, index: int, t: Tally)
    requires t.failure.None? && index !in lm.values && !(1 <= index <= 6)
    ensures Step(provider, config, amb, lm, rm, index, t) == t
  {
  }

  /** Both sides present with the same version (equal non-empty checksums,
      or equal timestamps): no call and no count. */
  lemma StepSameVersion(provider: Provider, config: SyncConfig, amb: Ambient, lm: IndexMap<LocalEntry>,
                        rm: IndexMap<CloudSaveSlot>, index: int, t: Tally)
    requires t.failure.None? && index in lm.values && index in rm.values && 1 <= index <= 6
    requires SameVersion(lm.values[index].cloud, rm.values[index])
    ensures Step(provider, config, amb, lm, rm, index, t) == t
  {
  }

  /** Both sides present with different versions: `ask` records exactly one
      conflict for the index and makes no call; `local` uploads; `remote`
      pulls. */
  lemma StepDiffering(provider: Provider, config: SyncConfig, amb: Ambient, lm: IndexMap<LocalEntry>,
                      rm: IndexMap<CloudSaveSlot>, index: int, t: Tally)
    requires t.failure.None? && index in lm.values && index in rm.values && 1 <= index <= 6
    requires !SameVersion(lm.values[index].cloud, rm.values[index])
    ensures var local, listed := lm.values[index].cloud, rm.values[index];
      var verdict := ResolveConflict(local, listed, config.conflictResolution);
      var r := Step(provider, config, amb, lm, rm, index, t);
      && (verdict == Ask ==> r == t.(conflicts := t.conflicts + [SyncConflict(index, Some(local), Some(listed), Some(Ask))]))
      && (verdict == Local ==> r == Upload(provider, local, t))
      && (verdict == Remote ==> r == PullInto(provider, LocalSlots[index - 1], listed, amb, t))
  {
    var local, listed := lm.values[index], rm.values[index];
    var verdict := ResolveConflict(local.cloud, listed, config.conflictResolution);
    var meta := FindSlot(index);
    assert meta == Some(LocalSlots[index - 1]);
    var d := Decide(Some(local), Some(listed), meta, config.conflictResolution);
    assert d == (match verdict case Ask => Conflict case Local => Push case Remote => Pull case Newest => Skip);
  }

  // ----- What the loop does --------------------------------------------------

  /** A call the loop makes: an upload or a fetch. */
  predicate Transfer(c: Call) {
    c.UploadSave? || c.GetSave?
  }

  /** "Work" the pass reports: pushes, pulls and conflicts. */
  function Work(t: Tally): nat {
    t.pushed + t.pulled + |t.conflicts|
  }

  /** The registry indices among `indices`. */
  function RegistryIndices(indices: seq<int>): set<int> {
    set k | k in indices && 1 <= k <= 6
  }

  /** What one index can do: append an upload or a fetch to the calls,
      append one `ask` conflict for a registry slot, and at most one unit of
      work, only for a registry index. */
  lemma StepFacts(provider: Provider, config: SyncConfig, amb: Ambient, lm: IndexMap<LocalEntry>,
                  rm: IndexMap<CloudSaveSlot>, index: int, t: Tally)
    requires t.failure.None?
    requires forall k :: k in lm.values ==> 1 <= k <= 6
    ensures var r := Step(provider, config, amb, lm, rm, index, t);
      && |t.calls| <= |r.calls| <= |t.calls| + 1 && r.calls[..|t.calls|] == t.calls
      && (|r.calls| > |t.calls| ==> Transfer(r.calls[|t.calls|]))
      && |t.conflicts| <= |r.conflicts| <= |t.conflicts| + 1 && r.conflicts[..|t.conflicts|] == t.conflicts
      && (|r.conflicts| > |t.conflicts| ==> ConflictOnSlot(r.conflicts[|t.conflicts|]))
      && Work(r) <= Work(t) + (if 1 <= index <= 6 then 1 else 0)
  {
    var local, listed, meta := GetAt(lm, index), GetAt(rm, index), FindSlot(index);
    var r := Step(provider, config, amb, lm, rm, index, t);
    match Decide(local, listed, meta, config.conflictResolution)
    case Skip =>
    case Push =>
      assert r == Upload(provider, local.value.cloud, t);
      assert r.calls[..|t.calls|] == t.calls;
    case Pull =>
      assert r == PullInto(provider, meta.value, listed.value, amb, t);
      assert r.calls[..|t.calls|] == t.calls;
    case Conflict =>
      assert r.conflicts[..|t.conflicts|] == t.conflicts;
  }

  /** A conflict as the loop records it. */
  predicate ConflictOnSlot(c: SyncConflict) {
    c.resolution == Some(Ask) && 1 <= c.slotIndex <= 6 && c.local.Some? && c.remote.Some?
  }

  /** The loop only adds uploads and fetches to the calls, and only `ask`
      conflicts on registry slots. */
  lemma {:induction false} RunStepsLog(provider: Provider, config: SyncConfig, amb: Ambient, lm: IndexMap<LocalEntry>,
                                       rm: IndexMap<CloudSaveSlot>, indices: seq<int>, t0: Tally)
    requires t0.failure.None?
    requires forall k :: k in lm.values ==> 1 <= k <= 6
    ensures var t := RunSteps(provider, config, amb, lm, rm, indices, t0);
      && |t0.calls| <= |t.calls| && t.calls[..|t0.calls|] == t0.calls
      && (forall i :: |t0.calls| <= i < |t.calls| ==> Transfer(t.calls[i]))
      && |t0.conflicts| <= |t.conflicts| && t.conflicts[..|t0.conflicts|] == t0.conflicts
      && (forall i :: |t0.conflicts| <= i < |t.conflicts| ==> ConflictOnSlot(t.conflicts[i]))
  {
    if indices != [] {
      var init := indices[..|indices| - 1];
      RunStepsLog(provider, config, amb, lm, rm, init, t0);
      var t := RunSteps(provider, config, amb, lm, rm, init, t0);
      if t.failure.None? {
        StepFacts(provider, config, amb, lm, rm, indices[|indices| - 1], t);
        var r := Step(provider, config, amb, lm, rm, indices[|indices| - 1], t);
        CallsGrow(t0.calls, t.calls, r.calls);
        ConflictsGrow(t0.conflicts, t.conflicts, r.conflicts);
      }
    }
  }

  /** Calls that only grew by transfers, followed by at most one more
      transfer, only grew by transfers. */
  lemma CallsGrow(c0: seq<Call>, c1: seq<Call>, c2: seq<Call>)
    requires |c0| <= |c1| && c1[..|c0|] == c0 && forall i :: |c0| <= i < |c1| ==> Transfer(c1[i])
    requires |c1| <= |c2| <= |c1| + 1 && c2[..|c1|] == c1 && (|c2| > |c1| ==> Transfer(c2[|c1|]))
    ensures |c0| <= |c2| && c2[..|c0|] == c0 && forall i :: |c0| <= i < |c2| ==> Transfer(c2[i])
  {
    assert c2[..|c0|] == c2[..|c1|][..|c0|];
    forall i | |c0| <= i < |c2| ensures Transfer(c2[i]) {
      if i < |c1| {
        assert c2[i] == c2[..|c1|][i];
      }
    }
  }

  /** The same for the conflicts, which only grow by `ask` conflicts. */
  lemma ConflictsGrow(c0: seq<SyncConflict>, c1: seq<SyncConflict>, c2: seq<SyncConflict>)
    requires |c0| <= |c1| && c1[..|c0|] == c0 && forall i :: |c0| <= i < |c1| ==> ConflictOnSlot(c1[i])
    requires |c1| <= |c2| <= |c1| + 1 && c2[..|c1|] == c1 && (|c2| > |c1| ==> ConflictOnSlot(c2[|c1|]))
    ensures |c0| <= |c2| && c2[..|c0|] == c0 && forall i :: |c0| <= i < |c2| ==> ConflictOnSlot(c2[i])
  {
    assert c2[..|c0|] == c2[..|c1|][..|c0|];
    forall i | |c0| <= i < |c2| ensures ConflictOnSlot(c2[i]) {
      if i < |c1| {
        assert c2[i] == c2[..|c1|][i];
      }
    }
  }

  /** Over distinct indices the loop does at most one unit of work per
      registry index. */
  lemma {:induction false} RunStepsWork(provider: Provider, config: SyncConfig, amb: Ambient, lm: IndexMap<LocalEntry>,
                                        rm: IndexMap<CloudSaveSlot>, indices: seq<int>, t0: Tally)
    requires t0.failure.None? && NoDuplicates(indices)
    requires forall k :: k in lm.values ==> 1 <= k <= 6
    ensures Work(RunSteps(provider, config, amb, lm, rm, indices, t0)) <= Work(t0) + |RegistryIndices(indices)|
  {
    if indices != [] {
      var init, index := indices[..|indices| - 1], indices[|indices| - 1];
      assert NoDuplicates(init) by {
        forall i, j | 0 <= i < j < |init| ensures init[i] != init[j] {
          assert init[i] == indices[i] && init[j] == indices[j];
        }
      }
      RunStepsWork(provider, config, amb, lm, rm, init, t0);
      var t := RunSteps(provider, config, amb, lm, rm, init, t0);
      assert index !in init by {
        forall i | 0 <= i < |init| ensures init[i] != index {
          assert init[i] == indices[i];
        }
      }
      RegistryIndicesSnoc(init, index);
      assert indices == init + [index];
      if t.failure.None? {
        StepFacts(provider, config, amb, lm, rm, index, t);
      }
    }
  }

  lemma RegistryIndicesSnoc(init: seq<int>, index: int)
    ensures RegistryIndices(init + [index]) == RegistryIndices(init) + (if 1 <= index <= 6 then {index} else {})
  {
  }

  /** Every slot index of the local map is a registry index. */
  lemma LocalMapInRegistry(store: StoreState, config: SyncConfig, amb: Ambient)
    ensures forall k :: k in LocalMapOf(LocalSlots, store, config, amb).values ==> 1 <= k <= 6
  {
    RegistryShape();
    forall k | k in LocalMapOf(LocalSlots, store, config, amb).values ensures 1 <= k <= 6 {
      LocalMapBySlot(LocalSlots, store, config, amb, k);
    }
  }

  /** There are at most six registry indices. */
  lemma AtMostSixRegistryIndices(indices: seq<int>)
    ensures |RegistryIndices(indices)| <= 6
  {
    var all := {1, 2, 3, 4, 5, 6};
    assert RegistryIndices(indices) <= all;
    SubsetSize(RegistryIndices(indices), all);
  }

  lemma SubsetSize<T>(a: set<T>, b: set<T>)
    requires a <= b
    ensures |a| <= |b|
  {
    assert b == a + (b - a);
  }

  // ----- What the whole pass does --------------------------------------------

  /** An invalid configuration is refused with its validation message before
      any call, and the store is untouched. */
  lemma InvalidConfigMakesNoCall(provider: Provider, config: SyncConfig, store: StoreState, amb: Ambient)
    requires ValidateSyncConfig(config).Invalid?
    ensures Sync(provider, config, store, amb) == SyncRun(Failed(ValidateSyncConfig(config).message), store, [])
  {
  }

  /** A `connect` that returns false or throws ends the pass with an error,
      nothing counted, the store untouched and no `disconnect`. */
  lemma ConnectRefused(provider: Provider, config: SyncConfig, store: StoreState, amb: Ambient)
    requires ValidateSyncConfig(config) == Valid && provider.connect != Returned(true)
    ensures var run := Sync(provider, config, store, amb);
      && run.calls == [Connect] && run.store == store
      && run.result.status == Error && run.result.pushed == 0 && run.result.pulled == 0
      && (provider.connect == Returned(false) ==> run.result.message == Some(ConnectFailedMessage))
  {
    var run := Sync(provider, config, store, amb);
    match provider.connect
    case Threw(m) =>
      assert run == SyncRun(Failed(ErrorText(m)), store, [Connect]);
    case Returned(connected) =>
      assert !connected;
      assert run == SyncRun(Failed(ConnectFailedMessage), store, [Connect]);
  }

  /** After a successful listing the calls are `connect`, `listSaves`, the
      loop's uploads and fetches, and one final `disconnect`; the result
      counts at most one thing per slot, and every conflict is an `ask` on a
      registry slot with both records attached. */
  lemma ReconcileFacts(provider: Provider, config: SyncConfig, store: StoreState, amb: Ambient, list: seq<CloudSaveSlot>)
    ensures var run := Reconcile(provider, config, store, amb, list);
      && |run.calls| >= 3 && run.calls[..2] == [Connect, ListSaves] && run.calls[|run.calls| - 1] == Disconnect
      && (forall i :: 2 <= i < |run.calls| - 1 ==> Transfer(run.calls[i]))
      && Disconnect !in run.calls[..|run.calls| - 1]
      && run.result.pushed + run.result.pulled + |run.result.conflicts| <= 6
      && (forall c :: c in run.result.conflicts ==> ConflictOnSlot(c))
  {
    var migrated := Migrate(store, amb.parse, amb.now);
    var rm, lm := RemoteMapOf(list), LocalMapOf(LocalSlots, migrated, config, amb);
    var t0 := Tally(0, 0, [], migrated, [Connect, ListSaves], None);
    LocalMapInRegistry(migrated, config, amb);
    LoopFacts(provider, config, amb, lm, rm, t0);
    ConcludeFacts(RunSteps(provider, config, amb, lm, rm, Indices(lm, rm), t0));
  }

  /** What the loop of a pass leaves, from the tally after the listing. */
  lemma LoopFacts(provider: Provider, config: SyncConfig, amb: Ambient, lm: IndexMap<LocalEntry>,
                  rm: IndexMap<CloudSaveSlot>, t0: Tally)
    requires t0 == Tally(0, 0, [], t0.store, [Connect, ListSaves], None)
    requires forall k :: k in lm.values ==> 1 <= k <= 6
    ensures var t := RunSteps(provider, config, amb, lm, rm, Indices(lm, rm), t0);
      && |t.calls| >= 2 && t.calls[..2] == [Connect, ListSaves]
      && (forall i :: 2 <= i < |t.calls| ==> Transfer(t.calls[i]))
      && Work(t) <= 6
      && (forall i :: 0 <= i < |t.conflicts| ==> ConflictOnSlot(t.conflicts[i]))
  {
    RunStepsLog(provider, config, amb, lm, rm, Indices(lm, rm), t0);
    RunStepsWork(provider, config, amb, lm, rm, Indices(lm, rm), t0);
    AtMostSixRegistryIndices(Indices(lm, rm));
  }

  /** The end of a pass whose loop kept to the rules keeps to them too. */
  lemma ConcludeFacts(t: Tally)
    requires |t.calls| >= 2 && t.calls[..2] == [Connect, ListSaves]
    requires forall i :: 2 <= i < |t.calls| ==> Transfer(t.calls[i])
    requires Work(t) <= 6
    requires forall i :: 0 <= i < |t.conflicts| ==> ConflictOnSlot(t.conflicts[i])
    ensures var run := Conclude(t);
      && |run.calls| >= 3 && run.calls[..2] == [Connect, ListSaves] && run.calls[|run.calls| - 1] == Disconnect
      && (forall i :: 2 <= i < |run.calls| - 1 ==> Transfer(run.calls[i]))
      && Disconnect !in run.calls[..|run.calls| - 1]
      && run.result.pushed + run.result.pulled + |run.result.conflicts| <= 6
      && (forall c :: c in run.result.conflicts ==> ConflictOnSlot(c))
  {
    var calls := t.calls + [Disconnect];
    assert calls[..2] == t.calls[..2];
    assert calls[..|calls| - 1] == t.calls;
    forall i | 0 <= i < |t.calls| ensures t.calls[i] != Disconnect {
      if i < 2 {
        assert t.calls[i] == t.calls[..2][i];
      }
    }
    forall c | c in t.conflicts ensures ConflictOnSlot(c) {
      var i :| 0 <= i < |t.conflicts| && t.conflicts[i] == c;
    }
  }

  /** `disconnect` is called exactly when `connect` returned true, and then it
      is the last call and happens once. */
  lemma DisconnectExactlyWhenConnected(provider: Provider, config: SyncConfig, store: StoreState, amb: Ambient)
    ensures var run := Sync(provider, config, store, amb);
      && (Disconnect in run.calls <==> ValidateSyncConfig(config) == Valid && provider.connect == Returned(true))
      && (Disconnect in run.calls ==> run.calls[|run.calls| - 1] == Disconnect && Disconnect !in run.calls[..|run.calls| - 1])
  {
    var run := Sync(provider, config, store, amb);
    if ValidateSyncConfig(config).Invalid? {
      assert run.calls == [];
    } else if provider.connect != Returned(true) {
      assert run.calls == [Connect];
    } else if provider.listSaves.Threw? {
      assert run.calls == [Connect, ListSaves, Disconnect];
    } else {
      assert run == Reconcile(provider, config, store, amb, provider.listSaves.value);
      ReconcileDisconnects(provider, config, store, amb, provider.listSaves.value);
    }
  }

  /** After a listing, `disconnect` is the last call and happens once. */
  lemma ReconcileDisconnects(provider: Provider, config: SyncConfig, store: StoreState, amb: Ambient, list: seq<CloudSaveSlot>)
    ensures var calls := Reconcile(provider, config, store, amb, list).calls;
      && Disconnect in calls && calls[|calls| - 1] == Disconnect && Disconnect !in calls[..|calls| - 1]
  {
    ReconcileFacts(provider, config, store, amb, list);
  }

  /** What every result says: an error counts nothing and carries a message;
      otherwise the status is `no-op` exactly when nothing was pushed,
      pulled or deleted and there is no conflict, and the message is set
      exactly when there are conflicts. Nothing is ever deleted. */
  predicate Consistent(r: SyncResult) {
    && r.deleted == 0
    && (r.status == Error ==> r.pushed == 0 && r.pulled == 0 && r.conflicts == [] && r.message.Some?)
    && (r.status != Error ==>
          && (r.status == NoOp <==> r.pushed + r.pulled + r.deleted == 0 && |r.conflicts| == 0)
          && (r.message.Some? <==> |r.conflicts| > 0))
  }

  /** Every result of a pass is consistent. */
  lemma ResultSummary(provider: Provider, config: SyncConfig, store: StoreState, amb: Ambient)
    ensures Consistent(Sync(provider, config, store, amb).result)
  {
    var run := Sync(provider, config, store, amb);
    if ValidateSyncConfig(config) == Valid && provider.connect == Returned(true) && provider.listSaves.Returned? {
      var list := provider.listSaves.value;
      var migrated := Migrate(store, amb.parse, amb.now);
      var rm, lm := RemoteMapOf(list), LocalMapOf(LocalSlots, migrated, config, amb);
      var t := RunSteps(provider, config, amb, lm, rm, Indices(lm, rm), Tally(0, 0, [], migrated, [Connect, ListSaves], None));
      assert run == Conclude(t);
      ConcludeConsistent(t);
    } else {
      assert run.result.status == Error;
    }
  }

  lemma ConcludeConsistent(t: Tally)
    ensures Consistent(Conclude(t).result)
  {
  }

  // ----- Errors ----------------------------------------------------------------

  /** The message a call threw, or none when it returned. `disconnect` is
      not modelled as throwing. */
  function ThrowOf(provider: Provider, c: Call): Option<string> {
    match c
    case Connect => Thrown(provider.connect)
    case ListSaves => Thrown(provider.listSaves)
    case GetSave(id) => Thrown(provider.getSave(id))
    case UploadSave(save) => Thrown(provider.uploadSave(save))
    case Disconnect => None
  }

  function Thrown<T>(o: Outcome<T>): (r: Option<string>)
    ensures r.Some? <==> o.Threw?
    ensures r.Some? ==> r.value == o.message
  {
    if o.Threw? then Some(o.message) else None
  }

  /** The end of a pass reports the loop's error as `err?.message ||
      '同步失败'` with nothing counted, and otherwise the loop's counts;
      either way `disconnect` follows the loop's calls. */
  lemma ConcludeReports(t: Tally)
    ensures Conclude(t).calls == t.calls + [Disconnect] && Conclude(t).store == t.store
    ensures t.failure.Some? ==> Conclude(t).result == Failed(ErrorText(t.failure.value))
    ensures t.failure.None? ==> Conclude(t).result == Finished(t.pushed, t.pulled, t.conflicts)
    ensures Conclude(t).result.status == Error <==> t.failure.Some?
  {
  }

  /** One index's work fails exactly when the call it appends threw, and
      the failure carries that call's message. */
  lemma StepThrows(provider: Provider, config: SyncConfig, amb: Ambient, lm: IndexMap<LocalEntry>,
                   rm: IndexMap<CloudSaveSlot>, index: int, t: Tally)
    requires t.failure.None?
    ensures var r := Step(provider, config, amb, lm, rm, index, t);
      && |t.calls| <= |r.calls| <= |t.calls| + 1 && r.calls[..|t.calls|] == t.calls
      && (r.failure.Some? <==> |r.calls| > |t.calls| && ThrowOf(provider, r.calls[|t.calls|]).Some?)
      && (r.failure.Some? ==> r.failure == ThrowOf(provider, r.calls[|t.calls|]))
  {
    var local, listed, meta := GetAt(lm, index), GetAt(rm, index), FindSlot(index);
    var r := Step(provider, config, amb, lm, rm, index, t);
    match Decide(local, listed, meta, config.conflictResolution)
    case Skip =>
    case Push =>
      assert r == Upload(provider, local.value.cloud, t);
      assert r.calls[..|t.calls|] == t.calls;
      assert r.calls[|t.calls|] == UploadSave(local.value.cloud);
    case Pull =>
      assert r == PullInto(provider, meta.value, listed.value, amb, t);
      assert r.calls[..|t.calls|] == t.calls;
      if !Truthy(listed.value.data) {
        assert r.calls[|t.calls|] == GetSave(listed.value.id);
      }
    case Conflict =>
  }

  /** The loop fails exactly when one of its calls threw: then that call is
      its last and the failure carries its message, and no earlier call of
      the loop threw. */
  lemma {:induction false} RunStepsThrows(provider: Provider, config: SyncConfig, amb: Ambient, lm: IndexMap<LocalEntry>,
                                          rm: IndexMap<CloudSaveSlot>, indices: seq<int>, t0: Tally)
    requires t0.failure.None?
    ensures var t := RunSteps(provider, config, amb, lm, rm, indices, t0);
      && |t0.calls| <= |t.calls| && t.calls[..|t0.calls|] == t0.calls
      && (t.failure.None? ==> forall i :: |t0.calls| <= i < |t.calls| ==> ThrowOf(provider, t.calls[i]).None?)
      && (t.failure.Some? ==>
            && |t0.calls| < |t.calls| && t.failure == ThrowOf(provider, t.calls[|t.calls| - 1])
            && forall i :: |t0.calls| <= i < |t.calls| - 1 ==> ThrowOf(provider, t.calls[i]).None?)
  {
    if indices != [] {
      var init := indices[..|indices| - 1];
      RunStepsThrows(provider, config, amb, lm, rm, init, t0);
      var t := RunSteps(provider, config, amb, lm, rm, init, t0);
      if t.failure.None? {
        StepThrows(provider, config, amb, lm, rm, indices[|indices| - 1], t);
        var r := Step(provider, config, amb, lm, rm, indices[|indices| - 1], t);
        assert r.calls[..|t0.calls|] == r.calls[..|t.calls|][..|t0.calls|];
        forall i | |t0.calls| <= i < |t.calls| ensures r.calls[i] == t.calls[i] {
          assert r.calls[i] == r.calls[..|t.calls|][i];
        }
      }
    }
  }

  /** A `listSaves` that throws after a successful `connect` ends the pass
      with its message, nothing counted, the store untouched and a single
      `disconnect`. */
  lemma ListingThrowReported(provider: Provider, config: SyncConfig, store: StoreState, amb: Ambient)
    requires ValidateSyncConfig(config) == Valid && provider.connect == Returned(true) && provider.listSaves.Threw?
    ensures Sync(provider, config, store, amb)
         == SyncRun(Failed(ErrorText(provider.listSaves.message)), store, [Connect, ListSaves, Disconnect])
  {
  }

  /** An upload or fetch that throws inside the loop ends the pass with its
      message and nothing counted, and `disconnect` follows it. */
  lemma LoopThrowReported(provider: Provider, config: SyncConfig, store: StoreState, amb: Ambient)
    requires ValidateSyncConfig(config) == Valid && provider.connect == Returned(true) && provider.listSaves.Returned?
    ensures var t := LoopTally(provider, config, store, amb, provider.listSaves.value);
      t.failure.Some? ==>
        Sync(provider, config, store, amb) == SyncRun(Failed(ErrorText(t.failure.value)), t.store, t.calls + [Disconnect])
  {
    var t := LoopTally(provider, config, store, amb, provider.listSaves.value);
    assert Sync(provider, config, store, amb) == Conclude(t);
  }

  /** A pass ends in an error exactly when the configuration is invalid,
      `connect` returns false or some call throws; the error then reports
      the message of the call that threw, and nothing is counted. */
  lemma ErrorExactlyWhenACallThrew(provider: Provider, config: SyncConfig, store: StoreState, amb: Ambient)
    ensures var run := Sync(provider, config, store, amb);
      && (run.result.status == Error <==>
            || ValidateSyncConfig(config).Invalid? || provider.connect == Returned(false)
            || exists i :: 0 <= i < |run.calls| && ThrowOf(provider, run.calls[i]).Some?)
      && (forall i :: 0 <= i < |run.calls| && ThrowOf(provider, run.calls[i]).Some? ==>
            run.result == Failed(ErrorText(ThrowOf(provider, run.calls[i]).value)))
  {
    var run := Sync(provider, config, store, amb);
    if ValidateSyncConfig(config).Invalid? {
      assert run.calls == [];
    } else if provider.connect.Threw? {
      assert run.calls == [Connect];
      assert ThrowOf(provider, run.calls[0]).Some?;
    } else if provider.connect == Returned(false) {
      assert run.calls == [Connect];
    } else if provider.listSaves.Threw? {
      assert run.calls == [Connect, ListSaves, Disconnect];
      assert ThrowOf(provider, run.calls[1]).Some?;
    } else {
      assert run == Reconcile(provider, config, store, amb, provider.listSaves.value);
      ReconcileThrows(provider, config, store, amb, provider.listSaves.value);
    }
  }

  /** After a successful listing, the pass ends in an error exactly when an
      upload or fetch threw, and then reports that call's message. */
  lemma ReconcileThrows(provider: Provider, config: SyncConfig, store: StoreState, amb: Ambient, list: seq<CloudSaveSlot>)
    requires provider.connect.Returned? && provider.listSaves.Returned?
    ensures var run := Reconcile(provider, config, store, amb, list);
      && (run.result.status == Error <==> exists i :: 0 <= i < |run.calls| && ThrowOf(provider, run.calls[i]).Some?)
      && (forall i :: 0 <= i < |run.calls| && ThrowOf(provider, run.calls[i]).Some? ==>
            run.result == Failed(ErrorText(ThrowOf(provider, run.calls[i]).value)))
  {
    var migrated := Migrate(store, amb.parse, amb.now);
    var rm, lm := RemoteMapOf(list), LocalMapOf(LocalSlots, migrated, config, amb);
    var t0 := Tally(0, 0, [], migrated, [Connect, ListSaves], None);
    RunStepsThrows(provider, config, amb, lm, rm, Indices(lm, rm), t0);
    ConcludeThrows(provider, RunSteps(provider, config, amb, lm, rm, Indices(lm, rm), t0));
  }

  /** The end of a pass whose loop failed exactly on a throwing call
      reports that call's message, and nothing else in the log threw. */
  lemma ConcludeThrows(provider: Provider, t: Tally)
    requires provider.connect.Returned? && provider.listSaves.Returned?
    requires |t.calls| >= 2 && t.calls[..2] == [Connect, ListSaves]
    requires t.failure.None? ==> forall i :: 2 <= i < |t.calls| ==> ThrowOf(provider, t.calls[i]).None?
    requires t.failure.Some? ==>
      && 2 < |t.calls| && t.failure == ThrowOf(provider, t.calls[|t.calls| - 1])
      && forall i :: 2 <= i < |t.calls| - 1 ==> ThrowOf(provider, t.calls[i]).None?
    ensures var run := Conclude(t);
      && (run.result.status == Error <==> exists i :: 0 <= i < |run.calls| && ThrowOf(provider, run.calls[i]).Some?)
      && (forall i :: 0 <= i < |run.calls| && ThrowOf(provider, run.calls[i]).Some? ==>
            run.result == Failed(ErrorText(ThrowOf(provider, run.calls[i]).value)))
  {
    var run := Conclude(t);
    assert run.calls == t.calls + [Disconnect];
    assert t.calls[0] == t.calls[..2][0] && t.calls[1] == t.calls[..2][1];
    forall i | 0 <= i < |run.calls| && ThrowOf(provider, run.calls[i]).Some?
      ensures t.failure.Some? && i == |t.calls| - 1
    {
      assert run.calls[i] == t.calls[i];
    }
    if t.failure.Some? {
      assert run.calls[|t.calls| - 1] == t.calls[|t.calls| - 1];
    }
  }

  /** A pass does at most one thing per slot: pushes, pulls and conflicts
      together are at most six, and every conflict is an `ask` on a
      registry slot with both records attached. */
  lemma AtMostOneChangePerSlot(provider: Provider, config: SyncConfig, store: StoreState, amb: Ambient)
    ensures var r := Sync(provider, config, store, amb).result;
      && r.pushed + r.pulled + |r.conflicts| <= 6
      && forall c :: c in r.conflicts ==> ConflictOnSlot(c)
  {
    var run := Sync(provider, config, store, amb);
    if ValidateSyncConfig(config) == Valid && provider.connect == Returned(true) && provider.listSaves.Returned? {
      assert run == Reconcile(provider, config, store, amb, provider.listSaves.value);
      ReconcileFacts(provider, config, store, amb, provider.listSaves.value);
    } else {
      assert run.result.conflicts == [] && run.result.pushed == 0 && run.result.pulled == 0;
    }
  }

  // ----- The service -----------------------------------------------------------

  /** A sync service: the provider built for the normalised configuration,
      which `sync` then uses. */
  datatype Service =
    | ServerService(server: ServerSync.Provider, config: SyncConfig)
    | WebDavService(webdav: WebDavSync.Provider, config: SyncConfig)

  /** `createSyncService`: nothing for a disabled configuration, for no
      provider or an unknown one; otherwise the provider the configuration
      names. Building the WebDAV credentials may throw. */
  function CreateSyncService(env: SyncEnv.EnvConfig, stored: Option<PartialSyncConfig>): (r: Outcome<Option<Service>>)
    ensures var c := NormalizeSyncConfig(env, stored);
      && (!c.enabled || c.provider == NoProvider || c.provider.UnknownProvider? ==> r == Returned(None))
      && (c.enabled && c.provider == Server ==> r == Returned(Some(ServerService(ServerSync.CreateServerProvider(c), c))))
      && (c.enabled && c.provider == WebDav ==>
            && (r.Threw? <==> WebDavSync.CreateWebDavProvider(c).Threw?)
            && (r.Returned? ==> r.value == Some(WebDavService(WebDavSync.CreateWebDavProvider(c).value, c))))
  {
    var c := NormalizeSyncConfig(env, stored);
    if !c.enabled || c.provider == NoProvider then Returned(None)
    else if c.provider == WebDav then
      match WebDavSync.CreateWebDavProvider(c)
      case Threw(m) => Threw(m)
      case Returned(p) => Returned(Some(WebDavService(p, c)))
    else if c.provider == Server then Returned(Some(ServerService(ServerSync.CreateServerProvider(c), c)))
    else Returned(None)
  }

  /** A configuration that validates always yields a service for the server
      provider, and for WebDAV whenever its credentials can be encoded. */
  lemma ValidConfigHasService(env: SyncEnv.EnvConfig, stored: Option<PartialSyncConfig>)
    requires ValidateSyncConfig(NormalizeSyncConfig(env, stored)) == Valid
    ensures var c := NormalizeSyncConfig(env, stored);
      && (c.provider == Server ==> CreateSyncService(env, stored).Returned? && CreateSyncService(env, stored).value.Some?)
      && (c.provider == WebDav && WebDavSync.CreateWebDavProvider(c).Returned? ==>
            CreateSyncService(env, stored).Returned? && CreateSyncService(env, stored).value.Some?)
  {
  }
}
