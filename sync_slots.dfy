/** The orchestrator's fixed registry of six local slots, and how a slot's
    save is read from the local store, written back, and turned into its
    transport form. */
module SyncSlots {
  import opened Wrappers
  import opened Strings
  import opened Json
  import opened SyncTypes
  import opened SaveStore

  /** One registry entry: the slot's index on the remote side, its type, the
      store key and the id the local save carries. */
  datatype LocalSlotMeta = LocalSlotMeta(slotIndex: int, saveType: SaveType, key: string, localId: SlotId)

  /** `LOCAL_SLOTS`: three manual slots, then three auto-save slots. */
  const LocalSlots: seq<LocalSlotMeta> := [
    LocalSlotMeta(1, Manual, "danmachi_save_manual_1", NumId(1)),
    LocalSlotMeta(2, Manual, "danmachi_save_manual_2", NumId(2)),
    LocalSlotMeta(3, Manual, "danmachi_save_manual_3", NumId(3)),
    LocalSlotMeta(4, Auto, "danmachi_save_auto_1", StrId("auto_1")),
    LocalSlotMeta(5, Auto, "danmachi_save_auto_2", StrId("auto_2")),
    LocalSlotMeta(6, Auto, "danmachi_save_auto_3", StrId("auto_3"))
  ]

  /** The registry holds the indices 1 to 6 in order, the first three
      manual and the last three automatic. */
  lemma RegistryShape()
    ensures |LocalSlots| == 6
    ensures forall i :: 0 <= i < 6 ==> LocalSlots[i].slotIndex == i + 1
    ensures forall i :: 0 <= i < 6 ==> (LocalSlots[i].saveType == Manual <==> i < 3)
    ensures forall i :: 0 <= i < 6 ==> (LocalSlots[i].saveType == Auto <==> 3 <= i)
  {
  }

  /** Each registry key is the key the save store builds from the slot's
      local id, so the orchestrator and the store agree on where a slot
      lives. */
  lemma RegistryKeysAreStoreKeys()
    ensures forall i :: 0 <= i < |LocalSlots| ==> LocalSlots[i].key == BuildSaveKey(LocalSlots[i].localId)
  {
    assert IntToString(1) == "1" && IntToString(2) == "2" && IntToString(3) == "3";
    assert StartsWith("auto_1", "auto") && StartsWith("auto_2", "auto") && StartsWith("auto_3", "auto");
  }

  /** The first entry of `slots` with the given index. */
  function FindIn(slots: seq<LocalSlotMeta>, index: int): (r: Option<LocalSlotMeta>)
    ensures r.Some? <==> exists i :: 0 <= i < |slots| && slots[i].slotIndex == index
    ensures r.Some? ==> r.value in slots && r.value.slotIndex == index
  {
    if slots == [] then None
    else if slots[0].slotIndex == index then Some(slots[0])
    else
      var r := FindIn(slots[1..], index);
      assert forall i :: 1 <= i < |slots| ==> slots[i] == slots[1..][i - 1];
      assert r.Some? ==> slots[1..][0] == slots[1] && 1 < |slots|;
      r
  }

  /** `LOCAL_SLOTS.find(slot => slot.slotIndex === index)`. */
  function FindSlot(index: int): (r: Option<LocalSlotMeta>)
    ensures r.Some? <==> 1 <= index <= 6
    ensures r.Some? ==> r.value == LocalSlots[index - 1]
  {
    RegistryShape();
    var r := FindIn(LocalSlots, index);
    assert r.Some? ==> exists i :: 0 <= i < 6 && r.value == LocalSlots[i];
    r
  }

  /** `parseSlotIndex`: the value of the first run of decimal digits in the
      id; nothing for an empty id or one without digits. */
  function ParseSlotIndex(id: string): (r: Option<int>)
    ensures r.None? <==> forall i :: 0 <= i < |id| ==> !IsDigit(id[i])
    ensures r.Some? ==> r.value >= 0
    ensures r.Some? ==> exists start, d :: FirstRunAt(id, start, d) && r.value == DigitsValue(d)
  {
    if id == "" then None
    else
      match FirstDigitRun(id)
      case None => None
      case Some(d) => Some(DigitsValue(d))
  }

  /** `getUserId`: the configured id for the provider, with a fixed name when
      it is empty. */
  function GetUserId(config: SyncConfig): (r: string)
    ensures r != ""
    ensures config.provider == Server ==> r == (if config.serverConfig.userId != "" then config.serverConfig.userId else "user")
    ensures config.provider == WebDav ==> r == (if config.webdavConfig.username != "" then config.webdavConfig.username else "webdav")
    ensures !config.provider.Server? && !config.provider.WebDav? ==> r == "local"
  {
    if config.provider == Server then
      if config.serverConfig.userId != "" then config.serverConfig.userId else "user"
    else if config.provider == WebDav then
      if config.webdavConfig.username != "" then config.webdavConfig.username else "webdav"
    else "local"
  }

  /** The summary a slot's save gets when it has none: `MANUAL SLOT 2`. */
  function DefaultSummary(t: SaveType, index: int): string {
    TypeName(t) + " SLOT " + IntToString(index)
  }

  /** A stored save as the object it is in the store, used where the code
      takes a whole record as the game state. */
  function SlotJson(s: SaveSlot): (r: Json)
    ensures r.JObj? && Truthy(r)
  {
    var id := match s.id case NumId(n) => JNum(n) case StrId(t) => JStr(t);
    var fields := map["id" := id, "timestamp" := JNum(s.timestamp), "summary" := JStr(s.summary),
                      "data" := s.data, "version" := JStr(s.version)];
    JObj(if s.saveType.Some? then fields["type" := JStr(TypeName(s.saveType.value))] else fields)
  }

  /** `readLocalSave`, given what the store returned for the slot's key: a
      complete save (payload and type) as it is; anything else re-labelled
      with the slot's own id and type, the whole record as payload when it
      has none, and defaults for an absent timestamp, summary or version.
      `now` stands for `Date.now()`. */
  function ReadLocalSave(meta: LocalSlotMeta, saved: Option<SaveSlot>, now: int): (r: Option<SaveSlot>)
    ensures r.Some? <==> saved.Some?
    ensures r.Some? ==> r.value.saveType.Some? && Truthy(r.value.data)
    ensures saved.Some? && Truthy(saved.value.data) && saved.value.saveType.Some? ==> r == saved
    ensures saved.Some? && !(Truthy(saved.value.data) && saved.value.saveType.Some?) ==>
      && r.value.id == meta.localId && r.value.saveType == Some(meta.saveType)
      && (Truthy(saved.value.data) ==> r.value.data == saved.value.data)
      && (!Truthy(saved.value.data) ==> r.value.data == SlotJson(saved.value))
      && (saved.value.timestamp != 0 ==> r.value.timestamp == saved.value.timestamp)
      && (saved.value.timestamp == 0 ==> r.value.timestamp == now)
      && (saved.value.summary == "" ==> r.value.summary == DefaultSummary(meta.saveType, meta.slotIndex))
      && (saved.value.version == "" ==> r.value.version == "3.0")
  {
    match saved
    case None => None
    case Some(s) =>
      if Truthy(s.data) && s.saveType.Some? then saved
      else
        Some(SaveSlot(
          meta.localId,
          Some(meta.saveType),
          if s.timestamp != 0 then s.timestamp else now,
          if s.summary != "" then s.summary else DefaultSummary(meta.saveType, meta.slotIndex),
          if Truthy(s.data) then s.data else SlotJson(s),
          if s.version != "" then s.version else "3.0"))
  }

  /** The record `writeLocalSave` stores for a remote save, or nothing when
      the remote record has no payload (then it returns false without
      writing). The record carries the slot's own id and type, whatever the
      remote record says. */
  function LocalRecord(meta: LocalSlotMeta, cloud: CloudSaveSlot, now: int): (r: Option<SaveSlot>)
    ensures r.None? <==> !Truthy(cloud.data)
    ensures r.Some? ==>
      && r.value.id == meta.localId && r.value.saveType == Some(meta.saveType)
      && r.value.data == cloud.data
      && r.value.timestamp == (if cloud.timestamp != 0 then cloud.timestamp else now)
      && r.value.summary != "" && r.value.version != ""
      && (cloud.summary != "" ==> r.value.summary == cloud.summary)
      && (cloud.summary == "" ==> r.value.summary == DefaultSummary(meta.saveType, meta.slotIndex))
      && (cloud.version != "" ==> r.value.version == cloud.version)
      && (cloud.version == "" ==> r.value.version == "3.0")
  {
    if !Truthy(cloud.data) then None
    else
      Some(SaveSlot(
        meta.localId,
        Some(meta.saveType),
        if cloud.timestamp != 0 then cloud.timestamp else now,
        if cloud.summary != "" then cloud.summary else DefaultSummary(meta.saveType, meta.slotIndex),
        cloud.data,
        if cloud.version != "" then cloud.version else "3.0"))
  }

  /** A pulled save reads back unchanged: it is complete, so `readLocalSave`
      returns it as it was written. */
  lemma PulledSaveReadsBack(meta: LocalSlotMeta, cloud: CloudSaveSlot, now: int, later: int)
    requires Truthy(cloud.data)
    ensures ReadLocalSave(meta, LocalRecord(meta, cloud, now), later) == LocalRecord(meta, cloud, now)
  {
  }

  /** The remote id of a slot: `slot_<index>`. */
  function CloudId(index: int): string {
    "slot_" + IntToString(index)
  }

  /** `toCloudSave`: the transport form of a slot's save. The checksum is an
      uninterpreted function of the payload and `deviceId` stands for
      `ensureDeviceId()`. The save is one `readLocalSave` returned, so it has
      a type. */
  function ToCloudSave(save: SaveSlot, meta: LocalSlotMeta, config: SyncConfig, checksum: Json -> string, deviceId: string)
    : (r: CloudSaveSlot)
    requires save.saveType.Some?
    ensures r.id == CloudId(meta.slotIndex) && r.slotIndex == Some(meta.slotIndex)
    ensures r.userId == GetUserId(config) && r.deviceId == Some(deviceId)
    ensures r.saveType == save.saveType.value && r.timestamp == save.timestamp
    ensures r.data == save.data && r.checksum == checksum(save.data)
    ensures r.summary != "" && (save.summary != "" ==> r.summary == save.summary)
    ensures save.summary == "" ==> r.summary == DefaultSummary(save.saveType.value, meta.slotIndex)
    ensures r.version != "" && (save.version != "" ==> r.version == save.version)
    ensures save.version == "" ==> r.version == "3.0"
  {
    CloudSaveSlot(
      CloudId(meta.slotIndex),
      GetUserId(config),
      Some(meta.slotIndex),
      save.saveType.value,
      save.timestamp,
      checksum(save.data),
      if save.summary != "" then save.summary else DefaultSummary(save.saveType.value, meta.slotIndex),
      save.data,
      if save.version != "" then save.version else "3.0",
      Some(deviceId))
  }

  /** The id an upload carries names its slot: reading the digits back out
      of it gives the slot index, so a remote record that lost its
      `slotIndex` is still matched to the right slot. */
  lemma CloudIdParsesBack(index: nat)
    ensures ParseSlotIndex(CloudId(index)) == Some(index)
  {
    assert CloudId(index) == "slot_" + NatToString(index);
    FirstDigitRunAfterPrefix("slot_", index);
    DigitsValueOfNatToString(index);
  }

  /** A local save survives the round trip through its transport form and
      back into the same slot: payload, type and id are those of the slot. */
  lemma LocalCloudLocal(meta: LocalSlotMeta, save: SaveSlot, config: SyncConfig, checksum: Json -> string,
                        deviceId: string, now: int)
    requires save.saveType == Some(meta.saveType) && save.id == meta.localId && Truthy(save.data)
    requires save.timestamp != 0 && save.summary != "" && save.version != ""
    ensures LocalRecord(meta, ToCloudSave(save, meta, config, checksum, deviceId), now) == Some(save)
  {
  }
}
