/** The records exchanged by the save-synchronisation engine: a local save
    slot, its transport form, the sync configuration, a conflict and the
    result of a sync pass. */
module SyncTypes {
  import opened Wrappers
  import opened Json

  datatype SaveType = Manual | Auto | Cloud

  /** The spelling of a save type on the wire and in labels. */
  function TypeName(t: SaveType): string {
    match t
    case Manual => "MANUAL"
    case Auto => "AUTO"
    case Cloud => "CLOUD"
  }

  /** A local slot identifier: a number (manual slots) or a string (`auto_1`). */
  datatype SlotId = NumId(n: int) | StrId(s: string)

  /** A save slot as held by the local save store. Stored records are not
      always well formed: an absent type is `None`, an absent timestamp `0`,
      an absent summary or version `""` and an absent payload a falsy `data`. */
  datatype SaveSlot = SaveSlot(
    id: SlotId,
    saveType: Option<SaveType>,
    timestamp: int,
    summary: string,
    data: Json,
    version: string)

  /** The transport form of a save. A remote record may lack its `slotIndex`
      (`None`, which also stands for a non-finite number), its `id` or its
      `checksum` (both `""`) and its payload (a falsy `data`). */
  datatype CloudSaveSlot = CloudSaveSlot(
    id: string,
    userId: string,
    slotIndex: Option<int>,
    saveType: SaveType,
    timestamp: int,
    checksum: string,
    summary: string,
    data: Json,
    version: string,
    deviceId: Option<string>)

  /** `SyncProviderType`, plus any other string a stored configuration may
      carry in its `provider` field. */
  datatype ProviderType = Server | WebDav | NoProvider | UnknownProvider(name: string)

  /** `SyncConflictResolution`. */
  datatype Strategy = Local | Remote | Newest | Ask

  datatype ServerConfig = ServerConfig(endpoint: string, userId: string)

  datatype WebdavConfig = WebdavConfig(url: string, username: string, password: string, basePath: string)

  datatype SyncConfig = SyncConfig(
    enabled: bool,
    provider: ProviderType,
    useHttps: bool,
    serverConfig: ServerConfig,
    webdavConfig: WebdavConfig,
    autoSync: bool,
    syncInterval: int,
    conflictResolution: Strategy)

  datatype SyncConflict = SyncConflict(
    slotIndex: int,
    local: Option<CloudSaveSlot>,
    remote: Option<CloudSaveSlot>,
    resolution: Option<Strategy>)

  datatype Status = Success | Error | NoOp

  datatype SyncResult = SyncResult(
    status: Status,
    message: Option<string>,
    pushed: nat,
    pulled: nat,
    deleted: nat,
    conflicts: seq<SyncConflict>)
}
