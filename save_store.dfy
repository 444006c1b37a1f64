/** The local save store: save slots kept under string keys in a database,
    and the one-shot migration of the saves an older version kept in
    `localStorage`. */
module SaveStore {
  import opened Wrappers
  import opened Strings
  import opened Seqs
  import opened Json
  import opened SyncTypes

  // ----- Keys --------------------------------------------------------------

  /** `String(slotId)`. */
  function SlotIdText(id: SlotId): string {
    match id
    case NumId(n) => IntToString(n)
    case StrId(s) => s
  }

  const KeyPrefix: string := "danmachi_save_"
  const ManualKeyPrefix: string := "danmachi_save_manual_"

  /** `buildSaveKey`: ids starting with `auto` are keyed
      `danmachi_save_<id>`, all others `danmachi_save_manual_<id>`. */
  function BuildSaveKey(id: SlotId): (r: string)
    ensures StartsWith(SlotIdText(id), "auto") ==> r == KeyPrefix + SlotIdText(id)
    ensures !StartsWith(SlotIdText(id), "auto") ==> r == ManualKeyPrefix + SlotIdText(id)
  {
    var text := SlotIdText(id);
    if StartsWith(text, "auto") then KeyPrefix + text else ManualKeyPrefix + text
  }

  /** The id part of a key starts with `auto` exactly when the key has
      `auto` right after the common prefix. */
  lemma KeyMarksAuto(id: SlotId)
    ensures StartsWith(SlotIdText(id), "auto") <==>
      |BuildSaveKey(id)| >= |KeyPrefix| + 4 && BuildSaveKey(id)[|KeyPrefix|..|KeyPrefix| + 4] == "auto"
  {
    var text, key := SlotIdText(id), BuildSaveKey(id);
    if StartsWith(text, "auto") {
      assert key[|KeyPrefix|..|KeyPrefix| + 4] == text[..4];
    } else {
      assert key[|KeyPrefix|..|KeyPrefix| + 4] == "manu";
    }
  }

  /** Different ids (as strings) never share a key: an `auto` id cannot be
      mistaken for a manual one, because the manual key's id part would have
      to start with `manual_` and with `auto` at once. */
  lemma BuildSaveKeyInjective(a: SlotId, b: SlotId)
    requires BuildSaveKey(a) == BuildSaveKey(b)
    ensures SlotIdText(a) == SlotIdText(b)
  {
    var ta, tb := SlotIdText(a), SlotIdText(b);
    var ka := BuildSaveKey(a);
    KeyMarksAuto(a);
    KeyMarksAuto(b);
    if StartsWith(ta, "auto") {
      assert ta == ka[|KeyPrefix|..];
    } else {
      assert ta == ka[|ManualKeyPrefix|..];
    }
  }

  // ----- Shaping legacy records --------------------------------------------

  /** A stored `id` as a slot id: a number or a string. */
  function IdOf(j: Json): SlotId {
    match j
    case JNum(n) => NumId(n)
    case JStr(s) => StrId(s)
    case _ => StrId("")
  }

  /** A stored `type` as a save type, when it is one of the three names. */
  function TypeOf(v: Option<Json>): (r: Option<SaveType>)
    ensures r.Some? ==> v == Some(JStr(TypeName(r.value)))
  {
    match v
    case Some(JStr(s)) =>
      if s == "MANUAL" then Some(Manual)
      else if s == "AUTO" then Some(Auto)
      else if s == "CLOUD" then Some(Cloud)
      else None
    case _ => None
  }

  /** The typed view of a parsed record that is kept as it is. */
  function SlotOfJson(j: Json): SaveSlot {
    SaveSlot(
      IdOf(Get(j, "id").GetOr(JNull)),
      TypeOf(Get(j, "type")),
      GetNumber(j, "timestamp"),
      GetString(j, "summary"),
      Get(j, "data").GetOr(JNull),
      GetString(j, "version"))
  }

  /** The record already has a payload and a type, and is stored as it is. */
  predicate IsComplete(parsed: Json) {
    TruthyField(Get(parsed, "data")) && TruthyField(Get(parsed, "type"))
  }

  /** The type a wrapped legacy record gets from its key. */
  function LegacyType(key: string): SaveType {
    if Contains(key, "save_auto") then Auto else Manual
  }

  /** The record the migration stores for a parsed legacy value: the value
      itself when it has a payload and a type, otherwise a wrapper around
      it. `now` stands for `Date.now()`. */
  function Shape(key: string, parsed: Json, now: int): (r: SaveSlot)
    ensures IsComplete(parsed) ==> r == SlotOfJson(parsed)
    ensures !IsComplete(parsed) ==>
      && r.saveType == Some(LegacyType(key))
      && (TruthyField(Get(parsed, "data")) ==> r.data == Get(parsed, "data").value)
      && (!TruthyField(Get(parsed, "data")) ==> r.data == parsed)
      && (!TruthyField(Get(parsed, "id")) ==> r.id == StrId(key))
      && (!TruthyField(Get(parsed, "timestamp")) ==> r.timestamp == now)
      && (!TruthyField(Get(parsed, "summary")) ==> r.summary == "Migrated Save")
      && (!TruthyField(Get(parsed, "version")) ==> r.version == "3.0")
  {
    if IsComplete(parsed) then SlotOfJson(parsed)
    else
      SaveSlot(
        if TruthyField(Get(parsed, "id")) then IdOf(Get(parsed, "id").value) else StrId(key),
        Some(LegacyType(key)),
        NumberOr(Get(parsed, "timestamp"), now),
        StringOr(Get(parsed, "summary"), "Migrated Save"),
        if TruthyField(Get(parsed, "data")) then Get(parsed, "data").value else parsed,
        StringOr(Get(parsed, "version"), "3.0"))
  }

  /** The wrapper for an auto-save key is an AUTO save, for any other key a
      MANUAL save, and a bare game state becomes the payload. */
  lemma ShapeWrapsBareState(key: string, state: Json, now: int)
    requires state.JObj? && "data" !in state.fields && "type" !in state.fields
    requires "summary" !in state.fields && "version" !in state.fields
    ensures var r := Shape(key, state, now);
      && r.data == state
      && r.summary == "Migrated Save" && r.version == "3.0"
      && (r.saveType == Some(Auto) <==> Contains(key, "save_auto"))
  {
  }

  // ----- The store as a value ----------------------------------------------

  /** The store's contents: the database's saves, the migration flag of its
      meta table, and what is left in `localStorage`. */
  datatype StoreState = StoreState(saves: map<string, SaveSlot>, migrated: bool, legacy: map<string, string>)

  /** A key `localStorage` used for saves. */
  predicate IsLegacySaveKey(k: string) {
    Contains(k, "save_auto") || Contains(k, "save_manual")
  }

  /** The legacy entry under `k` is moved: it is a save key whose value is
      non-empty, parses, and parses to something truthy. */
  predicate Migrates(legacy: map<string, string>, parse: string -> Option<Json>, k: string) {
    && k in legacy
    && IsLegacySaveKey(k)
    && legacy[k] != ""
    && parse(legacy[k]).Some?
    && Truthy(parse(legacy[k]).value)
  }

  function Migrating(legacy: map<string, string>, parse: string -> Option<Json>): set<string> {
    set k | k in legacy && Migrates(legacy, parse, k)
  }

  /** The records the migration writes. */
  function MigratedRecords(legacy: map<string, string>, parse: string -> Option<Json>, now: int)
    : map<string, SaveSlot>
  {
    map k | k in Migrating(legacy, parse) :: Shape(k, parse(legacy[k]).value, now)
  }

  /** `migrateLocalStorageSaves` on the store's value: nothing once the flag
      is set; otherwise every migrating entry is written to the database and
      removed from `localStorage`, and the flag is set. */
  function Migrate(s: StoreState, parse: string -> Option<Json>, now: int): StoreState {
    if s.migrated then s
    else StoreState(s.saves + MigratedRecords(s.legacy, parse, now), true, s.legacy - Migrating(s.legacy, parse))
  }

  /** After a pass the flag is set, so a second pass changes nothing. */
  lemma MigrateIdempotent(s: StoreState, parse: string -> Option<Json>, now: int, later: int)
    ensures Migrate(s, parse, now).migrated
    ensures Migrate(Migrate(s, parse, now), parse, later) == Migrate(s, parse, now)
  {
  }

  /** What one pass does to each key: a migrating key is stored shaped and
      leaves `localStorage`; every other legacy entry (not a save key, empty,
      unparsable, falsy) stays where it was; database entries under other
      keys are untouched. */
  lemma MigrateByKey(s: StoreState, parse: string -> Option<Json>, now: int, k: string)
    requires !s.migrated
    ensures var r := Migrate(s, parse, now);
      && (Migrates(s.legacy, parse, k) ==>
            k in r.saves && r.saves[k] == Shape(k, parse(s.legacy[k]).value, now) && k !in r.legacy)
      && (!Migrates(s.legacy, parse, k) ==>
            (k in r.legacy <==> k in s.legacy) && (k in s.legacy ==> r.legacy[k] == s.legacy[k])
            && (k in r.saves <==> k in s.saves) && (k in s.saves ==> r.saves[k] == s.saves[k]))
  {
  }

  /** Only save keys ever leave `localStorage`. */
  lemma MigrateOnlySaveKeys(s: StoreState, parse: string -> Option<Json>, now: int)
    ensures forall k :: k in s.legacy && k !in Migrate(s, parse, now).legacy ==> IsLegacySaveKey(k)
  {
  }

  function Lookup(s: StoreState, key: string): (r: Option<SaveSlot>)
    ensures r.Some? <==> key in s.saves
    ensures r.Some? ==> r.value == s.saves[key]
  {
    if key in s.saves then Some(s.saves[key]) else None
  }

  function Put(s: StoreState, key: string, save: SaveSlot): StoreState {
    s.(saves := s.saves[key := save])
  }

  function Remove(s: StoreState, key: string): StoreState {
    s.(saves := s.saves - {key})
  }

  /** A saved slot reads back as written, once the migration has nothing to
      put over it: after it ran, or when the key is not a migrating one. */
  lemma GetAfterSet(s: StoreState, key: string, save: SaveSlot, parse: string -> Option<Json>, now: int)
    requires s.migrated || !Migrates(s.legacy, parse, key)
    ensures Lookup(Migrate(Put(s, key, save), parse, now), key) == Some(save)
  {
  }

  /** Without that condition a pending migration overwrites what was just
      saved: the save is replaced by the shaped legacy record. */
  lemma PendingMigrationOverwrites(s: StoreState, key: string, save: SaveSlot, parse: string -> Option<Json>, now: int)
    requires !s.migrated && Migrates(s.legacy, parse, key)
    ensures Lookup(Migrate(Put(s, key, save), parse, now), key) == Some(Shape(key, parse(s.legacy[key]).value, now))
  {
  }

  /** Deleting removes that key and no other. */
  lemma DeleteOnlyThatKey(s: StoreState, key: string, other: string)
    requires other != key
    ensures Lookup(Remove(s, key), key) == None
    ensures Lookup(Remove(s, key), other) == Lookup(s, other)
  {
  }

  /** The first `localStorage` loop: every save key, each once (in some
      order; the order of `localStorage.key(i)` is not modelled). */
  method CollectSaveKeys(legacy: map<string, string>) returns (keys: seq<string>)
    ensures NoDuplicates(keys)
    ensures forall k :: k in keys <==> k in legacy && IsLegacySaveKey(k)
  {
    keys := [];
    var remaining := legacy.Keys;
    while remaining != {}
      invariant remaining <= legacy.Keys
      invariant forall k :: k in keys <==> k in legacy && k !in remaining && IsLegacySaveKey(k)
      invariant NoDuplicates(keys)
      decreases |remaining|
    {
      var k :| k in remaining;
      remaining := remaining - {k};
      if IsLegacySaveKey(k) {
        keys := keys + [k];
      }
    }
  }

  /** The records written for the migrating keys among `done`. */
  function MovedRecords(legacy: map<string, string>, parse: string -> Option<Json>, now: int, done: seq<string>)
    : map<string, SaveSlot>
  {
    map k | k in done && Migrates(legacy, parse, k) :: Shape(k, parse(legacy[k]).value, now)
  }

  function MovedKeys(legacy: map<string, string>, parse: string -> Option<Json>, done: seq<string>): set<string> {
    set k | k in done && Migrates(legacy, parse, k)
  }

  /** One more key handled by the second loop. */
  lemma MovedSnoc(legacy: map<string, string>, parse: string -> Option<Json>, now: int, keys: seq<string>, i: int)
    requires NoDuplicates(keys) && 0 <= i < |keys|
    ensures keys[i] !in MovedKeys(legacy, parse, keys[..i])
    ensures keys[i] !in MovedRecords(legacy, parse, now, keys[..i])
    ensures Migrates(legacy, parse, keys[i]) ==>
      && MovedRecords(legacy, parse, now, keys[..i + 1])
           == MovedRecords(legacy, parse, now, keys[..i])[keys[i] := Shape(keys[i], parse(legacy[keys[i]]).value, now)]
      && MovedKeys(legacy, parse, keys[..i + 1]) == MovedKeys(legacy, parse, keys[..i]) + {keys[i]}
    ensures !Migrates(legacy, parse, keys[i]) ==>
      && MovedRecords(legacy, parse, now, keys[..i + 1]) == MovedRecords(legacy, parse, now, keys[..i])
      && MovedKeys(legacy, parse, keys[..i + 1]) == MovedKeys(legacy, parse, keys[..i])
  {
    var key := keys[i];
    assert key !in keys[..i] by {
      forall j | 0 <= j < i ensures keys[..i][j] != key {
        assert keys[..i][j] == keys[j];
      }
    }
    assert keys[..i + 1] == keys[..i] + [key];
  }

  /** The entry under the next key is still the original one. */
  lemma StepEntry(legacy0: map<string, string>, parse: string -> Option<Json>, keys: seq<string>, i: int,
                  legacy: map<string, string>)
    requires NoDuplicates(keys) && 0 <= i < |keys|
    requires legacy == legacy0 - MovedKeys(legacy0, parse, keys[..i])
    ensures keys[i] in legacy <==> keys[i] in legacy0
    ensures keys[i] in legacy ==> legacy[keys[i]] == legacy0[keys[i]]
  {
    MovedSnoc(legacy0, parse, 0, keys, i);
  }

  lemma UpdateUnion<K, V>(a: map<K, V>, b: map<K, V>, k: K, v: V)
    ensures (a + b)[k := v] == a + b[k := v]
  {
  }

  lemma SubtractOneMore<K, V>(a: map<K, V>, s: set<K>, k: K)
    ensures (a - s) - {k} == a - (s + {k})
  {
  }

  /** After the last key, the loop has moved exactly the migrating entries. */
  lemma MovedAll(legacy: map<string, string>, parse: string -> Option<Json>, now: int, keys: seq<string>)
    requires forall k :: k in keys <==> k in legacy && IsLegacySaveKey(k)
    ensures MovedKeys(legacy, parse, keys[..|keys|]) == Migrating(legacy, parse)
    ensures MovedRecords(legacy, parse, now, keys[..|keys|]) == MigratedRecords(legacy, parse, now)
  {
    assert keys[..|keys|] == keys;
  }

  /** A database row: the key and the save stored under it. */
  datatype SaveRecord = SaveRecord(key: string, save: SaveSlot)

  /** `store.getAll()`: every row of the database once (in the database's
      key order, which is not modelled). */
  method AllRecords(saves: map<string, SaveSlot>) returns (records: seq<SaveRecord>)
    ensures forall r :: r in records <==> r.key in saves && saves[r.key] == r.save
    ensures forall i, j :: 0 <= i < j < |records| ==> records[i].key != records[j].key
    ensures |records| == |saves|
  {
    records := [];
    var remaining := saves.Keys;
    while remaining != {}
      invariant remaining <= saves.Keys
      invariant forall r :: r in records <==> r.key in saves && r.key !in remaining && saves[r.key] == r.save
      invariant forall i, j :: 0 <= i < j < |records| ==> records[i].key != records[j].key
      invariant |records| + |remaining| == |saves|
      decreases |remaining|
    {
      var k :| k in remaining;
      remaining := remaining - {k};
      records := records + [SaveRecord(k, saves[k])];
    }
  }

  // ----- The store ---------------------------------------------------------

  class Store {
    var saves: map<string, SaveSlot>
    var migrated: bool
    var legacy: map<string, string>

    /** A fresh database beside the given `localStorage` contents. */
    constructor(legacyStorage: map<string, string>)
      ensures saves == map[] && !migrated && legacy == legacyStorage
    {
      saves := map[];
      migrated := false;
      legacy := legacyStorage;
    }

    function State(): StoreState
      reads this
    {
      StoreState(saves, migrated, legacy)
    }

    /** `setSaveByKey`. */
    method SetSaveByKey(key: string, save: SaveSlot)
      modifies this
      ensures State() == Put(old(State()), key, save)
    {
      saves := saves[key := save];
    }

    /** `deleteSaveByKey`. */
    method DeleteSaveByKey(key: string)
      modifies this
      ensures State() == Remove(old(State()), key)
    {
      saves := saves - {key};
    }

    /** `clearAllSaves`: the database is emptied; `localStorage` and the flag
        are left alone. */
    method ClearAllSaves()
      modifies this
      ensures saves == map[]
      ensures migrated == old(migrated) && legacy == old(legacy)
    {
      saves := map[];
    }

    /** `migrateLocalStorageSaves`: collects the save keys of `localStorage`,
        then moves each entry that parses to something truthy. */
    method MigrateLocalStorageSaves(parse: string -> Option<Json>, now: int)
      modifies this
      ensures State() == Migrate(old(State()), parse, now)
    {
      if migrated {
        return;
      }
      var keys := CollectSaveKeys(legacy);
      ghost var legacy0, saves0 := legacy, saves;
      var i := 0;
      while i < |keys|
        invariant 0 <= i <= |keys|
        invariant !migrated
        invariant saves == saves0 + MovedRecords(legacy0, parse, now, keys[..i])
        invariant legacy == legacy0 - MovedKeys(legacy0, parse, keys[..i])
      {
        var key := keys[i];
        MovedSnoc(legacy0, parse, now, keys, i);
        StepEntry(legacy0, parse, keys, i, legacy);
        if key in legacy && legacy[key] != "" {
          match parse(legacy[key]) {
            case None =>
            case Some(parsed) =>
              if Truthy(parsed) {
                UpdateUnion(saves0, MovedRecords(legacy0, parse, now, keys[..i]), key, Shape(key, parsed, now));
                SubtractOneMore(legacy0, MovedKeys(legacy0, parse, keys[..i]), key);
                SetSaveByKey(key, Shape(key, parsed, now));
                legacy := legacy - {key};
              }
          }
        }
        i := i + 1;
      }
      MovedAll(legacy0, parse, now, keys);
      migrated := true;
    }

    /** `getSaveByKey`: migrates first, then reads the key. */
    method GetSaveByKey(key: string, parse: string -> Option<Json>, now: int) returns (r: Option<SaveSlot>)
      modifies this
      ensures State() == Migrate(old(State()), parse, now)
      ensures r == Lookup(State(), key)
    {
      MigrateLocalStorageSaves(parse, now);
      r := if key in saves then Some(saves[key]) else None;
    }

    /** `listSaveRecords`: migrates first, then returns every row. */
    method ListSaveRecords(parse: string -> Option<Json>, now: int) returns (records: seq<SaveRecord>)
      modifies this
      ensures State() == Migrate(old(State()), parse, now)
      ensures forall r :: r in records <==> r.key in saves && saves[r.key] == r.save
      ensures |records| == |saves|
    {
      MigrateLocalStorageSaves(parse, now);
      records := AllRecords(saves);
    }

    /** `getSaveBySlotId`. */
    method GetSaveBySlotId(id: SlotId, parse: string -> Option<Json>, now: int) returns (r: Option<SaveSlot>)
      modifies this
      ensures State() == Migrate(old(State()), parse, now)
      ensures r == Lookup(State(), BuildSaveKey(id))
    {
      r := GetSaveByKey(BuildSaveKey(id), parse, now);
    }
  }
}
