/** Shared/Services/SharedFileService.swift: the one JSON record shared by the
    app and the widgets, stored at
    ~/Library/Application Support/com.tokeneater.shared/shared.json, and the
    one-shot migration from the older directory. The file system is a map from
    path to stored file; every setter is a read-modify-write of the whole record. */
module SharedFile {
  import opened Wrappers
  import opened UsageModels
  import opened ThemeModels
  import opened ClaudeJsonReader

  datatype SharedData = SharedData(
    oauthToken: Option<string>,
    cachedUsage: Option<CachedUsage>,
    lastSyncDate: Option<int>,
    theme: Option<ThemeColors>,
    thresholds: Option<UsageThresholds>,
    modelStats: Option<seq<ModelTokenStats>>)

  /** `SharedData()`: every field nil. */
  const EmptyData := SharedData(None, None, None, None, None, None)

  datatype Path = Path(dir: string, name: string)

  /** What a path holds: a record JSONDecoder accepts, or bytes it rejects. */
  datatype StoredFile = Record(data: SharedData) | Unreadable

  type Disk = map<Path, StoredFile>

  const NewDirectory := "com.tokeneater.shared"
  const OldDirectory := "com.claudeusagewidget.shared"
  const FileName := "shared.json"
  const NewFile := Path(NewDirectory, FileName)
  const OldFile := Path(OldDirectory, FileName)

  /** `load()`: the decoded record, or the empty one when the file is missing
      or does not decode. */
  function LoadFrom(disk: Disk, path: Path): (d: SharedData)
    ensures path !in disk || disk[path].Unreadable? ==> d == EmptyData
    ensures path in disk && disk[path].Record? ==> d == disk[path].data
  {
    if path in disk && disk[path].Record? then disk[path].data else EmptyData
  }

  /** `migrateIfNeeded()` on a disk: nothing without the old file; otherwise the
      old file is copied to the new path unless a file is already there, and
      then the whole old directory is removed. */
  function Migrated(disk: Disk): (r: Disk)
  {
    if OldFile !in disk then disk
    else
      var copied := if NewFile in disk then disk else disk[NewFile := disk[OldFile]];
      map p | p in copied && p.dir != OldDirectory :: copied[p]
  }

  /** Without the old file, migration changes nothing. */
  lemma MigrationNoOpWithoutOldFile(disk: Disk)
    requires OldFile !in disk
    ensures Migrated(disk) == disk
  {
  }

  /** Migration never overwrites the new file, copies the old one when the new
      one is absent, removes the old directory, and leaves every other path alone. */
  lemma MigrationEffect(disk: Disk)
    requires OldFile in disk
    ensures NewFile in disk ==> Migrated(disk)[NewFile] == disk[NewFile]
    ensures NewFile !in disk ==> Migrated(disk)[NewFile] == disk[OldFile]
    ensures forall p :: p in Migrated(disk) ==> p.dir != OldDirectory
    ensures forall p :: p != NewFile && p.dir != OldDirectory ==>
              (p in Migrated(disk) <==> p in disk) && (p in disk ==> Migrated(disk)[p] == disk[p])
  {
  }

  /** A second run finds no old file and does nothing, so running it at every
      launch is harmless. */
  lemma MigrationIdempotent(disk: Disk)
    ensures Migrated(Migrated(disk)) == Migrated(disk)
  {
    if OldFile in disk {
      MigrationEffect(disk);
      assert OldFile !in Migrated(disk);
    }
  }

  /** What is saved is what the next load returns. */
  lemma SaveLoadRoundTrip(disk: Disk, d: SharedData)
    ensures LoadFrom(disk[NewFile := Record(d)], NewFile) == d
  {
  }

  /** `theme` and `thresholds` read their defaults when the record has none. */
  function ThemeOf(d: SharedData): (t: ThemeColors)
    ensures d.theme.None? ==> t == DefaultTheme
    ensures d.theme.Some? ==> t == d.theme.value
  {
    if d.theme.Some? then d.theme.value else DefaultTheme
  }

  function ThresholdsOf(d: SharedData): (t: UsageThresholds)
    ensures d.thresholds.None? ==> t == DefaultThresholds
    ensures d.thresholds.Some? ==> t == d.thresholds.value
  {
    if d.thresholds.Some? then d.thresholds.value else DefaultThresholds
  }

  class SharedFileService {
    var disk: Disk

    /** `init()` runs the migration. */
    constructor(disk0: Disk)
      ensures disk == Migrated(disk0)
    {
      disk := Migrated(disk0);
    }

    function Load(): SharedData
      reads this
    {
      LoadFrom(disk, NewFile)
    }

    /** `save(_:)`: one atomic write of the whole record. */
    method Save(d: SharedData)
      modifies this
      ensures disk == old(disk)[NewFile := Record(d)]
    {
      disk := disk[NewFile := Record(d)];
    }

    function OAuthToken(): Option<string>
      reads this
    {
      Load().oauthToken
    }

    function IsConfigured(): (b: bool)
      reads this
      ensures b <==> Load().oauthToken.Some?
    {
      OAuthToken().Some?
    }

    function CachedUsage(): Option<CachedUsage>
      reads this
    {
      Load().cachedUsage
    }

    function LastSyncDate(): Option<int>
      reads this
    {
      Load().lastSyncDate
    }

    function Theme(): ThemeColors
      reads this
    {
      ThemeOf(Load())
    }

    function Thresholds(): UsageThresholds
      reads this
    {
      ThresholdsOf(Load())
    }

    function ModelStats(): Option<seq<ModelTokenStats>>
      reads this
    {
      Load().modelStats
    }

    /** The `oauthToken` setter: only the token changes. */
    method SetOAuthToken(token: Option<string>)
      modifies this
      ensures Load() == old(Load()).(oauthToken := token)
      ensures disk == old(disk)[NewFile := Record(Load())]
    {
      var data := Load();
      data := data.(oauthToken := token);
      Save(data);
    }

    /** `updateAfterSync(usage:syncDate:)`: only the cache and the sync date change. */
    method UpdateAfterSync(usage: CachedUsage, syncDate: int)
      modifies this
      ensures Load() == old(Load()).(cachedUsage := Some(usage), lastSyncDate := Some(syncDate))
      ensures disk == old(disk)[NewFile := Record(Load())]
    {
      var data := Load();
      data := data.(cachedUsage := Some(usage), lastSyncDate := Some(syncDate));
      Save(data);
    }

    /** `updateTheme(_:thresholds:)`: only the theme and the thresholds change. */
    method UpdateTheme(theme: ThemeColors, thresholds: UsageThresholds)
      modifies this
      ensures Load() == old(Load()).(theme := Some(theme), thresholds := Some(thresholds))
      ensures disk == old(disk)[NewFile := Record(Load())]
    {
      var data := Load();
      data := data.(theme := Some(theme), thresholds := Some(thresholds));
      Save(data);
    }

    /** `updateModelStats(_:)`: only the model statistics change. */
    method UpdateModelStats(stats: seq<ModelTokenStats>)
      modifies this
      ensures Load() == old(Load()).(modelStats := Some(stats))
      ensures disk == old(disk)[NewFile := Record(Load())]
    {
      var data := Load();
      data := data.(modelStats := Some(stats));
      Save(data);
    }

    /** `clear()`: the empty record is saved. */
    method Clear()
      modifies this
      ensures Load() == EmptyData
      ensures disk == old(disk)[NewFile := Record(EmptyData)]
    {
      Save(EmptyData);
    }
  }
}

/** Shared/SharedContainer.swift: the older static store of the same file format,
    holding three of the fields, in the older directory. */
module LegacySharedContainer {
  import opened Wrappers
  import opened UsageModels
  import opened SharedFile

  /** The older `SharedData`: decoding a newer record ignores its other fields,
      and encoding this one writes only these three. */
  datatype LegacyData = LegacyData(oauthToken: Option<string>, cachedUsage: Option<CachedUsage>, lastSyncDate: Option<int>)

  const EmptyLegacy := LegacyData(None, None, None)

  function Project(d: SharedData): LegacyData {
    LegacyData(d.oauthToken, d.cachedUsage, d.lastSyncDate)
  }

  function Encode(l: LegacyData): SharedData {
    SharedData(l.oauthToken, l.cachedUsage, l.lastSyncDate, None, None, None)
  }

  /** `load()`: the empty record for a missing or undecodable file. */
  function LegacyLoad(disk: Disk): (l: LegacyData)
    ensures OldFile !in disk || disk[OldFile].Unreadable? ==> l == EmptyLegacy
  {
    Project(LoadFrom(disk, OldFile))
  }

  /** What the older app saved is what the newer service reads after migrating,
      when the newer file did not exist yet. */
  lemma MigrationCarriesLegacyRecord(disk: Disk, l: LegacyData)
    requires NewFile !in disk
    ensures var migrated := Migrated(disk[OldFile := Record(Encode(l))]);
            Project(LoadFrom(migrated, NewFile)) == l && LoadFrom(migrated, NewFile).theme.None?
  {
    MigrationEffect(disk[OldFile := Record(Encode(l))]);
  }

  lemma LegacyRoundTrip(disk: Disk, l: LegacyData)
    ensures LegacyLoad(disk[OldFile := Record(Encode(l))]) == l
  {
  }

  class SharedContainer {
    var disk: Disk

    constructor(disk0: Disk)
      ensures disk == disk0
    {
      disk := disk0;
    }

    function Load(): LegacyData
      reads this
    {
      LegacyLoad(disk)
    }

    method Save(l: LegacyData)
      modifies this
      ensures disk == old(disk)[OldFile := Record(Encode(l))]
    {
      disk := disk[OldFile := Record(Encode(l))];
    }

    function IsConfigured(): (b: bool)
      reads this
      ensures b <==> Load().oauthToken.Some?
    {
      Load().oauthToken.Some?
    }

    /** The `oauthToken` setter: the other two fields are kept. */
    method SetOAuthToken(token: Option<string>)
      modifies this
      ensures Load() == old(Load()).(oauthToken := token)
    {
      var data := Load();
      data := data.(oauthToken := token);
      Save(data);
    }

    /** The `cachedUsage` setter: the other two fields are kept. */
    method SetCachedUsage(usage: Option<CachedUsage>)
      modifies this
      ensures Load() == old(Load()).(cachedUsage := usage)
    {
      var data := Load();
      data := data.(cachedUsage := usage);
      Save(data);
    }

    /** The `lastSyncDate` setter: the other two fields are kept. */
    method SetLastSyncDate(date: Option<int>)
      modifies this
      ensures Load() == old(Load()).(lastSyncDate := date)
    {
      var data := Load();
      data := data.(lastSyncDate := date);
      Save(data);
    }

    /** `updateAfterSync(usage:syncDate:)`: both set in one write, the token kept. */
    method UpdateAfterSync(usage: CachedUsage, syncDate: int)
      modifies this
      ensures Load() == LegacyData(old(Load()).oauthToken, Some(usage), Some(syncDate))
      ensures disk == old(disk)[OldFile := Record(Encode(Load()))]
    {
      var data := Load();
      data := data.(cachedUsage := Some(usage), lastSyncDate := Some(syncDate));
      Save(data);
    }

    method Clear()
      modifies this
      ensures Load() == EmptyLegacy
      ensures !IsConfigured()
    {
      Save(EmptyLegacy);
    }
  }
}
