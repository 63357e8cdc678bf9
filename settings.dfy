/**
 * The settings context: a record of flags and scroll speeds that `update`
 * overrides key by key and `reset` restores to the defaults.
 */
module SettingsContext {
  import opened Wrappers

  /** The options of both scroll-speed selects. */
  datatype Speed = Fast | Standard

  datatype Settings = Settings(
    isFilming: bool,
    isGlobalEnabled: bool,
    isDistanceDampeningEnabled: bool,
    isTimeDampeningEnabled: bool,
    boardScrollSpeed: Speed,
    columnScrollSpeed: Speed,
    isFPSPanelEnabled: bool,
    isCPUBurnEnabled: bool)

  /** `Partial<TSettings>`: each key present or absent. */
  datatype PartialSettings = PartialSettings(
    isFilming: Option<bool>,
    isGlobalEnabled: Option<bool>,
    isDistanceDampeningEnabled: Option<bool>,
    isTimeDampeningEnabled: Option<bool>,
    boardScrollSpeed: Option<Speed>,
    columnScrollSpeed: Option<Speed>,
    isFPSPanelEnabled: Option<bool>,
    isCPUBurnEnabled: Option<bool>)

  /** The keys of a settings record, and the values they hold. */
  datatype Key =
    | IsFilming | IsGlobalEnabled | IsDistanceDampeningEnabled | IsTimeDampeningEnabled
    | BoardScrollSpeed | ColumnScrollSpeed | IsFPSPanelEnabled | IsCPUBurnEnabled

  datatype Value = Flag(on: bool) | SpeedValue(speed: Speed)

  /** The value a settings record holds at a key. */
  function Get(s: Settings, k: Key): Value
  {
    match k
    case IsFilming => Flag(s.isFilming)
    case IsGlobalEnabled => Flag(s.isGlobalEnabled)
    case IsDistanceDampeningEnabled => Flag(s.isDistanceDampeningEnabled)
    case IsTimeDampeningEnabled => Flag(s.isTimeDampeningEnabled)
    case BoardScrollSpeed => SpeedValue(s.boardScrollSpeed)
    case ColumnScrollSpeed => SpeedValue(s.columnScrollSpeed)
    case IsFPSPanelEnabled => Flag(s.isFPSPanelEnabled)
    case IsCPUBurnEnabled => Flag(s.isCPUBurnEnabled)
  }

  function FlagOf(o: Option<bool>): Option<Value>
  {
    if o.Some? then Some(Flag(o.value)) else None
  }

  function SpeedOf(o: Option<Speed>): Option<Value>
  {
    if o.Some? then Some(SpeedValue(o.value)) else None
  }

  /** The value a partial record holds at a key, if it has that key. */
  function Lookup(p: PartialSettings, k: Key): Option<Value>
  {
    match k
    case IsFilming => FlagOf(p.isFilming)
    case IsGlobalEnabled => FlagOf(p.isGlobalEnabled)
    case IsDistanceDampeningEnabled => FlagOf(p.isDistanceDampeningEnabled)
    case IsTimeDampeningEnabled => FlagOf(p.isTimeDampeningEnabled)
    case BoardScrollSpeed => SpeedOf(p.boardScrollSpeed)
    case ColumnScrollSpeed => SpeedOf(p.columnScrollSpeed)
    case IsFPSPanelEnabled => FlagOf(p.isFPSPanelEnabled)
    case IsCPUBurnEnabled => FlagOf(p.isCPUBurnEnabled)
  }

  /** `defaultSettings`. */
  const DefaultSettings := Settings(
    isFilming := true,
    isGlobalEnabled := true,
    isDistanceDampeningEnabled := true,
    isTimeDampeningEnabled := true,
    boardScrollSpeed := Fast,
    columnScrollSpeed := Standard,
    isFPSPanelEnabled := false,
    isCPUBurnEnabled := false)

  /** A whole settings record seen as a partial one with every key present. */
  function Whole(s: Settings): (p: PartialSettings)
    ensures forall k :: Lookup(p, k) == Some(Get(s, k))
  {
    PartialSettings(Some(s.isFilming), Some(s.isGlobalEnabled), Some(s.isDistanceDampeningEnabled),
      Some(s.isTimeDampeningEnabled), Some(s.boardScrollSpeed), Some(s.columnScrollSpeed),
      Some(s.isFPSPanelEnabled), Some(s.isCPUBurnEnabled))
  }

  function Pick<T>(o: Option<T>, otherwise: T): T
  {
    if o.Some? then o.value else otherwise
  }

  /** `update`: `{ ...settings, ...partial }`. */
  function Update(s: Settings, p: PartialSettings): Settings
  {
    Settings(
      Pick(p.isFilming, s.isFilming),
      Pick(p.isGlobalEnabled, s.isGlobalEnabled),
      Pick(p.isDistanceDampeningEnabled, s.isDistanceDampeningEnabled),
      Pick(p.isTimeDampeningEnabled, s.isTimeDampeningEnabled),
      Pick(p.boardScrollSpeed, s.boardScrollSpeed),
      Pick(p.columnScrollSpeed, s.columnScrollSpeed),
      Pick(p.isFPSPanelEnabled, s.isFPSPanelEnabled),
      Pick(p.isCPUBurnEnabled, s.isCPUBurnEnabled))
  }

  /**
   * The spread's meaning, key by key: a key present in the partial record
   * takes the partial's value, an absent key keeps the old one.
   */
  lemma UpdateKey(s: Settings, p: PartialSettings, k: Key)
    ensures Lookup(p, k).Some? ==> Get(Update(s, p), k) == Lookup(p, k).value
    ensures Lookup(p, k).None? ==> Get(Update(s, p), k) == Get(s, k)
  {
    match k
    case IsFilming =>
    case IsGlobalEnabled =>
    case IsDistanceDampeningEnabled =>
    case IsTimeDampeningEnabled =>
    case BoardScrollSpeed =>
    case ColumnScrollSpeed =>
    case IsFPSPanelEnabled =>
    case IsCPUBurnEnabled =>
  }

  /** `reset`: `update(defaultSettings)`. */
  function Reset(s: Settings): (r: Settings)
    ensures r == DefaultSettings
    ensures r.boardScrollSpeed == Fast && r.columnScrollSpeed == Standard
    ensures !r.isFPSPanelEnabled && !r.isCPUBurnEnabled
    ensures r.isFilming && r.isGlobalEnabled && r.isDistanceDampeningEnabled && r.isTimeDampeningEnabled
  {
    UpdateWhole(s, DefaultSettings);
    Update(s, Whole(DefaultSettings))
  }

  /** Two records that agree at every key are the same record. */
  lemma KeysDetermineSettings(a: Settings, b: Settings)
    requires forall k :: Get(a, k) == Get(b, k)
    ensures a == b
  {
    assert Get(a, IsFilming) == Get(b, IsFilming);
    assert Get(a, IsGlobalEnabled) == Get(b, IsGlobalEnabled);
    assert Get(a, IsDistanceDampeningEnabled) == Get(b, IsDistanceDampeningEnabled);
    assert Get(a, IsTimeDampeningEnabled) == Get(b, IsTimeDampeningEnabled);
    assert Get(a, BoardScrollSpeed) == Get(b, BoardScrollSpeed);
    assert Get(a, ColumnScrollSpeed) == Get(b, ColumnScrollSpeed);
    assert Get(a, IsFPSPanelEnabled) == Get(b, IsFPSPanelEnabled);
    assert Get(a, IsCPUBurnEnabled) == Get(b, IsCPUBurnEnabled);
  }

  /** Applying the same partial record twice is applying it once. */
  lemma UpdateIdempotent(s: Settings, p: PartialSettings)
    ensures Update(Update(s, p), p) == Update(s, p)
  {
    var once := Update(s, p);
    var twice := Update(once, p);
    forall k ensures Get(twice, k) == Get(once, k) {
      UpdateKey(s, p, k);
      UpdateKey(once, p, k);
    }
    KeysDetermineSettings(twice, once);
  }

  /** An empty partial record changes nothing. */
  lemma UpdateEmpty(s: Settings)
    ensures Update(s, PartialSettings(None, None, None, None, None, None, None, None)) == s
  {
    var r := Update(s, PartialSettings(None, None, None, None, None, None, None, None));
    forall k ensures Get(r, k) == Get(s, k) {
      UpdateKey(s, PartialSettings(None, None, None, None, None, None, None, None), k);
    }
    KeysDetermineSettings(r, s);
  }

  /** A whole record replaces everything: the result no longer depends on the previous settings. */
  lemma UpdateWhole(s: Settings, t: Settings)
    ensures Update(s, Whole(t)) == t
  {
    var r := Update(s, Whole(t));
    forall k ensures Get(r, k) == Get(t, k) {
      UpdateKey(s, Whole(t), k);
    }
    KeysDetermineSettings(r, t);
  }
}
