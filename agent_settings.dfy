/**
 * The agent's settings form: nine settings with their defaults, a single
 * setting update, a preset that overwrites several at once, and the save
 * button's busy flag.
 */
module AgentSettings {
  datatype Settings = Settings(
    agentEnabled: bool,
    riskTolerance: real,
    minCardBalance: real,
    emergencyBuffer: real,
    rebalanceFrequency: real,
    maxGasPrice: real,
    enableCrossChain: bool,
    enableCardTopUp: bool,
    notificationsEnabled: bool)

  function DefaultSettings(): Settings {
    Settings(true, 5.0, 50.0, 500.0, 24.0, 30.0, true, true, true)
  }

  datatype SettingKey =
    | AgentEnabled | RiskTolerance | MinCardBalance | EmergencyBuffer | RebalanceFrequency
    | MaxGasPrice | EnableCrossChain | EnableCardTopUp | NotificationsEnabled

  /** A setting's value: switches hold booleans, the others numbers. */
  datatype SettingValue = Flag(on: bool) | Number(x: real)

  predicate IsSwitch(k: SettingKey) {
    k == AgentEnabled || k == EnableCrossChain || k == EnableCardTopUp || k == NotificationsEnabled
  }

  /** The value type the key demands. */
  predicate Fits(k: SettingKey, v: SettingValue) {
    if IsSwitch(k) then v.Flag? else v.Number?
  }

  /** Reading one setting. */
  function Get(s: Settings, k: SettingKey): (v: SettingValue)
    ensures Fits(k, v)
  {
    match k
    case AgentEnabled => Flag(s.agentEnabled)
    case RiskTolerance => Number(s.riskTolerance)
    case MinCardBalance => Number(s.minCardBalance)
    case EmergencyBuffer => Number(s.emergencyBuffer)
    case RebalanceFrequency => Number(s.rebalanceFrequency)
    case MaxGasPrice => Number(s.maxGasPrice)
    case EnableCrossChain => Flag(s.enableCrossChain)
    case EnableCardTopUp => Flag(s.enableCardTopUp)
    case NotificationsEnabled => Flag(s.notificationsEnabled)
  }

  /** Two settings records are equal when every key reads the same. */
  lemma SettingsEqualByKeys(a: Settings, b: Settings)
    requires forall k :: Get(a, k) == Get(b, k)
    ensures a == b
  {
    assert Get(a, AgentEnabled) == Get(b, AgentEnabled);
    assert Get(a, RiskTolerance) == Get(b, RiskTolerance);
    assert Get(a, MinCardBalance) == Get(b, MinCardBalance);
    assert Get(a, EmergencyBuffer) == Get(b, EmergencyBuffer);
    assert Get(a, RebalanceFrequency) == Get(b, RebalanceFrequency);
    assert Get(a, MaxGasPrice) == Get(b, MaxGasPrice);
    assert Get(a, EnableCrossChain) == Get(b, EnableCrossChain);
    assert Get(a, EnableCardTopUp) == Get(b, EnableCardTopUp);
    assert Get(a, NotificationsEnabled) == Get(b, NotificationsEnabled);
  }

  /** `{ ...prev, [key]: value }`. */
  function Updated(s: Settings, k: SettingKey, v: SettingValue): (r: Settings)
    requires Fits(k, v)
    ensures Get(r, k) == v
    ensures forall k' :: k' != k ==> Get(r, k') == Get(s, k')
  {
    match k
    case AgentEnabled => s.(agentEnabled := v.on)
    case RiskTolerance => s.(riskTolerance := v.x)
    case MinCardBalance => s.(minCardBalance := v.x)
    case EmergencyBuffer => s.(emergencyBuffer := v.x)
    case RebalanceFrequency => s.(rebalanceFrequency := v.x)
    case MaxGasPrice => s.(maxGasPrice := v.x)
    case EnableCrossChain => s.(enableCrossChain := v.on)
    case EnableCardTopUp => s.(enableCardTopUp := v.on)
    case NotificationsEnabled => s.(notificationsEnabled := v.on)
  }

  /** A partial settings record whose values fit their keys. */
  predicate WellTyped(m: map<SettingKey, SettingValue>) {
    forall k :: k in m ==> Fits(k, m[k])
  }

  function Pick(s: Settings, m: map<SettingKey, SettingValue>, k: SettingKey): SettingValue {
    if k in m then m[k] else Get(s, k)
  }

  /** `{ ...prev, ...presetSettings }`: the supplied keys win, the others are kept. */
  function WithPreset(s: Settings, m: map<SettingKey, SettingValue>): (r: Settings)
    requires WellTyped(m)
    ensures forall k :: Get(r, k) == (if k in m then m[k] else Get(s, k))
  {
    Settings(
      Pick(s, m, AgentEnabled).on,
      Pick(s, m, RiskTolerance).x,
      Pick(s, m, MinCardBalance).x,
      Pick(s, m, EmergencyBuffer).x,
      Pick(s, m, RebalanceFrequency).x,
      Pick(s, m, MaxGasPrice).x,
      Pick(s, m, EnableCrossChain).on,
      Pick(s, m, EnableCardTopUp).on,
      Pick(s, m, NotificationsEnabled).on)
  }

  /** A one-key preset is the same as updating that key. */
  lemma SingleKeyPresetIsUpdate(s: Settings, k: SettingKey, v: SettingValue)
    requires Fits(k, v)
    ensures WithPreset(s, map[k := v]) == Updated(s, k, v)
  {
    SettingsEqualByKeys(WithPreset(s, map[k := v]), Updated(s, k, v));
  }

  /** An empty preset changes nothing. */
  lemma EmptyPresetIsIdentity(s: Settings)
    ensures WithPreset(s, map[]) == s
  {
    SettingsEqualByKeys(WithPreset(s, map[]), s);
  }

  /** The hook's settings record and its saving flag. */
  class AgentSettingsForm {
    var settings: Settings
    var isSaving: bool

    constructor ()
      ensures settings == DefaultSettings() && !isSaving
    {
      settings := DefaultSettings();
      isSaving := false;
    }

    method UpdateSetting(k: SettingKey, v: SettingValue)
      requires Fits(k, v)
      modifies this
      ensures settings == Updated(old(settings), k, v)
      ensures isSaving == old(isSaving)
    {
      settings := Updated(settings, k, v);
    }

    method ApplyPresetSettings(m: map<SettingKey, SettingValue>)
      requires WellTyped(m)
      modifies this
      ensures settings == WithPreset(old(settings), m)
      ensures isSaving == old(isSaving)
    {
      settings := WithPreset(settings, m);
    }

    /** Saving raises the busy flag, waits, and lowers it; the settings are untouched. */
    method HandleSave()
      modifies this
      ensures settings == old(settings) && !isSaving
    {
      isSaving := true;
      isSaving := false;
    }
  }
}
