/** The configuration record: a flat map of option names to values. */
module Settings {
  import opened Json

  type Config = map<string, Value>

  const CurrentBankKey := "currentBank"
  const DifficultyAdjustKey := "difficultyAdjust"
  const DefaultBank := "words.txt"

  /** The defaults `loadConfig` starts from. */
  const DefaultConfig: Config := map[
    CurrentBankKey := Str(DefaultBank),
    "autoDelay" := Num(1.5),
    "soundEffects" := Bool(true),
    "showHints" := Bool(true),
    DifficultyAdjustKey := Bool(true),
    "randomSelection" := Bool(true)
  ]

  /** A shallow object spread `{ ...base, ...patch }`: the patch wins on shared keys. */
  function Merge(base: Config, patch: Config): (r: Config)
    ensures r.Keys == base.Keys + patch.Keys
    ensures forall k :: k in patch ==> r[k] == patch[k]
    ensures forall k :: k in base && k !in patch ==> r[k] == base[k]
  {
    base + patch
  }

  /**
   * `loadConfig`: the stored options merged over the defaults; a missing or
   * unparseable slot gives the defaults alone.
   */
  function LoadConfig(slot: Slot<Config>): (r: Config)
    ensures DefaultConfig.Keys <= r.Keys
    ensures slot.Parsed? ==> r.Keys == DefaultConfig.Keys + slot.value.Keys
    ensures slot.Parsed? ==> forall k :: k in slot.value ==> r[k] == slot.value[k]
    ensures !slot.Parsed? ==> r == DefaultConfig
    ensures forall k :: k in DefaultConfig && !(slot.Parsed? && k in slot.value) ==> r[k] == DefaultConfig[k]
  {
    if slot.Parsed? then Merge(DefaultConfig, slot.value) else DefaultConfig
  }

  /**
   * Saving a configuration and loading it again gives it back exactly when it
   * holds every default key; otherwise loading fills the missing ones in.
   */
  lemma ReloadRoundTrip(c: Config)
    ensures LoadConfig(Parsed(c)) == c <==> DefaultConfig.Keys <= c.Keys
  {
  }

  /** Reading an option as a condition: a missing key is `undefined`, which is falsy. */
  predicate Enabled(c: Config, key: string): (b: bool)
    ensures key !in c ==> !b
    ensures key in c ==> (b <==> Truthy(c[key]))
  {
    key in c && Truthy(c[key])
  }

  /**
   * Difficulty adjustment is on after loading unless the stored options set
   * `difficultyAdjust` to a falsy value.
   */
  lemma AdjustOnUnlessStoredOff(slot: Slot<Config>)
    ensures Enabled(LoadConfig(slot), DifficultyAdjustKey) <==>
              !(slot.Parsed? && DifficultyAdjustKey in slot.value && !Truthy(slot.value[DifficultyAdjustKey]))
  {
  }

  /** `config.currentBank || 'words.txt'`: the bank the data manager starts with. */
  function BankOf(c: Config): (r: Value)
    ensures Truthy(r)
    ensures Enabled(c, CurrentBankKey) ==> r == c[CurrentBankKey]
    ensures !Enabled(c, CurrentBankKey) ==> r == Str(DefaultBank)
  {
    if Enabled(c, CurrentBankKey) then c[CurrentBankKey] else Str(DefaultBank)
  }
}
