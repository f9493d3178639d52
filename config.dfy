/**
 * The option lookup of the plugin's `ConfigManager`: a command-line flag,
 * then the pytest ini file, then the TestRail config file, then a default.
 */
module Config {
  import opened Wrappers

  /** The Python values an option can take. */
  datatype PyValue = PyNone | PyBool(b: bool) | PyInt(i: int) | PyStr(s: string)

  /** Python truthiness: `None`, `False`, `0` and `''` are falsy. */
  predicate Truthy(v: PyValue) {
    match v
    case PyNone => false
    case PyBool(b) => b
    case PyInt(i) => i != 0
    case PyStr(s) => s != ""
  }

  /**
   * What pytest reports: `cli` maps an option name such as `--tr-url` to
   * its value (an option that was not given reads as the default it was
   * registered with, which may itself be `None`) and `ini` holds the pytest
   * ini entries.
   */
  datatype PytestConfig = PytestConfig(cli: map<string, PyValue>, ini: map<string, PyValue>)

  /** A parsed config file: the raw text of each `(section, option)` present. */
  type CfgFile = map<(string, string), string>

  /**
   * `configparser`'s reading of a boolean entry, outside this model: the
   * boolean, or `None` when the text is not a boolean (`getboolean` raises
   * `ValueError`).
   */
  type BoolReader = string -> Option<bool>

  datatype ConfigManager = ConfigManager(cfgFile: Option<CfgFile>, config: PytestConfig)

  /**
   * `ConfigManager(cfg_file_path, config)`: the config file is read exactly
   * when the path is an existing file or a symbolic link; `parsed` is what
   * reading it yields.
   */
  function NewConfigManager(isFile: bool, isLink: bool, parsed: CfgFile, config: PytestConfig): (m: ConfigManager)
    ensures m.cfgFile.Some? <==> isFile || isLink
    ensures m.cfgFile.Some? ==> m.cfgFile.value == parsed
    ensures m.config == config
  {
    ConfigManager(if isFile || isLink then Some(parsed) else None, config)
  }

  function CliValue(c: PytestConfig, flag: string): PyValue {
    var key := "--" + flag;
    if key in c.cli then c.cli[key] else PyNone
  }

  function IniValue(c: PytestConfig, flag: string): PyValue {
    if flag in c.ini then c.ini[flag] else PyNone
  }

  /** `cli or ini.get(flag)`: a falsy command-line value gives way to the ini value, even to `None`. */
  function CliOrIni(c: PytestConfig, flag: string): (v: PyValue)
    ensures Truthy(CliValue(c, flag)) ==> v == CliValue(c, flag)
    ensures !Truthy(CliValue(c, flag)) ==> v == IniValue(c, flag)
  {
    var cli := CliValue(c, flag);
    if Truthy(cli) then cli else IniValue(c, flag)
  }

  /** The config-file entry, read as a boolean when `isBool`. */
  function FileValue(text: string, isBool: bool, readBool: BoolReader): Ret<PyValue> {
    if !isBool then Returned(PyStr(text))
    else
      var b := readBool(text);
      if b.Some? then Returned(PyBool(b.value)) else Raised(ValueError)
  }

  /** `getoption(flag, cfg_name, section, is_bool, default)`. */
  function GetOption(m: ConfigManager, flag: string, cfgName: string, section: Option<string>,
                     isBool: bool, default: PyValue, readBool: BoolReader): (r: Ret<PyValue>)
    ensures Truthy(CliValue(m.config, flag)) ==> r == Returned(CliValue(m.config, flag))
    ensures !Truthy(CliValue(m.config, flag)) && IniValue(m.config, flag) != PyNone ==>
      r == Returned(IniValue(m.config, flag))
    ensures CliOrIni(m.config, flag) == PyNone && (section.None? || m.cfgFile.None?) ==> r == Returned(default)
    ensures CliOrIni(m.config, flag) == PyNone && section.Some? && m.cfgFile.Some? ==>
      var key := (section.value, cfgName);
      r == if key in m.cfgFile.value then FileValue(m.cfgFile.value[key], isBool, readBool) else Returned(default)
    ensures r.Raised? ==> isBool && r.error == ValueError
  {
    var value := CliOrIni(m.config, flag);
    if value != PyNone then Returned(value)
    else if section.None? || m.cfgFile.None? then Returned(default)
    else
      var key := (section.value, cfgName);
      if key in m.cfgFile.value then FileValue(m.cfgFile.value[key], isBool, readBool)
      else Returned(default)
  }

  /**
   * A falsy command-line value counts for nothing: the lookup answers as if
   * the flag had not been given.
   */
  lemma FalsyCliIgnored(m: ConfigManager, flag: string, cfgName: string, section: Option<string>,
                        isBool: bool, default: PyValue, readBool: BoolReader)
    requires !Truthy(CliValue(m.config, flag))
    ensures var unset := m.(config := m.config.(cli := m.config.cli - {"--" + flag}));
      GetOption(m, flag, cfgName, section, isBool, default, readBool)
        == GetOption(unset, flag, cfgName, section, isBool, default, readBool)
  {
    var unset := m.(config := m.config.(cli := m.config.cli - {"--" + flag}));
    assert CliValue(unset.config, flag) == PyNone;
  }

  /**
   * A set command-line or ini value hides the config file and the default:
   * any other file, or none, gives the same answer.
   */
  lemma HigherSourceWins(m: ConfigManager, other: Option<CfgFile>, flag: string, cfgName: string,
                         section: Option<string>, isBool: bool, default: PyValue, otherDefault: PyValue,
                         readBool: BoolReader)
    requires CliOrIni(m.config, flag) != PyNone
    ensures GetOption(m, flag, cfgName, section, isBool, default, readBool)
         == GetOption(m.(cfgFile := other), flag, cfgName, section, isBool, otherDefault, readBool)
    ensures GetOption(m, flag, cfgName, section, isBool, default, readBool) == Returned(CliOrIni(m.config, flag))
  {
  }

  /**
   * The config file is consulted only when neither the command line nor the
   * ini file yields a value, and then only the entry `(section, cfgName)`.
   */
  lemma FileConsultedLast(m: ConfigManager, flag: string, cfgName: string, section: Option<string>,
                          isBool: bool, default: PyValue, readBool: BoolReader)
    requires GetOption(m, flag, cfgName, section, isBool, default, readBool) != Returned(default)
    requires GetOption(m, flag, cfgName, section, isBool, default, readBool) != Returned(CliOrIni(m.config, flag))
    ensures CliOrIni(m.config, flag) == PyNone && section.Some? && m.cfgFile.Some?
    ensures (section.value, cfgName) in m.cfgFile.value
    ensures GetOption(m, flag, cfgName, section, isBool, default, readBool)
         == FileValue(m.cfgFile.value[(section.value, cfgName)], isBool, readBool)
  {
  }
}
