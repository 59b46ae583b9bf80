/**
 * The start of pgmountd (main.go) and pgmount: where the configuration
 * comes from, and how the command-line flags override it.
 */
module Startup {
  import opened Wrappers
  import opened Config

  /** Where the configuration comes from. */
  datatype ConfigSource =
    | BuiltIn                 // Default()
    | LoadFile(path: string)  // config.Load(path); the YAML reading itself is not modelled
    | NoHome                  // the home directory is unknown: an error

  const ConfigSuffix: string := "/.config/pgmount/config.yml"

  /**
   * loadConfig: -no-config gives the defaults; otherwise the file named by
   * -config, or the one under the home directory, is loaded when it exists
   * and the defaults are used when it does not. `home` is None when the
   * home directory cannot be found; `existing` is the set of files present.
   */
  function LoadConfigSource(noConfig: bool, configFile: string, home: Option<string>, existing: set<string>): (r: ConfigSource)
    ensures noConfig ==> r == BuiltIn
    ensures r.NoHome? <==> !noConfig && configFile == "" && home.None?
    ensures r.LoadFile? ==> r.path in existing && (r.path == configFile || (configFile == "" && r.path == home.value + ConfigSuffix))
    ensures !noConfig && configFile != "" ==> r == if configFile in existing then LoadFile(configFile) else BuiltIn
  {
    if noConfig then BuiltIn
    else if configFile == "" && home.None? then NoHome
    else
      var path := if configFile != "" then configFile else home.value + ConfigSuffix;
      if path !in existing then BuiltIn else LoadFile(path)
  }

  /** With -no-config the filesystem and the home directory are not consulted. */
  lemma NoConfigIgnoresFilesystem(configFile: string, home: Option<string>, existing: set<string>,
                                  configFile': string, home': Option<string>, existing': set<string>)
    ensures LoadConfigSource(true, configFile, home, existing) == LoadConfigSource(true, configFile', home', existing')
  {
  }

  /** Without -config, the file under the home directory is used exactly when it exists. */
  lemma HomeConfigUsed(home: string, existing: set<string>)
    ensures LoadConfigSource(false, "", Some(home), existing)
      == if home + ConfigSuffix in existing then LoadFile(home + ConfigSuffix) else BuiltIn
  {
  }

  /** The flags of pgmountd that change the configuration. */
  datatype Flags = Flags(
    automount: bool,      // -automount, true unless given as false
    noAutomount: bool,
    notify: bool,         // -notify, true unless given as false
    noNotify: bool,
    tray: bool,
    autoTray: bool,
    noTray: bool,
    verbose: bool,
    quiet: bool)

  /**
   * applyFlags: -no-automount forces automount off; otherwise, while
   * -automount keeps its default true, automount is switched on whatever the
   * file says, and only -automount=false keeps the file's value. The same
   * rule governs notifications. For the tray, -no-tray wins over -tray,
   * which wins over -auto-tray. -verbose and -quiet only ever switch their
   * settings on. Nothing else changes.
   */
  method ApplyFlags(cfg: Config, f: Flags) returns (c: Config)
    ensures c.automount == if f.noAutomount then false else if f.automount then true else cfg.automount
    ensures c.notifications.enabled == if f.noNotify then false else if f.notify then true else cfg.notifications.enabled
    ensures f.noTray ==> !c.tray.enabled && c.tray.autoHide == cfg.tray.autoHide
    ensures !f.noTray && f.tray ==> c.tray.enabled && !c.tray.autoHide
    ensures !f.noTray && !f.tray && f.autoTray ==> c.tray.enabled && c.tray.autoHide
    ensures !f.noTray && !f.tray && !f.autoTray ==> c.tray == cfg.tray
    ensures c.verbose == (cfg.verbose || f.verbose) && c.quiet == (cfg.quiet || f.quiet)
    ensures c.tray.iconName == cfg.tray.iconName
    ensures c.notifications.(enabled := cfg.notifications.enabled) == cfg.notifications
    ensures c.(automount := cfg.automount, verbose := cfg.verbose, quiet := cfg.quiet,
               notifications := cfg.notifications, tray := cfg.tray) == cfg
  {
    var automount := SwitchSetting(cfg.automount, f.automount, f.noAutomount);
    var notify := SwitchSetting(cfg.notifications.enabled, f.notify, f.noNotify);
    var tray := TraySetting(cfg.tray, f);
    c := cfg.(automount := automount,
              notifications := cfg.notifications.(enabled := notify),
              tray := tray,
              verbose := cfg.verbose || f.verbose,
              quiet := cfg.quiet || f.quiet);
  }

  /** The rule shared by -automount/-no-automount and -notify/-no-notify. */
  method SwitchSetting(fromFile: bool, flag: bool, negated: bool) returns (r: bool)
    ensures r == if negated then false else if flag then true else fromFile
  {
    r := fromFile;
    if negated {
      r := false;
    } else if flag {
      r := flag;
    }
  }

  /** The tray part of applyFlags. */
  method TraySetting(t: TrayConfig, f: Flags) returns (r: TrayConfig)
    ensures f.noTray ==> r == t.(enabled := false)
    ensures !f.noTray && f.tray ==> r == t.(enabled := true, autoHide := false)
    ensures !f.noTray && !f.tray && f.autoTray ==> r == t.(enabled := true, autoHide := true)
    ensures !f.noTray && !f.tray && !f.autoTray ==> r == t
  {
    r := t;
    if f.noTray {
      r := r.(enabled := false);
    } else if f.tray {
      r := r.(enabled := true, autoHide := false);
    } else if f.autoTray {
      r := r.(enabled := true, autoHide := true);
    }
  }
}
