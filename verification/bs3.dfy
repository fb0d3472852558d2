/** The `BS3` extension object: its default configuration, its bundled
    assets, and the loading of the configuration at start-up. */
module Bs3 {
  import opened Py

  /** The default value of every option. */
  function DefaultConfig(): map<string, Value>
  {
    map[
      "set_as_default_style" := Bool(true),
      "static_folder" := Str("bs3"),
      "date_format" := Str("DD/MM/YYYY"),
      "time_format" := Str("HH:mm:ss"),
      "datetime_format" := Str("DD/MM/YYYY HH:mm:ss"),
      "time_pickseconds" := Bool(true),
      "icon_time" := Str("fa fa-clock-o"),
      "icon_date" := Str("fa fa-calendar"),
      "icon_up" := Str("fa fa-arrow-up"),
      "icon_down" := Str("fa fa-arrow-down")]
  }

  /** The asset files shipped with the extension, in the order they are included. */
  const Assets: seq<string> := [
    "bootstrap.min.js",
    "bootstrap.min.css",
    "moment.min.js",
    "bootstrap-datetimepicker.min.js",
    "bootstrap-datetimepicker.min.css"
  ]

  /** Setting one more option `k` to `d.get(k, v)` extends the defaults filled so far by `k`. */
  lemma FillStep(d: map<string, Value>, defaults: map<string, Value>, pending: set<string>, k: string)
    requires k in pending && k in defaults
    ensures var before := WithDefaults(d, defaults - pending);
            WithDefaults(d, defaults - (pending - {k})) == before[k := Get(before, k, defaults[k])]
  {
  }

  class Extension {
    /** The application's configuration of this extension (weppy's `sdict`). */
    var config: map<string, Value>

    constructor (config: map<string, Value>)
      ensures this.config == config
    {
      this.config := config;
    }

    /** Fills every missing option with its default; options the user set
        keep their value, whatever it is. */
    method LoadConfig()
      modifies this
      ensures config == WithDefaults(old(config), DefaultConfig())
    {
      var defaults := DefaultConfig();
      var pending := defaults.Keys;
      assert defaults - pending == map[];
      while pending != {}
        invariant pending <= defaults.Keys
        invariant config == WithDefaults(old(config), defaults - pending)
        decreases pending
      {
        var key :| key in pending;
        FillStep(old(config), defaults, pending, key);
        config := config[key := Get(config, key, defaults[key])];
        pending := pending - {key};
      }
      assert defaults - pending == defaults;
    }
  }

  /** `config.<key>` on the loaded configuration: the user's value when the
      user set the option, otherwise the default. */
  lemma LoadedOption(user: map<string, Value>, key: string)
    requires key in DefaultConfig()
    ensures key in WithDefaults(user, DefaultConfig())
    ensures WithDefaults(user, DefaultConfig())[key] == Get(user, key, DefaultConfig()[key])
  {
  }

  /** The asset URLs can always be built from the loaded configuration unless
      the user set `static_folder` to something that is not a string. */
  lemma LoadedStaticFolderIsString(user: map<string, Value>)
    requires "static_folder" in user ==> user["static_folder"].Str?
    ensures Get(WithDefaults(user, DefaultConfig()), "static_folder", Null).Str?
  {
  }
}
