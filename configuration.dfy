/**
  The configuration store: values filed under a (section, key) pair, such as
  ("provisioning", "local.install.dir"). Scope layering is flattened away; the
  store is one map that `Add` overwrites key by key.
 */
module Configuration {
  import opened Outcomes

  datatype Key = Key(section: string, name: string)

  /** Configuration values are strings, booleans or ordered lists of paths. */
  datatype Value = Text(text: string) | Flag(flag: bool) | Paths(paths: seq<string>)

  type Entries = map<Key, Value>

  /** The value filed under (section, name); an absent key is an error. */
  function Lookup(cfg: Entries, section: string, name: string): (r: Result<Value>)
    ensures r.Ok? <==> Key(section, name) in cfg
    ensures r.Ok? ==> r.value == cfg[Key(section, name)]
    ensures r.Err? ==> r.error == MissingKey(section, name)
  {
    if Key(section, name) in cfg then Ok(cfg[Key(section, name)])
    else Err(MissingKey(section, name))
  }

  /** A mandatory string-valued key. */
  function RequireText(cfg: Entries, section: string, name: string): (r: Result<string>)
    ensures r.Ok? <==> Key(section, name) in cfg && cfg[Key(section, name)].Text?
    ensures r.Ok? ==> r.value == cfg[Key(section, name)].text
    ensures r.Err? ==> r.error == if Key(section, name) in cfg then WrongType(section, name)
                                  else MissingKey(section, name)
  {
    var v :- Lookup(cfg, section, name);
    if v.Text? then Ok(v.text) else Err(WrongType(section, name))
  }

  /** A mandatory boolean-valued key. */
  function RequireFlag(cfg: Entries, section: string, name: string): (r: Result<bool>)
    ensures r.Ok? <==> Key(section, name) in cfg && cfg[Key(section, name)].Flag?
    ensures r.Ok? ==> r.value == cfg[Key(section, name)].flag
    ensures r.Err? ==> r.error == if Key(section, name) in cfg then WrongType(section, name)
                                  else MissingKey(section, name)
  {
    var v :- Lookup(cfg, section, name);
    if v.Flag? then Ok(v.flag) else Err(WrongType(section, name))
  }

  /** An optional list-valued key that reads as the empty list when absent. */
  function OptionalPaths(cfg: Entries, section: string, name: string): (r: Result<seq<string>>)
    ensures Key(section, name) !in cfg ==> r == Ok([])
    ensures Key(section, name) in cfg ==>
              if cfg[Key(section, name)].Paths? then r == Ok(cfg[Key(section, name)].paths)
              else r == Err(WrongType(section, name))
  {
    match Lookup(cfg, section, name)
    case Err(_) => Ok([])
    case Ok(v) => if v.Paths? then Ok(v.paths) else Err(WrongType(section, name))
  }

  /** The store the Provisioner reads from and writes its resolved binary path into. */
  class Config {
    var entries: Entries

    constructor ()
      ensures entries == map[]
    {
      entries := map[];
    }

    /** Files `value` under (section, name), replacing any earlier value. */
    method Add(section: string, name: string, value: Value)
      modifies this
      ensures entries == old(entries)[Key(section, name) := value]
    {
      entries := entries[Key(section, name) := value];
    }

    /** Reads the value under (section, name); an absent key is an error. */
    function Opts(section: string, name: string): (r: Result<Value>)
      reads this
      ensures r.Ok? <==> Key(section, name) in entries
      ensures r.Ok? ==> r.value == entries[Key(section, name)]
    {
      Lookup(entries, section, name)
    }
  }
}
