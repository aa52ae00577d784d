/** `get_config` of `src/configs.py` over the configuration mapping that
    `load_yaml` would have read. A dotted name is split on `.` and only its
    first and last segments are used, as a section and a key in it. */
module Configs {
  import opened Common
  import opened Text

  /** A YAML value. */
  datatype ConfigValue =
    | Null
    | Bool(b: bool)
    | Int(i: int)
    | Real(x: real)
    | Str(s: string)
    | List(items: seq<ConfigValue>)
    | Section(entries: map<string, ConfigValue>)

  type Config = map<string, ConfigValue>

  /** `value[key]` on a YAML value: a missing key in a mapping raises KeyError;
      indexing anything else with a string raises TypeError. */
  function Subscript(v: ConfigValue, key: string): (r: Result<ConfigValue>)
    ensures r.Ok? <==> v.Section? && key in v.entries
    ensures r.Ok? ==> r.value == v.entries[key]
    ensures r.Err? ==> r.error == (if v.Section? then KeyError else TypeError)
  {
    match v
    case Section(m) => if key in m then Ok(m[key]) else Err(KeyError)
    case _ => Err(TypeError)
  }

  /** `get_config(name)`. */
  function GetConfig(cfg: Config, name: string): (r: Result<ConfigValue>)
    ensures r.Err? ==> r.error == KeyError || r.error == TypeError
  {
    if '.' in name then
      var parts := Split(name, '.');
      if parts[0] in cfg then Subscript(cfg[parts[0]], Last(parts)) else Err(KeyError)
    else if name !in cfg then Err(KeyError)
    else Ok(cfg[name])
  }

  /** An undotted name that is present returns its value; an absent one
      raises KeyError. */
  lemma UndottedName(cfg: Config, name: string)
    requires '.' !in name
    ensures name in cfg ==> GetConfig(cfg, name) == Ok(cfg[name])
    ensures name !in cfg ==> GetConfig(cfg, name) == Err(KeyError)
  {
  }

  /** A name `section.key` (neither part dotted) is the key inside the
      section; a missing section or key raises KeyError and a section that is
      not a mapping raises TypeError. */
  lemma {:induction false} SectionKey(cfg: Config, section: string, key: string)
    requires '.' !in section && '.' !in key
    ensures GetConfig(cfg, section + "." + key) ==
              if section in cfg then Subscript(cfg[section], key) else Err(KeyError)
  {
    var name := section + "." + key;
    assert name == section + ['.'] + key;
    assert '.' in name by { assert name[|section|] == '.'; }
    SplitAround(section, '.', key);
    SplitNoSeparator(section, '.');
    SplitNoSeparator(key, '.');
  }

  /** Middle segments are ignored: `a.b.c` resolves exactly like `a.c`. */
  lemma {:induction false} MiddleSegmentsIgnored(cfg: Config, a: string, b: string, c: string)
    requires '.' !in a && '.' !in b && '.' !in c
    ensures GetConfig(cfg, a + "." + b + "." + c) == GetConfig(cfg, a + "." + c)
  {
    var name := a + "." + b + "." + c;
    assert name == a + ['.'] + (b + ['.'] + c);
    assert '.' in name by { assert name[|a|] == '.'; }
    SplitAround(a, '.', b + ['.'] + c);
    SplitAround(b, '.', c);
    SplitNoSeparator(a, '.');
    SplitNoSeparator(b, '.');
    SplitNoSeparator(c, '.');
    SectionKey(cfg, a, c);
  }

  /** A top-level key that itself contains a dot is never what a lookup of
      that name returns: the lookup is the same with the key removed. */
  lemma {:induction false} DottedKeyUnreachable(cfg: Config, name: string)
    requires '.' in name
    ensures GetConfig(cfg, name) == GetConfig(cfg - {name}, name)
  {
    var first := Split(name, '.')[0];
    assert '.' !in first;
    assert first != name;
  }

  /** The lookups the repository's tests perform on a flat mapping. */
  lemma ConfigTestExamples()
    ensures var cfg := map["test1" := Str("test1"), "test2" := Int(10), "test3" := Bool(true),
                           "test4" := List([Int(1), Int(2), Int(3)])];
            GetConfig(cfg, "test1") == Ok(Str("test1")) &&
            GetConfig(cfg, "test2") == Ok(Int(10)) &&
            GetConfig(cfg, "test3") == Ok(Bool(true)) &&
            GetConfig(cfg, "test4") == Ok(List([Int(1), Int(2), Int(3)])) &&
            GetConfig(cfg, "test5") == Err(KeyError)
  {
    var cfg := map["test1" := Str("test1"), "test2" := Int(10), "test3" := Bool(true),
                   "test4" := List([Int(1), Int(2), Int(3)])];
    assert "test1" in cfg && "test5" !in cfg;
  }
}
