// The scout bot's threshold configuration: the built-in defaults, the
// recursive merge of a user document over them, and the loader's fallbacks
// (a missing, empty, unparsable or non-mapping file gives the defaults).
// The YAML file is a parameter, already parsed.
module ConfigLoaders {

  /** A parsed YAML value. */
  datatype Conf = CDict(m: map<string, Conf>) | CInt(i: int) | CReal(r: real) | CBool(b: bool) | CStr(s: string) | CNone

  const DefaultThresholds: map<string, Conf> := map[
    "version" := CInt(1),
    "cooldown" := CDict(map["minutes" := CInt(10)]),
    "volume" := CDict(map["spike" := CDict(map["enabled" := CBool(true), "window_minutes" := CInt(10),
                                                "ratio_min" := CReal(2.0)])]),
    "turnover" := CDict(map["threshold" := CDict(map["enabled" := CBool(true), "krw_min" := CInt(10000000000)])]),
    "price" := CDict(map["jump_drop" := CDict(map["enabled" := CBool(true), "pct_min" := CReal(3.0),
                                                   "base_price" := CStr("prev_close")])]),
    "day_range" := CDict(map["high_break" := CDict(map["enabled" := CBool(true)]),
                             "low_break" := CDict(map["enabled" := CBool(true)])])
  ]

  /** What the merge keeps under key `k`, which either side holds: a key
      both sides map to a mapping is merged recursively, any other key the
      user gives takes the user's value, and the rest keep the default. */
  function MergedAt(default: map<string, Conf>, user: map<string, Conf>, k: string): Conf
    requires k in default || k in user
    decreases CDict(user), 0
  {
    if k in user then
      if k in default && default[k].CDict? && user[k].CDict? then CDict(Merged(default[k].m, user[k].m))
      else user[k]
    else default[k]
  }

  /** The merge `_merge_config` computes: every key of either side, each
      with `MergedAt`. */
  function Merged(default: map<string, Conf>, user: map<string, Conf>): map<string, Conf>
    decreases CDict(user), 1
  {
    map k | k in default.Keys + user.Keys :: MergedAt(default, user, k)
  }

  /** The merge loop's state after the user keys outside `todo` are done:
      those keys hold their merged value and every other key its default. */
  predicate MergeProgress(default: map<string, Conf>, user: map<string, Conf>,
                          todo: set<string>, result: map<string, Conf>)
  {
    todo <= user.Keys
    && result.Keys == default.Keys + (user.Keys - todo)
    && forall k :: k in result ==>
         result[k] == if k in user && k !in todo then MergedAt(default, user, k) else default[k]
  }

  lemma MergeProgressStep(default: map<string, Conf>, user: map<string, Conf>,
                          todo: set<string>, result: map<string, Conf>, key: string)
    requires MergeProgress(default, user, todo, result) && key in todo
    ensures key in result <==> key in default
    ensures key in result ==> result[key] == default[key]
    ensures MergeProgress(default, user, todo - {key}, result[key := MergedAt(default, user, key)])
  {
  }

  lemma MergeProgressDone(default: map<string, Conf>, user: map<string, Conf>, result: map<string, Conf>)
    requires MergeProgress(default, user, {}, result)
    ensures result == Merged(default, user)
  {
    assert result.Keys == Merged(default, user).Keys;
  }

  /** `_merge_config`: copies the defaults, then walks the user's keys,
      recursing where both values are mappings and overwriting otherwise. */
  method MergeConfig(default: map<string, Conf>, user: map<string, Conf>) returns (result: map<string, Conf>)
    ensures result == Merged(default, user)
    decreases CDict(user)
  {
    result := default;
    var todo := user.Keys;
    while todo != {}
      invariant MergeProgress(default, user, todo, result)
      decreases |todo|
    {
      var key :| key in todo;
      MergeProgressStep(default, user, todo, result, key);
      var value := user[key];
      if key in result && result[key].CDict? && value.CDict? {
        var sub := MergeConfig(result[key].m, value.m);
        result := result[key := CDict(sub)];
      } else {
        result := result[key := value];
      }
      todo := todo - {key};
    }
    MergeProgressDone(default, user, result);
  }

  /** Merging keeps every default key, takes every user key, and lets a
      user value that is not a mapping (or that meets a non-mapping default)
      replace the default outright. */
  lemma MergedKeys(default: map<string, Conf>, user: map<string, Conf>, k: string)
    ensures k in Merged(default, user) <==> k in default || k in user
    ensures k !in user && k in default ==> Merged(default, user)[k] == default[k]
    ensures k in user && !(k in default && default[k].CDict? && user[k].CDict?) ==> Merged(default, user)[k] == user[k]
  {
  }

  /** Merging a document with nothing, or with itself, gives it back. */
  lemma {:induction false} MergedNeutral(default: map<string, Conf>)
    ensures Merged(default, map[]) == default
    ensures Merged(default, default) == default
    decreases CDict(default)
  {
    forall k | k in default && default[k].CDict?
      ensures Merged(default[k].m, default[k].m) == default[k].m
    {
      MergedNeutral(default[k].m);
    }
    assert Merged(default, default).Keys == default.Keys;
    assert Merged(default, map[]).Keys == default.Keys;
  }

  /** The configuration file, as the loader sees it. */
  datatype YamlFile = NoFile | Parsed(doc: Conf) | ParseError | ReadError

  /** `load_event_thresholds`: the defaults unless the file parses to a
      mapping, which is merged over them. */
  function LoadEventThresholds(file: YamlFile): (r: map<string, Conf>)
    ensures !(file.Parsed? && file.doc.CDict?) ==> r == DefaultThresholds
    ensures file.Parsed? && file.doc.CDict? ==> r == Merged(DefaultThresholds, file.doc.m)
    ensures forall k :: k in DefaultThresholds ==> k in r
  {
    if file.Parsed? && file.doc.CDict? then Merged(DefaultThresholds, file.doc.m)
    else DefaultThresholds
  }

  // ---------------------------------------------------------------------
  // Reading the configuration the way its users do, with `.get` defaults
  // ---------------------------------------------------------------------

  /** `c.get(key, {})`: a sub-mapping, or an empty one. */
  function Section(c: map<string, Conf>, key: string): (s: map<string, Conf>)
    ensures key !in c ==> s == map[]
  {
    if key in c && c[key].CDict? then c[key].m else map[]
  }

  /** Python truthiness of a configuration value. */
  predicate Truthy(v: Conf)
  {
    match v
    case CDict(m) => m != map[]
    case CInt(i) => i != 0
    case CReal(r) => r != 0.0
    case CBool(b) => b
    case CStr(s) => s != ""
    case CNone => false
  }

  /** `c.get("enabled", True)`, as a condition. */
  predicate Enabled(c: map<string, Conf>)
  {
    "enabled" !in c || Truthy(c["enabled"])
  }

  /** A numeric setting, or `default` when it is absent or not a number. */
  function RealOr(c: map<string, Conf>, key: string, default: real): real
  {
    if key in c && c[key].CInt? then c[key].i as real
    else if key in c && c[key].CReal? then c[key].r
    else default
  }

  function IntOr(c: map<string, Conf>, key: string, default: int): int
  {
    if key in c && c[key].CInt? then c[key].i else default
  }

  function StrOr(c: map<string, Conf>, key: string, default: string): string
  {
    if key in c && c[key].CStr? then c[key].s else default
  }
}
