/**
 * The exporter's configuration store: a dict of sections, filled with fixed
 * defaults, merged with the configuration file section by section, then
 * overridden from the environment, and read with a nested `get`.
 */
module Config {
  import opened Wrappers
  import opened Values

  /** What opening and `yaml.safe_load`-ing the configuration path gives. */
  datatype ConfigFile =
    | NotFound            // FileNotFoundError, which the loader swallows
    | Unreadable          // any other error of `open` or of the YAML parser, which propagates
    | Loaded(document: Json)

  /** The fixed defaults. */
  function Defaults(): map<string, Json> {
    map[
      "commvault" := Obj(map["api_url" := Str(""), "username" := Str(""), "password" := Str(""), "auth_token" := Str("")]),
      "exporter" := Obj(map["port" := Int(9657), "log_level" := Str("INFO"), "timeout" := Int(30)])
    ]
  }

  /** The defaults as `get` reads them: port 9657, log level "INFO", timeout 30 and empty credentials. */
  lemma DefaultValues()
    ensures WellShaped(Defaults())
    ensures Lookup(Obj(Defaults()), ["exporter", "port"]) == Some(Int(9657))
    ensures Lookup(Obj(Defaults()), ["exporter", "log_level"]) == Some(Str("INFO"))
    ensures Lookup(Obj(Defaults()), ["exporter", "timeout"]) == Some(Int(30))
    ensures Lookup(Obj(Defaults()), ["commvault", "api_url"]) == Some(Str(""))
    ensures Lookup(Obj(Defaults()), ["commvault", "username"]) == Some(Str(""))
    ensures Lookup(Obj(Defaults()), ["commvault", "password"]) == Some(Str(""))
    ensures Lookup(Obj(Defaults()), ["commvault", "auth_token"]) == Some(Str(""))
  {
  }

  /** The two sections the environment overrides write into are dicts. */
  predicate WellShaped(cfg: map<string, Json>) {
    "commvault" in cfg && cfg["commvault"].Obj? && "exporter" in cfg && cfg["exporter"].Obj?
  }

  // ---------------------------------------------------------------------------
  // Nested lookup

  /**
   * `get(*keys)`: each key is looked up in the current value with `{}` as the
   * default; looking a key up in anything but a dict raises AttributeError (None).
   */
  function Lookup(j: Json, keys: seq<string>): Option<Json>
    decreases |keys|
  {
    if keys == [] then Some(j)
    else if !j.Obj? then None
    else Lookup(GetOr(j.fields, keys[0], EmptyObj), keys[1..])
  }

  /** Once a key is missing, every further key is missing too: the answer stays `{}`. */
  lemma {:induction false} LookupInEmpty(keys: seq<string>)
    ensures Lookup(EmptyObj, keys) == Some(EmptyObj)
    decreases |keys|
  {
    if keys != [] {
      LookupInEmpty(keys[1..]);
    }
  }

  /** Looking up `keys + [k]` is looking up `keys`, then `k` in the result. */
  lemma {:induction false} LookupAppend(j: Json, keys: seq<string>, k: string)
    ensures Lookup(j, keys + [k]) ==
      match Lookup(j, keys)
      case None => None
      case Some(v) => if v.Obj? then Some(GetOr(v.fields, k, EmptyObj)) else None
    decreases |keys|
  {
    if keys != [] {
      assert (keys + [k])[1..] == keys[1..] + [k];
      if j.Obj? {
        LookupAppend(GetOr(j.fields, keys[0], EmptyObj), keys[1..], k);
      }
    }
  }

  /** A missing key anywhere along the path makes the answer `{}`. */
  lemma MissingKeyGivesEmpty(cfg: map<string, Json>, keys: seq<string>, i: nat)
    requires i < |keys|
    requires Lookup(Obj(cfg), keys[..i]).Some? && Lookup(Obj(cfg), keys[..i]).value.Obj?
    requires keys[i] !in Lookup(Obj(cfg), keys[..i]).value.fields
    ensures Lookup(Obj(cfg), keys) == Some(EmptyObj)
  {
    LookupAppend(Obj(cfg), keys[..i], keys[i]);
    assert keys[..i] + [keys[i]] == keys[..i + 1];
    LookupSplit(Obj(cfg), keys, i + 1);
    LookupInEmpty(keys[i + 1..]);
  }

  /** Looking up a path is looking up a prefix and then the rest. */
  lemma {:induction false} LookupSplit(j: Json, keys: seq<string>, i: nat)
    requires i <= |keys|
    ensures Lookup(j, keys) ==
      match Lookup(j, keys[..i])
      case None => None
      case Some(v) => Lookup(v, keys[i..])
    decreases i
  {
    if i > 0 {
      if j.Obj? {
        assert keys[..i][1..] == keys[1..][..i - 1];
        assert keys[i..] == keys[1..][i - 1..];
        LookupSplit(GetOr(j.fields, keys[0], EmptyObj), keys[1..], i - 1);
      }
    }
  }

  // ---------------------------------------------------------------------------
  // Merging a loaded configuration

  /**
   * One element of a sequence handed to `dict.update`: a two-element list
   * whose first element is a string, or a two-character string, which is
   * its two characters. Anything else raises (None).
   */
  function AsPair(item: Json): Option<(string, Json)> {
    match item
    case Arr(p) => if |p| == 2 && p[0].Str? then Some((p[0].s, p[1])) else None
    case Str(s) => if |s| == 2 then Some((s[..1], Str(s[1..]))) else None
    case _ => None
  }

  /** The entries `dict.update` takes from a sequence of pairs, a later pair overriding an earlier one. */
  function PairsMap(items: seq<Json>): Option<map<string, Json>>
    decreases |items|
  {
    if items == [] then Some(map[])
    else match PairsMap(items[..|items| - 1])
      case None => None
      case Some(m) =>
        match AsPair(items[|items| - 1])
        case None => None
        case Some(p) => Some(m[p.0 := p.1])
  }

  /**
   * The entries `dict.update(values)` writes: a dict's own entries, a list's
   * pairs, nothing for an empty string, whose characters would each be a
   * one-character element; None, a bool and an int are not iterable.
   */
  function UpdateEntries(values: Json): Option<map<string, Json>> {
    match values
    case Obj(f) => Some(f)
    case Arr(items) => PairsMap(items)
    case Str(s) => if s == "" then Some(map[]) else None
    case _ => None
  }

  /** `self.config[section].update(values)`, which raises (None) unless the section is a dict. */
  function UpdateSection(current: Json, values: Json): Option<Json> {
    if current.Obj? && UpdateEntries(values).Some? then Some(Obj(current.fields + UpdateEntries(values).value)) else None
  }

  /** Every element of `items` is a pair. */
  predicate AllPairs(items: seq<Json>) {
    forall i :: 0 <= i < |items| ==> AsPair(items[i]).Some?
  }

  /** A sequence of pairs is accepted exactly when every element is a pair. */
  lemma {:induction false} PairsAccepted(items: seq<Json>)
    ensures PairsMap(items).Some? <==> AllPairs(items)
    decreases |items|
  {
    if items != [] {
      var n := |items| - 1;
      var init := items[..n];
      PairsAccepted(init);
      assert forall i :: 0 <= i < n ==> init[i] == items[i];
      if PairsMap(init).None? {
        var i :| 0 <= i < n && AsPair(init[i]).None?;
        assert AsPair(items[i]).None?;
      }
    }
  }

  /** The keys `update` writes are exactly those of the pairs. */
  lemma {:induction false} PairsKeys(items: seq<Json>, k: string)
    requires AllPairs(items)
    ensures PairsMap(items).Some?
    ensures k in PairsMap(items).value <==> exists i :: 0 <= i < |items| && AsPair(items[i]).value.0 == k
    decreases |items|
  {
    PairsAccepted(items);
    if items != [] {
      var n := |items| - 1;
      var init := items[..n];
      assert forall i :: 0 <= i < n ==> init[i] == items[i];
      PairsKeys(init, k);
      PairsAccepted(init);
      if k in PairsMap(init).value {
        var i :| 0 <= i < n && AsPair(init[i]).value.0 == k;
        assert AsPair(items[i]).value.0 == k;
      }
    }
  }

  /** A key holds the value of the last pair that names it. */
  lemma {:induction false} PairsLastWins(items: seq<Json>, i: nat)
    requires AllPairs(items) && i < |items|
    requires forall j :: i < j < |items| ==> AsPair(items[j]).value.0 != AsPair(items[i]).value.0
    ensures PairsMap(items).Some?
    ensures AsPair(items[i]).value.0 in PairsMap(items).value
    ensures PairsMap(items).value[AsPair(items[i]).value.0] == AsPair(items[i]).value.1
    decreases |items|
  {
    PairsAccepted(items);
    var n := |items| - 1;
    var init := items[..n];
    assert forall j :: 0 <= j < n ==> init[j] == items[j];
    PairsAccepted(init);
    if i < n {
      PairsLastWins(init, i);
    }
  }

  /** What `update` accepts: a dict, a list of pairs, an empty string; a non-empty string, None, a bool or an int raise. */
  lemma UpdateEntriesCases(values: Json)
    ensures values.Obj? ==> UpdateEntries(values) == Some(values.fields)
    ensures values == Str("") || values == Arr([]) ==> UpdateEntries(values) == Some(map[])
    ensures values.Str? && values.s != "" ==> UpdateEntries(values).None?
    ensures values.Null? || values.Bool? || values.Int? ==> UpdateEntries(values).None?
    ensures values.Arr? ==> (UpdateEntries(values).Some? <==> AllPairs(values.items))
  {
    if values.Arr? {
      PairsAccepted(values.items);
    }
  }

  /** The value of `section` after merging `values` into `cfg`: updated when present, added wholesale otherwise. */
  function MergeSection(cfg: map<string, Json>, section: string, values: Json): Option<Json> {
    if section in cfg then UpdateSection(cfg[section], values) else Some(values)
  }

  /** Every section of `incoming` merges without raising. */
  predicate Mergeable(cfg: map<string, Json>, incoming: map<string, Json>) {
    forall s :: s in incoming ==> MergeSection(cfg, s, incoming[s]).Some?
  }

  predicate MergeableOn(cfg: map<string, Json>, incoming: map<string, Json>, done: set<string>) {
    forall s :: s in done && s in incoming ==> MergeSection(cfg, s, incoming[s]).Some?
  }

  /** `cfg` after the sections `done` of `incoming` have been merged. */
  function MergeDone(cfg: map<string, Json>, incoming: map<string, Json>, done: set<string>): map<string, Json>
    requires MergeableOn(cfg, incoming, done)
  {
    map s | s in cfg.Keys + (done * incoming.Keys) ::
      if s in done && s in incoming then MergeSection(cfg, s, incoming[s]).value else cfg[s]
  }

  /** `cfg` after `_merge_configs(incoming)`. */
  function Merged(cfg: map<string, Json>, incoming: map<string, Json>): map<string, Json>
    requires Mergeable(cfg, incoming)
  {
    MergeDone(cfg, incoming, incoming.Keys)
  }

  /**
   * Merging into an existing section overrides only the keys the new section
   * holds and keeps the others; a new section is added as it is; a section
   * the new configuration does not mention is untouched.
   */
  lemma MergeSemantics(cfg: map<string, Json>, incoming: map<string, Json>, s: string, k: string)
    requires Mergeable(cfg, incoming)
    ensures s in Merged(cfg, incoming) <==> s in cfg || s in incoming
    ensures s in cfg && s !in incoming ==> Merged(cfg, incoming)[s] == cfg[s]
    ensures s !in cfg && s in incoming ==> Merged(cfg, incoming)[s] == incoming[s]
    ensures s in cfg && s in incoming ==>
      var m := Merged(cfg, incoming)[s];
      var u := UpdateEntries(incoming[s]).value;
      m.Obj? && m.fields.Keys == cfg[s].fields.Keys + u.Keys &&
      (k in u ==> m.fields[k] == u[k]) &&
      (k in cfg[s].fields && k !in u ==> m.fields[k] == cfg[s].fields[k])
  {
    if s in cfg && s in incoming {
      assert MergeSection(cfg, s, incoming[s]).Some?;
    }
  }

  /** A merge raises exactly when a section already present is not a dict, or its new value is nothing `update` accepts. */
  lemma MergeableIff(cfg: map<string, Json>, incoming: map<string, Json>)
    ensures Mergeable(cfg, incoming) <==>
      forall s :: s in incoming && s in cfg ==> cfg[s].Obj? && UpdateEntries(incoming[s]).Some?
  {
    if !Mergeable(cfg, incoming) {
      var s :| s in incoming && MergeSection(cfg, s, incoming[s]).None?;
    }
  }

  /** Merging keeps the commvault and exporter sections dicts. */
  lemma MergeKeepsShape(cfg: map<string, Json>, incoming: map<string, Json>, done: set<string>)
    requires WellShaped(cfg) && MergeableOn(cfg, incoming, done)
    ensures WellShaped(MergeDone(cfg, incoming, done))
  {
    if "commvault" in done && "commvault" in incoming {
      assert MergeSection(cfg, "commvault", incoming["commvault"]).Some?;
    }
    if "exporter" in done && "exporter" in incoming {
      assert MergeSection(cfg, "exporter", incoming["exporter"]).Some?;
    }
  }

  /** A section not merged yet is as it was before the merge. */
  lemma MergeDoneOutside(cfg: map<string, Json>, incoming: map<string, Json>, done: set<string>, section: string)
    requires MergeableOn(cfg, incoming, done) && section !in done
    ensures section in MergeDone(cfg, incoming, done) <==> section in cfg
    ensures section in cfg ==> MergeDone(cfg, incoming, done)[section] == cfg[section]
  {
  }

  /** Merging one more section updates only that section. */
  lemma MergeDoneStep(cfg: map<string, Json>, incoming: map<string, Json>, done: set<string>, section: string)
    requires MergeableOn(cfg, incoming, done) && section in incoming && section !in done
    requires MergeSection(cfg, section, incoming[section]).Some?
    ensures MergeableOn(cfg, incoming, done + {section})
    ensures MergeDone(cfg, incoming, done + {section}) ==
      MergeDone(cfg, incoming, done)[section := MergeSection(cfg, section, incoming[section]).value]
  {
    var after := done + {section};
    assert MergeableOn(cfg, incoming, after);
    var a := MergeDone(cfg, incoming, after);
    var b := MergeDone(cfg, incoming, done)[section := MergeSection(cfg, section, incoming[section]).value];
    assert a.Keys == b.Keys;
    forall s | s in a.Keys ensures a[s] == b[s] {
    }
  }

  // ---------------------------------------------------------------------------
  // Environment overrides

  /** One environment override: the variable, where it is stored, and whether `int()` is applied. */
  datatype Override = Override(variable: string, section: string, key: string, numeric: bool)

  /** The overrides in the order the source applies them. */
  const EnvOverrides: seq<Override> := [
    Override("COMMVAULT_API_URL", "commvault", "api_url", false),
    Override("COMMVAULT_USERNAME", "commvault", "username", false),
    Override("COMMVAULT_PASSWORD", "commvault", "password", false),
    Override("EXPORTER_PORT", "exporter", "port", true),
    Override("EXPORTER_LOG_LEVEL", "exporter", "log_level", false),
    Override("EXPORTER_TIMEOUT", "exporter", "timeout", true)
  ]

  /** `if os.getenv(name)`: the variable is set and not empty. */
  predicate IsSet(env: map<string, string>, name: string) {
    name in env && env[name] != ""
  }

  predicate Targets(o: Override) {
    o.section == "commvault" || o.section == "exporter"
  }

  function SetKey(cfg: map<string, Json>, section: string, key: string, v: Json): (r: map<string, Json>)
    requires section in cfg && cfg[section].Obj?
  {
    cfg[section := Obj(cfg[section].fields[key := v])]
  }

  datatype EnvOutcome = EnvOutcome(config: map<string, Json>, ok: bool)

  /**
   * One override applied to `cfg`: an unset variable changes nothing; a set
   * one is stored as a string, or through `int()` for a numeric one. A value
   * that `int()` rejects, or a section that is not a dict, raises.
   */
  function Step(cfg: map<string, Json>, env: map<string, string>, o: Override): (r: EnvOutcome)
    ensures WellShaped(cfg) ==> WellShaped(r.config)
  {
    if !IsSet(env, o.variable) then EnvOutcome(cfg, true)
    else if !(o.section in cfg && cfg[o.section].Obj?) then EnvOutcome(cfg, false)
    else if !o.numeric then EnvOutcome(SetKey(cfg, o.section, o.key, Str(env[o.variable])), true)
    else match ParseInt(env[o.variable])
      case None => EnvOutcome(cfg, false)
      case Some(n) => EnvOutcome(SetKey(cfg, o.section, o.key, Int(n)), true)
  }

  /** The overrides `ovs` applied in order; the first that raises leaves the earlier ones in place and skips the later ones. */
  function ApplyOverrides(cfg: map<string, Json>, env: map<string, string>, ovs: seq<Override>): (r: EnvOutcome)
    ensures WellShaped(cfg) ==> WellShaped(r.config)
    decreases |ovs|
  {
    if ovs == [] then EnvOutcome(cfg, true)
    else
      var s := Step(cfg, env, ovs[0]);
      if !s.ok then s else ApplyOverrides(s.config, env, ovs[1..])
  }

  /** `cfg[section][key]`, or None when either is missing. */
  function Field(cfg: map<string, Json>, section: string, key: string): Json {
    if section in cfg && cfg[section].Obj? then GetOr(cfg[section].fields, key, Null) else Null
  }

  /** The value an override stores for a set variable whose value is acceptable. */
  function OverrideValue(o: Override, value: string): Json
    requires o.numeric ==> ParseInt(value).Some?
  {
    if o.numeric then Int(ParseInt(value).value) else Str(value)
  }

  /** An override whose variable is set and acceptable. */
  predicate Accepted(env: map<string, string>, o: Override) {
    IsSet(env, o.variable) && (o.numeric ==> ParseInt(env[o.variable]).Some?)
  }

  /** A numeric override whose variable is set to something `int()` rejects. */
  predicate Rejected(env: map<string, string>, o: Override) {
    IsSet(env, o.variable) && o.numeric && ParseInt(env[o.variable]).None?
  }

  /** Some override of `ovs` is rejected. */
  predicate AnyRejected(env: map<string, string>, ovs: seq<Override>) {
    exists k :: 0 <= k < |ovs| && Rejected(env, ovs[k])
  }

  lemma AnyRejectedSplit(env: map<string, string>, ovs: seq<Override>)
    requires ovs != []
    ensures AnyRejected(env, ovs) <==> Rejected(env, ovs[0]) || AnyRejected(env, ovs[1..])
  {
    var rest := ovs[1..];
    if AnyRejected(env, ovs) && !Rejected(env, ovs[0]) {
      var k :| 0 <= k < |ovs| && Rejected(env, ovs[k]);
      assert rest[k - 1] == ovs[k];
    }
    if AnyRejected(env, rest) {
      var k :| 0 <= k < |rest| && Rejected(env, rest[k]);
      assert ovs[k + 1] == rest[k];
    }
  }

  /**
   * Over a configuration whose two sections are dicts, the overrides fail
   * exactly when a numeric variable is set to something `int()` rejects.
   */
  lemma {:induction false} OverridesFailIff(cfg: map<string, Json>, env: map<string, string>, ovs: seq<Override>)
    requires WellShaped(cfg) && forall k :: 0 <= k < |ovs| ==> Targets(ovs[k])
    ensures !ApplyOverrides(cfg, env, ovs).ok <==> AnyRejected(env, ovs)
    decreases |ovs|
  {
    if ovs != [] {
      var o := ovs[0];
      var rest := ovs[1..];
      assert Targets(o);
      AnyRejectedSplit(env, ovs);
      var s := Step(cfg, env, o);
      assert s.ok <==> !Rejected(env, o);
      if s.ok {
        assert forall k :: 0 <= k < |rest| ==> Targets(rest[k]) by {
          assert forall k :: 0 <= k < |rest| ==> rest[k] == ovs[k + 1];
        }
        OverridesFailIff(s.config, env, rest);
      }
    }
  }

  /** With no override variable set, the configuration is unchanged. */
  lemma {:induction false} UnsetLeavesConfig(cfg: map<string, Json>, env: map<string, string>, ovs: seq<Override>)
    requires forall k :: 0 <= k < |ovs| ==> !IsSet(env, ovs[k].variable)
    ensures ApplyOverrides(cfg, env, ovs) == EnvOutcome(cfg, true)
    decreases |ovs|
  {
    if ovs != [] {
      assert !IsSet(env, ovs[0].variable);
      UnsetLeavesConfig(cfg, env, ovs[1..]);
    }
  }

  /** No two overrides write the same key. */
  predicate DistinctTargets(ovs: seq<Override>) {
    forall a, b :: 0 <= a < b < |ovs| ==> (ovs[a].section, ovs[a].key) != (ovs[b].section, ovs[b].key)
  }

  /**
   * After successful overrides, the key written by override `i` holds that
   * override's value when its variable is set, and its old value otherwise.
   */
  lemma {:induction false} OverrideResult(cfg: map<string, Json>, env: map<string, string>, ovs: seq<Override>, i: nat)
    requires DistinctTargets(ovs) && i < |ovs|
    requires ApplyOverrides(cfg, env, ovs).ok
    ensures var o := ovs[i];
      var after := ApplyOverrides(cfg, env, ovs).config;
      (IsSet(env, o.variable) ==> Accepted(env, o) && Field(after, o.section, o.key) == OverrideValue(o, env[o.variable])) &&
      (!IsSet(env, o.variable) ==> Field(after, o.section, o.key) == Field(cfg, o.section, o.key))
    decreases |ovs|
  {
    var o := ovs[0];
    var rest := ovs[1..];
    var s := Step(cfg, env, o);
    assert s.ok;
    assert forall k :: 0 <= k < |rest| ==> rest[k] == ovs[k + 1];
    if i == 0 {
      OverrideUntouched(s.config, env, rest, o.section, o.key);
    } else {
      assert DistinctTargets(rest) by {
        forall a, b | 0 <= a < b < |rest| ensures (rest[a].section, rest[a].key) != (rest[b].section, rest[b].key) {
          assert rest[a] == ovs[a + 1] && rest[b] == ovs[b + 1];
        }
      }
      OverrideResult(s.config, env, rest, i - 1);
      assert (o.section, o.key) != (ovs[i].section, ovs[i].key);
      assert Field(s.config, ovs[i].section, ovs[i].key) == Field(cfg, ovs[i].section, ovs[i].key);
    }
  }

  /** Overrides that do not target `(section, key)` leave it as it was. */
  lemma {:induction false} OverrideUntouched(cfg: map<string, Json>, env: map<string, string>, ovs: seq<Override>, section: string, key: string)
    requires forall k :: 0 <= k < |ovs| ==> (ovs[k].section, ovs[k].key) != (section, key)
    ensures Field(ApplyOverrides(cfg, env, ovs).config, section, key) == Field(cfg, section, key)
    decreases |ovs|
  {
    if ovs != [] {
      var s := Step(cfg, env, ovs[0]);
      assert (ovs[0].section, ovs[0].key) != (section, key);
      assert Field(s.config, section, key) == Field(cfg, section, key);
      if s.ok {
        assert forall k :: 0 <= k < |ovs[1..]| ==> ovs[1..][k] == ovs[k + 1];
        OverrideUntouched(s.config, env, ovs[1..], section, key);
      }
    }
  }

  /** The source's six overrides write six different keys; the port and the timeout are stored as ints. */
  lemma EnvOverridesTable()
    ensures DistinctTargets(EnvOverrides)
    ensures forall k :: 0 <= k < |EnvOverrides| ==> Targets(EnvOverrides[k])
    ensures forall k :: 0 <= k < |EnvOverrides| ==>
      (EnvOverrides[k].numeric <==> EnvOverrides[k].key == "port" || EnvOverrides[k].key == "timeout")
  {
  }

  // ---------------------------------------------------------------------------
  // The configuration as a whole

  /** The configuration after reading the file into `cfg`; None when the read or the merge raises. */
  function AfterLoad(cfg: map<string, Json>, file: ConfigFile): Option<map<string, Json>> {
    match file
    case NotFound => Some(cfg)
    case Unreadable => None
    case Loaded(doc) =>
      var loaded := if Truthy(doc) then doc else EmptyObj;
      if loaded.Obj? && Mergeable(cfg, loaded.fields) then Some(Merged(cfg, loaded.fields)) else None
  }

  /** The configuration `__init__` builds; None when it raises. */
  function Initial(file: ConfigFile, env: map<string, string>): Option<map<string, Json>> {
    match AfterLoad(Defaults(), file)
    case None => None
    case Some(cfg) =>
      var r := ApplyOverrides(cfg, env, EnvOverrides);
      if r.ok then Some(r.config) else None
  }

  /** A missing file leaves the defaults, and the environment overrides are still applied to them. */
  lemma MissingFileKeepsDefaults(env: map<string, string>)
    ensures Initial(NotFound, env).Some? <==> ApplyOverrides(Defaults(), env, EnvOverrides).ok
    ensures Initial(NotFound, env).Some? ==> Initial(NotFound, env).value == ApplyOverrides(Defaults(), env, EnvOverrides).config
    ensures (forall k :: 0 <= k < |EnvOverrides| ==> !IsSet(env, EnvOverrides[k].variable)) ==>
      Initial(NotFound, env) == Some(Defaults())
  {
    if forall k :: 0 <= k < |EnvOverrides| ==> !IsSet(env, EnvOverrides[k].variable) {
      UnsetLeavesConfig(Defaults(), env, EnvOverrides);
    }
  }

  /** An empty or false-valued document (`... or {}`) merges nothing. */
  lemma EmptyDocumentKeepsConfig(cfg: map<string, Json>, doc: Json)
    requires !Truthy(doc)
    ensures AfterLoad(cfg, Loaded(doc)) == Some(cfg)
  {
    assert Merged(cfg, map[]) == cfg;
  }

  /** A file that gives a section already held as a dict an empty string or an empty list changes nothing. */
  lemma EmptySectionValueKeepsConfig(cfg: map<string, Json>, s: string, v: Json)
    requires s in cfg && cfg[s].Obj? && (v == Str("") || v == Arr([]))
    ensures AfterLoad(cfg, Loaded(Obj(map[s := v]))) == Some(cfg)
  {
    var incoming := map[s := v];
    assert UpdateEntries(v) == Some(map[]) by {
      assert PairsMap([]) == Some(map[]);
    }
    assert cfg[s].fields + map[] == cfg[s].fields;
    assert MergeSection(cfg, s, v) == Some(cfg[s]);
    assert Mergeable(cfg, incoming);
    var m := Merged(cfg, incoming);
    assert m.Keys == cfg.Keys;
    assert forall t :: t in m ==> m[t] == cfg[t];
    assert m == cfg;
    assert Truthy(Obj(incoming)) by {
      assert s in incoming;
    }
  }

  /** The first three overrides, which never raise, chain into the rest. */
  lemma StepsPrefix(c0: map<string, Json>, c1: map<string, Json>, c2: map<string, Json>, c3: map<string, Json>, env: map<string, string>)
    requires Step(c0, env, EnvOverrides[0]) == EnvOutcome(c1, true)
    requires Step(c1, env, EnvOverrides[1]) == EnvOutcome(c2, true)
    requires Step(c2, env, EnvOverrides[2]) == EnvOutcome(c3, true)
    ensures ApplyOverrides(c0, env, EnvOverrides) == ApplyOverrides(c3, env, EnvOverrides[3..])
  {
    ChainGoesOn(c0, c1, env, 0);
    ChainGoesOn(c1, c2, env, 1);
    ChainGoesOn(c2, c3, env, 2);
  }

  /** An override that succeeds passes its result on to the overrides after it. */
  lemma ChainGoesOn(c: map<string, Json>, c': map<string, Json>, env: map<string, string>, i: nat)
    requires i < |EnvOverrides| && Step(c, env, EnvOverrides[i]) == EnvOutcome(c', true)
    ensures ApplyOverrides(c, env, EnvOverrides[i..]) == ApplyOverrides(c', env, EnvOverrides[i + 1..])
  {
    assert EnvOverrides[i..][0] == EnvOverrides[i] && EnvOverrides[i..][1..] == EnvOverrides[i + 1..];
  }

  /** An override that raises ends the chain with the configuration it was given. */
  lemma ChainStops(c: map<string, Json>, env: map<string, string>, i: nat)
    requires i < |EnvOverrides| && !Step(c, env, EnvOverrides[i]).ok
    ensures ApplyOverrides(c, env, EnvOverrides[i..]) == Step(c, env, EnvOverrides[i])
  {
    assert EnvOverrides[i..][0] == EnvOverrides[i];
  }

  // ---------------------------------------------------------------------------
  // The store

  class ConfigHandler {
    var config: map<string, Json>

    ghost predicate Valid()
      reads this
    {
      WellShaped(config)
    }

    /** `_load_defaults`. */
    constructor ()
      ensures Valid() && config == Defaults()
    {
      config := Defaults();
    }

    /** `_merge_configs`: each section is merged in turn; a section that cannot be updated raises and stops the merge. */
    method MergeConfigs(incoming: map<string, Json>) returns (ok: bool, ghost done: set<string>)
      requires Valid()
      modifies this
      ensures Valid()
      ensures ok == Mergeable(old(config), incoming)
      ensures done <= incoming.Keys && MergeableOn(old(config), incoming, done)
      ensures config == MergeDone(old(config), incoming, done)
      ensures ok ==> done == incoming.Keys
    {
      ghost var start := config;
      var pending := incoming.Keys;
      done := {};
      ok := true;
      while pending != {}
        invariant pending + done == incoming.Keys && pending !! done
        invariant MergeableOn(start, incoming, done)
        invariant config == MergeDone(start, incoming, done)
        invariant WellShaped(config)
        decreases pending
      {
        var section :| section in pending;
        MergeDoneOutside(start, incoming, done, section);
        var merged: Option<Json>;
        if section in config {
          merged := UpdateSection(config[section], incoming[section]);
          if merged.None? {
            ok := false;
            return;
          }
        } else {
          merged := Some(incoming[section]);
        }
        MergeDoneStep(start, incoming, done, section);
        config := config[section := merged.value];
        done := done + {section};
        pending := pending - {section};
        MergeKeepsShape(start, incoming, done);
      }
    }

    /** `_load_config`: a missing file is ignored; `yaml.safe_load(f) or {}` is merged. */
    method LoadConfig(file: ConfigFile) returns (ok: bool)
      requires Valid()
      modifies this
      ensures Valid()
      ensures ok == AfterLoad(old(config), file).Some?
      ensures ok ==> config == AfterLoad(old(config), file).value
    {
      match file
      case NotFound =>
        ok := true;
      case Unreadable =>
        ok := false;
      case Loaded(doc) =>
        var loaded := if Truthy(doc) then doc else EmptyObj;
        if !loaded.Obj? {
          ok := false;
        } else {
          ghost var done;
          ok, done := MergeConfigs(loaded.fields);
        }
    }

    /** One `if os.getenv(variable): self.config[section][key] = ...` block of `_apply_env_overrides`. */
    method OverrideFromEnv(env: map<string, string>, o: Override) returns (ok: bool)
      requires Valid()
      modifies this
      ensures Valid()
      ensures EnvOutcome(config, ok) == Step(old(config), env, o)
      ensures Targets(o) && !o.numeric ==> ok
    {
      ok := true;
      if IsSet(env, o.variable) {
        if !(o.section in config && config[o.section].Obj?) {
          ok := false;
          return;
        }
        if !o.numeric {
          config := SetKey(config, o.section, o.key, Str(env[o.variable]));
        } else {
          var n := ParseInt(env[o.variable]);
          if n.None? {
            ok := false;
            return;
          }
          config := SetKey(config, o.section, o.key, Int(n.value));
        }
      }
    }

    /** `_apply_env_overrides`: the six overrides in order; a rejected `int()` raises and skips the rest. */
    method ApplyEnvOverrides(env: map<string, string>) returns (ok: bool)
      requires Valid()
      modifies this
      ensures Valid()
      ensures EnvOutcome(config, ok) == ApplyOverrides(old(config), env, EnvOverrides)
    {
      EnvOverridesTable();
      ghost var c0 := config;
      ok := OverrideFromEnv(env, EnvOverrides[0]);
      ghost var c1 := config;
      ok := OverrideFromEnv(env, EnvOverrides[1]);
      ghost var c2 := config;
      ok := OverrideFromEnv(env, EnvOverrides[2]);
      ghost var c3 := config;
      StepsPrefix(c0, c1, c2, c3, env);
      ok := OverrideFromEnv(env, EnvOverrides[3]);
      if !ok {
        ChainStops(c3, env, 3);
        return;
      }
      ChainGoesOn(c3, config, env, 3);
      ghost var c4 := config;
      ok := OverrideFromEnv(env, EnvOverrides[4]);
      ChainGoesOn(c4, config, env, 4);
      ghost var c5 := config;
      ok := OverrideFromEnv(env, EnvOverrides[5]);
      if !ok {
        ChainStops(c5, env, 5);
        return;
      }
      ChainGoesOn(c5, config, env, 5);
    }

    /** `get(*keys)`: walks the keys from the whole configuration, with `{}` for a missing key. */
    method Get(keys: seq<string>) returns (r: Option<Json>)
      ensures r == Lookup(Obj(config), keys)
      ensures keys == [] ==> r == Some(Obj(config))
    {
      var result := Obj(config);
      var i := 0;
      while i < |keys|
        invariant 0 <= i <= |keys|
        invariant Lookup(Obj(config), keys) == Lookup(result, keys[i..])
      {
        if !result.Obj? {
          return None;
        }
        result := GetOr(result.fields, keys[i], EmptyObj);
        i := i + 1;
      }
      r := Some(result);
    }
  }

  /** `ConfigHandler(config_path)`: defaults, then the file, then the environment; `ok` is false when `__init__` raises. */
  method NewConfigHandler(file: ConfigFile, env: map<string, string>) returns (h: ConfigHandler, ok: bool)
    ensures fresh(h) && h.Valid()
    ensures ok == Initial(file, env).Some?
    ensures ok ==> h.config == Initial(file, env).value
  {
    h := new ConfigHandler();
    ok := h.LoadConfig(file);
    if !ok {
      return;
    }
    ghost var loaded := h.config;
    ok := h.ApplyEnvOverrides(env);
    InitialAfterLoad(file, env, loaded);
  }

  /** Once the file has been read into `cfg`, `__init__` goes on with the overrides. */
  lemma InitialAfterLoad(file: ConfigFile, env: map<string, string>, cfg: map<string, Json>)
    requires AfterLoad(Defaults(), file) == Some(cfg)
    ensures var r := ApplyOverrides(cfg, env, EnvOverrides);
      Initial(file, env) == if r.ok then Some(r.config) else None
  {
  }
}
