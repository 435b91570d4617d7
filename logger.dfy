// The structured logger of backend-node/services/logger.js: the minimum level
// chosen from the environment, the level filter and console stream of `log`,
// the development and production line formats, and `redact`. The environment
// is read once, so it is a parameter here; the clock and `JSON.stringify` are
// parameters too.

module Logger {
  import opened Common
  import opened Js

  /** `LOG_LEVELS[level]`: the rank of a level name, if it is one of the four. */
  function LevelRank(level: string): (r: Option<int>)
    ensures r.Some? ==> 0 <= r.value <= 3
  {
    if level == "debug" then Some(0)
    else if level == "info" then Some(1)
    else if level == "warn" then Some(2)
    else if level == "error" then Some(3)
    else None
  }

  /** The environment the logger reads at load time; an empty `LOG_LEVEL` counts as unset. */
  datatype Environment = Environment(nodeEnv: string, logLevel: string)

  /** What the logger settles on at load time. */
  datatype Config = Config(isProduction: bool, minLevel: int)

  /** `configuredLevel`: `LOG_LEVEL`, else `info` in production and `debug` elsewhere, lower-cased. */
  function ConfiguredLevel(env: Environment): string
  {
    var isProduction := env.nodeEnv == "production";
    ToLower(if env.logLevel != "" then env.logLevel else if isProduction then "info" else "debug")
  }

  /** `minLevel`: the rank of the configured level, `info`'s rank when it names no level. */
  function Configure(env: Environment): (c: Config)
    ensures c.isProduction <==> env.nodeEnv == "production"
    ensures 0 <= c.minLevel <= 3
    ensures LevelRank(ConfiguredLevel(env)).None? ==> c.minLevel == 1
    ensures LevelRank(ConfiguredLevel(env)).Some? ==> c.minLevel == LevelRank(ConfiguredLevel(env)).value
  {
    var rank := LevelRank(ConfiguredLevel(env));
    Config(env.nodeEnv == "production", if rank.Some? then rank.value else 1)
  }

  /**
   * Without `LOG_LEVEL`, production logs from `info` up and every other
   * environment logs everything; an unknown `LOG_LEVEL` means `info`.
   */
  lemma DefaultLevels(nodeEnv: string)
    ensures Configure(Environment("production", "")).minLevel == 1
    ensures nodeEnv != "production" ==> Configure(Environment(nodeEnv, "")).minLevel == 0
    ensures Configure(Environment(nodeEnv, "verbose")).minLevel == 1
  {
    ProductionDefault();
    OtherDefault(nodeEnv);
    UnknownLevel(nodeEnv);
  }

  lemma ProductionDefault()
    ensures Configure(Environment("production", "")).minLevel == 1
  {
    assert ToLower("info") == "info";
  }

  lemma OtherDefault(nodeEnv: string)
    ensures nodeEnv != "production" ==> Configure(Environment(nodeEnv, "")).minLevel == 0
  {
    assert ToLower("debug") == "debug";
  }

  lemma UnknownLevel(nodeEnv: string)
    ensures Configure(Environment(nodeEnv, "verbose")).minLevel == 1
  {
    assert ToLower("verbose") == "verbose";
  }

  /**
   * The filter of `log`: `LOG_LEVELS[level] < minLevel` drops the message. An
   * unknown level compares `undefined`, which is never less, so it is kept.
   */
  predicate Emitted(config: Config, level: string)
  {
    match LevelRank(level)
    case None => true
    case Some(rank) => !(rank < config.minLevel)
  }

  /** A level at least as severe as an emitted one is emitted too. */
  lemma EmittedUpward(config: Config, a: string, b: string)
    requires LevelRank(a).Some? && LevelRank(b).Some? && LevelRank(a).value <= LevelRank(b).value
    ensures Emitted(config, a) ==> Emitted(config, b)
  {
  }

  /** `error` is always emitted: no configuration ranks above it. */
  lemma ErrorsAlwaysEmitted(env: Environment)
    ensures Emitted(Configure(env), "error")
  {
  }

  datatype Stream = ErrorStream | WarnStream | LogStream

  /** The `switch` of `log`. */
  function StreamOf(level: string): (s: Stream)
    ensures s == ErrorStream <==> level == "error"
    ensures s == WarnStream <==> level == "warn"
  {
    if level == "error" then ErrorStream else if level == "warn" then WarnStream else LogStream
  }

  /** `Object.keys(meta).length`. */
  function KeyCount(meta: Value): nat
  {
    match meta
    case Obj(entries) => |entries|
    case Arr(items) => |items|
    case Str(s) => |s|
    case _ => 0
  }

  /** `key in obj`: the object has the property, whatever its value. */
  predicate HasKey(entries: seq<(string, Value)>, key: string)
  {
    exists i :: 0 <= i < |entries| && entries[i].0 == key
  }

  /** Assigns the entries onto `base` in order: each overwrites or extends. */
  function SpreadEntries(base: seq<(string, Value)>, entries: seq<(string, Value)>): (r: seq<(string, Value)>)
    decreases |entries|
  {
    if entries == [] then base
    else SpreadEntries(Assign(base, entries[0].0, entries[0].1), entries[1..])
  }

  /** A string's characters as one-character strings. */
  function Characters(s: string): (r: seq<Value>)
    ensures |r| == |s|
    ensures forall i :: 0 <= i < |s| ==> r[i] == Str([s[i]])
  {
    seq(|s|, i requires 0 <= i < |s| => Str([s[i]]))
  }

  /**
   * The spread `{ ...base, ...meta }`: an object's properties, an array's
   * elements or a string's characters (under their indices) overwrite or
   * extend `base`; any other value adds nothing.
   */
  function Spread(base: seq<(string, Value)>, meta: Value): (r: seq<(string, Value)>)
  {
    match meta
    case Obj(entries) => SpreadEntries(base, entries)
    case Arr(items) => SpreadEntries(base, IndexEntries(items))
    case Str(text) => SpreadEntries(base, IndexEntries(Characters(text)))
    case _ => base
  }

  /** A number, boolean, `null` or `undefined` spreads nothing. */
  lemma SpreadScalar(base: seq<(string, Value)>, meta: Value)
    requires !(meta.Obj? || meta.Arr? || meta.Str?)
    ensures Spread(base, meta) == base
  {
  }

  /** `[LEVEL] message`. */
  function Prefix(level: string, message: string): string
  {
    "[" + ToUpper(level) + "] " + message
  }

  /** `formatMessage(level, message, meta)`. */
  function FormatMessage(config: Config, level: string, message: string, meta: Value, now: string,
                         stringify: Value -> string): string
  {
    if config.isProduction then
      stringify(Obj(Spread([("timestamp", Str(now)), ("level", Str(level)), ("message", Str(message))], meta)))
    else if Truthy(meta) && KeyCount(meta) > 0 then
      Prefix(level, message) + " " + stringify(meta)
    else
      Prefix(level, message)
  }

  /**
   * In development with no metadata the line is exactly `[LEVEL] message`;
   * with metadata it is that prefix, a space and the metadata's JSON.
   */
  lemma DevelopmentFormat(config: Config, level: string, message: string, meta: Value, now: string,
                          stringify: Value -> string)
    requires !config.isProduction
    ensures KeyCount(meta) == 0 ==> FormatMessage(config, level, message, meta, now, stringify) == Prefix(level, message)
    ensures Truthy(meta) && KeyCount(meta) > 0 ==>
              StartsWith(FormatMessage(config, level, message, meta, now, stringify), Prefix(level, message) + " ")
  {
    var line := FormatMessage(config, level, message, meta, now, stringify);
    if Truthy(meta) && KeyCount(meta) > 0 {
      var head := Prefix(level, message) + " ";
      assert line == head + stringify(meta);
      assert line[..|head|] == head;
    }
  }

  /** An object's property names are distinct. */
  predicate UniqueKeys(entries: seq<(string, Value)>)
  {
    forall i, j :: 0 <= i < j < |entries| ==> entries[i].0 != entries[j].0
  }

  /**
   * In production the entry carries the timestamp, the level and the message,
   * unless the metadata has a property of the same name, whose value then
   * wins.
   */
  lemma {:induction false} ProductionEntry(base: seq<(string, Value)>, meta: Value, key: string)
    requires meta.Obj? && UniqueKeys(meta.entries)
    ensures !HasKey(meta.entries, key) ==> Lookup(Spread(base, meta), key) == Lookup(base, key)
    ensures HasKey(meta.entries, key) ==> Lookup(Spread(base, meta), key) == Lookup(meta.entries, key)
  {
    SpreadEntriesLookup(base, meta.entries, key);
  }

  /** After spreading distinct keys, a key reads as its entry if it has one, else as in `base`. */
  lemma {:induction false} SpreadEntriesLookup(base: seq<(string, Value)>, entries: seq<(string, Value)>, key: string)
    requires UniqueKeys(entries)
    ensures !HasKey(entries, key) ==> Lookup(SpreadEntries(base, entries), key) == Lookup(base, key)
    ensures HasKey(entries, key) ==> Lookup(SpreadEntries(base, entries), key) == Lookup(entries, key)
    decreases |entries|
  {
    if entries != [] {
      var first := entries[0];
      var rest := entries[1..];
      SpreadEntriesLookup(Assign(base, first.0, first.1), rest, key);
      if first.0 != key && HasKey(entries, key) {
        var i :| 0 <= i < |entries| && entries[i].0 == key;
        assert rest[i - 1].0 == key;
      }
    }
  }

  /** Spreading a string or an array puts its i-th character or element under the key `"i"`. */
  lemma SpreadIndexed(base: seq<(string, Value)>, items: seq<Value>, i: nat)
    requires i < |items|
    ensures Lookup(SpreadEntries(base, IndexEntries(items)), NatToString(i)) == items[i]
  {
    var entries := IndexEntries(items);
    forall a, b | 0 <= a < b < |entries| ensures entries[a].0 != entries[b].0 {
      if entries[a].0 == entries[b].0 {
        NatToStringInjective(a, b);
      }
    }
    SpreadEntriesLookup(base, entries, NatToString(i));
    LookupAt(entries, NatToString(i), i);
  }

  /** `log(level, message, meta = {})`: the line and its stream, or nothing when filtered. */
  function Log(config: Config, level: string, message: string, meta: Value, now: string,
               stringify: Value -> string): (out: Option<(Stream, string)>)
    ensures out.Some? <==> Emitted(config, level)
    ensures out.Some? ==> out.value.0 == StreamOf(level)
    ensures out.Some? ==>
              out.value.1 == FormatMessage(config, level, message, if meta == Undefined then Obj([]) else meta, now, stringify)
  {
    if !Emitted(config, level) then None
    else
      var m := if meta == Undefined then Obj([]) else meta;
      Some((StreamOf(level), FormatMessage(config, level, message, m, now, stringify)))
  }

  /** A development `info` call without metadata prints `[INFO] message` on the log stream. */
  lemma DevelopmentInfoLine(message: string, now: string, stringify: Value -> string)
    ensures Log(Config(false, 0), "info", message, Undefined, now, stringify) == Some((LogStream, "[INFO] " + message))
  {
    assert ToUpper("info") == "INFO";
    assert Prefix("info", message) == "[INFO] " + message;
  }

  // ---------------------------------------------------------------------
  // redact
  // ---------------------------------------------------------------------

  const Redacted := Str("[REDACTED]")

  /** `{ ...array }`: an array spreads into an object keyed by its indices. */
  function IndexEntries(items: seq<Value>): (r: seq<(string, Value)>)
    ensures |r| == |items|
    ensures forall i :: 0 <= i < |r| ==> r[i] == (NatToString(i), items[i])
  {
    seq(|items|, i requires 0 <= i < |items| => (NatToString(i), items[i]))
  }

  /**
   * `redact(obj, keys)`: falsy values and non-objects come back as they are;
   * an object or array is copied and each listed key it has is overwritten
   * with `[REDACTED]`. Every key keeps its place, unlisted keys keep their
   * values and no key is added. The argument is a value, so it is never
   * changed.
   */
  method Redact(obj: Value, keys: seq<string>) returns (r: Value)
    ensures !(obj.Obj? || obj.Arr?) ==> r == obj
    ensures obj.Obj? || obj.Arr? ==>
              var original := if obj.Obj? then obj.entries else IndexEntries(obj.items);
              r.Obj? && |r.entries| == |original|
              && forall j :: 0 <= j < |original| ==>
                   r.entries[j] == (original[j].0, if original[j].0 in keys then Redacted else original[j].1)
  {
    if !Truthy(obj) || !(obj.Obj? || obj.Arr?) {
      return obj;
    }
    var original := if obj.Obj? then obj.entries else IndexEntries(obj.items);
    var copy := original;
    var i := 0;
    while i < |keys|
      invariant 0 <= i <= |keys|
      invariant |copy| == |original|
      invariant forall j :: 0 <= j < |original| ==>
                  copy[j] == (original[j].0, if original[j].0 in keys[..i] then Redacted else original[j].1)
    {
      var key := keys[i];
      if HasKey(copy, key) {
        copy := seq(|copy|, j requires 0 <= j < |copy| => if copy[j].0 == key then (key, Redacted) else copy[j]);
      }
      assert keys[..i + 1] == keys[..i] + [key];
      i := i + 1;
    }
    assert keys[..i] == keys;
    r := Obj(copy);
  }
}
