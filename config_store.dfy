/**
 * The flat `key=value` configuration file (`~/.sapo/config`) and the trust list kept
 * in its `trusted` key. Reading parses the whole file into a map; every mutation
 * rewrites the whole file from the map, in the map's (unspecified) iteration order.
 */
module ConfigStore {
  import opened Base
  import opened Text

  const DefaultApiUrl: string := "https://admired-chickadee-733.convex.site"

  // ---------------------------------------------------------------------------
  // Parsing

  /** `line.split_once('=')` with both halves trimmed; `None` for a line without `=`. */
  function ParseLine(line: string): (r: Option<(string, string)>)
    ensures r.None? <==> '=' !in line
  {
    match IndexOf(line, '=')
    case None => None
    case Some(i) => Some((Trim(line[..i]), Trim(line[i + 1..])))
  }

  /** A parsed key holds no `=`, both halves are trimmed, and neither holds a `\n` the line lacks. */
  lemma ParseLineWellFormed(line: string)
    requires '\n' !in line
    ensures ParseLine(line).Some? ==>
      WellFormedKey(ParseLine(line).value.0) && WellFormedValue(ParseLine(line).value.1)
  {
    match IndexOf(line, '=')
    case None =>
    case Some(i) =>
      TrimChars(line[..i], '=');
      TrimChars(line[..i], '\n');
      TrimChars(line[i + 1..], '\n');
  }

  /** The map built by the line loop of `get_config`: later lines overwrite earlier ones. */
  function ParseLines(ls: seq<string>): map<string, string>
  {
    if ls == [] then map[]
    else
      var m := ParseLines(ls[..|ls| - 1]);
      match ParseLine(ls[|ls| - 1])
      case None => m
      case Some((k, v)) => m[k := v]
  }

  /** The configuration a file holds; a missing or unreadable file holds none. */
  function ParseConfig(content: Option<string>): map<string, string>
  {
    match content
    case None => map[]
    case Some(s) => ParseLines(Lines(s))
  }

  /** `key` is set by some line of `ls` (the line has an `=` and `key` is its trimmed prefix). */
  ghost predicate SetBy(ls: seq<string>, i: int, key: string) {
    0 <= i < |ls| && ParseLine(ls[i]).Some? && ParseLine(ls[i]).value.0 == key
  }

  /** A key is present iff some line sets it. */
  lemma {:induction false} ParseLinesKeys(ls: seq<string>, key: string)
    ensures key in ParseLines(ls) <==> exists i :: SetBy(ls, i, key)
  {
    if ls != [] {
      var init := ls[..|ls| - 1];
      ParseLinesKeys(init, key);
      assert key in ParseLines(ls) <==> key in ParseLines(init) || SetBy(ls, |ls| - 1, key);
      forall i | SetBy(init, i, key) ensures SetBy(ls, i, key) {
        assert ls[i] == init[i];
      }
      forall i | SetBy(ls, i, key) && i < |ls| - 1 ensures SetBy(init, i, key) {
        assert ls[i] == init[i];
      }
    }
  }

  /** One step of the line loop: the last line's entry, if any, is inserted. */
  lemma ParseLinesLast(ls: seq<string>)
    requires ls != []
    ensures var m := ParseLines(ls[..|ls| - 1]);
      var entry := ParseLine(ls[|ls| - 1]);
      ParseLines(ls) == if entry.Some? then m[entry.value.0 := entry.value.1] else m
  {
  }

  /** The value of a key is the one on the last line that sets it. */
  lemma {:induction false} ParseLinesLastWins(ls: seq<string>, i: int)
    requires 0 <= i < |ls| && ParseLine(ls[i]).Some?
    requires forall j :: i < j < |ls| ==> !SetBy(ls, j, ParseLine(ls[i]).value.0)
    ensures ParseLine(ls[i]).value.0 in ParseLines(ls)
    ensures ParseLines(ls)[ParseLine(ls[i]).value.0] == ParseLine(ls[i]).value.1
  {
    var init := ls[..|ls| - 1];
    var key := ParseLine(ls[i]).value.0;
    ParseLinesLast(ls);
    if i < |ls| - 1 {
      assert init[i] == ls[i];
      forall j | i < j < |init| ensures !SetBy(init, j, key) {
        assert init[j] == ls[j];
        assert !SetBy(ls, j, key);
      }
      ParseLinesLastWins(init, i);
      assert !SetBy(ls, |ls| - 1, key);
    }
  }

  // ---------------------------------------------------------------------------
  // Well-formed entries, and writing a map back

  /** A key that comes back unchanged through a write and a re-read. */
  predicate WellFormedKey(k: string) {
    '=' !in k && '\n' !in k && Trimmed(k)
  }

  /** A value that comes back unchanged through a write and a re-read. */
  predicate WellFormedValue(v: string) {
    '\n' !in v && Trimmed(v)
  }

  predicate WellFormed(m: map<string, string>) {
    forall k :: k in m ==> WellFormedKey(k) && WellFormedValue(m[k])
  }

  /** Whatever `get_config` returns is well formed. */
  lemma {:induction false} ParseLinesWellFormed(ls: seq<string>)
    requires forall i :: 0 <= i < |ls| ==> '\n' !in ls[i]
    ensures WellFormed(ParseLines(ls))
  {
    if ls != [] {
      ParseLinesWellFormed(ls[..|ls| - 1]);
      ParseLineWellFormed(ls[|ls| - 1]);
    }
  }

  lemma ParseConfigWellFormed(content: Option<string>)
    ensures WellFormed(ParseConfig(content))
  {
    if content.Some? {
      ParseLinesWellFormed(Lines(content.value));
    }
  }

  /** One line of the written file, `format!("{}={}", k, v)`. */
  function EntryLine(k: string, v: string): string {
    k + "=" + v
  }

  /** `order` visits every key of `keys` exactly once, as a `HashMap` iteration does. */
  ghost predicate IsEnumeration(order: seq<string>, keys: set<string>) {
    && (forall i, j :: 0 <= i < j < |order| ==> order[i] != order[j])
    && (forall k :: k in order <==> k in keys)
  }

  function SerializeLines(m: map<string, string>, order: seq<string>): seq<string>
    requires forall k :: k in order ==> k in m
  {
    if order == [] then []
    else SerializeLines(m, order[..|order| - 1]) + [EntryLine(order[|order| - 1], m[order[|order| - 1]])]
  }

  /** The file text `set_config_value` writes: the entries in `order`, joined by `\n`. */
  function Serialize(m: map<string, string>, order: seq<string>): string
    requires forall k :: k in order ==> k in m
  {
    Join(SerializeLines(m, order), '\n')
  }

  lemma EntryLineParses(k: string, v: string)
    requires WellFormedKey(k) && WellFormedValue(v)
    ensures PlainLine(EntryLine(k, v))
    ensures ParseLine(EntryLine(k, v)) == Some((k, v))
  {
    var line := EntryLine(k, v);
    assert line == k + ['='] + v;
    IndexOfConcat(k, '=', v);
    assert line[..|k|] == k;
    assert line[|k| + 1..] == v;
    TrimOfTrimmed(k);
    TrimOfTrimmed(v);
    assert '\n' !in line by {
      forall i | 0 <= i < |line| ensures line[i] != '\n' {
        if i < |k| { assert line[i] == k[i]; }
        else if i > |k| { assert line[i] == v[i - |k| - 1]; }
      }
    }
  }

  /** Every written line is a plain line: none holds a `\n` or ends in `\r`. */
  lemma {:induction false} SerializeLinesPlain(m: map<string, string>, order: seq<string>)
    requires WellFormed(m)
    requires forall k :: k in order ==> k in m
    ensures forall i :: 0 <= i < |SerializeLines(m, order)| ==> PlainLine(SerializeLines(m, order)[i])
  {
    if order != [] {
      var init := order[..|order| - 1];
      var last := order[|order| - 1];
      SerializeLinesPlain(m, init);
      EntryLineParses(last, m[last]);
    }
  }

  /** Parsing the written lines gives back the entries of the keys in `order`. */
  lemma {:induction false} SerializeLinesParse(m: map<string, string>, order: seq<string>)
    requires WellFormed(m)
    requires forall k :: k in order ==> k in m
    ensures ParseLines(SerializeLines(m, order)) == map k | k in order :: m[k]
  {
    if order != [] {
      var init := order[..|order| - 1];
      var last := order[|order| - 1];
      assert order == init + [last];
      SerializeLinesParse(m, init);
      EntryLineParses(last, m[last]);
      var ls := SerializeLines(m, order);
      assert ls[..|ls| - 1] == SerializeLines(m, init);
      assert ls[|ls| - 1] == EntryLine(last, m[last]);
      ParseLinesLast(ls);
      assert ParseLines(ls) == (map k | k in init :: m[k])[last := m[last]];
      EntriesSnoc(m, init, last);
    }
  }

  /** The entries of `init + [last]` are those of `init` with `last` set. */
  lemma EntriesSnoc(m: map<string, string>, init: seq<string>, last: string)
    requires forall k :: k in init + [last] ==> k in m
    ensures (map k | k in init :: m[k])[last := m[last]] == map k | k in init + [last] :: m[k]
  {
    var a := (map k | k in init :: m[k])[last := m[last]];
    var b := map k | k in init + [last] :: m[k];
    assert forall k :: k in init + [last] <==> k in init || k == last;
    assert a.Keys == b.Keys;
  }

  /** Writing a well-formed map in any iteration order and reading it back gives the map. */
  lemma RoundTrip(m: map<string, string>, order: seq<string>)
    requires WellFormed(m)
    requires IsEnumeration(order, m.Keys)
    ensures ParseConfig(Some(Serialize(m, order))) == m
  {
    SerializeLinesPlain(m, order);
    SerializeLinesParse(m, order);
    LinesJoin(SerializeLines(m, order));
    assert (map k | k in order :: m[k]) == m;
  }

  /** Pick the order in which a `HashMap` happens to yield its keys. */
  method Enumerate(keys: set<string>) returns (order: seq<string>)
    ensures IsEnumeration(order, keys)
  {
    order := [];
    var rest := keys;
    while rest != {}
      invariant rest <= keys
      invariant forall i, j :: 0 <= i < j < |order| ==> order[i] != order[j]
      invariant forall k :: k in order <==> k in keys && k !in rest
      decreases rest
    {
      var k :| k in rest;
      order := order + [k];
      rest := rest - {k};
    }
  }

  // ---------------------------------------------------------------------------
  // Queries on a parsed configuration

  /** `get_config_value`. */
  function GetValue(config: map<string, string>, key: string): (r: Option<string>)
    ensures r.Some? <==> key in config
    ensures r.Some? ==> r.value == config[key]
  {
    if key in config then Some(config[key]) else None
  }

  /** `get_config_value_or`: the stored value, or `default` when the key is absent. */
  function GetValueOr(config: map<string, string>, key: string, default: string): (r: string)
    ensures key in config ==> r == config[key]
    ensures key !in config ==> r == default
  {
    GetValue(config, key).GetOr(default)
  }

  /** `get_api_key`: an empty stored key counts as no key. */
  function ApiKey(config: map<string, string>): (r: Option<string>)
    ensures r.Some? <==> "api_key" in config && config["api_key"] != ""
    ensures r.Some? ==> r.value == config["api_key"]
  {
    match GetValue(config, "api_key")
    case Some(k) => if k != "" then Some(k) else None
    case None => None
  }

  /** `get_api_url`. */
  function ApiUrl(config: map<string, string>): string {
    GetValueOr(config, "api_url", DefaultApiUrl)
  }

  /** `get_plan`: a missing plan reads as `free`. */
  function Plan(config: map<string, string>): string {
    GetValueOr(config, "plan", "free")
  }

  /** `is_pro`. */
  predicate IsPro(config: map<string, string>) {
    var plan := Plan(config);
    plan == "pro" || plan == "enterprise"
  }

  /** Pro exactly when a plan is stored and it is `pro` or `enterprise`. */
  lemma IsProIff(config: map<string, string>)
    ensures IsPro(config) <==> "plan" in config && (config["plan"] == "pro" || config["plan"] == "enterprise")
  {
  }

  /** `get_trusted`: the `trusted` value split at commas, empty pieces dropped. */
  function Trusted(config: map<string, string>): (r: seq<string>)
    ensures forall i :: 0 <= i < |r| ==> r[i] != "" && ',' !in r[i]
    ensures "trusted" !in config || config["trusted"] == "" ==> r == []
  {
    match GetValue(config, "trusted")
    case Some(s) => NonEmpty(Split(s, ','))
    case None => []
  }

  /** `is_trusted`. */
  predicate IsTrusted(config: map<string, string>, package: string) {
    package in Trusted(config)
  }

  /** A package name that survives being stored in the comma-joined `trusted` value. */
  predicate PlainName(p: string) {
    p != "" && ',' !in p && NoWhitespace(p)
  }

  predicate PlainNames(xs: seq<string>) {
    forall i :: 0 <= i < |xs| ==> PlainName(xs[i])
  }

  /** Storing a list of plain names and reading it back gives the list. */
  lemma TrustedRoundTrip(config: map<string, string>, xs: seq<string>)
    requires PlainNames(xs)
    ensures WellFormedValue(Join(xs, ','))
    ensures Trusted(config["trusted" := Join(xs, ',')]) == xs
  {
    JoinNoWhitespace(xs, ',');
    NoWhitespaceTrimmed(Join(xs, ','));
    if xs == [] {
      assert Split("", ',') == [""];
    } else {
      SplitJoin(xs, ',');
      NonEmptyOfNonEmpty(xs);
    }
  }

  lemma TrustedKeyWellFormed()
    ensures WellFormedKey("trusted")
  {
  }

  // ---------------------------------------------------------------------------
  // The trust list as a list

  /** The list `add_trusted` writes: unchanged when present, else `package` appended. */
  function AddName(xs: seq<string>, package: string): (r: seq<string>)
    ensures package in r
    ensures package in xs ==> r == xs
    ensures package !in xs ==> r == xs + [package]
  {
    if package in xs then xs else xs + [package]
  }

  /** The list `remove_trusted` writes: every `package` filtered out, the rest in order. */
  function RemoveName(xs: seq<string>, package: string): (r: seq<string>)
    ensures forall x :: x in r <==> x in xs && x != package
    ensures |r| <= |xs|
  {
    if xs == [] then []
    else if xs[0] == package then RemoveName(xs[1..], package)
    else [xs[0]] + RemoveName(xs[1..], package)
  }

  predicate Distinct(xs: seq<string>) {
    forall i, j :: 0 <= i < j < |xs| ==> xs[i] != xs[j]
  }

  /** Adding keeps a duplicate-free list duplicate-free. */
  lemma AddNameDistinct(xs: seq<string>, package: string)
    requires Distinct(xs)
    ensures Distinct(AddName(xs, package))
  {
  }

  /** Removing a name that is not there changes nothing. */
  lemma {:induction false} RemoveNameAbsent(xs: seq<string>, package: string)
    requires package !in xs
    ensures RemoveName(xs, package) == xs
  {
    if xs != [] {
      RemoveNameAbsent(xs[1..], package);
    }
  }

  lemma {:induction false} RemoveNameAppend(xs: seq<string>, ys: seq<string>, package: string)
    ensures RemoveName(xs + ys, package) == RemoveName(xs, package) + RemoveName(ys, package)
  {
    if xs == [] {
      assert xs + ys == ys;
    } else {
      assert (xs + ys)[1..] == xs[1..] + ys;
      RemoveNameAppend(xs[1..], ys, package);
    }
  }

  /** Removing after adding restores a list that did not hold the name. */
  lemma RemoveAfterAdd(xs: seq<string>, package: string)
    requires package !in xs
    ensures RemoveName(AddName(xs, package), package) == xs
  {
    RemoveNameAppend(xs, [package], package);
    RemoveNameAbsent(xs, package);
  }

  lemma {:induction false} RemoveNamePlain(xs: seq<string>, package: string)
    requires PlainNames(xs)
    ensures PlainNames(RemoveName(xs, package))
  {
    if xs != [] {
      RemoveNamePlain(xs[1..], package);
    }
  }

  // ---------------------------------------------------------------------------
  // The configuration file

  /** The text `create_default_config` writes, one `key=value` line per default. */
  function DefaultLines(deviceId: string): seq<string> {
    [EntryLine("device_id", deviceId), "api_key=", "plan=free", EntryLine("api_url", DefaultApiUrl), "trusted="]
  }

  /** The defaults as a map, and the order in which the default file lists them. */
  function DefaultConfig(deviceId: string): map<string, string> {
    map["device_id" := deviceId, "api_key" := "", "plan" := "free", "api_url" := DefaultApiUrl, "trusted" := ""]
  }

  const DefaultOrder: seq<string> := ["device_id", "api_key", "plan", "api_url", "trusted"]

  lemma DefaultLinesSerialize(deviceId: string)
    ensures DefaultLines(deviceId) == SerializeLines(DefaultConfig(deviceId), DefaultOrder)
  {
    var m := DefaultConfig(deviceId);
    var o := DefaultOrder;
    assert o[..1][..0] == [] && o[..2][..1] == o[..1] && o[..3][..2] == o[..2];
    assert o[..4][..3] == o[..3] && o[..|o| - 1] == o[..4];
    assert SerializeLines(m, o[..1]) == [EntryLine("device_id", deviceId)];
    assert SerializeLines(m, o[..2]) == SerializeLines(m, o[..1]) + [EntryLine("api_key", "")];
    assert SerializeLines(m, o[..3]) == SerializeLines(m, o[..2]) + [EntryLine("plan", "free")];
    assert SerializeLines(m, o[..4]) == SerializeLines(m, o[..3]) + [EntryLine("api_url", DefaultApiUrl)];
    assert SerializeLines(m, o) == SerializeLines(m, o[..4]) + [EntryLine("trusted", "")];
    assert EntryLine("api_key", "") == "api_key=";
    assert EntryLine("plan", "free") == "plan=free";
    assert EntryLine("trusted", "") == "trusted=";
  }

  lemma DefaultKeysWellFormed()
    ensures WellFormedKey("device_id") && WellFormedKey("api_key") && WellFormedKey("plan")
    ensures WellFormedKey("api_url") && WellFormedKey("trusted")
  {
  }

  lemma DefaultValuesWellFormed()
    ensures WellFormedValue("free") && WellFormedValue(DefaultApiUrl) && WellFormedValue("")
  {
  }

  lemma DefaultConfigWellFormed(deviceId: string)
    requires WellFormedValue(deviceId)
    ensures WellFormed(DefaultConfig(deviceId))
    ensures IsEnumeration(DefaultOrder, DefaultConfig(deviceId).Keys)
  {
    DefaultKeysWellFormed();
    DefaultValuesWellFormed();
    var m := DefaultConfig(deviceId);
    assert m.Keys == {"device_id", "api_key", "plan", "api_url", "trusted"};
  }

  /** A freshly created file: plan `free`, no API key, nothing trusted, the default API URL. */
  lemma DefaultConfigParses(deviceId: string)
    requires WellFormedValue(deviceId)
    ensures var config := ParseConfig(Some(Join(DefaultLines(deviceId), '\n')));
      && Plan(config) == "free" && !IsPro(config)
      && ApiKey(config) == None
      && Trusted(config) == []
      && ApiUrl(config) == DefaultApiUrl
      && GetValue(config, "device_id") == Some(deviceId)
  {
    DefaultLinesSerialize(deviceId);
    DefaultConfigWellFormed(deviceId);
    RoundTrip(DefaultConfig(deviceId), DefaultOrder);
  }

  class ConfigFile {
    /** The file's text; `None` when it is missing or cannot be read. */
    var content: Option<string>

    constructor (content: Option<string>)
      ensures this.content == content
    {
      this.content := content;
    }

    /** The configuration the file holds now. */
    function Config(): map<string, string>
      reads this
    {
      ParseConfig(content)
    }

    /** The file now holds `m`, written in some iteration order. */
    ghost predicate Holds(m: map<string, string>)
      reads this
    {
      exists order :: IsEnumeration(order, m.Keys) && content == Some(Serialize(m, order))
    }

    /** `get_config`: the line loop over the file. */
    method GetConfig() returns (config: map<string, string>)
      ensures config == Config()
    {
      config := map[];
      if content.Some? {
        var lines := Lines(content.value);
        var i := 0;
        while i < |lines|
          invariant 0 <= i <= |lines|
          invariant config == ParseLines(lines[..i])
        {
          var line := lines[i];
          assert lines[..i + 1][..i] == lines[..i];
          ParseLinesLast(lines[..i + 1]);
          match ParseLine(line) {
            case Some((key, value)) =>
              config := config[key := value];
            case None =>
          }
          i := i + 1;
        }
        assert lines[..|lines|] == lines;
      }
    }

    /** Rewrite the whole file from `m`, in whatever order the map yields its keys. */
    method Write(m: map<string, string>)
      modifies this
      ensures Holds(m)
      ensures WellFormed(m) ==> Config() == m
    {
      var order := Enumerate(m.Keys);
      content := Some(Serialize(m, order));
      if WellFormed(m) {
        RoundTrip(m, order);
      }
    }

    /** `set_config_value`: re-read, insert, rewrite. */
    method SetConfigValue(key: string, value: string)
      modifies this
      ensures Holds(old(Config())[key := value])
      ensures WellFormedKey(key) && WellFormedValue(value) ==> Config() == old(Config())[key := value]
    {
      var config := GetConfig();
      ParseConfigWellFormed(content);
      Write(config[key := value]);
    }

    /** `create_default_config`. */
    method CreateDefaultConfig(deviceId: string)
      modifies this
      ensures content == Some(Join(DefaultLines(deviceId), '\n'))
    {
      content := Some(Join(DefaultLines(deviceId), '\n'));
    }

    /** `add_trusted`: append the name unless present; write nothing when present. */
    method AddTrusted(package: string)
      modifies this
      ensures package in old(Trusted(Config())) ==> content == old(content)
      ensures package !in old(Trusted(Config())) ==>
        Holds(old(Config())["trusted" := Join(old(Trusted(Config())) + [package], ',')])
      ensures PlainNames(old(Trusted(Config()))) && PlainName(package) ==>
        Trusted(Config()) == AddName(old(Trusted(Config())), package)
    {
      var config := GetConfig();
      var trusted := Trusted(config);
      if package !in trusted {
        var updated := trusted + [package];
        SetConfigValue("trusted", Join(updated, ','));
        if PlainNames(trusted) && PlainName(package) {
          TrustedRoundTrip(config, updated);
          TrustedKeyWellFormed();
        }
      }
    }

    /** `remove_trusted`: filter the name out and write the rest back. */
    method RemoveTrusted(package: string)
      modifies this
      ensures Holds(old(Config())["trusted" := Join(RemoveName(old(Trusted(Config())), package), ',')])
      ensures PlainNames(old(Trusted(Config()))) ==>
        Trusted(Config()) == RemoveName(old(Trusted(Config())), package)
    {
      var config := GetConfig();
      var trusted := RemoveName(Trusted(config), package);
      SetConfigValue("trusted", Join(trusted, ','));
      if PlainNames(Trusted(config)) {
        RemoveNamePlain(Trusted(config), package);
        TrustedRoundTrip(config, trusted);
        TrustedKeyWellFormed();
      }
    }
  }
}
