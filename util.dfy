/**
 * `get_pretty_json` (src/util.rs): turn a structured log line into
 * `"[level] ts: msg"`. Each of the three fields is the first candidate key,
 * in a fixed priority order, whose value is a JSON string, or a default when
 * there is none.
 */
module Util {
  import opened Wrappers
  import opened JsonValue

  const TsKeys: seq<string> := ["ts", "timestamp", "time"]
  const MsgKeys: seq<string> := ["msg", "message", "log"]
  const LevelKeys: seq<string> := ["level", "lvl", "severity"]

  const DefaultTs: string := "no-ts"
  const DefaultLevel: string := "INFO"
  const DefaultMsg: string := "no-msg"

  /** The nine keys that can influence the output. */
  const CandidateKeys: seq<string> :=
    ["ts", "timestamp", "time", "msg", "message", "log", "level", "lvl", "severity"]

  /** The search closure `|k| value.get(k)?.as_str()`: a key's value if it is a JSON string. */
  function StrField(v: Json, key: string): (r: Option<string>)
    ensures r.Some? <==> v.JObject? && key in v.fields && v.fields[key].JString?
    ensures r.Some? ==> v.fields[key] == JString(r.value)
  {
    match Get(v, key)
    case None => None
    case Some(field) => AsStr(field)
  }

  /**
   * `keys.iter().find_map(...)`: the string value of the first key, in list
   * order, whose value is a JSON string. Nothing is found exactly when no
   * key in the list holds a string; otherwise the result comes from some key
   * all of whose predecessors hold no string.
   */
  function FindStr(v: Json, keys: seq<string>): (r: Option<string>)
    ensures r.None? <==> forall i :: 0 <= i < |keys| ==> StrField(v, keys[i]).None?
    ensures r.Some? ==>
      exists i :: 0 <= i < |keys| && StrField(v, keys[i]) == r &&
        forall j :: 0 <= j < i ==> StrField(v, keys[j]).None?
    decreases |keys|
  {
    if keys == [] then None
    else
      match StrField(v, keys[0])
      case Some(s) => Some(s)
      case None =>
        var rest := FindStr(v, keys[1..]);
        assert forall i :: 1 <= i < |keys| ==> keys[i] == keys[1..][i - 1];
        rest
  }

  /**
   * One field of the output: the search over `keys` followed by
   * `unwrap_or(default)`. The result is the string of the earliest key that
   * holds one, and the default when no key does.
   */
  function Pick(v: Json, keys: seq<string>, default: string): (r: string)
    ensures forall i ::
      0 <= i < |keys| && StrField(v, keys[i]).Some? &&
      (forall j :: 0 <= j < i ==> StrField(v, keys[j]).None?)
      ==> r == StrField(v, keys[i]).value
    ensures (forall k :: k in keys ==> StrField(v, k).None?) ==> r == default
    ensures r == default || exists k :: k in keys && StrField(v, k) == Some(r)
  {
    FindStr(v, keys).UnwrapOr(default)
  }

  /** The timestamp: the first of `ts`, `timestamp`, `time` holding a string, else `no-ts`. */
  function Timestamp(v: Json): (r: string)
    ensures StrField(v, "ts").Some? ==> r == StrField(v, "ts").value
    ensures StrField(v, "ts").None? && StrField(v, "timestamp").Some? ==>
      r == StrField(v, "timestamp").value
    ensures StrField(v, "ts").None? && StrField(v, "timestamp").None? && StrField(v, "time").Some? ==>
      r == StrField(v, "time").value
    ensures StrField(v, "ts").None? && StrField(v, "timestamp").None? && StrField(v, "time").None? ==>
      r == "no-ts"
  {
    Pick(v, TsKeys, DefaultTs)
  }

  /** The level: the first of `level`, `lvl`, `severity` holding a string, else `INFO`. */
  function Level(v: Json): (r: string)
    ensures StrField(v, "level").Some? ==> r == StrField(v, "level").value
    ensures StrField(v, "level").None? && StrField(v, "lvl").Some? ==>
      r == StrField(v, "lvl").value
    ensures StrField(v, "level").None? && StrField(v, "lvl").None? && StrField(v, "severity").Some? ==>
      r == StrField(v, "severity").value
    ensures StrField(v, "level").None? && StrField(v, "lvl").None? && StrField(v, "severity").None? ==>
      r == "INFO"
  {
    Pick(v, LevelKeys, DefaultLevel)
  }

  /** The message: the first of `msg`, `message`, `log` holding a string, else `no-msg`. */
  function Message(v: Json): (r: string)
    ensures StrField(v, "msg").Some? ==> r == StrField(v, "msg").value
    ensures StrField(v, "msg").None? && StrField(v, "message").Some? ==>
      r == StrField(v, "message").value
    ensures StrField(v, "msg").None? && StrField(v, "message").None? && StrField(v, "log").Some? ==>
      r == StrField(v, "log").value
    ensures StrField(v, "msg").None? && StrField(v, "message").None? && StrField(v, "log").None? ==>
      r == "no-msg"
  {
    Pick(v, MsgKeys, DefaultMsg)
  }

  /** The `format!("[{}] {}: {}", level, ts, msg)` line. */
  function Format(level: string, ts: string, msg: string): (r: string)
    ensures |r| == |level| + |ts| + |msg| + 5
    ensures r[..|level| + 3] == "[" + level + "] "
    ensures r[|level| + 3..|level| + 3 + |ts|] == ts
    ensures r[|level| + 3 + |ts|..|level| + 5 + |ts|] == ": "
    ensures r[|level| + 5 + |ts|..] == msg
  {
    "[" + level + "] " + ts + ": " + msg
  }

  // ---------------------------------------------------------------------
  // Reading a formatted line back: the inverse of Format, used to state
  // that the three fields can be recovered from the output when they do
  // not themselves contain the delimiters.
  // ---------------------------------------------------------------------

  /** `s` contains no `]`. */
  predicate NoCloseBracket(s: string) {
    forall j :: 0 <= j < |s| ==> s[j] != ']'
  }

  /** `s` contains no `": "`. */
  predicate NoColonSpace(s: string) {
    forall j :: 0 <= j < |s| - 1 ==> !(s[j] == ':' && s[j + 1] == ' ')
  }

  /** The index of the first `]` in `s`, or `|s|` when there is none. */
  function IndexOfCloseBracket(s: string): (i: nat)
    ensures i <= |s|
    ensures NoCloseBracket(s[..i])
    ensures i < |s| ==> s[i] == ']'
    decreases |s|
  {
    if s == [] then 0
    else if s[0] == ']' then 0
    else
      var i := 1 + IndexOfCloseBracket(s[1..]);
      assert s[..i] == [s[0]] + s[1..][..i - 1];
      i
  }

  /** The index of the first `": "` in `s`, or `|s|` when there is none. */
  function IndexOfColonSpace(s: string): (i: nat)
    ensures i <= |s|
    ensures NoColonSpace(s[..i])
    ensures i < |s| ==> i + 1 < |s| && s[i] == ':' && s[i + 1] == ' '
    decreases |s|
  {
    if |s| < 2 then |s|
    else if s[0] == ':' && s[1] == ' ' then 0
    else
      var i := 1 + IndexOfColonSpace(s[1..]);
      assert s[..i] == [s[0]] + s[1..][..i - 1];
      i
  }

  /** Split a line of the form `"[level] ts: msg"` at the first `]` and the first `": "` after it. */
  function ParseLine(line: string): Option<(string, string, string)> {
    if |line| == 0 || line[0] != '[' then None
    else
      var rest := line[1..];
      var e := IndexOfCloseBracket(rest);
      if e + 1 >= |rest| || rest[e + 1] != ' ' then None
      else
        var after := rest[e + 2..];
        var c := IndexOfColonSpace(after);
        if c == |after| then None
        else Some((rest[..e], after[..c], after[c + 2..]))
  }

  /** The first `]` of `s + t` is at `|s|` when `s` has none and `t` starts with one. */
  lemma {:induction false} CloseBracketAfterPrefix(s: string, t: string)
    requires NoCloseBracket(s) && |t| > 0 && t[0] == ']'
    ensures IndexOfCloseBracket(s + t) == |s|
    decreases |s|
  {
    if s != [] {
      assert (s + t)[1..] == s[1..] + t;
      CloseBracketAfterPrefix(s[1..], t);
    }
  }

  /** The first `": "` of `s + t` is at `|s|` when `s` has none and `t` starts with one. */
  lemma {:induction false} ColonSpaceAfterPrefix(s: string, t: string)
    requires NoColonSpace(s) && |t| >= 2 && t[0] == ':' && t[1] == ' '
    ensures IndexOfColonSpace(s + t) == |s|
    decreases |s|
  {
    if s != [] {
      assert (s + t)[1..] == s[1..] + t;
      ColonSpaceAfterPrefix(s[1..], t);
    }
  }

  /** Format and ParseLine are inverse when the level has no `]` and the timestamp no `": "`. */
  lemma {:induction false} ParseFormat(level: string, ts: string, msg: string)
    requires NoCloseBracket(level) && NoColonSpace(ts)
    ensures ParseLine(Format(level, ts, msg)) == Some((level, ts, msg))
  {
    var line := Format(level, ts, msg);
    var rest := line[1..];
    assert rest == level + ("] " + ts + ": " + msg);
    CloseBracketAfterPrefix(level, "] " + ts + ": " + msg);
    var after := rest[|level| + 2..];
    assert after == ts + (": " + msg);
    ColonSpaceAfterPrefix(ts, ": " + msg);
    assert rest[..|level|] == level;
    assert after[..|ts|] == ts;
    assert after[|ts| + 2..] == msg;
  }

  /**
   * `get_pretty_json`: the `"[level] ts: msg"` line, each chosen field at its
   * fixed offset.
   */
  function PrettyJson(v: Json): (r: string)
    ensures |r| == |Level(v)| + |Timestamp(v)| + |Message(v)| + 5
    ensures r[..|Level(v)| + 3] == "[" + Level(v) + "] "
    ensures r[|Level(v)| + 3..|Level(v)| + 3 + |Timestamp(v)|] == Timestamp(v)
    ensures r[|Level(v)| + 3 + |Timestamp(v)|..|Level(v)| + 5 + |Timestamp(v)|] == ": "
    ensures r[|Level(v)| + 5 + |Timestamp(v)|..] == Message(v)
  {
    var level := Level(v);
    var ts := Timestamp(v);
    var msg := Message(v);
    Format(level, ts, msg)
  }

  /**
   * The three chosen fields can be read back from the printed line whenever
   * the level has no `]` and the timestamp no `": "`.
   */
  lemma PrettyJsonReadsBack(v: Json)
    requires NoCloseBracket(Level(v)) && NoColonSpace(Timestamp(v))
    ensures ParseLine(PrettyJson(v)) == Some((Level(v), Timestamp(v), Message(v)))
  {
    ParseFormat(Level(v), Timestamp(v), Message(v));
  }

  // ---------------------------------------------------------------------
  // Priority, skipping and defaults of the key search.
  // ---------------------------------------------------------------------

  /**
   * Priority: when the key at position `i` holds a string and no earlier
   * key does (earlier keys may be absent or hold a non-string value), the
   * search returns that key's string. A corollary of `FindStr`'s contract,
   * stated on its own in the form callers use.
   */
  lemma {:induction false} EarliestStringKeyWins(v: Json, keys: seq<string>, i: nat)
    requires i < |keys| && StrField(v, keys[i]).Some?
    requires forall j :: 0 <= j < i ==> StrField(v, keys[j]).None?
    ensures FindStr(v, keys) == StrField(v, keys[i])
    decreases i
  {
    if i > 0 {
      assert StrField(v, keys[0]).None?;
      EarliestStringKeyWins(v, keys[1..], i - 1);
    }
  }

  /** A candidate key whose value is not a JSON string is passed over and the search goes on. */
  lemma NonStringValueSkipped(v: Json, keys: seq<string>)
    requires |keys| > 0 && Get(v, keys[0]).Some? && !Get(v, keys[0]).value.JString?
    ensures FindStr(v, keys) == FindStr(v, keys[1..])
  {
  }

  /** The search depends on nothing but the string values of the keys it is given. */
  lemma {:induction false} FindStrDependsOnKeysOnly(v: Json, w: Json, keys: seq<string>)
    requires forall k :: k in keys ==> StrField(v, k) == StrField(w, k)
    ensures FindStr(v, keys) == FindStr(w, keys)
    decreases |keys|
  {
    if keys != [] {
      assert keys[0] in keys;
      assert forall k :: k in keys[1..] ==> k in keys;
      FindStrDependsOnKeysOnly(v, w, keys[1..]);
    }
  }

  /** Two values whose nine candidate keys hold the same strings print the same line. */
  lemma OnlyCandidateKeysMatter(v: Json, w: Json)
    requires forall k :: k in CandidateKeys ==> StrField(v, k) == StrField(w, k)
    ensures PrettyJson(v) == PrettyJson(w)
  {
    FindStrDependsOnKeysOnly(v, w, TsKeys);
    FindStrDependsOnKeysOnly(v, w, LevelKeys);
    FindStrDependsOnKeysOnly(v, w, MsgKeys);
  }

  /** Adding a key outside the nine candidates leaves the line unchanged. */
  lemma AddingOtherKeyIrrelevant(fields: map<string, Json>, key: string, value: Json)
    requires key !in CandidateKeys
    ensures PrettyJson(JObject(fields[key := value])) == PrettyJson(JObject(fields))
  {
    OnlyCandidateKeysMatter(JObject(fields[key := value]), JObject(fields));
  }

  /** Removing a key outside the nine candidates leaves the line unchanged. */
  lemma RemovingOtherKeyIrrelevant(fields: map<string, Json>, key: string)
    requires key !in CandidateKeys
    ensures PrettyJson(JObject(fields - {key})) == PrettyJson(JObject(fields))
  {
    OnlyCandidateKeysMatter(JObject(fields - {key}), JObject(fields));
  }

  /** With no candidate key holding a string, every field takes its default. */
  lemma AllDefaults(v: Json)
    requires forall k :: k in CandidateKeys ==> StrField(v, k).None?
    ensures PrettyJson(v) == "[INFO] no-ts: no-msg"
  {
    assert forall k :: k in TsKeys ==> k in CandidateKeys;
    assert forall k :: k in LevelKeys ==> k in CandidateKeys;
    assert forall k :: k in MsgKeys ==> k in CandidateKeys;
    assert Level(v) == DefaultLevel && Timestamp(v) == DefaultTs && Message(v) == DefaultMsg;
    assert Format(DefaultLevel, DefaultTs, DefaultMsg) == "[INFO] no-ts: no-msg";
  }

  /** An object containing none of the nine candidate keys prints the all-defaults line. */
  lemma NoCandidateKeyGivesDefaults(fields: map<string, Json>)
    requires forall k :: k in fields ==> k !in CandidateKeys
    ensures PrettyJson(JObject(fields)) == "[INFO] no-ts: no-msg"
  {
    AllDefaults(JObject(fields));
  }

  /** A value that is not an object (array, string, number, ...) prints the all-defaults line. */
  lemma NonObjectGivesDefaults(v: Json)
    requires !v.JObject?
    ensures PrettyJson(v) == "[INFO] no-ts: no-msg"
  {
    AllDefaults(v);
  }

  // ---------------------------------------------------------------------
  // The unit tests of src/util.rs, as instances of the model. The expected
  // lines are written through Format, i.e. as
  // `"[" + level + "] " + ts + ": " + msg`.
  // ---------------------------------------------------------------------

  /** The printed line is determined by the three chosen fields. */
  lemma LineFromFields(v: Json, level: string, ts: string, msg: string)
    requires Level(v) == level && Timestamp(v) == ts && Message(v) == msg
    ensures PrettyJson(v) == Format(level, ts, msg)
  {
  }

  lemma StandardFieldsChosen(v: Json)
    requires v == JObject(map[
      "timestamp" := JString("2025-07-28T12:00:00Z"),
      "message" := JString("Started up"),
      "level" := JString("info")])
    ensures Level(v) == "info"
    ensures Timestamp(v) == "2025-07-28T12:00:00Z"
    ensures Message(v) == "Started up"
  {
    assert StrField(v, "ts").None?;
    assert StrField(v, "timestamp") == Some("2025-07-28T12:00:00Z");
    assert StrField(v, "msg").None?;
    assert StrField(v, "message") == Some("Started up");
    assert StrField(v, "level") == Some("info");
  }

  lemma StandardFieldsExample()
    ensures PrettyJson(JObject(map[
      "timestamp" := JString("2025-07-28T12:00:00Z"),
      "message" := JString("Started up"),
      "level" := JString("info")]))
      == Format("info", "2025-07-28T12:00:00Z", "Started up")
  {
    var v := JObject(map[
      "timestamp" := JString("2025-07-28T12:00:00Z"),
      "message" := JString("Started up"),
      "level" := JString("info")]);
    StandardFieldsChosen(v);
    LineFromFields(v, "info", "2025-07-28T12:00:00Z", "Started up");
  }

  lemma AltFieldsChosen(v: Json)
    requires v == JObject(map[
      "ts" := JString("2025-07-28T12:01:00Z"),
      "msg" := JString("Service healthy"),
      "lvl" := JString("debug")])
    ensures Level(v) == "debug"
    ensures Timestamp(v) == "2025-07-28T12:01:00Z"
    ensures Message(v) == "Service healthy"
  {
    assert StrField(v, "ts") == Some("2025-07-28T12:01:00Z");
    assert StrField(v, "msg") == Some("Service healthy");
    assert StrField(v, "level").None?;
    assert StrField(v, "lvl") == Some("debug");
  }

  lemma AltFieldsExample()
    ensures PrettyJson(JObject(map[
      "ts" := JString("2025-07-28T12:01:00Z"),
      "msg" := JString("Service healthy"),
      "lvl" := JString("debug")]))
      == Format("debug", "2025-07-28T12:01:00Z", "Service healthy")
  {
    var v := JObject(map[
      "ts" := JString("2025-07-28T12:01:00Z"),
      "msg" := JString("Service healthy"),
      "lvl" := JString("debug")]);
    AltFieldsChosen(v);
    LineFromFields(v, "debug", "2025-07-28T12:01:00Z", "Service healthy");
  }

  lemma LogFieldChosen(v: Json)
    requires v == JObject(map[
      "log" := JString("Request received"),
      "time" := JString("2025-07-28T12:02:00Z")])
    ensures Level(v) == "INFO"
    ensures Timestamp(v) == "2025-07-28T12:02:00Z"
    ensures Message(v) == "Request received"
  {
    assert StrField(v, "ts").None? && StrField(v, "timestamp").None?;
    assert StrField(v, "time") == Some("2025-07-28T12:02:00Z");
    assert StrField(v, "msg").None? && StrField(v, "message").None?;
    assert StrField(v, "log") == Some("Request received");
    assert StrField(v, "level").None? && StrField(v, "lvl").None? && StrField(v, "severity").None?;
  }

  lemma LogFieldExample()
    ensures PrettyJson(JObject(map[
      "log" := JString("Request received"),
      "time" := JString("2025-07-28T12:02:00Z")]))
      == Format("INFO", "2025-07-28T12:02:00Z", "Request received")
  {
    var v := JObject(map[
      "log" := JString("Request received"),
      "time" := JString("2025-07-28T12:02:00Z")]);
    LogFieldChosen(v);
    LineFromFields(v, "INFO", "2025-07-28T12:02:00Z", "Request received");
  }

  lemma MissingAllFieldsExample()
    ensures PrettyJson(JObject(map["foo" := JString("bar")])) == "[INFO] no-ts: no-msg"
  {
    assert "foo" !in CandidateKeys;
    NoCandidateKeyGivesDefaults(map["foo" := JString("bar")]);
  }

  lemma QuotedValuesChosen(v: Json)
    requires v == JObject(map[
      "ts" := JString("2025-07-28T12:03:00Z"),
      "msg" := JString("Extra quotes"),
      "level" := JString("warn")])
    ensures Level(v) == "warn"
    ensures Timestamp(v) == "2025-07-28T12:03:00Z"
    ensures Message(v) == "Extra quotes"
  {
    assert StrField(v, "ts") == Some("2025-07-28T12:03:00Z");
    assert StrField(v, "msg") == Some("Extra quotes");
    assert StrField(v, "level") == Some("warn");
  }

  lemma QuotedValuesExample()
    ensures PrettyJson(JObject(map[
      "ts" := JString("2025-07-28T12:03:00Z"),
      "msg" := JString("Extra quotes"),
      "level" := JString("warn")]))
      == Format("warn", "2025-07-28T12:03:00Z", "Extra quotes")
  {
    var v := JObject(map[
      "ts" := JString("2025-07-28T12:03:00Z"),
      "msg" := JString("Extra quotes"),
      "level" := JString("warn")]);
    QuotedValuesChosen(v);
    LineFromFields(v, "warn", "2025-07-28T12:03:00Z", "Extra quotes");
  }

  lemma MessageAndTimestampChosen(v: Json)
    requires v == JObject(map[
      "msg" := JString("system online"),
      "ts" := JString("2025-07-28T14:00:00Z")])
    ensures Level(v) == "INFO"
    ensures Timestamp(v) == "2025-07-28T14:00:00Z"
    ensures Message(v) == "system online"
  {
    assert StrField(v, "ts") == Some("2025-07-28T14:00:00Z");
    assert StrField(v, "msg") == Some("system online");
    assert StrField(v, "level").None? && StrField(v, "lvl").None? && StrField(v, "severity").None?;
  }

  lemma MessageAndTimestampExample()
    ensures PrettyJson(JObject(map[
      "msg" := JString("system online"),
      "ts" := JString("2025-07-28T14:00:00Z")]))
      == Format("INFO", "2025-07-28T14:00:00Z", "system online")
  {
    var v := JObject(map[
      "msg" := JString("system online"),
      "ts" := JString("2025-07-28T14:00:00Z")]);
    MessageAndTimestampChosen(v);
    LineFromFields(v, "INFO", "2025-07-28T14:00:00Z", "system online");
  }
}
