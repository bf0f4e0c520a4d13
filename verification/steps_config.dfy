/** The attribute helpers and `Step_Configuration` of the pipeline-step base module: value
    lookup and update on objects and dicts, regex composition from pattern parts, and the
    plain-data representation a configuration is saved as. */
module StepConfig {
  import opened Wrappers
  import opened Text
  import opened StepValues
  import opened Sequences

  /** The attributes `hasattr`/`getattr` see on a non-dict value. Only instances and functions
      carry attributes in this model. */
  function Attributes(v: Value): seq<Entry> {
    match v
    case VObject(attrs) => attrs
    case VFunction(attrs) => attrs
    case _ => []
  }

  /** `get_value(instance, key, default)`. On a dict, the stored value when the key is
      present and `None` when it is absent: the default is not used there. On anything else,
      the attribute when it exists and is not `None`, otherwise the default. */
  function GetValue(instance: Value, key: string, default: Value): (r: Value)
    ensures instance.VDict? && key !in Keys(instance.entries) ==> r == VNone
    ensures instance.VDict? && key in Keys(instance.entries) ==> Lookup(instance.entries, key) == Some(r)
    ensures !instance.VDict? ==>
              (r == default <==> Lookup(Attributes(instance), key) in {None, Some(VNone), Some(default)})
    ensures !instance.VDict? && r != default ==> Lookup(Attributes(instance), key) == Some(r)
  {
    if instance.VDict? then
      Lookup(instance.entries, key).GetOr(VNone)
    else
      match Lookup(Attributes(instance), key)
      case None => default
      case Some(value) => if value == VNone then default else value
  }

  /** `get_value(instance, key)`: on a dict the value or `None`; on anything else `getattr`,
      which raises `AttributeError` for a missing attribute. */
  function GetValueStrict(instance: Value, key: string): (r: Result<Value>)
    ensures r.Err? <==> !instance.VDict? && key !in Keys(Attributes(instance))
    ensures r.Err? ==> r.error == AttributeError
    ensures r.Ok? && !instance.VDict? ==> Lookup(Attributes(instance), key) == Some(r.value)
    ensures instance.VDict? ==> r == Ok(if key in Keys(instance.entries) then Lookup(instance.entries, key).value else VNone)
  {
    if instance.VDict? then Ok(Lookup(instance.entries, key).GetOr(VNone))
    else
      match Lookup(Attributes(instance), key)
      case None => Err(AttributeError)
      case Some(value) => Ok(value)
  }

  /** The dict `get_value(d, key, default)` hazard: an absent key gives `None`, whatever the
      default. */
  lemma GetValueIgnoresDefaultOnDict(es: seq<Entry>, key: string, default: Value)
    requires key !in Keys(es)
    ensures GetValue(VDict(es), key, default) == VNone
  {
  }

  /** A mutable object or dict, as `set_value` updates it in place. */
  class Namespace {
    const isDict: bool
    var entries: seq<Entry>

    constructor (isDict: bool, entries: seq<Entry>)
      ensures this.isDict == isDict && this.entries == entries
    {
      this.isDict := isDict;
      this.entries := entries;
    }

    function AsValue(): Value
      reads this
    {
      if isDict then VDict(entries) else VObject(entries)
    }
  }

  /** `set_value`: a dict always takes the key; an object takes it when it already has the
      attribute or `addKey` is set, and otherwise the call raises `ValueError` (through
      `logger.error`, or directly in the older copy) and nothing changes. */
  method SetValue(instance: Namespace, key: string, newValue: Value, addKey: bool) returns (r: Result<Namespace>)
    modifies instance
    ensures r.Ok? <==> instance.isDict || key in Keys(old(instance.entries)) || addKey
    ensures r.Ok? ==> r.value == instance && instance.entries == Put(old(instance.entries), key, newValue)
    ensures r.Err? ==> r.error == ValueError && instance.entries == old(instance.entries)
  {
    if instance.isDict {
      instance.entries := Put(instance.entries, key, newValue);
    } else if key in Keys(instance.entries) {
      instance.entries := Put(instance.entries, key, newValue);
    } else if addKey {
      instance.entries := Put(instance.entries, key, newValue);
    } else {
      return Err(ValueError);
    }
    r := Ok(instance);
  }

  /** What `set_value` stores is what `get_value` reads back: always on a dict, and on an
      object whenever the stored value is not `None`; other keys read as before. */
  lemma SetThenGet(isDict: bool, es: seq<Entry>, key: string, newValue: Value, default: Value, other: string)
    ensures isDict ==> GetValue(VDict(Put(es, key, newValue)), key, default) == newValue
    ensures !isDict && newValue != VNone ==> GetValue(VObject(Put(es, key, newValue)), key, default) == newValue
    ensures other != key ==> GetValue(VDict(Put(es, key, newValue)), other, default) == GetValue(VDict(es), other, default)
  {
    PutLookup(es, key, newValue, other);
  }

  /** The regex `update_pattern` composes from its parts ("" for a part that is not set):
      the pattern, then `contains` as an alternative, then the `suffix`, then the `prefix`
      in front. "" stands for no regex at all. */
  function ComposeRegex(pattern: string, contains: string, suffix: string, prefix: string): (r: string)
    ensures r == "" <==> pattern == "" && contains == "" && suffix == "" && prefix == ""
  {
    AddPrefix(AddSuffix(AddContains(pattern, contains), suffix), prefix)
  }

  /** The shape of a composed regex: the prefix anchors its start, otherwise the suffix its
      end, otherwise the `contains` alternative ends it; the pattern always occurs in it. */
  lemma ComposeRegexShape(pattern: string, contains: string, suffix: string, prefix: string)
    ensures var r := ComposeRegex(pattern, contains, suffix, prefix);
            && (prefix != "" ==> StartsWith(r, "^" + prefix + ".*"))
            && (prefix == "" && suffix != "" ==> EndsWith(r, ".*" + suffix + "$"))
            && (prefix == "" && suffix == "" && contains != "" ==> EndsWith(r, ".*" + contains + ".*"))
            && (pattern != "" ==> Contains(r, pattern))
  {
    var withContains := AddContains(pattern, contains);
    var withSuffix := AddSuffix(withContains, suffix);
    PrefixOfSuffix(pattern, withContains, withSuffix, AddPrefix(withSuffix, prefix));
  }

  /** A prefix of a prefix of a suffix of `r` occurs in `r`. */
  lemma PrefixOfSuffix(pattern: string, a: string, b: string, r: string)
    requires StartsWith(a, pattern) && StartsWith(b, a) && EndsWith(r, b)
    ensures Contains(r, pattern)
  {
    var at := |r| - |b|;
    assert b[..|pattern|] == b[..|a|][..|pattern|];
    assert r[at..][..|pattern|] == r[at..at + |pattern|];
    assert OccursAt(r, pattern, at);
  }

  /** `pattern`, with `.*{contains}.*` as an alternative when `contains` is set. */
  function AddContains(pattern: string, contains: string): (r: string)
    ensures r == "" <==> pattern == "" && contains == ""
    ensures StartsWith(r, pattern)
    ensures contains != "" ==> EndsWith(r, ".*" + contains + ".*")
  {
    if contains == "" then pattern
    else if pattern != "" then pattern + "|.*" + contains + ".*"
    else ".*" + contains + ".*"
  }

  /** `inner` followed by `.*{suffix}$` when `suffix` is set. */
  function AddSuffix(inner: string, suffix: string): (r: string)
    ensures r == "" <==> inner == "" && suffix == ""
    ensures StartsWith(r, inner) && |r| >= |inner|
    ensures suffix == "" ==> r == inner
    ensures suffix != "" ==> EndsWith(r, ".*" + suffix + "$")
  {
    if suffix == "" then inner
    else if inner != "" then inner + ".*" + suffix + "$"
    else ".*" + suffix + "$"
  }

  /** `^{prefix}.*` in front of `inner` when `prefix` is set. */
  function AddPrefix(inner: string, prefix: string): (r: string)
    ensures r == "" <==> inner == "" && prefix == ""
    ensures EndsWith(r, inner)
    ensures prefix == "" ==> r == inner
    ensures prefix != "" ==> StartsWith(r, "^" + prefix + ".*")
  {
    if prefix == "" then inner
    else if inner != "" then "^" + prefix + ".*" + inner
    else "^" + prefix + ".*"
  }

  /** The parts are applied in a fixed order: the prefix wraps whatever the other parts
      built, and a suffix alone gives `.*{suffix}$`. */
  lemma ComposeRegexOrder(pattern: string, contains: string, suffix: string, prefix: string)
    ensures var inner := ComposeRegex(pattern, contains, suffix, "");
            ComposeRegex(pattern, contains, suffix, prefix) ==
              if prefix == "" then inner
              else if inner == "" then "^" + prefix + ".*"
              else "^" + prefix + ".*" + inner
    ensures ComposeRegex("", "", suffix, "") == if suffix == "" then "" else ".*" + suffix + "$"
    ensures contains != "" ==>
              ComposeRegex(pattern, contains, "", "") ==
                if pattern == "" then ".*" + contains + ".*" else pattern + "|.*" + contains + ".*"
  {
  }

  /** The argument when it is set, otherwise the configured fallback. */
  function Or(given: string, fallback: string): string {
    if given != "" then given else fallback
  }

  /** The pattern table after storing `regex` under `key`, which only happens for a
      non-empty regex. */
  function StoreRegex(patterns: map<string, string>, key: string, regex: string): map<string, string> {
    if regex != "" then patterns[key := regex] else patterns
  }

  /** The table after storing `regex` under each key of `keys` in turn. */
  function FillPatterns(patterns: map<string, string>, keys: seq<string>, regex: string): map<string, string>
  {
    if keys == [] then patterns
    else StoreRegex(FillPatterns(patterns, keys[..|keys| - 1], regex), keys[|keys| - 1], regex)
  }

  /** Filling keeps every key and adds the listed ones; a listed key holds the regex, any
      other its old value. An empty regex leaves the table unchanged. */
  lemma {:induction false} FillPatternsSpec(patterns: map<string, string>, keys: seq<string>, regex: string)
    ensures forall k :: k in FillPatterns(patterns, keys, regex) <==> k in patterns || (regex != "" && k in keys)
    ensures forall k :: k in FillPatterns(patterns, keys, regex) ==>
              FillPatterns(patterns, keys, regex)[k] == if regex != "" && k in keys then regex else patterns[k]
  {
    if keys != [] {
      var init := keys[..|keys| - 1];
      FillPatternsSpec(patterns, init, regex);
      assert keys == init + [keys[|keys| - 1]];
      assert forall k :: k in keys <==> k in init || k == keys[|keys| - 1];
    }
  }

  /** The matching configuration of a step (`Step_Configuration`). A part that is `None` or
      empty is "". */
  class StepConfiguration {
    var pattern: string
    var contains: string
    var suffix: string
    var prefix: string
    var patterns: map<string, string>
    var mandatoryPatterns: map<string, string>

    constructor (pattern: string, contains: string, suffix: string, prefix: string,
                 patterns: map<string, string>, mandatoryPatterns: map<string, string>)
      ensures this.pattern == pattern && this.contains == contains
      ensures this.suffix == suffix && this.prefix == prefix
      ensures this.mandatoryPatterns == mandatoryPatterns
      ensures forall k :: k in this.patterns <==> k in patterns
      ensures forall k :: k in this.patterns ==>
                this.patterns[k] == (if ComposeRegex(pattern, contains, suffix, prefix) != ""
                                     then ComposeRegex(pattern, contains, suffix, prefix) else patterns[k])
    {
      this.pattern := pattern;
      this.contains := contains;
      this.suffix := suffix;
      this.prefix := prefix;
      this.mandatoryPatterns := mandatoryPatterns;
      // `update_patterns` over every key of the given table
      var regex := ComposeRegex(pattern, contains, suffix, prefix);
      this.patterns := map k | k in patterns :: if regex != "" then regex else patterns[k];
    }

    /** `update_pattern`: each part falls back to the configured one; the composed regex is
        stored under `key` unless it is empty, in which case the table is left unchanged. */
    method UpdatePattern(key: string, pattern: string, contains: string, suffix: string, prefix: string)
      modifies this`patterns
      ensures patterns == StoreRegex(old(patterns), key,
                ComposeRegex(Or(pattern, this.pattern), Or(contains, this.contains),
                             Or(suffix, this.suffix), Or(prefix, this.prefix)))
    {
      var regexAll := ComposeRegex(Or(pattern, this.pattern), Or(contains, this.contains),
                                   Or(suffix, this.suffix), Or(prefix, this.prefix));
      if regexAll != "" {
        patterns := patterns[key := regexAll];
      }
    }

    /** `update_patterns`: every listed key gets the regex of the configured parts, one key
        after the other. */
    method UpdatePatterns(fillPatterns: seq<string>)
      modifies this`patterns
      ensures patterns == FillPatterns(old(patterns), fillPatterns, ComposeRegex(pattern, contains, suffix, prefix))
    {
      var regex := ComposeRegex(pattern, contains, suffix, prefix);
      assert Or(pattern, pattern) == pattern && Or(contains, contains) == contains;
      assert Or(suffix, suffix) == suffix && Or(prefix, prefix) == prefix;
      var i := 0;
      while i < |fillPatterns|
        invariant 0 <= i <= |fillPatterns|
        invariant patterns == FillPatterns(old(patterns), fillPatterns[..i], regex)
      {
        ghost var before := patterns;
        UpdatePattern(fillPatterns[i], pattern, contains, suffix, prefix);
        assert patterns == StoreRegex(before, fillPatterns[i], regex);
        TakeSnoc(fillPatterns, i);
        i := i + 1;
      }
      TakeAll(fillPatterns);
    }

    /** `contruct_full_regex`: both regexes as lookaheads when both are set, otherwise
        whichever is set, otherwise `None`. */
    function ConstructFullRegex(regexId: string): (r: Option<string>)
      reads this
      ensures var p := if regexId in patterns then patterns[regexId] else "";
              var m := if regexId in mandatoryPatterns then mandatoryPatterns[regexId] else "";
              (r.None? <==> p == "" && m == "")
              && (p != "" && m != "" ==> r == Some("(?=" + p + ")(?=" + m + ")"))
              && (p != "" && m == "" ==> r == Some(p))
              && (p == "" && m != "" ==> r == Some(m))
    {
      var p := if regexId in patterns then patterns[regexId] else "";
      var m := if regexId in mandatoryPatterns then mandatoryPatterns[regexId] else "";
      if p != "" && m != "" then Some("(?=" + p + ")(?=" + m + ")")
      else if p != "" then Some(p)
      else if m != "" then Some(m)
      else None
    }
  }

  /** The representation `dict_representation` gives a value it meets inside a list or a
      dict: anything with a `__dict__` or a dict becomes a dict of represented values, a list
      a list of represented values, a remaining callable `True`, anything else itself. */
  function Represent(v: Value): Value
    decreases v
  {
    match v
    case VList(items) => VList(seq(|items|, i requires 0 <= i < |items| => Represent(items[i])))
    case VDict(es) => VDict(seq(|es|, i requires 0 <= i < |es| => Entry(es[i].key, Represent(es[i].value))))
    case VObject(es) => VDict(seq(|es|, i requires 0 <= i < |es| => Entry(es[i].key, Represent(es[i].value))))
    case VFunction(es) => VDict(seq(|es|, i requires 0 <= i < |es| => Entry(es[i].key, Represent(es[i].value))))
    case VBuiltin => VBool(true)
    case _ => v
  }

  /** `step.dict_representation(attribute)`: an absent (`None`) attribute stands for the step
      itself; then a list, a dict, or anything with a `__dict__` is represented, and any other
      value has no `__dict__` and raises `AttributeError`. */
  function DictRepresentation(step: Value, attribute: Value): (r: Result<Value>)
    ensures attribute != VNone ==>
              (r.Err? <==> !(attribute.VList? || attribute.VDict? || attribute.VObject? || attribute.VFunction?))
    ensures attribute == VNone ==>
              (r.Err? <==> !(step.VList? || step.VDict? || step.VObject? || step.VFunction?))
    ensures r.Err? ==> r.error == AttributeError
    ensures r.Ok? ==> Mirrors(if attribute == VNone then step else attribute, r.value) && PlainData(r.value)
  {
    var a := if attribute == VNone then step else attribute;
    if a.VList? || a.VDict? || a.VObject? || a.VFunction? then
      RepresentMirrors(a);
      RepresentPlain(a);
      Ok(Represent(a))
    else Err(AttributeError)
  }

  /** `r` has the shape of `v` at every level: the same list lengths, the same keys in the
      same order (objects and functions turned into dicts), primitive leaves copied, and
      `True` exactly where a callable without `__dict__` was. */
  predicate Mirrors(v: Value, r: Value)
    decreases v
  {
    match v
    case VList(items) =>
      r.VList? && |r.items| == |items|
      && forall i :: 0 <= i < |items| ==> Mirrors(items[i], r.items[i])
    case VDict(es) =>
      r.VDict? && Keys(r.entries) == Keys(es)
      && forall i :: 0 <= i < |es| ==> Mirrors(es[i].value, r.entries[i].value)
    case VObject(es) =>
      r.VDict? && Keys(r.entries) == Keys(es)
      && forall i :: 0 <= i < |es| ==> Mirrors(es[i].value, r.entries[i].value)
    case VFunction(es) =>
      r.VDict? && Keys(r.entries) == Keys(es)
      && forall i :: 0 <= i < |es| ==> Mirrors(es[i].value, r.entries[i].value)
    case VBuiltin => r == VBool(true)
    case _ => r == v
  }

  /** The representation mirrors the value. */
  lemma {:induction false} RepresentMirrors(v: Value)
    ensures Mirrors(v, Represent(v))
    decreases v
  {
    match v
    case VList(items) =>
      forall i | 0 <= i < |items| { RepresentMirrors(items[i]); }
    case VDict(es) =>
      forall i | 0 <= i < |es| { RepresentMirrors(es[i].value); }
    case VObject(es) =>
      forall i | 0 <= i < |es| { RepresentMirrors(es[i].value); }
    case VFunction(es) =>
      forall i | 0 <= i < |es| { RepresentMirrors(es[i].value); }
    case _ =>
  }

  /** Values `json.dump` can write: no instances and no callables anywhere. */
  predicate PlainData(v: Value)
    decreases v
  {
    match v
    case VList(items) => forall i :: 0 <= i < |items| ==> PlainData(items[i])
    case VDict(es) => forall i :: 0 <= i < |es| ==> PlainData(es[i].value)
    case VObject(_) => false
    case VFunction(_) => false
    case VBuiltin => false
    case _ => true
  }

  /** The representation is plain data. */
  lemma {:induction false} RepresentPlain(v: Value)
    ensures PlainData(Represent(v))
    decreases v
  {
    match v
    case VList(items) =>
      forall i | 0 <= i < |items| { RepresentPlain(items[i]); }
    case VDict(es) =>
      forall i | 0 <= i < |es| { RepresentPlain(es[i].value); }
    case VObject(es) =>
      forall i | 0 <= i < |es| { RepresentPlain(es[i].value); }
    case VFunction(es) =>
      forall i | 0 <= i < |es| { RepresentPlain(es[i].value); }
    case _ =>
  }

  /** Plain data is its own representation, so representing twice changes nothing. */
  lemma {:induction false} RepresentPlainFixed(v: Value)
    requires PlainData(v)
    ensures Represent(v) == v
    decreases v
  {
    match v
    case VList(items) =>
      forall i | 0 <= i < |items| { RepresentPlainFixed(items[i]); }
      assert Represent(v).items == items;
    case VDict(es) =>
      forall i | 0 <= i < |es| { RepresentPlainFixed(es[i].value); }
      assert Represent(v).entries == es;
    case _ =>
  }

  lemma RepresentIdempotent(v: Value)
    ensures Represent(Represent(v)) == Represent(v)
  {
    RepresentPlain(v);
    RepresentPlainFixed(Represent(v));
  }

  /** The `hasattr(value, "__dict__")` test comes before `callable`: a Python function
      becomes a dict of its attributes (`{}` for a plain one), never `True`. */
  lemma FunctionsBecomeDicts(attrs: seq<Entry>)
    ensures Represent(VFunction(attrs)).VDict?
    ensures Represent(VFunction([])) == VDict([])
  {
  }
}
