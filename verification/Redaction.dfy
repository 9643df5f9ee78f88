/**
  Payload redaction: the SDK's recursive form (sdk/python/controldb/redaction.py) and the collector's walker
  (services/collector/controldb_collector/redaction.py).
 */
module Redaction {
  import opened Common
  datatype Mode = Redact | Hash | Drop

  /** An empty field is no field. */
  datatype Rule = Rule(field: string, regex: Option<string -> bool>, mode: Mode)

  /** Dictionaries keep insertion order; Other is any value the walkers leave alone. */
  datatype Val =
    | Missing
    | Text(s: string)
    | Other(n: int)
    | List(items: seq<Val>)
    | Dict(members: seq<Keyed<Val>>)

  /** Digest of a value's printed form. */
  type Digest = Val -> string

  const SENTINEL := "<redacted>"

  function ApplyMode(digest: Digest, v: Val, mode: Mode): Val {
    match mode
    case Drop => Missing
    case Hash => Text("sha256:" + digest(v))
    case Redact => Text(SENTINEL)
  }

  /** The first rule naming the key. */
  function FieldRule(rules: seq<Rule>, key: string): Option<Mode> {
    if rules == [] then None
    else if rules[0].field != "" && rules[0].field == key then Some(rules[0].mode)
    else FieldRule(rules[1..], key)
  }

  /** The first rule whose expression is found in the string. */
  function RegexRule(rules: seq<Rule>, s: string): Option<Mode> {
    if rules == [] then None
    else if rules[0].regex.Some? && rules[0].regex.value(s) then Some(rules[0].mode)
    else RegexRule(rules[1..], s)
  }

  // ---- the SDK ----

  function RedactValue(digest: Digest, rules: seq<Rule>, v: Val): Val
    decreases v, 0
  {
    match v
    case Dict(members) => Dict(RedactMembers(digest, rules, members))
    case List(items) => List(RedactItems(digest, rules, items))
    case Text(s) => if RegexRule(rules, s).Some? then ApplyMode(digest, v, RegexRule(rules, s).value) else v
    case Missing => v
    case Other(_) => v
  }

  function RedactField(digest: Digest, rules: seq<Rule>, key: string, v: Val): Val
    decreases v, 1
  {
    if FieldRule(rules, key).Some? then ApplyMode(digest, v, FieldRule(rules, key).value)
    else RedactValue(digest, rules, v)
  }

  function RedactMembers(digest: Digest, rules: seq<Rule>, ms: seq<Keyed<Val>>): (r: seq<Keyed<Val>>)
    ensures |r| == |ms|
    decreases ms
  {
    if ms == [] then []
    else [Keyed(ms[0].key, RedactField(digest, rules, ms[0].key, ms[0].value))] + RedactMembers(digest, rules, ms[1..])
  }

  function RedactItems(digest: Digest, rules: seq<Rule>, items: seq<Val>): (r: seq<Val>)
    ensures |r| == |items|
    decreases items
  {
    if items == [] then [] else [RedactValue(digest, rules, items[0])] + RedactItems(digest, rules, items[1..])
  }

  function ApplyRedaction(digest: Digest, rules: seq<Rule>, payload: Val): Val {
    if payload.Missing? then Missing else RedactValue(digest, rules, payload)
  }

  // ---- the collector ----

  /** No dictionary repeats a key. */
  predicate Unique(v: Val)
    decreases v
  {
    match v
    case Dict(members) => Distinct(members) && forall i :: 0 <= i < |members| ==> Unique(members[i].value)
    case List(items) => forall i :: 0 <= i < |items| ==> Unique(items[i])
    case Missing => true
    case Text(_) => true
    case Other(_) => true
  }

  /** Assignment to a dictionary entry: replaced in place, or added at the end. */
  function SetItem<T>(ms: seq<Keyed<T>>, key: string, v: T): seq<Keyed<T>> {
    if ms == [] then [Keyed(key, v)]
    else if ms[0].key == key then [Keyed(key, v)] + ms[1..]
    else [ms[0]] + SetItem(ms[1..], key, v)
  }

  lemma {:induction false} SetNew<T>(ms: seq<Keyed<T>>, key: string, v: T)
    requires forall i :: 0 <= i < |ms| ==> ms[i].key != key
    ensures SetItem(ms, key, v) == ms + [Keyed(key, v)]
  {
    if ms != [] { SetNew(ms[1..], key, v); }
  }

  /** The rules in turn, up to the first that names the key. */
  method MatchField(rules: seq<Rule>, key: string) returns (mode: Option<Mode>)
    ensures mode == FieldRule(rules, key)
  {
    assert rules[0..] == rules;
    for j := 0 to |rules|
      invariant FieldRule(rules, key) == FieldRule(rules[j..], key)
    {
      if rules[j].field != "" && rules[j].field == key { return Some(rules[j].mode); }
      assert rules[j..][1..] == rules[j + 1..];
    }
    mode := None;
  }

  /** The rules in turn, up to the first whose expression is found in the string. */
  method MatchText(rules: seq<Rule>, s: string) returns (mode: Option<Mode>)
    ensures mode == RegexRule(rules, s)
  {
    assert rules[0..] == rules;
    for j := 0 to |rules|
      invariant RegexRule(rules, s) == RegexRule(rules[j..], s)
    {
      if rules[j].regex.Some? && rules[j].regex.value(s) { return Some(rules[j].mode); }
      assert rules[j..][1..] == rules[j + 1..];
    }
    mode := None;
  }

  /** The walker with its loops gives what the recursive form gives. */
  method Walk(digest: Digest, rules: seq<Rule>, v: Val) returns (r: Val)
    requires Unique(v)
    ensures r == RedactValue(digest, rules, v)
    ensures Outcome(digest, rules, v, r) && (Clear(rules, v) ==> r == v)
    decreases v
  {
    OutcomeHere(digest, rules, v);
    if Clear(rules, v) { Untouched(digest, rules, v); }
    hide Outcome, Clear, ApplyMode, FieldRule, RegexRule;
    if v.Dict? {
      var result: seq<Keyed<Val>> := [];
      for i := 0 to |v.members|
        invariant result == RedactMembers(digest, rules, v.members[..i])
      {
        var k, x := v.members[i].key, v.members[i].value;
        RedactSnoc(digest, rules, v.members[..i], v.members[i]);
        assert v.members[..i + 1] == v.members[..i] + [v.members[i]];
        KeysKept(digest, rules, v.members[..i]);
        var mode := MatchField(rules, k);
        var w: Val;
        if mode.Some? { w := ApplyMode(digest, x, mode.value); } else { w := Walk(digest, rules, x); }
        SetNew(result, k, w);
        result := SetItem(result, k, w);
      }
      assert v.members[..|v.members|] == v.members;
      return Dict(result);
    }
    if v.List? {
      var result: seq<Val> := [];
      for i := 0 to |v.items|
        invariant result == RedactItems(digest, rules, v.items[..i])
      {
        var w := Walk(digest, rules, v.items[i]);
        ItemsSnoc(digest, rules, v.items[..i], v.items[i]);
        assert v.items[..i + 1] == v.items[..i] + [v.items[i]];
        result := result + [w];
      }
      assert v.items[..|v.items|] == v.items;
      return List(result);
    }
    if v.Text? {
      var mode := MatchText(rules, v.s);
      if mode.Some? { return ApplyMode(digest, v, mode.value); }
    }
    r := v;
  }

  lemma {:induction false} RedactSnoc(digest: Digest, rules: seq<Rule>, ms: seq<Keyed<Val>>, m: Keyed<Val>)
    ensures RedactMembers(digest, rules, ms + [m]) ==
      RedactMembers(digest, rules, ms) + [Keyed(m.key, RedactField(digest, rules, m.key, m.value))]
    decreases |ms|
  {
    hide RedactField;
    if ms == [] {
      assert (ms + [m])[1..] == [];
    } else {
      RedactSnoc(digest, rules, ms[1..], m);
      assert (ms + [m])[1..] == ms[1..] + [m];
    }
  }

  lemma {:induction false} ItemsSnoc(digest: Digest, rules: seq<Rule>, items: seq<Val>, v: Val)
    ensures RedactItems(digest, rules, items + [v]) == RedactItems(digest, rules, items) + [RedactValue(digest, rules, v)]
    decreases |items|
  {
    hide RedactValue;
    if items == [] {
      assert (items + [v])[1..] == [];
    } else {
      ItemsSnoc(digest, rules, items[1..], v);
      assert (items + [v])[1..] == items[1..] + [v];
    }
  }

  lemma {:induction false} KeysKept(digest: Digest, rules: seq<Rule>, ms: seq<Keyed<Val>>)
    ensures forall i :: 0 <= i < |ms| ==> RedactMembers(digest, rules, ms)[i].key == ms[i].key
    decreases |ms|
  {
    hide RedactField;
    if ms != [] { KeysKept(digest, rules, ms[1..]); }
  }

  method ApplyCollectorRedaction(digest: Digest, rules: seq<Rule>, payload: Val) returns (r: Val)
    requires Unique(payload)
    ensures r == ApplyRedaction(digest, rules, payload)
    ensures Outcome(digest, rules, payload, r) && (Clear(rules, payload) ==> r == payload)
  {
    if payload.Missing? { return Missing; }
    hide Outcome, Clear;
    r := Walk(digest, rules, payload);
  }

  // ---- noninterference ----

  /** The rule's output does not depend on the value. */
  predicate Masks(mode: Option<Mode>) {
    mode == Some(Redact) || mode == Some(Drop)
  }

  /** Equal but for what lies beneath masked keys and for strings masked alike. */
  predicate Alike(rules: seq<Rule>, v: Val, w: Val)
    decreases v
  {
    match v
    case Dict(ms) => w.Dict? && AlikeMembers(rules, ms, w.members)
    case List(items) => w.List? && AlikeItems(rules, items, w.items)
    case Text(s) => v == w || (w.Text? && Masks(RegexRule(rules, s)) && RegexRule(rules, s) == RegexRule(rules, w.s))
    case Missing => v == w
    case Other(_) => v == w
  }

  predicate AlikeMembers(rules: seq<Rule>, a: seq<Keyed<Val>>, b: seq<Keyed<Val>>)
    decreases a
  {
    |a| == |b| && (a != [] ==>
      && a[0].key == b[0].key
      && (Masks(FieldRule(rules, a[0].key)) || a[0] == b[0] ||
          (FieldRule(rules, a[0].key).None? && Alike(rules, a[0].value, b[0].value)))
      && AlikeMembers(rules, a[1..], b[1..]))
  }

  predicate AlikeItems(rules: seq<Rule>, a: seq<Val>, b: seq<Val>)
    decreases a
  {
    |a| == |b| && (a != [] ==> Alike(rules, a[0], b[0]) && AlikeItems(rules, a[1..], b[1..]))
  }

  /** Payloads that differ only beneath masked keys, at any depth, redact to the same output. */
  lemma {:induction false} Noninterference(digest: Digest, rules: seq<Rule>, v: Val, w: Val)
    requires Alike(rules, v, w)
    ensures RedactValue(digest, rules, v) == RedactValue(digest, rules, w)
    decreases v
  {
    match v {
      case Dict(ms) => MembersSame(digest, rules, ms, w.members);
      case List(items) => ItemsSame(digest, rules, items, w.items);
      case Text(_) =>
      case Missing =>
      case Other(_) =>
    }
  }

  lemma {:induction false} MembersSame(digest: Digest, rules: seq<Rule>, a: seq<Keyed<Val>>, b: seq<Keyed<Val>>)
    requires AlikeMembers(rules, a, b)
    ensures RedactMembers(digest, rules, a) == RedactMembers(digest, rules, b)
    decreases a
  {
    if a != [] {
      if FieldRule(rules, a[0].key).None? && a[0] != b[0] {
        Noninterference(digest, rules, a[0].value, b[0].value);
      }
      MembersSame(digest, rules, a[1..], b[1..]);
    }
  }

  lemma {:induction false} ItemsSame(digest: Digest, rules: seq<Rule>, a: seq<Val>, b: seq<Val>)
    requires AlikeItems(rules, a, b)
    ensures RedactItems(digest, rules, a) == RedactItems(digest, rules, b)
    decreases a
  {
    if a != [] {
      Noninterference(digest, rules, a[0], b[0]);
      ItemsSame(digest, rules, a[1..], b[1..]);
    }
  }

  /** Every member of a dictionary comes out under its own key, masked by its first field rule or redacted in turn. */
  lemma {:induction false} MemberAt(digest: Digest, rules: seq<Rule>, ms: seq<Keyed<Val>>, i: nat)
    requires i < |ms|
    ensures var out := RedactMembers(digest, rules, ms)[i];
      && out.key == ms[i].key
      && (FieldRule(rules, out.key) == Some(Redact) ==> out.value == Text(SENTINEL))
      && (FieldRule(rules, out.key) == Some(Drop) ==> out.value == Missing)
      && (FieldRule(rules, out.key) == Some(Hash) ==> out.value == Text("sha256:" + digest(ms[i].value)))
      && (FieldRule(rules, out.key).None? ==> out.value == RedactValue(digest, rules, ms[i].value))
  {
    hide RedactValue;
    if i > 0 { MemberAt(digest, rules, ms[1..], i - 1); }
  }

  // ---- what redaction does, place by place ----

  /** Rule j is the first to name the key. */
  ghost predicate FirstNamed(rules: seq<Rule>, key: string, j: nat) {
    j < |rules| && Named(rules[j], key) && forall i :: 0 <= i < j ==> !Named(rules[i], key)
  }

  predicate Named(rule: Rule, key: string) {
    rule.field != "" && rule.field == key
  }

  /** Rule j is the first whose expression is found in the string. */
  ghost predicate FirstFound(rules: seq<Rule>, s: string, j: nat) {
    j < |rules| && Found(rules[j], s) && forall i :: 0 <= i < j ==> !Found(rules[i], s)
  }

  predicate Found(rule: Rule, s: string) {
    rule.regex.Some? && rule.regex.value(s)
  }

  lemma {:induction false} FieldRuleExact(rules: seq<Rule>, key: string)
    ensures FieldRule(rules, key).None? <==> forall i :: 0 <= i < |rules| ==> !Named(rules[i], key)
    ensures forall j: nat :: FirstNamed(rules, key, j) ==> FieldRule(rules, key) == Some(rules[j].mode)
  {
    if rules != [] {
      FieldRuleExact(rules[1..], key);
      assert forall i :: 0 < i < |rules| ==> rules[i] == rules[1..][i - 1];
      forall j: nat | FirstNamed(rules, key, j) ensures FieldRule(rules, key) == Some(rules[j].mode) {
        if j > 0 { assert FirstNamed(rules[1..], key, j - 1); }
      }
    }
  }

  lemma {:induction false} RegexRuleExact(rules: seq<Rule>, s: string)
    ensures RegexRule(rules, s).None? <==> forall i :: 0 <= i < |rules| ==> !Found(rules[i], s)
    ensures forall j: nat :: FirstFound(rules, s, j) ==> RegexRule(rules, s) == Some(rules[j].mode)
  {
    if rules != [] {
      RegexRuleExact(rules[1..], s);
      assert forall i :: 0 < i < |rules| ==> rules[i] == rules[1..][i - 1];
      forall j: nat | FirstFound(rules, s, j) ensures RegexRule(rules, s) == Some(rules[j].mode) {
        if j > 0 { assert FirstFound(rules[1..], s, j - 1); }
      }
    }
  }

  /** What each mode puts in the place of a value. */
  predicate Masked(digest: Digest, mode: Mode, v: Val, out: Val) {
    && (mode == Drop ==> out == Missing)
    && (mode == Hash ==> out == Text("sha256:" + digest(v)))
    && (mode == Redact ==> out == Text("<redacted>"))
  }

  /** Children by position; a dictionary's have keys. */
  function Children(v: Val): seq<Val> {
    match v
    case Dict(ms) => seq(|ms|, i requires 0 <= i < |ms| => ms[i].value)
    case List(items) => items
    case Missing => []
    case Text(_) => []
    case Other(_) => []
  }

  /** The value at a path of positions. */
  function At(v: Val, path: seq<nat>): Option<Val>
    decreases |path|
  {
    if path == [] then Some(v)
    else if path[0] < |Children(v)| then At(Children(v)[path[0]], path[1..])
    else None
  }

  /** The path exists and no dictionary key on it is named by a rule. */
  ghost predicate Open(rules: seq<Rule>, v: Val, path: seq<nat>)
    decreases |path|
  {
    path == [] ||
    (path[0] < |Children(v)|
     && (v.Dict? ==> forall j :: 0 <= j < |rules| ==> !Named(rules[j], v.members[path[0]].key))
     && Open(rules, Children(v)[path[0]], path[1..]))
  }

  /**
    A value against its output: leaves come out as they are, a string as the first rule found in it says, lists keep their
    length, dictionaries their keys in order, and a member under a named key is masked as the first such rule says.
   */
  ghost predicate Outcome(digest: Digest, rules: seq<Rule>, v: Val, out: Val) {
    && (v.Missing? || v.Other? ==> out == v)
    && (v.Text? && (forall j :: 0 <= j < |rules| ==> !Found(rules[j], v.s)) ==> out == v)
    && (v.Text? ==> forall j: nat :: FirstFound(rules, v.s, j) ==> Masked(digest, rules[j].mode, v, out))
    && (v.List? ==> out.List? && |out.items| == |v.items|)
    && (v.Dict? ==> out.Dict? && |out.members| == |v.members|)
    && (v.Dict? ==> forall i: nat :: i < |v.members| ==> MemberOutcome(digest, rules, v.members[i], out.members[i]))
  }

  ghost predicate MemberOutcome(digest: Digest, rules: seq<Rule>, m: Keyed<Val>, out: Keyed<Val>) {
    out.key == m.key && forall j: nat :: FirstNamed(rules, m.key, j) ==> Masked(digest, rules[j].mode, m.value, out.value)
  }

  lemma MaskExact(digest: Digest, v: Val, mode: Mode)
    ensures Masked(digest, mode, v, ApplyMode(digest, v, mode))
  {
  }

  lemma {:induction false} ItemAt(digest: Digest, rules: seq<Rule>, items: seq<Val>, i: nat)
    requires i < |items|
    ensures RedactItems(digest, rules, items)[i] == RedactValue(digest, rules, items[i])
  {
    hide RedactValue;
    if i > 0 { ItemAt(digest, rules, items[1..], i - 1); }
  }

  lemma {:induction false} FieldAt(digest: Digest, rules: seq<Rule>, ms: seq<Keyed<Val>>, i: nat)
    requires i < |ms|
    ensures RedactMembers(digest, rules, ms)[i] == Keyed(ms[i].key, RedactField(digest, rules, ms[i].key, ms[i].value))
  {
    hide RedactField;
    if i > 0 { FieldAt(digest, rules, ms[1..], i - 1); }
  }

  lemma OutcomeHere(digest: Digest, rules: seq<Rule>, v: Val)
    ensures Outcome(digest, rules, v, RedactValue(digest, rules, v))
  {
    hide Named, Found, ApplyMode, Masked, RedactItems, RedactMembers, FieldRule, RegexRule, FirstNamed, FirstFound;
    match v {
      case Dict(ms) =>
        forall i: nat | i < |ms| ensures MemberOutcome(digest, rules, ms[i], RedactMembers(digest, rules, ms)[i]) {
          FieldAt(digest, rules, ms, i);
          FieldRuleExact(rules, ms[i].key);
          forall mode { MaskExact(digest, ms[i].value, mode); }
        }
      case Text(s) =>
        RegexRuleExact(rules, s);
        forall mode { MaskExact(digest, v, mode); }
      case List(_) =>
      case Missing =>
      case Other(_) =>
    }
  }

  /** At every path whose keys no rule names, the output is what redaction makes of the value there. */
  lemma {:induction false} PathOutcome(digest: Digest, rules: seq<Rule>, v: Val, path: seq<nat>)
    requires Open(rules, v, path)
    ensures At(v, path).Some? && At(RedactValue(digest, rules, v), path).Some?
    ensures Outcome(digest, rules, At(v, path).value, At(RedactValue(digest, rules, v), path).value)
    decreases |path|
  {
    hide Outcome, FirstNamed;
    if path == [] {
      OutcomeHere(digest, rules, v);
    } else {
      var i, child := path[0], Children(v)[path[0]];
      PathOutcome(digest, rules, child, path[1..]);
      if v.Dict? {
        FieldAt(digest, rules, v.members, i);
        FieldRuleExact(rules, v.members[i].key);
      } else {
        ItemAt(digest, rules, v.items, i);
      }
      assert Children(RedactValue(digest, rules, v))[i] == RedactValue(digest, rules, child);
    }
  }

  /** No rule names a key or is found in a string, at any depth. */
  ghost predicate Clear(rules: seq<Rule>, v: Val)
    decreases v
  {
    match v
    case Dict(ms) =>
      forall i :: 0 <= i < |ms| ==> (forall j :: 0 <= j < |rules| ==> !Named(rules[j], ms[i].key)) && Clear(rules, ms[i].value)
    case List(items) => forall i :: 0 <= i < |items| ==> Clear(rules, items[i])
    case Text(s) => forall j :: 0 <= j < |rules| ==> !Found(rules[j], s)
    case Missing => true
    case Other(_) => true
  }

  /** What no rule concerns comes out unchanged. */
  lemma {:induction false} Untouched(digest: Digest, rules: seq<Rule>, v: Val)
    requires Clear(rules, v)
    ensures RedactValue(digest, rules, v) == v
    decreases v
  {
    hide Named, Found;
    match v {
      case Dict(ms) =>
        var out := RedactMembers(digest, rules, ms);
        forall i | 0 <= i < |ms| ensures out[i] == ms[i] {
          FieldAt(digest, rules, ms, i);
          FieldRuleExact(rules, ms[i].key);
          Untouched(digest, rules, ms[i].value);
        }
      case List(items) =>
        forall i | 0 <= i < |items| ensures RedactItems(digest, rules, items)[i] == items[i] {
          ItemAt(digest, rules, items, i);
          Untouched(digest, rules, items[i]);
        }
      case Text(s) => RegexRuleExact(rules, s);
      case Missing =>
      case Other(_) =>
    }
  }
}
