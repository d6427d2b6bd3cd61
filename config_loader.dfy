/** Configuration helpers (utils/config_loader.py): `${VAR}` references in a
    loaded JSON configuration are replaced by environment values, `get_env`
    reads one variable, and `load_env_vars` reads `KEY=value` lines into a
    dictionary and into the process environment. File contents and the
    process environment are parameters and state of the model. */
module ConfigLoader {
  import opened Wrappers
  import opened Text

  /** A decoded JSON value; an object keeps its fields in order. */
  datatype Json =
    | JNull
    | JBool(b: bool)
    | JNum(n: int)
    | JStr(s: string)
    | JArr(items: seq<Json>)
    | JObj(fields: seq<Field>)

  datatype Field = Field(key: string, value: Json)

  type Environ = map<string, string>

  /** `get_env`: the variable's value, else the default; with neither it
      raises `ValueError`. */
  function GetEnv(environ: Environ, key: string, default: Option<string>): (r: Result<string>)
    ensures key in environ ==> r == Ok(environ[key])
    ensures key !in environ && default.Some? ==> r == Ok(default.value)
    ensures r.Err? <==> key !in environ && default.None?
  {
    if key in environ then Ok(environ[key])
    else if default.Some? then Ok(default.value)
    else Err("ValueError: Environment variable " + key + " is not set and no default provided")
  }

  /** A string of the form `${NAME}` (`startswith('${')` and `endswith('}')`,
      which together need at least three characters). */
  predicate IsReference(s: string) {
    StartsWith(s, "${") && EndsWith(s, "}") && |s| >= 3
  }

  /** The NAME of `${NAME}` (`value[2:-1]`). */
  function ReferenceName(s: string): (name: string)
    requires IsReference(s)
    ensures s == "${" + name + "}"
  {
    s[2..|s| - 1]
  }

  /** `process_env_vars_in_config` on an object or an array: every member
      that is itself an object or an array is processed, every reference
      string is replaced by its variable, anything else is kept. The first
      unset variable, in document order, raises. Other values are left as they
      are. */
  function Process(j: Json, environ: Environ): Result<Json>
    decreases j, 1
  {
    match j
    case JArr(items) =>
      var items' :- ProcessItems(items, environ);
      Ok(JArr(items'))
    case JObj(fields) =>
      var fields' :- ProcessFields(fields, environ);
      Ok(JObj(fields'))
    case _ => Ok(j)
  }

  /** One member of an object or an array. */
  function ProcessMember(v: Json, environ: Environ): Result<Json>
    decreases v, 2
  {
    if v.JArr? || v.JObj? then Process(v, environ)
    else if v.JStr? && IsReference(v.s) then
      var value :- GetEnv(environ, ReferenceName(v.s), None);
      Ok(JStr(value))
    else Ok(v)
  }

  function ProcessItems(items: seq<Json>, environ: Environ): (r: Result<seq<Json>>)
    ensures r.Ok? ==> |r.value| == |items|
    decreases items, 0
  {
    if items == [] then Ok([])
    else
      var first :- ProcessMember(items[0], environ);
      var rest :- ProcessItems(items[1..], environ);
      Ok([first] + rest)
  }

  function ProcessFields(fields: seq<Field>, environ: Environ): (r: Result<seq<Field>>)
    ensures r.Ok? ==> |r.value| == |fields|
    ensures r.Ok? ==> forall i | 0 <= i < |fields| :: r.value[i].key == fields[i].key
    decreases fields, 0
  {
    if fields == [] then Ok([])
    else
      var first :- ProcessMember(fields[0].value, environ);
      var rest :- ProcessFields(fields[1..], environ);
      Ok([Field(fields[0].key, first)] + rest)
  }

  /** No member (at any depth) is a reference string. */
  predicate NoReferences(j: Json)
    decreases j, 1
  {
    match j
    case JArr(items) => ItemsHaveNoReferences(items)
    case JObj(fields) => FieldsHaveNoReferences(fields)
    case _ => true
  }

  predicate MemberHasNoReferences(v: Json)
    decreases v, 2
  {
    if v.JArr? || v.JObj? then NoReferences(v) else !(v.JStr? && IsReference(v.s))
  }

  predicate ItemsHaveNoReferences(items: seq<Json>)
    decreases items, 0
  {
    items == [] || (MemberHasNoReferences(items[0]) && ItemsHaveNoReferences(items[1..]))
  }

  predicate FieldsHaveNoReferences(fields: seq<Field>)
    decreases fields, 0
  {
    fields == [] || (MemberHasNoReferences(fields[0].value) && FieldsHaveNoReferences(fields[1..]))
  }

  /** Every referenced variable (at any depth) is set. */
  predicate Resolvable(j: Json, environ: Environ)
    decreases j, 1
  {
    match j
    case JArr(items) => ItemsResolvable(items, environ)
    case JObj(fields) => FieldsResolvable(fields, environ)
    case _ => true
  }

  predicate MemberResolvable(v: Json, environ: Environ)
    decreases v, 2
  {
    if v.JArr? || v.JObj? then Resolvable(v, environ)
    else v.JStr? && IsReference(v.s) ==> ReferenceName(v.s) in environ
  }

  predicate ItemsResolvable(items: seq<Json>, environ: Environ)
    decreases items, 0
  {
    items == [] || (MemberResolvable(items[0], environ) && ItemsResolvable(items[1..], environ))
  }

  predicate FieldsResolvable(fields: seq<Field>, environ: Environ)
    decreases fields, 0
  {
    fields == [] || (MemberResolvable(fields[0].value, environ) && FieldsResolvable(fields[1..], environ))
  }

  /** Processing raises exactly when some referenced variable is unset. */
  lemma {:induction false} ProcessOkIffResolvable(j: Json, environ: Environ)
    ensures Process(j, environ).Ok? <==> Resolvable(j, environ)
    decreases j, 1
  {
    match j
    case JArr(items) => ItemsOkIffResolvable(items, environ);
    case JObj(fields) => FieldsOkIffResolvable(fields, environ);
    case _ =>
  }

  lemma {:induction false} MemberOkIffResolvable(v: Json, environ: Environ)
    ensures ProcessMember(v, environ).Ok? <==> MemberResolvable(v, environ)
    decreases v, 2
  {
    if v.JArr? || v.JObj? {
      ProcessOkIffResolvable(v, environ);
    }
  }

  lemma {:induction false} ItemsOkIffResolvable(items: seq<Json>, environ: Environ)
    ensures ProcessItems(items, environ).Ok? <==> ItemsResolvable(items, environ)
    decreases items, 0
  {
    if items != [] {
      MemberOkIffResolvable(items[0], environ);
      ItemsOkIffResolvable(items[1..], environ);
    }
  }

  lemma {:induction false} FieldsOkIffResolvable(fields: seq<Field>, environ: Environ)
    ensures ProcessFields(fields, environ).Ok? <==> FieldsResolvable(fields, environ)
    decreases fields, 0
  {
    if fields != [] {
      MemberOkIffResolvable(fields[0].value, environ);
      FieldsOkIffResolvable(fields[1..], environ);
    }
  }

  /** A configuration without references comes back unchanged. */
  lemma {:induction false} ProcessWithoutReferences(j: Json, environ: Environ)
    requires NoReferences(j)
    ensures Process(j, environ) == Ok(j)
    decreases j, 1
  {
    match j
    case JArr(items) => ItemsWithoutReferences(items, environ);
    case JObj(fields) => FieldsWithoutReferences(fields, environ);
    case _ =>
  }

  lemma {:induction false} MemberWithoutReferences(v: Json, environ: Environ)
    requires MemberHasNoReferences(v)
    ensures ProcessMember(v, environ) == Ok(v)
    decreases v, 2
  {
    if v.JArr? || v.JObj? {
      ProcessWithoutReferences(v, environ);
    }
  }

  lemma {:induction false} ItemsWithoutReferences(items: seq<Json>, environ: Environ)
    requires ItemsHaveNoReferences(items)
    ensures ProcessItems(items, environ) == Ok(items)
    decreases items, 0
  {
    if items != [] {
      MemberWithoutReferences(items[0], environ);
      ItemsWithoutReferences(items[1..], environ);
      assert [items[0]] + items[1..] == items;
    }
  }

  lemma {:induction false} FieldsWithoutReferences(fields: seq<Field>, environ: Environ)
    requires FieldsHaveNoReferences(fields)
    ensures ProcessFields(fields, environ) == Ok(fields)
    decreases fields, 0
  {
    if fields != [] {
      MemberWithoutReferences(fields[0].value, environ);
      FieldsWithoutReferences(fields[1..], environ);
      assert [Field(fields[0].key, fields[0].value)] + fields[1..] == fields;
    }
  }

  /** No environment value is itself a reference. */
  predicate PlainEnviron(environ: Environ) {
    forall k | k in environ :: !IsReference(environ[k])
  }

  /** When the environment holds no reference strings, processing leaves none
      behind. */
  lemma {:induction false} ProcessRemovesReferences(j: Json, environ: Environ)
    requires PlainEnviron(environ) && Process(j, environ).Ok?
    ensures NoReferences(Process(j, environ).value)
    decreases j, 1
  {
    match j
    case JArr(items) => ItemsRemoveReferences(items, environ);
    case JObj(fields) => FieldsRemoveReferences(fields, environ);
    case _ =>
  }

  lemma {:induction false} MemberRemovesReferences(v: Json, environ: Environ)
    requires PlainEnviron(environ) && ProcessMember(v, environ).Ok?
    ensures MemberHasNoReferences(ProcessMember(v, environ).value)
    decreases v, 2
  {
    if v.JArr? || v.JObj? {
      ProcessRemovesReferences(v, environ);
    }
  }

  lemma {:induction false} ItemsRemoveReferences(items: seq<Json>, environ: Environ)
    requires PlainEnviron(environ) && ProcessItems(items, environ).Ok?
    ensures ItemsHaveNoReferences(ProcessItems(items, environ).value)
    decreases items, 0
  {
    if items != [] {
      MemberRemovesReferences(items[0], environ);
      ItemsRemoveReferences(items[1..], environ);
      var r := ProcessItems(items, environ).value;
      assert r[1..] == ProcessItems(items[1..], environ).value;
    }
  }

  lemma {:induction false} FieldsRemoveReferences(fields: seq<Field>, environ: Environ)
    requires PlainEnviron(environ) && ProcessFields(fields, environ).Ok?
    ensures FieldsHaveNoReferences(ProcessFields(fields, environ).value)
    decreases fields, 0
  {
    if fields != [] {
      MemberRemovesReferences(fields[0].value, environ);
      FieldsRemoveReferences(fields[1..], environ);
      var r := ProcessFields(fields, environ).value;
      assert r[1..] == ProcessFields(fields[1..], environ).value;
    }
  }

  /** With such an environment, processing twice is processing once. */
  lemma ProcessIdempotent(j: Json, environ: Environ)
    requires PlainEnviron(environ) && Process(j, environ).Ok?
    ensures Process(Process(j, environ).value, environ) == Process(j, environ)
  {
    ProcessRemovesReferences(j, environ);
    ProcessWithoutReferences(Process(j, environ).value, environ);
  }

  /** A reference member is replaced by its variable's value. */
  lemma ReferenceReplaced(name: string, environ: Environ)
    requires name in environ
    ensures ProcessItems([JStr("${" + name + "}")], environ) == Ok([JStr(environ[name])])
  {
    var s := "${" + name + "}";
    assert s[..2] == "${" && s[|s| - 1..] == "}";
    assert IsReference(s);
    assert ReferenceName(s) == name;
    assert ProcessMember(JStr(s), environ) == Ok(JStr(environ[name]));
    assert [JStr(s)][0] == JStr(s) && [JStr(s)][1..] == [];
    assert ProcessItems([], environ) == Ok([]);
    assert [JStr(environ[name])] + [] == [JStr(environ[name])];
  }

  /** How a stripped `.env` line is read. */
  datatype EnvLine = Ignored | Assignment(key: string, value: string) | Malformed(error: string)

  /** The position of the first '=' in `s`, if any. */
  function FirstEquals(s: string): (k: Option<nat>)
    ensures k.Some? ==> k.value < |s| && s[k.value] == '=' && '=' !in s[..k.value]
    ensures k.None? ==> '=' !in s
  {
    if s == [] then None
    else if s[0] == '=' then Some(0)
    else match FirstEquals(s[1..])
      case Some(k) =>
        assert s[..k + 1] == [s[0]] + s[1..][..k];
        Some(k + 1)
      case None => None
  }

  /** A stripped line that is empty or a comment is skipped; otherwise it is
      split on its first '='. A line without '=' cannot be unpacked into a key
      and a value, and an empty key cannot be set in the process environment;
      both raise. */
  function ParseEnvLine(line: string): EnvLine {
    var l := Strip(line);
    if l == "" || StartsWith(l, "#") then Ignored
    else match FirstEquals(l)
      case None => Malformed("ValueError: not enough values to unpack (expected 2, got 1)")
      case Some(k) =>
        if k == 0 then Malformed("ValueError: illegal environment variable name")
        else
          Assignment(l[..k], l[k + 1..])
  }

  /** An assignment splits the stripped line at its first '=' into a
      non-empty key and the rest; comments and blank lines are skipped; the
      other lines raise. */
  lemma ParseEnvLineMeaning(line: string)
    ensures var r := ParseEnvLine(line);
            && (r.Assignment? ==> Strip(line) == r.key + "=" + r.value && '=' !in r.key && r.key != "")
            && (r.Ignored? <==> Strip(line) == "" || StartsWith(Strip(line), "#"))
            && (r.Malformed? <==> !r.Ignored? && (('=' !in Strip(line)) || Strip(line)[0] == '='))
  {
    var l := Strip(line);
    var r := ParseEnvLine(line);
    if r.Assignment? {
      var k := FirstEquals(l).value;
      assert l == l[..k] + "=" + l[k + 1..];
    }
  }

  /** The lines of a file, as read. */
  function ParseEnvLines(lines: seq<string>): (es: seq<EnvLine>)
    ensures |es| == |lines|
    ensures forall i | 0 <= i < |lines| :: es[i] == ParseEnvLine(lines[i])
  {
    seq(|lines|, i requires 0 <= i < |lines| => ParseEnvLine(lines[i]))
  }

  /** The assignments applied to `acc`, in order, up to the first malformed
      line. */
  function Apply(acc: map<string, string>, es: seq<EnvLine>): map<string, string>
    decreases |es|
  {
    if es == [] then acc
    else match es[0]
      case Ignored => Apply(acc, es[1..])
      case Assignment(k, v) => Apply(acc[k := v], es[1..])
      case Malformed(_) => acc
  }

  predicate WellFormed(es: seq<EnvLine>) {
    forall i | 0 <= i < |es| :: !es[i].Malformed?
  }

  /** One step of reading: the line at `i` is skipped, applied, or stops
      the reading. */
  lemma ApplyStep(acc: map<string, string>, es: seq<EnvLine>, i: nat)
    requires i < |es|
    ensures es[i].Ignored? ==> Apply(acc, es[i..]) == Apply(acc, es[i + 1..])
    ensures es[i].Assignment? ==> Apply(acc, es[i..]) == Apply(acc[es[i].key := es[i].value], es[i + 1..])
    ensures es[i].Malformed? ==> Apply(acc, es[i..]) == acc
  {
    assert es[i..][0] == es[i];
    assert es[i..][1..] == es[i + 1..];
  }

  /** A later assignment overwrites what the earlier lines set; other lines
      add nothing. */
  lemma {:induction false} ApplyLastWins(acc: map<string, string>, es: seq<EnvLine>, e: EnvLine)
    requires WellFormed(es)
    ensures e.Assignment? ==> Apply(acc, es + [e]) == Apply(acc, es)[e.key := e.value]
    ensures !e.Assignment? ==> Apply(acc, es + [e]) == Apply(acc, es)
    decreases |es|
  {
    if es == [] {
      assert [] + [e] == [e];
      assert [e][1..] == [];
    } else {
      assert (es + [e])[0] == es[0];
      assert (es + [e])[1..] == es[1..] + [e];
      assert WellFormed(es[1..]) by {
        forall i | 0 <= i < |es| - 1 ensures !es[1..][i].Malformed? {
          assert es[1..][i] == es[i + 1];
        }
      }
      match es[0]
      case Ignored => ApplyLastWins(acc, es[1..], e);
      case Assignment(k, v) => ApplyLastWins(acc[k := v], es[1..], e);
    }
  }

  /** A key no line assigns keeps its starting value (or stays absent). */
  lemma {:induction false} ApplyUnassigned(acc: map<string, string>, es: seq<EnvLine>, key: string)
    requires forall i | 0 <= i < |es| :: !(es[i].Assignment? && es[i].key == key)
    ensures key in Apply(acc, es) <==> key in acc
    ensures key in acc ==> Apply(acc, es)[key] == acc[key]
    decreases |es|
  {
    if es != [] {
      forall i | 0 <= i < |es| - 1 ensures !(es[1..][i].Assignment? && es[1..][i].key == key) {
        assert es[1..][i] == es[i + 1];
      }
      match es[0]
      case Ignored => ApplyUnassigned(acc, es[1..], key);
      case Assignment(k, v) => ApplyUnassigned(acc[k := v], es[1..], key);
      case Malformed(_) =>
    }
  }

  lemma OverlayUpdate(a: map<string, string>, b: map<string, string>, k: string, v: string)
    ensures (a + b)[k := v] == a + b[k := v]
  {
  }

  /** The process environment (`os.environ`), which reading a `.env` file
      updates as it goes. */
  class Environment {
    var vars: Environ

    constructor(initial: Environ)
      ensures vars == initial
    {
      vars := initial;
    }

    /** `load_env_vars`: without a file name, or when the file does not exist
        (`lines` is None), nothing is read. Otherwise the lines are applied in
        order, each assignment both to the returned dictionary and to the
        environment; a malformed line raises, and the assignments made before
        it stay in the environment. */
    method LoadEnvVars(envFile: Option<string>, lines: Option<seq<string>>)
      returns (r: Result<map<string, string>>)
      modifies this
      ensures !Truthy(envFile) || lines.None? ==> r == Ok(map[]) && vars == old(vars)
      ensures Truthy(envFile) && lines.Some? ==>
                && vars == old(vars) + Apply(map[], ParseEnvLines(lines.value))
                && (r.Ok? <==> WellFormed(ParseEnvLines(lines.value)))
                && (r.Ok? ==> r.value == Apply(map[], ParseEnvLines(lines.value)))
    {
      if !Truthy(envFile) || lines.None? {
        return Ok(map[]);
      }
      r := ReadLines(lines.value);
    }

    /** The loop of `load_env_vars` over the lines of an existing file. */
    method ReadLines(ls: seq<string>) returns (r: Result<map<string, string>>)
      modifies this
      ensures vars == old(vars) + Apply(map[], ParseEnvLines(ls))
      ensures r.Ok? <==> WellFormed(ParseEnvLines(ls))
      ensures r.Ok? ==> r.value == Apply(map[], ParseEnvLines(ls))
    {
      ghost var es := ParseEnvLines(ls);
      ghost var final := Apply(map[], es);
      var envVars: map<string, string> := map[];
      var i := 0;
      while i < |ls|
        invariant 0 <= i <= |ls|
        invariant Apply(envVars, es[i..]) == final
        invariant vars == old(vars) + envVars
        invariant forall j | 0 <= j < i :: !es[j].Malformed?
      {
        var parsed := ParseEnvLine(ls[i]);
        assert parsed == es[i];
        ApplyStep(envVars, es, i);
        if parsed.Malformed? {
          assert envVars == final;
          assert !WellFormed(es);
          return Err(parsed.error);
        }
        if parsed.Assignment? {
          OverlayUpdate(old(vars), envVars, parsed.key, parsed.value);
          envVars := envVars[parsed.key := parsed.value];
          vars := vars[parsed.key := parsed.value];
        }
        i := i + 1;
      }
      assert es[i..] == [];
      assert envVars == final;
      return Ok(envVars);
    }
  }
}
