/** The `ExperimentalApi` derive: a generator of checks, what the generated code computes, and what it should mean. */
module Derive {
  import opened Common

  // ---- The deriving type, as the generator sees it ----

  /** `#[experimental("reason")]`, `#[experimental(nested)]`, another argument, or another attribute. */
  datatype Attr = ExperimentalReason(reason: string) | ExperimentalIdent(ident: string) | ExperimentalOther | OtherAttr

  datatype Type = Path(last: string, args: seq<Type>) | NonPath

  datatype FieldName = Named(ident: string) | Index(position: nat)

  datatype Field = Field(name: FieldName, ty: Type, attrs: seq<Attr>)

  datatype Decl = Struct(fields: seq<Field>) | Enum(variants: seq<seq<Attr>>)

  function ReasonOf(attrs: seq<Attr>): Option<string> {
    if attrs == [] then None
    else if attrs[0].ExperimentalReason? then Some(attrs[0].reason)
    else ReasonOf(attrs[1..])
  }

  predicate IsNested(attrs: seq<Attr>) { ExperimentalIdent("nested") in attrs }

  // ---- The generated code ----

  datatype Presence = IsSome | NotEmpty | IsTrue | Always

  /** One generated statement: return the reason if the field is present, or whatever the field's own value returns. */
  datatype Check = IfPresent(field: nat, test: Presence, reason: string) | IfNested(field: nat)

  datatype ExperimentalField = ExperimentalField(typeName: string, fieldName: string, reason: string)

  function PresenceFor(ty: Type): Presence {
    if ty.Path? && ty.last == "Option" && ty.args != [] then IsSome
    else if ty.Path? && (ty.last == "Vec" || ty.last == "HashMap" || ty.last == "BTreeMap") then NotEmpty
    else if ty.Path? && ty.last == "bool" then IsTrue
    else Always
  }

  function CheckOf(field: Field, i: nat): seq<Check> {
    match ReasonOf(field.attrs)
    case Some(reason) => [IfPresent(i, PresenceFor(field.ty), reason)]
    case None => if IsNested(field.attrs) then [IfNested(i)] else []
  }

  /** The checks of the fields from `i` on, in the order of declaration. */
  function Checks(fields: seq<Field>, i: nat): seq<Check>
    requires i <= |fields|
    decreases |fields| - i
  {
    if i == |fields| then [] else CheckOf(fields[i], i) + Checks(fields, i + 1)
  }

  function Upper(c: char): char { if 'a' <= c <= 'z' then c - 'a' + 'A' else c }

  function CamelFrom(s: string, upper: bool): string {
    if s == [] then []
    else if s[0] == '_' then CamelFrom(s[1..], true)
    else [if upper then Upper(s[0]) else s[0]] + CamelFrom(s[1..], false)
  }

  function SerializedName(name: FieldName): string {
    match name case Named(ident) => CamelFrom(ident, false) case Index(i) => Decimal(i)
  }

  function Registered(typeName: string, fields: seq<Field>, i: nat): seq<ExperimentalField>
    requires i <= |fields|
    decreases |fields| - i
  {
    if i == |fields| then []
    else
      var rest := Registered(typeName, fields, i + 1);
      match ReasonOf(fields[i].attrs)
      case Some(reason) => [ExperimentalField(typeName, SerializedName(fields[i].name), reason)] + rest
      case None => rest
  }

  method SnakeToCamel(s: string) returns (out: string)
    ensures out == CamelFrom(s, false)
  {
    out := [];
    var upper := false;
    for i := 0 to |s|
      invariant out + CamelFrom(s[i..], upper) == CamelFrom(s, false)
    {
      assert s[i..][1..] == s[i + 1..];
      if s[i] == '_' {
        upper := true;
        continue;
      }
      out := out + [if upper then Upper(s[i]) else s[i]];
      upper := false;
    }
  }

  function Lower(c: char): char { if 'A' <= c <= 'Z' then c - 'A' + 'a' else c }

  /** The letters of a name without its underscores and regardless of their case. */
  function Letters(s: string): string {
    if s == [] then [] else (if s[0] == '_' then [] else [Lower(s[0])]) + Letters(s[1..])
  }

  /** Camel case drops the underscores and changes nothing else but the case of letters. */
  lemma {:induction false} CamelKeepsLetters(s: string, upper: bool)
    ensures '_' !in CamelFrom(s, upper)
    ensures Letters(CamelFrom(s, upper)) == Letters(s)
  {
    if s == [] {
    } else {
      CamelKeepsLetters(s[1..], s[0] == '_');
    }
  }

  lemma {:induction false} CamelJoins(s: string, t: string, upper: bool)
    requires s == [] || s[|s| - 1] != '_'
    ensures CamelFrom(s + t, upper) == CamelFrom(s, upper) + CamelFrom(t, upper && s == [])
  {
    if s == [] {
      assert [] + t == t;
    } else {
      assert (s + t)[1..] == s[1..] + t;
      if |s| == 1 {
        assert s[1..] + t == t;
      } else {
        CamelJoins(s[1..], t, s[0] == '_');
      }
    }
  }

  lemma CamelOfNext(c: char, t: string)
    requires c != '_'
    ensures CamelFrom("_" + [c] + t, false) == [Upper(c)] + CamelFrom(t, false)
  {
    var next := "_" + [c] + t;
    assert next[1..] == [c] + t;
    assert next[1..][1..] == t;
  }

  /** What follows an underscore gets a capital, and the rest goes on as before. */
  lemma CamelOfWords(s: string, c: char, t: string)
    requires (s == [] || s[|s| - 1] != '_') && c != '_'
    ensures CamelFrom(s + ("_" + [c] + t), false) == CamelFrom(s, false) + ([Upper(c)] + CamelFrom(t, false))
  {
    CamelJoins(s, "_" + [c] + t, false);
    CamelOfNext(c, t);
  }

  /** A word without underscores stays as it is. */
  lemma {:induction false} WordStays(s: string)
    requires '_' !in s
    ensures CamelFrom(s, false) == s
  {
    if s == [] {
    } else {
      WordStays(s[1..]);
    }
  }

  lemma UpperIs(c: char)
    ensures Upper(c) as int == c as int - if 97 <= c as int <= 122 then 32 else 0
  {
  }

  method FieldSerializedName(name: FieldName) returns (r: string)
    ensures r == SerializedName(name)
  {
    match name {
      case Named(ident) => r := SnakeToCamel(ident);
      case Index(i) => r := Decimal(i);
    }
  }

  /** The generator's loop over the fields, pushing checks and registry entries. */
  method DeriveForStruct(typeName: string, fields: seq<Field>)
    returns (checks: seq<Check>, experimentalFields: seq<ExperimentalField>)
    ensures checks == Checks(fields, 0)
    ensures experimentalFields == Registered(typeName, fields, 0)
  {
    checks, experimentalFields := [], [];
    for i := 0 to |fields|
      invariant checks + Checks(fields, i) == Checks(fields, 0)
      invariant experimentalFields + Registered(typeName, fields, i) == Registered(typeName, fields, 0)
    {
      ghost var checksBefore, fieldsBefore := checks, experimentalFields;
      match ReasonOf(fields[i].attrs) {
        case Some(reason) =>
          checks := checks + [IfPresent(i, PresenceFor(fields[i].ty), reason)];
          var name := FieldSerializedName(fields[i].name);
          var entry := ExperimentalField(typeName, name, reason);
          experimentalFields := experimentalFields + [entry];
          SeqAssociative(fieldsBefore, [entry], Registered(typeName, fields, i + 1));
        case None =>
          if IsNested(fields[i].attrs) {
            checks := checks + [IfNested(i)];
          }
      }
      SeqAssociative(checksBefore, CheckOf(fields[i], i), Checks(fields, i + 1));
    }
  }

  // ---- Running the generated code ----

  /** A map is its values in iteration order. */
  datatype Value =
    | OptionV(inner: Option<Value>)
    | SeqV(items: seq<Value>)
    | MapV(items: seq<Value>)
    | BoolV(b: bool)
    | StructV(typeName: string, fields: seq<Value>)
    | EnumV(typeName: string, variant: nat)
    | Opaque

  type Types = map<string, Decl>

  predicate Holds(test: Presence, v: Value) {
    match test
    case IsSome => v.OptionV? && v.inner.Some?
    case NotEmpty => (v.SeqV? || v.MapV?) && v.items != []
    case IsTrue => v.BoolV? && v.b
    case Always => true
  }

  /** `experimental_reason`: derived for structs and enums, written by hand for options, vectors and maps. */
  function Reason(types: Types, v: Value): Option<string>
    decreases v
  {
    match v
    case OptionV(inner) => (match inner case None => None case Some(w) => Reason(types, w))
    case SeqV(_) => FirstReason(types, v, 0)
    case MapV(_) => FirstReason(types, v, 0)
    case StructV(name, _) =>
      if name in types && types[name].Struct? then Run(types, v, Checks(types[name].fields, 0)) else None
    case EnumV(name, variant) =>
      if name in types && types[name].Enum? && variant < |types[name].variants|
      then ReasonOf(types[name].variants[variant])
      else None
    case _ => None
  }

  function FirstReason(types: Types, v: Value, i: nat): Option<string>
    requires v.SeqV? || v.MapV?
    requires i <= |v.items|
    decreases v, |v.items| - i
  {
    if i == |v.items| then None
    else
      var r := Reason(types, v.items[i]);
      if r.Some? then r else FirstReason(types, v, i + 1)
  }

  /** The generated statements, one after the other. */
  function Run(types: Types, v: Value, checks: seq<Check>): Option<string>
    requires v.StructV?
    decreases v, |checks|
  {
    if checks == [] then None
    else if checks[0].field >= |v.fields| then None
    else
      var x := v.fields[checks[0].field];
      match checks[0]
      case IfPresent(_, test, reason) => if Holds(test, x) then Some(reason) else Run(types, v, checks[1..])
      case IfNested(_) =>
        var r := Reason(types, x);
        if r.Some? then r else Run(types, v, checks[1..])
  }

  // ---- What one field's statement returns ----

  predicate IsStruct(types: Types, v: Value) {
    v.StructV? && v.typeName in types && types[v.typeName].Struct? && |v.fields| == |types[v.typeName].fields|
  }

  function FieldOf(types: Types, v: Value, i: nat): Field
    requires IsStruct(types, v) && i < |v.fields|
  {
    types[v.typeName].fields[i]
  }

  /** What the statement generated for field `i` returns, if it returns. */
  function FieldReturn(types: Types, v: Value, i: nat): Option<string>
    requires IsStruct(types, v) && i < |v.fields|
  {
    var field := FieldOf(types, v, i);
    match ReasonOf(field.attrs)
    case Some(reason) => if Holds(PresenceFor(field.ty), v.fields[i]) then Some(reason) else None
    case None => if IsNested(field.attrs) then Reason(types, v.fields[i]) else None
  }

  /** The statements of the fields from `i` on return what the first of them to return returns. */
  lemma {:induction false} RunFindsFirst(types: Types, v: Value, i: nat) returns (k: nat)
    requires IsStruct(types, v) && i <= |v.fields|
    ensures i <= k <= |v.fields|
    ensures forall j :: i <= j < k ==> FieldReturn(types, v, j).None?
    ensures var r := Run(types, v, Checks(types[v.typeName].fields, i));
      if k < |v.fields| then r.Some? && r == FieldReturn(types, v, k) else r.None?
    decreases |v.fields| - i
  {
    var fields := types[v.typeName].fields;
    if i == |v.fields| {
      k := i;
    } else {
      var rest := Checks(fields, i + 1);
      var own := CheckOf(fields[i], i);
      assert own != [] ==> (own + rest)[0] == own[0] && (own + rest)[1..] == rest;
      assert own == [] ==> own + rest == rest;
      if FieldReturn(types, v, i).Some? {
        k := i;
      } else {
        k := RunFindsFirst(types, v, i + 1);
      }
    }
  }

  /** A vector or map reports the first of its values that has a reason. */
  lemma {:induction false} FindsFirstItem(types: Types, v: Value, i: nat) returns (k: nat)
    requires (v.SeqV? || v.MapV?) && i <= |v.items|
    ensures i <= k <= |v.items|
    ensures forall j :: i <= j < k ==> Reason(types, v.items[j]).None?
    ensures var r := FirstReason(types, v, i);
      if k < |v.items| then r.Some? && r == Reason(types, v.items[k]) else r.None?
    decreases |v.items| - i
  {
    k := i;
    if i < |v.items| && Reason(types, v.items[i]).None? {
      k := FindsFirstItem(types, v, i + 1);
    }
  }

  // ---- Well-typed values ----

  /** The declared types, and what each type alias in use stands for. */
  datatype Program = Program(types: Types, aliases: map<Type, Type>)

  predicate Builtin(name: string) { name in {"Option", "Vec", "HashMap", "BTreeMap", "bool"} }

  /** The type is written with the name of a built-in one, which is all the generator looks at. */
  predicate SpelledBuiltin(t: Type) { t.Path? && Builtin(t.last) }

  /** The type that a type as written stands for. */
  function Expand(p: Program, t: Type): Type {
    if t.Path? && !Builtin(t.last) && t.last !in p.types && t in p.aliases then p.aliases[t] else t
  }

  /** The value is of the type as written, aliases expanded at every level. */
  predicate HasType(p: Program, v: Value, written: Type) {
    var t := Expand(p, written);
    match v
    case OptionV(inner) =>
      t.Path? && t.last == "Option" && |t.args| == 1 && (inner.Some? ==> HasType(p, inner.value, t.args[0]))
    case SeqV(items) =>
      t.Path? && t.last == "Vec" && |t.args| == 1 && forall i :: 0 <= i < |items| ==> HasType(p, items[i], t.args[0])
    case MapV(items) =>
      t.Path? && (t.last == "HashMap" || t.last == "BTreeMap") && |t.args| >= 2 &&
      forall i :: 0 <= i < |items| ==> HasType(p, items[i], t.args[1])
    case BoolV(_) => t == Path("bool", [])
    case StructV(name, fields) =>
      t == Path(name, []) && !Builtin(name) && IsStruct(p.types, v) &&
      forall i :: 0 <= i < |fields| ==> HasType(p, fields[i], p.types[name].fields[i].ty)
    case EnumV(name, variant) =>
      t == Path(name, []) && !Builtin(name) && name in p.types && p.types[name].Enum? &&
      variant < |p.types[name].variants|
    case Opaque => t.Path? ==> !Builtin(t.last) && t.last !in p.types
  }

  /** Whether a value is there at all, whatever its type is called. */
  predicate Present(v: Value) {
    match v
    case OptionV(inner) => inner.Some?
    case SeqV(items) => items != []
    case MapV(items) => items != []
    case BoolV(b) => b
    case _ => true
  }

  /** The generated test means presence exactly when a built-in name is written out or the value is present anyway. */
  lemma PresenceAgrees(p: Program, v: Value, t: Type)
    requires HasType(p, v, t)
    ensures (Holds(PresenceFor(t), v) <==> Present(v)) <==> SpelledBuiltin(t) || Present(v)
  {
  }

  /** For instance an empty option behind an alias: it is not present, and the generated test holds. */
  lemma AliasCountsAsPresent() returns (p: Program, t: Type)
    ensures HasType(p, OptionV(None), t) && Holds(PresenceFor(t), OptionV(None)) && !Present(OptionV(None))
  {
    t := Path("Maybe", []);
    p := Program(map[], map[t := Path("Option", [Path("u8", [])])]);
  }

  // ---- The meaning of the generated code ----

  /** What one field means: its own reason if it is gated and present, or its value's reason if nested. */
  function FieldUse(types: Types, v: Value, i: nat): Option<string>
    requires IsStruct(types, v) && i < |v.fields|
  {
    var field := FieldOf(types, v, i);
    match ReasonOf(field.attrs)
    case Some(reason) => if Present(v.fields[i]) then Some(reason) else None
    case None => if IsNested(field.attrs) then Reason(types, v.fields[i]) else None
  }

  /** The first declared use from field `i` on. */
  function Meaning(types: Types, v: Value, i: nat): Option<string>
    requires IsStruct(types, v) && i <= |v.fields|
    decreases |v.fields| - i
  {
    if i == |v.fields| then None
    else if FieldUse(types, v, i).Some? then FieldUse(types, v, i)
    else Meaning(types, v, i + 1)
  }

  lemma {:induction false} MeaningIsFirst(types: Types, v: Value, i: nat) returns (k: nat)
    requires IsStruct(types, v) && i <= |v.fields|
    ensures i <= k <= |v.fields|
    ensures forall j :: i <= j < k ==> FieldUse(types, v, j).None?
    ensures if k < |v.fields| then Meaning(types, v, i).Some? && Meaning(types, v, i) == FieldUse(types, v, k)
      else Meaning(types, v, i).None?
    decreases |v.fields| - i
  {
    if i == |v.fields| || FieldUse(types, v, i).Some? {
      k := i;
    } else {
      k := MeaningIsFirst(types, v, i + 1);
    }
  }

  ghost predicate WellTyped(p: Program, v: Value) { v.StructV? && HasType(p, v, Path(v.typeName, [])) }

  /** A gated field whose empty value the generated test takes for present: its type hides behind another name. */
  predicate Misread(types: Types, v: Value, i: nat)
    requires IsStruct(types, v) && i < |v.fields|
  {
    && ReasonOf(FieldOf(types, v, i).attrs).Some?
    && !SpelledBuiltin(FieldOf(types, v, i).ty) && !Present(v.fields[i])
  }

  lemma ReturnIsUse(p: Program, v: Value, i: nat)
    requires WellTyped(p, v) && i < |v.fields|
    ensures FieldReturn(p.types, v, i) ==
            if Misread(p.types, v, i) then ReasonOf(FieldOf(p.types, v, i).attrs) else FieldUse(p.types, v, i)
  {
    PresenceAgrees(p, v.fields[i], FieldOf(p.types, v, i).ty);
  }

  /** Field `m` is misread before any field is in use. */
  ghost predicate FirstMisread(types: Types, v: Value, m: int) {
    && IsStruct(types, v) && 0 <= m < |v.fields| && Misread(types, v, m)
    && forall j :: 0 <= j < m ==> FieldUse(types, v, j).None? && !Misread(types, v, j)
  }

  /**
    The derived method returns the reason of the first declared field in use, and None when there is none, exactly
    when no gated field before it holds an empty value behind another name, or the first that does gives that very
    reason.
   */
  lemma FirstDeclaredUse(p: Program, v: Value)
    requires WellTyped(p, v)
    ensures Reason(p.types, v) == Meaning(p.types, v, 0) <==>
      forall m :: FirstMisread(p.types, v, m) ==> Meaning(p.types, v, 0) == ReasonOf(FieldOf(p.types, v, m).attrs)
    ensures forall m :: FirstMisread(p.types, v, m) ==> Reason(p.types, v) == ReasonOf(FieldOf(p.types, v, m).attrs)
  {
    var k := RunFindsFirst(p.types, v, 0);
    var u := MeaningIsFirst(p.types, v, 0);
    forall i | 0 <= i < |v.fields|
      ensures FieldReturn(p.types, v, i) ==
              if Misread(p.types, v, i) then ReasonOf(FieldOf(p.types, v, i).attrs) else FieldUse(p.types, v, i)
    {
      ReturnIsUse(p, v, i);
    }
    if k < |v.fields| && Misread(p.types, v, k) {
      assert FirstMisread(p.types, v, k);
    }
  }

  // ---- The reason is that of the leftmost use ----

  /** The first literal reason among the attributes. */
  ghost predicate Literal(attrs: seq<Attr>, reason: string) {
    exists k :: 0 <= k < |attrs| && attrs[k] == ExperimentalReason(reason) && LiteralFree(attrs[..k])
  }

  ghost predicate LiteralFree(attrs: seq<Attr>) { forall k :: 0 <= k < |attrs| ==> !attrs[k].ExperimentalReason? }

  lemma {:induction false} ReasonOfIs(attrs: seq<Attr>, reason: string)
    ensures ReasonOf(attrs) == Some(reason) <==> Literal(attrs, reason)
    ensures ReasonOf(attrs) == None <==> LiteralFree(attrs)
  {
    if attrs == [] {
    } else {
      ReasonOfIs(attrs[1..], reason);
      if attrs[0].ExperimentalReason? {
        assert LiteralFree(attrs[..0]);
      } else {
        LiteralShifts(attrs, reason);
      }
    }
  }

  lemma LiteralShifts(attrs: seq<Attr>, reason: string)
    requires attrs != [] && !attrs[0].ExperimentalReason?
    ensures Literal(attrs, reason) <==> Literal(attrs[1..], reason)
    ensures LiteralFree(attrs) <==> LiteralFree(attrs[1..])
  {
    var rest := attrs[1..];
    if k :| 0 <= k < |attrs| && attrs[k] == ExperimentalReason(reason) && LiteralFree(attrs[..k]) {
      var l := k - 1;
      assert rest[l] == attrs[k] && rest[..l] == attrs[..k][1..];
    }
    if l :| 0 <= l < |rest| && rest[l] == ExperimentalReason(reason) && LiteralFree(rest[..l]) {
      var k := l + 1;
      assert attrs[k] == rest[l] && attrs[..k] == [attrs[0]] + rest[..l];
    }
    assert attrs == [attrs[0]] + rest;
  }

  /** Field `i` of the struct is gated with this reason and counts as present. */
  ghost predicate GateOpen(types: Types, v: Value, i: nat, reason: string)
    requires IsStruct(types, v) && i < |v.fields|
  {
    var field := FieldOf(types, v, i);
    Literal(field.attrs, reason) && (Present(v.fields[i]) || !SpelledBuiltin(field.ty))
  }

  /** Field `i` of the struct has no literal reason and is nested. */
  ghost predicate Passes(types: Types, v: Value, i: nat)
    requires IsStruct(types, v) && i < |v.fields|
  {
    var attrs := FieldOf(types, v, i).attrs;
    LiteralFree(attrs) && ExperimentalIdent("nested") in attrs
  }

  /** Going down into the value by these positions ends at a gated field in use, or at a variant with this reason. */
  ghost predicate Leads(types: Types, v: Value, path: seq<nat>, reason: string)
    decreases v
  {
    match v
    case OptionV(inner) => inner.Some? && path != [] && path[0] == 0 && Leads(types, inner.value, path[1..], reason)
    case SeqV(items) => path != [] && path[0] < |items| && Leads(types, items[path[0]], path[1..], reason)
    case MapV(items) => path != [] && path[0] < |items| && Leads(types, items[path[0]], path[1..], reason)
    case StructV(_, fields) =>
      IsStruct(types, v) && path != [] && path[0] < |fields| &&
      if |path| == 1 && GateOpen(types, v, path[0], reason) then true
      else Passes(types, v, path[0]) && Leads(types, fields[path[0]], path[1..], reason)
    case EnumV(name, variant) =>
      path == [] && name in types && types[name].Enum? && variant < |types[name].variants| &&
      Literal(types[name].variants[variant], reason)
    case _ => false
  }

  /** The order in which the value is searched. */
  ghost predicate Before(p: seq<nat>, q: seq<nat>) {
    if p == [] || q == [] then p == [] && q != []
    else p[0] < q[0] || (p[0] == q[0] && Before(p[1..], q[1..]))
  }

  /** `path` leads to `reason`, and whatever else leads anywhere comes later. */
  ghost predicate Leftmost(types: Types, v: Value, path: seq<nat>, reason: string) {
    && Leads(types, v, path, reason)
    && forall q, r :: Leads(types, v, q, r) ==> (q == path && r == reason) || Before(path, q)
  }

  ghost predicate Unused(types: Types, v: Value) { forall q, r :: !Leads(types, v, q, r) }

  ghost predicate Found(types: Types, v: Value, path: seq<nat>) {
    match Reason(types, v)
    case Some(reason) => Leftmost(types, v, path, reason)
    case None => Unused(types, v)
  }

  /** Step `i` down from the value: every way on from there goes through `w`. */
  ghost predicate Descends(types: Types, v: Value, i: nat, w: Value) {
    forall q, r :: q != [] && q[0] == i ==> (Leads(types, v, q, r) <==> Leads(types, w, q[1..], r))
  }

  /** Nothing before position `k` leads anywhere, and there the leftmost way goes on through `w`. */
  lemma LeftmostThrough(types: Types, v: Value, k: nat, w: Value, path: seq<nat>, reason: string)
    requires Descends(types, v, k, w) && Leftmost(types, w, path, reason)
    requires forall q, r :: Leads(types, v, q, r) ==> q != [] && q[0] >= k
    ensures Leftmost(types, v, [k] + path, reason)
  {
    var whole := [k] + path;
    assert whole[1..] == path;
    forall q, r | Leads(types, v, q, r) ensures (q == whole && r == reason) || Before(whole, q) {
      if q[0] == k {
        assert q == [k] + q[1..];
      }
    }
  }

  /** `experimental_reason` of a well-typed value is the reason at the leftmost use in it, and None if there is none. */
  lemma {:induction false} ReasonIsLeftmost(p: Program, v: Value, t: Type) returns (path: seq<nat>)
    requires HasType(p, v, t)
    ensures Found(p.types, v, path)
    decreases v
  {
    var u := Expand(p, t);
    path := [];
    match v {
      case OptionV(inner) =>
        if inner.Some? {
          path := ReasonIsLeftmost(p, inner.value, u.args[0]);
          path := ThroughOption(p.types, v, path);
        }
      case SeqV(items) =>
        path := ItemsLeftmost(p, v, u.args[0]);
      case MapV(items) =>
        path := ItemsLeftmost(p, v, u.args[1]);
      case StructV(_, _) =>
        path := StructLeftmost(p, v);
      case EnumV(name, variant) =>
        forall r ensures ReasonOf(p.types[name].variants[variant]) == Some(r) <==>
                         Literal(p.types[name].variants[variant], r)
        {
          ReasonOfIs(p.types[name].variants[variant], r);
        }
      case _ =>
    }
  }

  lemma ThroughOption(types: Types, v: Value, path: seq<nat>) returns (whole: seq<nat>)
    requires v.OptionV? && v.inner.Some? && Found(types, v.inner.value, path)
    ensures Found(types, v, whole)
  {
    whole := [0] + path;
    if Reason(types, v).Some? {
      assert Descends(types, v, 0, v.inner.value);
      LeftmostThrough(types, v, 0, v.inner.value, path, Reason(types, v).value);
    }
  }

  lemma {:induction false} ItemsLeftmost(p: Program, v: Value, t: Type) returns (path: seq<nat>)
    requires (v.SeqV? || v.MapV?) && forall i :: 0 <= i < |v.items| ==> HasType(p, v.items[i], t)
    ensures Found(p.types, v, path)
    decreases v, 0
  {
    var k := FindsFirstItem(p.types, v, 0);
    forall i | 0 <= i < |v.items| && Reason(p.types, v.items[i]).None? ensures Unused(p.types, v.items[i]) {
      var _ := ReasonIsLeftmost(p, v.items[i], t);
    }
    path := [];
    if k < |v.items| {
      path := ReasonIsLeftmost(p, v.items[k], t);
      assert Descends(p.types, v, k, v.items[k]);
      LeftmostThrough(p.types, v, k, v.items[k], path, Reason(p.types, v.items[k]).value);
      path := [k] + path;
    }
  }

  /** A gated field is a use exactly when its statement returns, with what it returns. */
  lemma GateReturns(p: Program, v: Value, i: nat, reason: string)
    requires IsStruct(p.types, v) && i < |v.fields| && HasType(p, v.fields[i], FieldOf(p.types, v, i).ty)
    requires ReasonOf(FieldOf(p.types, v, i).attrs).Some?
    ensures FieldReturn(p.types, v, i) == Some(reason) <==> GateOpen(p.types, v, i, reason)
    ensures !Passes(p.types, v, i)
  {
    ReasonOfIs(FieldOf(p.types, v, i).attrs, reason);
    PresenceAgrees(p, v.fields[i], FieldOf(p.types, v, i).ty);
  }

  /** Through an ungated field a way leads on exactly if the field is nested. */
  lemma UngatedDescends(types: Types, v: Value, i: nat)
    requires IsStruct(types, v) && i < |v.fields| && ReasonOf(FieldOf(types, v, i).attrs).None?
    ensures IsNested(FieldOf(types, v, i).attrs) ==> Descends(types, v, i, v.fields[i])
    ensures !IsNested(FieldOf(types, v, i).attrs) ==> forall q, r :: Leads(types, v, q, r) ==> q[0] != i
  {
    ReasonOfIs(FieldOf(types, v, i).attrs, "");
    forall r ensures !GateOpen(types, v, i, r) { ReasonOfIs(FieldOf(types, v, i).attrs, r); }
  }

  /** A gated field whose statement returns is the leftmost use when nothing before it is one. */
  lemma GateLeftmost(p: Program, v: Value, k: nat, reason: string)
    requires v.StructV? && IsStruct(p.types, v) && k < |v.fields|
    requires HasType(p, v.fields[k], FieldOf(p.types, v, k).ty)
    requires ReasonOf(FieldOf(p.types, v, k).attrs).Some? && FieldReturn(p.types, v, k) == Some(reason)
    requires forall q, r :: Leads(p.types, v, q, r) ==> q != [] && q[0] >= k
    ensures Leftmost(p.types, v, [k], reason)
  {
    GateReturns(p, v, k, reason);
    forall q, r | Leads(p.types, v, q, r) ensures (q == [k] && r == reason) || Before([k], q) {
      if q[0] == k {
        GateReturns(p, v, k, r);
        assert q == [q[0]];
      }
    }
  }

  lemma NestedLeftmost(p: Program, v: Value, k: nat, path: seq<nat>, reason: string)
    requires v.StructV? && IsStruct(p.types, v) && k < |v.fields|
    requires ReasonOf(FieldOf(p.types, v, k).attrs).None? && FieldReturn(p.types, v, k) == Some(reason)
    requires forall q, r :: Leads(p.types, v, q, r) ==> q != [] && q[0] >= k
    requires Found(p.types, v.fields[k], path)
    ensures Leftmost(p.types, v, [k] + path, reason)
  {
    UngatedDescends(p.types, v, k);
    LeftmostThrough(p.types, v, k, v.fields[k], path, reason);
  }

  lemma {:induction false} StructLeftmost(p: Program, v: Value) returns (path: seq<nat>)
    requires v.StructV? && IsStruct(p.types, v)
    requires forall i :: 0 <= i < |v.fields| ==> HasType(p, v.fields[i], p.types[v.typeName].fields[i].ty)
    ensures Found(p.types, v, path)
    decreases v, 1
  {
    var k := RunFindsFirst(p.types, v, 0);
    forall q, r | Leads(p.types, v, q, r) ensures q != [] && q[0] >= k {
      if q[0] < k {
        SilentField(p, v, q[0], q, r);
      }
    }
    path := [];
    if k < |v.fields| {
      var reason := FieldReturn(p.types, v, k).value;
      if ReasonOf(FieldOf(p.types, v, k).attrs).Some? {
        path := [k];
        GateLeftmost(p, v, k, reason);
      } else {
        var rest := ReasonIsLeftmost(p, v.fields[k], p.types[v.typeName].fields[k].ty);
        NestedLeftmost(p, v, k, rest, reason);
        path := [k] + rest;
      }
    }
  }

  /** No way leads through a field whose statement returns nothing. */
  lemma {:induction false} SilentField(p: Program, v: Value, i: nat, q: seq<nat>, r: string)
    requires v.StructV? && IsStruct(p.types, v) && i < |v.fields| && FieldReturn(p.types, v, i).None?
    requires HasType(p, v.fields[i], p.types[v.typeName].fields[i].ty) && Leads(p.types, v, q, r)
    ensures q[0] != i
    decreases v, 0
  {
    if ReasonOf(FieldOf(p.types, v, i).attrs).Some? {
      GateReturns(p, v, i, r);
    } else {
      UngatedDescends(p.types, v, i);
      if IsNested(FieldOf(p.types, v, i).attrs) {
        var _ := ReasonIsLeftmost(p, v.fields[i], p.types[v.typeName].fields[i].ty);
      }
    }
  }

  // ---- Every reason comes from a declaration that nested fields lead to ----

  /** The type is the named one under `n` options, vectors and maps. */
  predicate Wraps(p: Program, written: Type, name: string, n: nat)
    decreases n
  {
    var t := Expand(p, written);
    if n == 0 then t == Path(name, []) && !Builtin(name)
    else if !t.Path? then false
    else if (t.last == "Option" || t.last == "Vec") && |t.args| == 1 then Wraps(p, t.args[0], name, n - 1)
    else (t.last == "HashMap" || t.last == "BTreeMap") && |t.args| >= 2 && Wraps(p, t.args[1], name, n - 1)
  }

  ghost predicate NestsIn(p: Program, outer: string, inner: string) {
    outer in p.types && p.types[outer].Struct? &&
    exists i, n: nat :: 0 <= i < |p.types[outer].fields| && IsNested(p.types[outer].fields[i].attrs) &&
                        Wraps(p, p.types[outer].fields[i].ty, inner, n)
  }

  ghost predicate NestingPath(p: Program, path: seq<string>) {
    path != [] && forall k :: 0 < k < |path| ==> NestsIn(p, path[k - 1], path[k])
  }

  /** The struct's registry lists the reason. */
  ghost predicate Registers(types: Types, name: string, reason: string) {
    name in types && types[name].Struct? &&
    exists e :: e in Registered(name, types[name].fields, 0) && e.reason == reason
  }

  /** A variant of the enum carries the reason. */
  ghost predicate HasVariant(types: Types, name: string, reason: string) {
    name in types && types[name].Enum? &&
    exists k :: 0 <= k < |types[name].variants| && ReasonOf(types[name].variants[k]) == Some(reason)
  }

  ghost predicate Gates(fields: seq<Field>, i: nat, reason: string) {
    exists k :: i <= k < |fields| && ReasonOf(fields[k].attrs) == Some(reason)
  }

  /** The registry lists exactly the reasons of the gated fields. */
  lemma {:induction false} RegisteredIffGated(name: string, fields: seq<Field>, i: nat, reason: string)
    requires i <= |fields|
    ensures (exists e :: e in Registered(name, fields, i) && e.reason == reason) <==> Gates(fields, i, reason)
    decreases |fields| - i
  {
    if i == |fields| {
    } else {
      RegisteredIffGated(name, fields, i + 1, reason);
      var rest := Registered(name, fields, i + 1);
      if own :| own in Registered(name, fields, i) && own !in rest && own.reason == reason {
        assert ReasonOf(fields[i].attrs) == Some(reason);
      }
      if e :| e in rest && e.reason == reason {
        assert e in Registered(name, fields, i);
      }
      if ReasonOf(fields[i].attrs) == Some(reason) {
        var own := ExperimentalField(name, SerializedName(fields[i].name), reason);
        assert own in Registered(name, fields, i);
      }
    }
  }

  /**
    So a reason is registered under a name exactly when a gated field of a struct of that name has it; no enum
    registers any.
   */
  lemma RegistersIff(types: Types, name: string, reason: string)
    ensures Registers(types, name, reason) <==>
            name in types && types[name].Struct? && Gates(types[name].fields, 0, reason)
  {
    if name in types && types[name].Struct? {
      RegisteredIffGated(name, types[name].fields, 0, reason);
    }
  }

  /** Where a returned reason comes from: the registry of a struct or a variant of an enum. */
  ghost predicate Declares(types: Types, name: string, reason: string) {
    name in types && if types[name].Struct? then Registers(types, name, reason) else HasVariant(types, name, reason)
  }

  /**
    Every reason a value returns is declared at the end of a path of nested fields from its type: registered by the
    struct there, or carried by a variant of the enum there.
   */
  lemma {:induction false} ReasonIsDeclared(p: Program, v: Value, t: Type) returns (path: seq<string>, n: nat)
    requires HasType(p, v, t) && Reason(p.types, v).Some?
    ensures NestingPath(p, path) && Wraps(p, t, path[0], n)
    ensures Declares(p.types, path[|path| - 1], Reason(p.types, v).value)
    decreases v
  {
    var u := Expand(p, t);
    match v {
      case OptionV(inner) =>
        path, n := ReasonIsDeclared(p, inner.value, u.args[0]);
        n := n + 1;
      case SeqV(items) =>
        var k := FindsFirstItem(p.types, v, 0);
        path, n := ReasonIsDeclared(p, items[k], u.args[0]);
        n := n + 1;
      case MapV(items) =>
        var k := FindsFirstItem(p.types, v, 0);
        path, n := ReasonIsDeclared(p, items[k], u.args[1]);
        n := n + 1;
      case StructV(name, values) =>
        path := StructReasonIsDeclared(p, v);
        n := 0;
      case EnumV(name, variant) =>
        path, n := [name], 0;
    }
  }

  lemma {:induction false} StructReasonIsDeclared(p: Program, v: Value) returns (path: seq<string>)
    requires v.StructV? && IsStruct(p.types, v) && Reason(p.types, v).Some?
    requires forall i :: 0 <= i < |v.fields| ==> HasType(p, v.fields[i], p.types[v.typeName].fields[i].ty)
    ensures NestingPath(p, path) && path[0] == v.typeName
    ensures Declares(p.types, path[|path| - 1], Reason(p.types, v).value)
    decreases v, 0
  {
    var fields := p.types[v.typeName].fields;
    var k := RunFindsFirst(p.types, v, 0);
    if ReasonOf(fields[k].attrs).Some? {
      RegistersIff(p.types, v.typeName, Reason(p.types, v).value);
      path := [v.typeName];
    } else {
      var rest, n := ReasonIsDeclared(p, v.fields[k], fields[k].ty);
      assert NestsIn(p, v.typeName, rest[0]);
      path := [v.typeName] + rest;
    }
  }

  /** In particular, when nested fields lead to structs only, it is registered. */
  lemma ReasonIsRegistered(p: Program, v: Value) returns (path: seq<string>)
    requires WellTyped(p, v) && Reason(p.types, v).Some?
    ensures NestingPath(p, path) && path[0] == v.typeName
    ensures path[|path| - 1] in p.types
    ensures p.types[path[|path| - 1]].Struct? ==> Registers(p.types, path[|path| - 1], Reason(p.types, v).value)
    ensures p.types[path[|path| - 1]].Enum? ==> HasVariant(p.types, path[|path| - 1], Reason(p.types, v).value)
  {
    path := StructReasonIsDeclared(p, v);
  }

  /** The enum case is real: a program whose only reason sits on an enum variant registers nothing. */
  lemma EnumReasonUnregistered() returns (p: Program, v: Value)
    ensures WellTyped(p, v) && Reason(p.types, v) == Some("e")
    ensures forall name :: !Registers(p.types, name, "e")
  {
    var field := Field(Named("kind"), Path("E", []), [ExperimentalIdent("nested")]);
    p := Program(map["E" := Enum([[ExperimentalReason("e")]]), "S" := Struct([field])], map[]);
    v := StructV("S", [EnumV("E", 0)]);
    var k := RunFindsFirst(p.types, v, 0);
    forall name ensures !Registers(p.types, name, "e") { RegistersIff(p.types, name, "e"); }
  }
}
