/**
 Tool schemas (src/oumigo/api/agent/tool.py): inferring a JSON Schema from a function's
 annotations, and validating a schema against a signature. Problems are kept as a set of
 kind and name; their wording and order are left out.
*/
module Tools {
  import opened Prelude
  import opened Jsons

  /** A constant of the source language, as a `Literal` member or a default. */
  datatype Value = StrV(s: string) | IntV(n: int) | BoolV(b: bool) | FloatV(x: real) | NoneV | OtherV

  /** An annotation. `ListBare` is a list without an item type; `Other` is anything else. */
  datatype Type =
    | StrT | BoolT | IntT | FloatT | NoneT
    | ListOf(item: Type) | ListBare | DictT
    | Union(members: seq<Type>)
    | Literal(values: seq<Value>)
    | Other

  datatype Kind =
    | MissingAnnotation | MultiUnion | BareList | Uninferable | MixedLiteral | BadDefault
    | Undocumented | NotAParameter
    | NotADict | NotAnObject | NoProperties | NotASchema | BadType | NoDescription
    | BadRequired | UnknownRequired | MissingProperty | ExtraProperty

  datatype Problem = Problem(kind: Kind, name: string)

  // ---------------------------------------------------------------- one annotation

  /** The JSON type of a scalar annotation. */
  function ScalarName(t: Type): Option<string> {
    match t
    case StrT => Some("string")
    case BoolT => Some("boolean")
    case IntT => Some("integer")
    case FloatT => Some("number")
    case _ => None
  }

  function TypeOf(v: Value): Type {
    match v
    case StrV(_) => StrT
    case IntV(_) => IntT
    case BoolV(_) => BoolT
    case FloatV(_) => FloatT
    case NoneV => NoneT
    case OtherV => Other
  }

  function ToJson(v: Value): Json {
    match v
    case StrV(s) => Str(s)
    case IntV(n) => Number(n as real)
    case BoolV(b) => Bool(b)
    case FloatV(x) => Number(x)
    case _ => Null
  }

  /** Where the members of a union other than `None` stand. */
  function RealMembers(ms: seq<Type>): (ix: seq<nat>)
    ensures forall i <- ix :: i < |ms|
  {
    if ms == [] then []
    else
      var k := |ms| - 1;
      RealMembers(ms[..k]) + (if ms[k].NoneT? then [] else [k])
  }

  /** The JSON types of the members of a `Literal`; `None` for a member without one. */
  function JsonTypes(vs: seq<Value>): set<Option<string>> {
    set v | v in vs :: ScalarName(TypeOf(v))
  }

  /** A schema or none, whether it is optional, and the problems recorded. */
  datatype Fragment = Fragment(schema: Option<Json>, optional: bool, problems: set<Problem>)

  function Refused(kind: Kind, name: string): Fragment { Fragment(None, false, {Problem(kind, name)}) }

  function TypeSchema(name: string): Json { Obj(map["type" := Str(name)]) }

  function LiteralSchema(vs: seq<Value>, name: string): Fragment {
    if None in JsonTypes(vs) || |JsonTypes(vs)| != 1 then Refused(MixedLiteral, name)
    else
      var kind := ScalarName(TypeOf(vs[0])).GetOr("");
      Fragment(Some(Obj(map["type" := Str(kind), "enum" := Arr(seq(|vs|, i requires 0 <= i < |vs| => ToJson(vs[i])))])), false, {})
  }

  /** `_schema_for_annotation`. */
  function SchemaFor(t: Type, name: string): Fragment {
    match t
    case Union(ms) =>
      var ix := RealMembers(ms);
      if |ix| != 1 then Refused(MultiUnion, name)
      else
        assert ix[0] in ix;
        var inner := SchemaFor(ms[ix[0]], name);
        Fragment(inner.schema, true, inner.problems)
    case Literal(vs) => LiteralSchema(vs, name)
    case ListBare => Refused(BareList, name)
    case ListOf(item) =>
      var inner := SchemaFor(item, name);
      if inner.schema.None? then Fragment(None, false, inner.problems)
      else Fragment(Some(Obj(map["type" := Str("array"), "items" := inner.schema.value])), false, inner.problems)
    case _ =>
      if ScalarName(t).Some? then Fragment(Some(TypeSchema(ScalarName(t).value)), false, {})
      else Refused(Uninferable, name)
  }

  /** The types inference supports, as the module documents them: scalars, lists of a
      supported type, literals of one scalar type, and at most one alternative to `None`. */
  predicate Supported(t: Type) {
    match t
    case Union(ms) => exists i | 0 <= i < |ms| ::
      !ms[i].NoneT? && Supported(ms[i]) && forall j | 0 <= j < |ms| && j != i :: ms[j].NoneT?
    case Literal(vs) => vs != [] && forall v <- vs :: ScalarName(TypeOf(v)).Some? && TypeOf(v) == TypeOf(vs[0])
    case ListOf(item) => Supported(item)
    case _ => ScalarName(t).Some?
  }

  lemma {:induction false} RealMembersAre(ms: seq<Type>)
    ensures forall i | 0 <= i < |ms| :: i in RealMembers(ms) <==> !ms[i].NoneT?
    ensures forall a, b | 0 <= a < b < |RealMembers(ms)| :: RealMembers(ms)[a] < RealMembers(ms)[b]
  {
    if ms != [] {
      var k := |ms| - 1;
      RealMembersAre(ms[..k]);
      var front := RealMembers(ms[..k]);
      forall i | 0 <= i < |ms|
        ensures i in RealMembers(ms) <==> !ms[i].NoneT?
      {
        if i < k {
          assert ms[..k][i] == ms[i];
        }
      }
      forall a, b | 0 <= a < b < |RealMembers(ms)|
        ensures RealMembers(ms)[a] < RealMembers(ms)[b]
      {
        if b == |front| {
          assert front[a] in front;
        }
      }
    }
  }

  /** Exactly one member other than `None`. */
  lemma OneRealMember(ms: seq<Type>, i: nat)
    requires i < |ms| && !ms[i].NoneT?
    ensures RealMembers(ms) == [i] <==> forall j | 0 <= j < |ms| && j != i :: ms[j].NoneT?
  {
    RealMembersAre(ms);
    var ix := RealMembers(ms);
    assert i in ix;
    if forall j | 0 <= j < |ms| && j != i :: ms[j].NoneT? {
      var last := |ix| - 1;
      assert ix[0] in ix && ix[last] in ix;
      assert last == 0;
    } else {
      var j :| 0 <= j < |ms| && j != i && !ms[j].NoneT?;
      assert j in ix && j !in [i];
    }
  }

  lemma UnionSupported(ms: seq<Type>)
    ensures var ix := RealMembers(ms);
      Supported(Union(ms)) <==> |ix| == 1 && ix[0] < |ms| && Supported(ms[ix[0]])
  {
    var ix := RealMembers(ms);
    RealMembersAre(ms);
    if |ix| == 1 {
      assert ix[0] in ix && ix == [ix[0]];
      OneRealMember(ms, ix[0]);
    }
    if Supported(Union(ms)) {
      var i :| 0 <= i < |ms| && !ms[i].NoneT? && Supported(ms[i]) && forall j | 0 <= j < |ms| && j != i :: ms[j].NoneT?;
      OneRealMember(ms, i);
    }
  }

  lemma ScalarNamesDiffer(a: Type, b: Type)
    requires ScalarName(a).Some? && ScalarName(a) == ScalarName(b)
    ensures a == b
  {
    assert "string"[0] == 's' && "boolean"[0] == 'b' && "integer"[0] == 'i' && "number"[0] == 'n';
  }

  lemma LiteralInferable(vs: seq<Value>, name: string)
    ensures LiteralSchema(vs, name).schema.Some? <==> Supported(Literal(vs))
  {
    var ts := JsonTypes(vs);
    if vs == [] {
      assert ts == {};
    } else {
      var first := ScalarName(TypeOf(vs[0]));
      assert vs[0] in vs && first in ts;
      if Supported(Literal(vs)) {
        assert ts == {first};
      } else if None !in ts && |ts| == 1 {
        assert |ts - {first}| == 0;
        assert ts - {first} == {};
        forall v | v in vs
          ensures ScalarName(TypeOf(v)).Some? && TypeOf(v) == TypeOf(vs[0])
        {
          assert ScalarName(TypeOf(v)) in ts && ScalarName(TypeOf(v)) !in ts - {first};
          ScalarNamesDiffer(TypeOf(v), TypeOf(vs[0]));
        }
      }
    }
  }

  /** Inference of an annotation returns a schema exactly for the supported types, and
      records a problem exactly when it returns none. */
  lemma {:induction false} NoSchemaIffProblem(t: Type, name: string)
    ensures SchemaFor(t, name).schema.Some? <==> Supported(t)
    ensures SchemaFor(t, name).schema.None? <==> SchemaFor(t, name).problems != {}
  {
    match t
    case Union(ms) =>
      var ix := RealMembers(ms);
      UnionSupported(ms);
      if |ix| == 1 {
        assert ix[0] in ix;
        NoSchemaIffProblem(ms[ix[0]], name);
      }
    case Literal(vs) => LiteralInferable(vs, name);
    case ListOf(item) => NoSchemaIffProblem(item, name);
    case _ =>
  }

  // ---------------------------------------------------------------- a whole signature

  /** A parameter with its resolved annotation and default, where it has them. */
  datatype Param = Param(name: string, annotation: Option<Type>, default: Option<Value>)

  function Names(params: seq<Param>): set<string> { set p | p in params :: p.name }

  /** What inference has built so far. */
  datatype Inferred = Inferred(
    properties: map<string, Json>, required: seq<string>, problems: set<Problem>, docProblems: set<Problem>)

  /** `_check_default`. */
  function DefaultProblems(p: Param): set<Problem> {
    if p.annotation.None? || p.default.None? || p.default.value.NoneV? then {}
    else
      var t := p.annotation.value;
      if ScalarName(t).Some? && TypeOf(p.default.value) != t then {Problem(BadDefault, p.name)} else {}
  }

  function Described(schema: Json, doc: Option<string>): Json {
    if schema.Obj? && doc.Some? && doc.value != "" then Obj(schema.fields["description" := Str(doc.value)]) else schema
  }

  function DocOf(docs: map<string, string>, name: string): Option<string> {
    if name in docs then Some(docs[name]) else None
  }

  /** One parameter of `_infer_parameters`. */
  function InferOne(acc: Inferred, p: Param, docs: map<string, string>): Inferred {
    if p.annotation.None? then acc.(problems := acc.problems + {Problem(MissingAnnotation, p.name)})
    else
      var f := SchemaFor(p.annotation.value, p.name);
      if f.schema.None? then acc.(problems := acc.problems + f.problems)
      else
        var doc := DocOf(docs, p.name);
        Inferred(
          acc.properties[p.name := Described(f.schema.value, doc)],
          acc.required + (if p.default.None? && !f.optional then [p.name] else []),
          acc.problems + f.problems + DefaultProblems(p),
          acc.docProblems + (if doc.GetOr("") == "" then {Problem(Undocumented, p.name)} else {}))
  }

  function InferAll(params: seq<Param>, docs: map<string, string>): Inferred {
    if params == [] then Inferred(map[], [], {}, {})
    else
      var k := |params| - 1;
      InferOne(InferAll(params[..k], docs), params[k], docs)
  }

  function SchemaObject(properties: map<string, Json>, required: seq<string>): Json {
    var base := map["type" := Str("object"), "properties" := Obj(properties)];
    Obj(if required == [] then base
        else base["required" := Arr(seq(|required|, i requires 0 <= i < |required| => Str(required[i])))])
  }

  function StrayDocs(params: seq<Param>, docs: map<string, string>): set<Problem> {
    set name | name in docs && name !in Names(params) :: Problem(NotAParameter, name)
  }

  /** `_infer_parameters`. */
  method InferParameters(params: seq<Param>, docs: map<string, string>)
    returns (schema: Json, problems: set<Problem>, docProblems: set<Problem>)
    ensures var all := InferAll(params, docs);
      && schema == SchemaObject(all.properties, all.required)
      && problems == all.problems && docProblems == all.docProblems + StrayDocs(params, docs)
  {
    var properties: map<string, Json>, required: seq<string> := map[], [];
    problems, docProblems := {}, {};
    for i := 0 to |params|
      invariant InferAll(params[..i], docs) == Inferred(properties, required, problems, docProblems)
    {
      var p := params[i];
      assert params[..i + 1][..i] == params[..i];
      if p.annotation.None? {
        problems := problems + {Problem(MissingAnnotation, p.name)};
        continue;
      }
      var f := SchemaFor(p.annotation.value, p.name);
      problems := problems + f.problems;
      if f.schema.None? {
        continue;
      }
      var doc := DocOf(docs, p.name);
      if doc.GetOr("") == "" {
        docProblems := docProblems + {Problem(Undocumented, p.name)};
      }
      problems := problems + DefaultProblems(p);
      if p.default.None? && !f.optional {
        required := required + [p.name];
      }
      properties := properties[p.name := Described(f.schema.value, doc)];
    }
    assert params[..|params|] == params;
    docProblems := docProblems + StrayDocs(params, docs);
    schema := SchemaObject(properties, required);
  }

  // ---------------------------------------------------------------- validating an override

  predicate Blank(s: string) { forall c <- s :: Space(c) }

  predicate JsonTypeName(s: string) {
    s in {"string", "integer", "number", "boolean", "array", "object", "null"}
  }

  /** `_validate_override` of one property; a type that is a list or a dict cannot be looked
      up in a set, which raises. */
  predicate Raises(schema: Json) {
    schema.Obj? && schema.Get("type").Some? && (schema.Get("type").value.Arr? || schema.Get("type").value.Obj?)
  }

  function PropertyProblems(name: string, schema: Json): set<Problem> {
    if !schema.Obj? then {Problem(NotASchema, name)}
    else
      var kind, text := schema.Get("type").GetOr(Null), schema.Get("description").GetOr(Str(""));
      (if kind.Str? && JsonTypeName(kind.s) then {} else {Problem(BadType, name)})
      + (if text.Str? && Blank(text.s) then {Problem(NoDescription, name)} else {})
  }

  function RequiredProblems(required: Json, props: map<string, Json>): set<Problem> {
    if !required.Arr? || exists r <- required.items :: !r.Str? then {Problem(BadRequired, "")}
    else set r | r in required.items && r.s !in props :: Problem(UnknownRequired, r.s)
  }

  /** `_validate_override`: the problems recorded, or nothing when it raises. */
  function ValidateOverride(parameters: Json, names: set<string>): Option<set<Problem>> {
    if !parameters.Obj? then Some({Problem(NotADict, "")})
    else
      var head: set<Problem> := if parameters.Get("type") == Some(Str("object")) then {} else {Problem(NotAnObject, "")};
      match parameters.Get("properties").GetOr(Null)
      case Obj(props) =>
        if exists name <- props :: Raises(props[name]) then None
        else Some(head
          + (set name, q | name in props && q in PropertyProblems(name, props[name]) :: q)
          + RequiredProblems(parameters.Get("required").GetOr(Arr([])), props)
          + (set name | name in names - props.Keys :: Problem(MissingProperty, name))
          + (set name | name in props.Keys - names :: Problem(ExtraProperty, name)))
      case _ => Some(head + {Problem(NoProperties, "")})
  }

  /** Validation raises, whatever else is wrong, exactly for an object with a property whose
      `type` is a list or a dict. */
  lemma OverrideRaisesIff(parameters: Json, names: set<string>)
    ensures ValidateOverride(parameters, names).None?
       <==> exists props, name :: parameters.Get("properties") == Some(Obj(props)) && name in props && UnhashableType(props[name])
  {
    match parameters.Get("properties")
    case Some(Obj(props)) =>
      forall name | name in props
        ensures Raises(props[name]) <==> UnhashableType(props[name])
      {
      }
    case _ =>
  }

  ghost predicate UnhashableType(schema: Json) {
    exists kind :: schema.Get("type") == Some(kind) && (kind.Arr? || kind.Obj?)
  }

  /** Such an override: the union of types that JSON Schema allows. */
  lemma NullableTypeRaises()
    ensures var city := Obj(map["type" := Arr([Str("string"), Str("null")]), "description" := Str("City name")]);
      ValidateOverride(Obj(map["type" := Str("object"), "properties" := Obj(map["city" := city])]), {"city"}).None?
  {
    var city := Obj(map["type" := Arr([Str("string"), Str("null")]), "description" := Str("City name")]);
    var props := map["city" := city];
    assert "city" in props && Raises(props["city"]);
  }

  /** A proper property: an object with a JSON type name and a description that is not blank. */
  ghost predicate Proper(schema: Json) {
    && schema.Obj?
    && (exists kind :: schema.Get("type") == Some(Str(kind)) && JsonTypeName(kind))
    && schema.Get("description").Some?
    && forall text | schema.Get("description") == Some(Str(text)) :: exists i | 0 <= i < |text| :: !Space(text[i])
  }

  lemma ProperIff(name: string, schema: Json)
    ensures !Raises(schema) && PropertyProblems(name, schema) == {} <==> Proper(schema)
  {
    if schema.Obj? {
      var kind := schema.Get("type").GetOr(Null);
      assert PropertyProblems(name, schema) == {} ==> Problem(BadType, name) !in PropertyProblems(name, schema);
      assert PropertyProblems(name, schema) == {} ==> Problem(NoDescription, name) !in PropertyProblems(name, schema);
      assert PropertyProblems(name, schema) == {} ==> kind.Str? && schema.Get("type") == Some(Str(kind.s));
    }
  }

  /** `required`, when it is there, lists names among the properties. */
  ghost predicate RequiredKnown(required: Option<Json>, props: map<string, Json>) {
    required.None? || (required.value.Arr? && forall r <- required.value.items :: r.Str? && r.s in props)
  }

  lemma RequiredKnownIff(required: Option<Json>, props: map<string, Json>)
    ensures RequiredProblems(required.GetOr(Arr([])), props) == {} <==> RequiredKnown(required, props)
  {
    var list := required.GetOr(Arr([]));
    if list.Arr? && forall r <- list.items :: r.Str? {
      forall r | r in list.items && r.s !in props
        ensures Problem(UnknownRequired, r.s) in RequiredProblems(list, props)
      {
      }
    }
  }

  /** WHICH OVERRIDES PASS: exactly the object schemas whose properties are the parameters of
      the signature, all proper, and whose `required` lists some of them. */
  lemma OverrideAcceptedIff(parameters: Json, names: set<string>)
    ensures ValidateOverride(parameters, names) == Some({}) <==>
      && parameters.Obj? && parameters.Get("type") == Some(Str("object"))
      && exists props :: parameters.Get("properties") == Some(Obj(props)) && props.Keys == names
           && (forall name <- names :: Proper(props[name])) && RequiredKnown(parameters.Get("required"), props)
  {
    if parameters.Obj? {
      match parameters.Get("properties")
      case Some(Obj(props)) =>
        forall name | name in props
          ensures !Raises(props[name]) && PropertyProblems(name, props[name]) == {} <==> Proper(props[name])
        {
          ProperIff(name, props[name]);
        }
        RequiredKnownIff(parameters.Get("required"), props);
        OverrideSums(parameters, names, props);
      case _ =>
    }
  }

  lemma OverrideSums(parameters: Json, names: set<string>, props: map<string, Json>)
    requires parameters.Obj? && parameters.Get("properties") == Some(Obj(props))
    ensures ValidateOverride(parameters, names) == Some({}) <==>
      && parameters.Get("type") == Some(Str("object")) && props.Keys == names
      && (forall name <- props :: !Raises(props[name]) && PropertyProblems(name, props[name]) == {})
      && RequiredProblems(parameters.Get("required").GetOr(Arr([])), props) == {}
  {
    var each := set name, q | name in props && q in PropertyProblems(name, props[name]) :: q;
    var missing := set name | name in names - props.Keys :: Problem(MissingProperty, name);
    var extra := set name | name in props.Keys - names :: Problem(ExtraProperty, name);
    assert each == {} <==> forall name <- props :: PropertyProblems(name, props[name]) == {} by {
      forall name, q | name in props && q in PropertyProblems(name, props[name]) ensures q in each {
      }
    }
    assert missing == {} <==> names - props.Keys == {} by {
      forall name | name in names - props.Keys ensures Problem(MissingProperty, name) in missing {
      }
    }
    assert extra == {} <==> props.Keys - names == {} by {
      forall name | name in props.Keys - names ensures Problem(ExtraProperty, name) in extra {
      }
    }
  }

  // ---------------------------------------------------------------- inferred schemas pass

  /** An inferred schema names a JSON type, and describes nothing itself. */
  lemma {:induction false} SchemaIsTyped(t: Type, name: string)
    requires SchemaFor(t, name).schema.Some?
    ensures var s := SchemaFor(t, name).schema.value;
      && s.Obj? && s.Get("description").None?
      && s.Get("type").Some? && s.Get("type").value.Str? && JsonTypeName(s.Get("type").value.s)
  {
    match t
    case Union(ms) =>
      assert RealMembers(ms)[0] in RealMembers(ms);
      SchemaIsTyped(ms[RealMembers(ms)[0]], name);
    case Literal(vs) =>
      LiteralInferable(vs, name);
    case _ =>
  }

  ghost predicate Distinct(params: seq<Param>) {
    forall i, j | 0 <= i < j < |params| :: params[i].name != params[j].name
  }

  /** The property an error-free inference makes of a parameter. */
  ghost predicate MadeFrom(schema: Json, p: Param, docs: map<string, string>) {
    && p.annotation.Some? && SchemaFor(p.annotation.value, p.name).schema.Some?
    && schema == Described(SchemaFor(p.annotation.value, p.name).schema.value, DocOf(docs, p.name))
  }

  /** One step that records no problem adds exactly the parameter's property. */
  lemma CleanStep(acc: Inferred, p: Param, docs: map<string, string>)
    requires InferOne(acc, p, docs).problems == {}
    ensures var next := InferOne(acc, p, docs);
      && acc.problems == {} && p.name in next.properties && MadeFrom(next.properties[p.name], p, docs)
      && next.properties == acc.properties[p.name := next.properties[p.name]]
      && (next.required == acc.required || next.required == acc.required + [p.name])
  {
    var next := InferOne(acc, p, docs);
    assert acc.problems <= next.problems;
    assert Problem(MissingAnnotation, p.name) !in next.problems;
    if p.annotation.Some? {
      NoSchemaIffProblem(p.annotation.value, p.name);
      assert SchemaFor(p.annotation.value, p.name).problems <= next.problems;
    }
  }

  ghost predicate Shaped(params: seq<Param>, docs: map<string, string>, all: Inferred) {
    && all.properties.Keys == Names(params)
    && (forall p <- params :: p.name in all.properties && MadeFrom(all.properties[p.name], p, docs))
    && (forall r <- all.required :: r in all.properties)
  }

  lemma ShapeGrows(front: seq<Param>, p: Param, docs: map<string, string>, all: Inferred, next: Inferred)
    requires Shaped(front, docs, all) && Distinct(front + [p])
    requires p.name in next.properties && MadeFrom(next.properties[p.name], p, docs)
    requires next.properties == all.properties[p.name := next.properties[p.name]]
    requires next.required == all.required || next.required == all.required + [p.name]
    ensures Shaped(front + [p], docs, next)
  {
    assert Names(front + [p]) == Names(front) + {p.name};
    forall q | q in front + [p]
      ensures q.name in next.properties && MadeFrom(next.properties[q.name], q, docs)
    {
      if q in front {
        var i :| 0 <= i < |front| && front[i] == q;
        assert (front + [p])[i].name != (front + [p])[|front|].name;
      }
    }
  }

  lemma CleanBefore(acc: Inferred, p: Param, docs: map<string, string>)
    requires InferOne(acc, p, docs).problems == {}
    ensures acc.problems == {}
  {
    assert acc.problems <= InferOne(acc, p, docs).problems;
  }

  lemma ShapeStep(front: seq<Param>, p: Param, docs: map<string, string>, acc: Inferred)
    requires Shaped(front, docs, acc) && Distinct(front + [p]) && InferOne(acc, p, docs).problems == {}
    ensures Shaped(front + [p], docs, InferOne(acc, p, docs))
  {
    CleanStep(acc, p, docs);
    ShapeGrows(front, p, docs, acc, InferOne(acc, p, docs));
  }

  lemma {:induction false} InferredShape(params: seq<Param>, docs: map<string, string>)
    requires Distinct(params) && InferAll(params, docs).problems == {}
    ensures Shaped(params, docs, InferAll(params, docs))
  {
    if params != [] {
      var k := |params| - 1;
      var front := params[..k];
      var before := InferAll(front, docs);
      CleanBefore(before, params[k], docs);
      InferredShape(front, docs);
      assert params == front + [params[k]];
      ShapeStep(front, params[k], docs, before);
    }
  }

  lemma DescribedPasses(name: string, t: Type, doc: Option<string>)
    requires SchemaFor(t, name).schema.Some?
    ensures var s := Described(SchemaFor(t, name).schema.value, doc);
      && s.Obj? && !Raises(s)
      && PropertyProblems(name, s) == (if Blank(doc.GetOr("")) then {Problem(NoDescription, name)} else {})
  {
    SchemaIsTyped(t, name);
  }

  lemma ObjectReads(properties: map<string, Json>, required: seq<string>)
    ensures var s := SchemaObject(properties, required);
      && s.Get("type") == Some(Str("object")) && s.Get("properties") == Some(Obj(properties))
      && s.Get("required").GetOr(Arr([]))
         == Arr(seq(|required|, i requires 0 <= i < |required| => Str(required[i])))
  {
    assert "type" != "properties" && "required" != "type" && "required" != "properties" by {
      assert "type"[0] == 't' && "properties"[0] == 'p' && "required"[0] == 'r';
    }
  }

  lemma KnownRequired(required: seq<string>, props: map<string, Json>)
    requires forall r <- required :: r in props
    ensures RequiredProblems(Arr(seq(|required|, i requires 0 <= i < |required| => Str(required[i]))), props) == {}
  {
    var items := seq(|required|, i requires 0 <= i < |required| => Str(required[i]));
    forall r | r in items
      ensures r.Str? && r.s in props
    {
      var i :| 0 <= i < |items| && items[i] == r;
      assert r == Str(required[i]) && required[i] in required;
    }
  }

  function Undescribed(params: seq<Param>, docs: map<string, string>): set<Problem> {
    set p | p in params && Blank(DocOf(docs, p.name).GetOr("")) :: Problem(NoDescription, p.name)
  }

  lemma PropertiesPass(params: seq<Param>, docs: map<string, string>, all: Inferred)
    requires Shaped(params, docs, all)
    ensures var props := all.properties;
      && (forall name <- props :: !Raises(props[name]))
      && (set name, q | name in props && q in PropertyProblems(name, props[name]) :: q) == Undescribed(params, docs)
  {
    var props := all.properties;
    forall p | p in params
      ensures !Raises(props[p.name])
      ensures PropertyProblems(p.name, props[p.name])
           == if Blank(DocOf(docs, p.name).GetOr("")) then {Problem(NoDescription, p.name)} else {}
    {
      DescribedPasses(p.name, p.annotation.value, DocOf(docs, p.name));
    }
    forall name | name in props
      ensures exists p: Param :: p in params && p.name == name
    {
      assert name in Names(params);
    }
  }

  /** A schema inferred without structural problems always validates against its own
      signature without raising, and the only thing validation can object to is a parameter
      whose documentation is blank. */
  lemma InferredPasses(params: seq<Param>, docs: map<string, string>)
    requires Distinct(params) && InferAll(params, docs).problems == {}
    ensures var all := InferAll(params, docs);
      ValidateOverride(SchemaObject(all.properties, all.required), Names(params))
        == Some(Undescribed(params, docs))
  {
    var all, names := InferAll(params, docs), Names(params);
    InferredShape(params, docs);
    ObjectReads(all.properties, all.required);
    KnownRequired(all.required, all.properties);
    PropertiesPass(params, docs, all);
    OnlyPropertyProblems(SchemaObject(all.properties, all.required), names, all.properties);
  }

  /** With matching names and a proper `required`, only properties can be at fault. */
  lemma OnlyPropertyProblems(parameters: Json, names: set<string>, props: map<string, Json>)
    requires parameters.Obj? && parameters.Get("type") == Some(Str("object")) && parameters.Get("properties") == Some(Obj(props))
    requires props.Keys == names && forall name <- props :: !Raises(props[name])
    requires RequiredProblems(parameters.Get("required").GetOr(Arr([])), props) == {}
    ensures ValidateOverride(parameters, names)
         == Some(set name, q | name in props && q in PropertyProblems(name, props[name]) :: q)
  {
    var missing := set name | name in names - props.Keys :: Problem(MissingProperty, name);
    var extra := set name | name in props.Keys - names :: Problem(ExtraProperty, name);
    assert missing == {} && extra == {};
  }

  lemma {:induction false} UndocumentedIsRecorded(params: seq<Param>, docs: map<string, string>, i: nat)
    requires i < |params| && params[i].annotation.Some?
    requires SchemaFor(params[i].annotation.value, params[i].name).schema.Some?
    requires DocOf(docs, params[i].name).GetOr("") == ""
    ensures Problem(Undocumented, params[i].name) in InferAll(params, docs).docProblems
  {
    var k := |params| - 1;
    var before := InferAll(params[..k], docs);
    if i < k {
      UndocumentedIsRecorded(params[..k], docs, i);
      assert before.docProblems <= InferOne(before, params[k], docs).docProblems;
    }
  }

  // ---------------------------------------------------------------- what a schema means

  /** The JSON values that can be passed for an annotation. */
  predicate Inhabits(j: Json, t: Type)
    decreases t
  {
    match t
    case StrT => j.Str?
    case BoolT => j.Bool?
    case IntT => j.Number? && j.x == j.x.Floor as real
    case FloatT => j.Number?
    case ListOf(item) => j.Arr? && forall x <- j.items :: Inhabits(x, item)
    case Union(ms) => exists i | 0 <= i < |ms| :: !ms[i].NoneT? && Inhabits(j, ms[i])
    case Literal(vs) => exists v <- vs :: j == ToJson(v)
    case _ => false
  }

  /** The keyword `type` of JSON Schema. */
  predicate IsOfType(j: Json, name: string) {
    || (name == "string" && j.Str?) || (name == "boolean" && j.Bool?)
    || (name == "integer" && j.Number? && j.x == j.x.Floor as real) || (name == "number" && j.Number?)
    || (name == "array" && j.Arr?) || (name == "object" && j.Obj?) || (name == "null" && j.Null?)
  }

  /** Validation against the keywords `type`, `items` and `enum`. */
  predicate Satisfies(j: Json, schema: Json)
    decreases j
  {
    && (match schema.Get("type") case Some(Str(name)) => IsOfType(j, name) case _ => true)
    && (match schema.Get("items") case Some(item) => j.Arr? ==> forall x <- j.items :: Satisfies(x, item) case None => true)
    && (match schema.Get("enum") case Some(Arr(values)) => j in values case _ => true)
  }

  /** Which keywords the three kinds of inferred schema have. */
  lemma KeywordsOf(name: string, item: Json, values: seq<Json>)
    ensures var s := TypeSchema(name); s.Get("type") == Some(Str(name)) && s.Get("items").None? && s.Get("enum").None?
    ensures var s := Obj(map["type" := Str(name), "items" := item]);
      s.Get("type") == Some(Str(name)) && s.Get("items") == Some(item) && s.Get("enum").None?
    ensures var s := Obj(map["type" := Str(name), "enum" := Arr(values)]);
      s.Get("type") == Some(Str(name)) && s.Get("items").None? && s.Get("enum") == Some(Arr(values))
  {
    assert "type"[0] == 't' && "items"[0] == 'i' && "enum"[0] == 'e';
  }

  /** JSON Schema's names of the scalar types mean them. */
  lemma ScalarMeans(j: Json, t: Type)
    requires ScalarName(t).Some?
    ensures IsOfType(j, ScalarName(t).value) <==> Inhabits(j, t)
  {
    NamesDiffer();
  }

  lemma NamesDiffer()
    ensures "string" != "boolean" && "string" != "integer" && "string" != "number" && "string" != "array" && "string" != "object"
         && "string" != "null" && "boolean" != "integer" && "boolean" != "number" && "boolean" != "array" && "boolean" != "object"
         && "boolean" != "null" && "integer" != "number" && "integer" != "array" && "integer" != "object" && "integer" != "null"
         && "number" != "array" && "number" != "object" && "number" != "null" && "array" != "object" && "array" != "null"
         && "object" != "null"
  {
    assert "string"[0] == 's' && "boolean"[0] == 'b' && "integer"[0] == 'i' && "number"[0] == 'n' && "array"[0] == 'a'
        && "object"[0] == 'o' && "null"[0] == 'n' && "number"[2] == 'm' && "null"[2] == 'l';
  }

  /** A literal's values are of its JSON type. */
  lemma LiteralValuesTyped(v: Value)
    requires ScalarName(TypeOf(v)).Some?
    ensures Inhabits(ToJson(v), TypeOf(v))
  {
  }

  lemma LiteralMeans(j: Json, vs: seq<Value>, name: string)
    requires LiteralSchema(vs, name).schema.Some?
    ensures Satisfies(j, LiteralSchema(vs, name).schema.value) <==> Inhabits(j, Literal(vs))
  {
    LiteralInferable(vs, name);
    var first := TypeOf(vs[0]);
    var values := seq(|vs|, i requires 0 <= i < |vs| => ToJson(vs[i]));
    KeywordsOf(ScalarName(first).value, Null, values);
    ScalarMeans(j, first);
    if j in values {
      var i :| 0 <= i < |values| && values[i] == j;
      assert vs[i] in vs;
      LiteralValuesTyped(vs[i]);
    }
    if v :| v in vs && j == ToJson(v) {
      var i :| 0 <= i < |vs| && vs[i] == v;
      assert values[i] == j;
    }
  }

  /** SCHEMA MEANS TYPE: the schema inferred for an annotation accepts exactly the JSON values
      that can be passed for it. */
  lemma {:induction false} SchemaMeansType(t: Type, name: string, j: Json)
    requires SchemaFor(t, name).schema.Some?
    ensures Satisfies(j, SchemaFor(t, name).schema.value) <==> Inhabits(j, t)
    decreases t
  {
    match t
    case Union(ms) =>
      var ix := RealMembers(ms);
      assert ix[0] in ix && ix == [ix[0]];
      UnionMeans(j, ms, ix[0]);
      SchemaMeansType(ms[ix[0]], name, j);
    case Literal(vs) => LiteralMeans(j, vs, name);
    case ListOf(item) =>
      forall x | j.Arr? && x in j.items
        ensures Satisfies(x, SchemaFor(item, name).schema.value) <==> Inhabits(x, item)
      {
        SchemaMeansType(item, name, x);
      }
      ArrayMeans(j, item, SchemaFor(item, name).schema.value);
    case _ => ScalarSchemaMeans(j, t);
  }

  lemma UnionMeans(j: Json, ms: seq<Type>, i: nat)
    requires i < |ms| && RealMembers(ms) == [i]
    ensures Inhabits(j, Union(ms)) <==> Inhabits(j, ms[i])
  {
    RealMembersAre(ms);
    forall k | 0 <= k < |ms|
      ensures !ms[k].NoneT? <==> k == i
    {
      assert k in RealMembers(ms) <==> k == i;
    }
  }

  lemma ArrayMeans(j: Json, item: Type, inner: Json)
    requires forall x | j.Arr? && x in j.items :: Satisfies(x, inner) <==> Inhabits(x, item)
    ensures Satisfies(j, Obj(map["type" := Str("array"), "items" := inner])) <==> Inhabits(j, ListOf(item))
  {
    KeywordsOf("array", inner, []);
    NamesDiffer();
  }

  lemma ScalarSchemaMeans(j: Json, t: Type)
    requires ScalarName(t).Some?
    ensures Satisfies(j, TypeSchema(ScalarName(t).value)) <==> Inhabits(j, t)
  {
    KeywordsOf(ScalarName(t).value, Null, []);
    ScalarMeans(j, t);
  }

  /** An argument that must be given: one without a default that is not optional. */
  predicate Needed(p: Param) {
    p.default.None? && p.annotation.Some? && !p.annotation.value.Union?
  }

  /** `required` lists exactly the needed among the parameters. */
  ghost predicate ListsNeeded(params: seq<Param>, required: seq<string>) {
    && (forall p <- params :: p.name in required <==> Needed(p))
    && (forall r <- required :: r in Names(params))
  }

  lemma NeededStep(acc: Inferred, p: Param, docs: map<string, string>)
    requires InferOne(acc, p, docs).problems == {}
    ensures InferOne(acc, p, docs).required == acc.required + if Needed(p) then [p.name] else []
  {
    CleanStep(acc, p, docs);
    assert acc.required + [] == acc.required;
  }

  lemma NeededGrows(front: seq<Param>, last: Param, required: seq<string>)
    requires Distinct(front + [last]) && ListsNeeded(front, required)
    ensures ListsNeeded(front + [last], required + if Needed(last) then [last.name] else [])
  {
    NotAmong(front, last);
    assert Names(front + [last]) == Names(front) + {last.name};
    assert required + [] == required;
  }

  lemma {:induction false} RequiredAreNeeded(params: seq<Param>, docs: map<string, string>)
    requires Distinct(params) && InferAll(params, docs).problems == {}
    ensures ListsNeeded(params, InferAll(params, docs).required)
  {
    if params != [] {
      var k := |params| - 1;
      var before := InferAll(params[..k], docs);
      CleanBefore(before, params[k], docs);
      RequiredAreNeeded(params[..k], docs);
      NeededStep(before, params[k], docs);
      assert params == params[..k] + [params[k]];
      NeededGrows(params[..k], params[k], before.required);
    }
  }

  lemma NotAmong(front: seq<Param>, last: Param)
    requires Distinct(front + [last])
    ensures last.name !in Names(front)
  {
    forall p | p in front
      ensures p.name != last.name
    {
      var i :| 0 <= i < |front| && front[i] == p;
      assert (front + [last])[i].name != (front + [last])[|front|].name;
    }
  }

  lemma DescribedMeansSame(j: Json, schema: Json, doc: Option<string>)
    requires schema.Obj?
    ensures Satisfies(j, Described(schema, doc)) <==> Satisfies(j, schema)
  {
    var s := Described(schema, doc);
    assert "type"[0] == 't' && "items"[0] == 'i' && "enum"[0] == 'e' && "description"[0] == 'd';
    assert s.Get("type") == schema.Get("type") && s.Get("items") == schema.Get("items") && s.Get("enum") == schema.Get("enum");
  }

  /** An argument object against the schema of a tool's parameters: what is given satisfies its
      property, and what is required is given. */
  predicate ArgumentsSatisfy(args: map<string, Json>, properties: map<string, Json>, required: seq<string>) {
    && (forall name <- properties :: name in args ==> Satisfies(args[name], properties[name]))
    && (forall name <- required :: name in args)
  }

  /** THE SCHEMA IS THE SIGNATURE: a schema inferred without problems accepts exactly the
      argument objects that fit the function: every argument given can be passed for its
      annotation, and only parameters with a default or an optional type are left out. */
  lemma SchemaIsTheSignature(params: seq<Param>, docs: map<string, string>, args: map<string, Json>)
    requires Distinct(params) && InferAll(params, docs).problems == {}
    ensures var all := InferAll(params, docs);
      ArgumentsSatisfy(args, all.properties, all.required) <==>
        forall p <- params :: p.annotation.Some? && if p.name in args then Inhabits(args[p.name], p.annotation.value) else !Needed(p)
  {
    var all := InferAll(params, docs);
    InferredShape(params, docs);
    RequiredAreNeeded(params, docs);
    forall p | p in params
      ensures p.annotation.Some? && p.name in all.properties
      ensures p.name in args ==> (Satisfies(args[p.name], all.properties[p.name]) <==> Inhabits(args[p.name], p.annotation.value))
    {
      if p.name in args {
        var schema := SchemaFor(p.annotation.value, p.name).schema.value;
        SchemaIsTyped(p.annotation.value, p.name);
        DescribedMeansSame(args[p.name], schema, DocOf(docs, p.name));
        SchemaMeansType(p.annotation.value, p.name, args[p.name]);
      }
    }
    SignatureByName(params, all, args);
  }

  lemma SignatureByName(params: seq<Param>, all: Inferred, args: map<string, Json>)
    requires all.properties.Keys == Names(params) && ListsNeeded(params, all.required)
    requires forall p <- params :: p.annotation.Some? && p.name in all.properties
    requires forall p <- params | p.name in args ::
      Satisfies(args[p.name], all.properties[p.name]) <==> Inhabits(args[p.name], p.annotation.value)
    ensures ArgumentsSatisfy(args, all.properties, all.required) <==>
      forall p <- params :: p.annotation.Some? && if p.name in args then Inhabits(args[p.name], p.annotation.value) else !Needed(p)
  {
    if forall p <- params :: p.annotation.Some? && if p.name in args then Inhabits(args[p.name], p.annotation.value) else !Needed(p) {
      forall name | name in Names(params)
        ensures name in args ==> Satisfies(args[name], all.properties[name])
        ensures name in all.required ==> name in args
      {
        var p :| p in params && p.name == name;
      }
    }
  }

  /** DEFAULTS: a mismatch is recorded for a name exactly when a parameter of that name has a
      scalar annotation and a default, other than None, of another type. */
  lemma {:induction false} DefaultsChecked(params: seq<Param>, docs: map<string, string>, name: string)
    ensures Problem(BadDefault, name) in InferAll(params, docs).problems <==>
      exists p :: p in params && p.name == name && Mismatched(p)
  {
    if params != [] {
      var k := |params| - 1;
      DefaultsChecked(params[..k], docs, name);
      var p := params[k];
      assert params == params[..k] + [p];
      if p.annotation.Some? {
        NoBadDefault(p.annotation.value, p.name, name);
        NoSchemaIffProblem(p.annotation.value, p.name);
      }
      assert Problem(BadDefault, name) in InferAll(params, docs).problems
        <==> Problem(BadDefault, name) in InferAll(params[..k], docs).problems || (p.name == name && Mismatched(p));
    }
  }

  predicate Mismatched(p: Param) {
    && p.annotation.Some? && p.default.Some? && !p.default.value.NoneV?
    && match p.annotation.value
       case StrT => !p.default.value.StrV?
       case BoolT => !p.default.value.BoolV?
       case IntT => !p.default.value.IntV?
       case FloatT => !p.default.value.FloatV?
       case _ => false
  }

  lemma {:induction false} NoBadDefault(t: Type, name: string, other: string)
    ensures Problem(BadDefault, other) !in SchemaFor(t, name).problems
  {
    match t
    case Union(ms) =>
      if |RealMembers(ms)| == 1 {
        assert RealMembers(ms)[0] in RealMembers(ms);
        NoBadDefault(ms[RealMembers(ms)[0]], name, other);
      }
    case ListOf(item) => NoBadDefault(item, name, other);
    case _ =>
  }

  /** DOCUMENTATION: what is recorded about it is exactly each inferable parameter without a
      description, and each description without a parameter. */
  lemma DocsChecked(params: seq<Param>, docs: map<string, string>, q: Problem)
    ensures q in InferAll(params, docs).docProblems + StrayDocs(params, docs) <==>
      || (q.kind == Undocumented && exists p :: p in params && p.name == q.name && Inferable(p) && DocOf(docs, p.name).GetOr("") == "")
      || (q.kind == NotAParameter && q.name in docs && forall p | p in params :: p.name != q.name)
  {
    UndocumentedIff(params, docs, q);
    assert q.name in Names(params) <==> exists p :: p in params && p.name == q.name;
  }

  predicate Inferable(p: Param) { p.annotation.Some? && Supported(p.annotation.value) }

  lemma {:induction false} UndocumentedIff(params: seq<Param>, docs: map<string, string>, q: Problem)
    ensures q in InferAll(params, docs).docProblems <==>
      q.kind == Undocumented && exists p :: p in params && p.name == q.name && Inferable(p) && DocOf(docs, p.name).GetOr("") == ""
  {
    if params != [] {
      var k := |params| - 1;
      var p := params[k];
      UndocumentedIff(params[..k], docs, q);
      assert params == params[..k] + [p];
      if p.annotation.Some? {
        NoSchemaIffProblem(p.annotation.value, p.name);
      }
      var missing := q == Problem(Undocumented, p.name) && Inferable(p) && DocOf(docs, p.name).GetOr("") == "";
      assert q in InferAll(params, docs).docProblems <==> q in InferAll(params[..k], docs).docProblems || missing;
    }
  }

  /** What is wrong with an unsupported annotation: the fault of its innermost part. */
  ghost function Fault(t: Type): Kind
    decreases t
  {
    match t
    case ListBare => BareList
    case ListOf(item) => Fault(item)
    case Literal(_) => MixedLiteral
    case Union(ms) =>
      if exists i | 0 <= i < |ms| :: RealMembers(ms) == [i] then
        var i :| 0 <= i < |ms| && RealMembers(ms) == [i];
        Fault(ms[i])
      else MultiUnion
    case _ => Uninferable
  }

  /** One problem is recorded for it, of that kind. */
  lemma {:induction false} OneFault(t: Type, name: string)
    ensures SchemaFor(t, name).problems == if Supported(t) then {} else {Problem(Fault(t), name)}
    decreases t
  {
    NoSchemaIffProblem(t, name);
    match t
    case Union(ms) =>
      var ix := RealMembers(ms);
      UnionSupported(ms);
      if |ix| == 1 {
        assert ix[0] in ix && ix == [ix[0]];
        OneFault(ms[ix[0]], name);
      }
    case ListOf(item) => OneFault(item, name);
    case _ =>
  }

  /** Whatever a strict declaration infers would also be accepted as its override. */
  lemma StrictDeclarationPasses(params: seq<Param>, docs: map<string, string>)
    requires Distinct(params) && forall name <- docs :: Blank(docs[name]) ==> docs[name] == ""
    requires InferAll(params, docs).problems == {} && InferAll(params, docs).docProblems == {}
    ensures var all := InferAll(params, docs);
      ValidateOverride(SchemaObject(all.properties, all.required), Names(params)) == Some({})
  {
    InferredPasses(params, docs);
    InferredShape(params, docs);
    forall i | 0 <= i < |params|
      ensures !Blank(DocOf(docs, params[i].name).GetOr(""))
    {
      if DocOf(docs, params[i].name).GetOr("") == "" {
        assert params[i] in params;
        UndocumentedIsRecorded(params, docs, i);
        assert false;
      }
    }
    assert Undescribed(params, docs) == {};
  }
}
