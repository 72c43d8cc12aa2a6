/** The JSON Schema subset that tool arguments are checked against (internal/mcp/schema/schema.go).

    Decoded JSON is a Value; numbers are reals.  Enum members are scalars: comparing with an array or
    an object is a run-time panic in Go.  Go visits an object's keys in no particular order, and so
    does Validate. */
module Schema {
  import opened Util
  import opened Numbers

  datatype Value =
    | Null
    | Bool(b: bool)
    | Number(n: real)
    | String(s: string)
    | Array(items: seq<Value>)
    | Object(fields: map<string, Value>)

  datatype Scalar = NoValue | Truth(b: bool) | Num(n: real) | Str(s: string)

  /** additionalProperties: absent, a boolean (null decodes as false), a schema, or neither. */
  datatype Additional = Unspecified | Allowed(allowed: bool) | Sub(schema: Node) | Neither

  datatype Node = Node(
    typ: string,
    properties: map<string, Node>,
    required: seq<string>,
    minimum: Option<real>,
    maximum: Option<real>,
    enum: seq<Scalar>,
    items: Option<Node>,
    additional: Additional)

  datatype Problem =
    | WrongType(expected: string, got: string)
    | NotInEnum(enum: seq<Scalar>)
    | BelowMinimum(minimum: real)
    | AboveMaximum(maximum: real)
    | MissingField
    | UnknownField
    | BadSchema
    | BadArguments

  datatype Error = Error(path: string, problem: Problem)

  // ---------------------------------------------------------------- types and enums

  /** n == float64(int64(n)): integral, and within the range of int64. */
  predicate Int64Valued(n: real) {
    n.Floor as real == n && -INT64_LIMIT <= n.Floor < INT64_LIMIT
  }

  predicate TypeMatches(t: string, v: Value) {
    if t == "object" then v.Object?
    else if t == "array" then v.Array?
    else if t == "string" then v.String?
    else if t == "boolean" then v.Bool?
    else if t == "number" then v.Number?
    else if t == "integer" then v.Number? && Int64Valued(v.n)
    else if t == "null" then v.Null?
    else true
  }

  predicate IsWhole(n: real, i: int) {
    i as real == n
  }

  /** A value has the type by whose name it is called and no other, except that an integral number is also
      an integer; a name that is no type constrains nothing. */
  lemma TypesByName(t: string, v: Value)
    ensures t in {"object", "array", "string", "boolean", "number", "null"} ==> (TypeMatches(t, v) <==> t == TypeName(v))
    ensures t == "integer" ==> (TypeMatches(t, v) <==>
              v.Number? && exists i :: IsWhole(v.n, i) && -0x8000_0000_0000_0000 <= i < 0x8000_0000_0000_0000)
    ensures t !in {"object", "array", "string", "boolean", "number", "null", "integer"} ==> TypeMatches(t, v)
    ensures TypeName(v) in {"object", "array", "string", "boolean", "number", "null"}
    ensures (v.Object? <==> TypeName(v) == "object") && (v.Array? <==> TypeName(v) == "array")
    ensures (v.String? <==> TypeName(v) == "string") && (v.Bool? <==> TypeName(v) == "boolean")
    ensures (v.Number? <==> TypeName(v) == "number") && (v.Null? <==> TypeName(v) == "null")
  {
    if t == "integer" && v.Number? {
      if TypeMatches(t, v) {
        assert IsWhole(v.n, v.n.Floor);
      }
      if i :| IsWhole(v.n, i) && -0x8000_0000_0000_0000 <= i < 0x8000_0000_0000_0000 {
        assert v.n.Floor == i;
      }
    }
  }

  function TypeName(v: Value): string {
    match v
    case Object(_) => "object"
    case Array(_) => "array"
    case String(_) => "string"
    case Bool(_) => "boolean"
    case Number(_) => "number"
    case Null => "null"
  }

  predicate Equals(e: Scalar, v: Value) {
    match e
    case NoValue => v.Null?
    case Truth(b) => v == Bool(b)
    case Num(n) => v == Number(n)
    case Str(s) => v == String(s)
  }

  function ScalarValue(e: Scalar): Value {
    match e
    case NoValue => Null
    case Truth(b) => Bool(b)
    case Num(n) => Number(n)
    case Str(s) => String(s)
  }

  predicate EnumContains(enum: seq<Scalar>, v: Value) {
    exists e :: e in enum && Equals(e, v)
  }

  // ---------------------------------------------------------------- what conforming means

  /** JSON Schema draft 2020-12, Validation section 6.1.1 (an unknown type name constrains nothing). */
  predicate TypeOk(s: Node, v: Value) {
    s.typ != "" ==> TypeMatches(s.typ, v)
  }

  /** Section 6.1.2. */
  predicate EnumOk(s: Node, v: Value) {
    s.enum != [] ==> EnumContains(s.enum, v)
  }

  /** Sections 6.2.2 and 6.2.4: they constrain numbers only. */
  predicate RangeOk(s: Node, v: Value) {
    v.Number? ==> (s.minimum.Some? ==> v.n >= s.minimum.value) && (s.maximum.Some? ==> v.n <= s.maximum.value)
  }

  /** Section 6.5.3, except that here a field whose value is null counts as missing. */
  predicate Present(v: Value, field: string)
    requires v.Object?
  {
    field in v.fields && v.fields[field] != Null
  }

  predicate RequiredOk(s: Node, v: Value) {
    v.Object? ==> forall field :: field in s.required ==> Present(v, field)
  }

  /** The keywords hold one by one, each for the values it applies to; properties, additionalProperties
      and items (Core sections 10.3.2.1, 10.3.2.3 and 10.3.1.2) pass judgement on to subschemas. */
  ghost predicate Conforms(s: Node, v: Value)
    decreases v
  {
    && TypeOk(s, v)
    && EnumOk(s, v)
    && RangeOk(s, v)
    && RequiredOk(s, v)
    && (v.Object? ==> forall key :: key in v.fields && key in s.properties ==> Conforms(s.properties[key], v.fields[key]))
    && (v.Object? ==> forall key :: key in v.fields && key !in s.properties ==>
          (s.additional.Allowed? ==> s.additional.allowed)
          && (s.additional.Sub? ==> Conforms(s.additional.schema, v.fields[key])))
    && (v.Array? && s.items.Some? ==> forall i :: 0 <= i < |v.items| ==> Conforms(s.items.value, v.items[i]))
  }

  // ---------------------------------------------------------------- what is reported

  function Join(path: string, key: string): string {
    path + ("/" + key)
  }

  /** The schema that judges a field, if any. */
  function FieldSchema(s: Node, key: string): Option<Node> {
    if key in s.properties then Some(s.properties[key])
    else if s.additional.Sub? then Some(s.additional.schema)
    else None
  }

  predicate Forbidden(s: Node, key: string) {
    key !in s.properties && s.additional == Allowed(false)
  }

  predicate ScalarProblem(s: Node, v: Value, p: Problem) {
    || (!EnumOk(s, v) && p == NotInEnum(s.enum))
    || (v.Number? && s.minimum.Some? && v.n < s.minimum.value && p == BelowMinimum(s.minimum.value))
    || (v.Number? && s.maximum.Some? && v.n > s.maximum.value && p == AboveMaximum(s.maximum.value))
  }

  ghost predicate MissingError(s: Node, v: Value, path: string, e: Error) {
    v.Object? && e.problem == MissingField
    && exists field :: field in s.required && !Present(v, field) && e.path == Join(path, field)
  }

  /** e is an error of checking v, found at path, against s. */
  ghost predicate Reported(s: Node, v: Value, path: string, e: Error)
    decreases v, 1
  {
    if !TypeOk(s, v) then e == Error(path, WrongType(s.typ, TypeName(v)))
    else
      || (e.path == path && ScalarProblem(s, v, e.problem))
      || MissingError(s, v, path, e)
      || (v.Object? && exists key :: key in v.fields && KeyError(s, v, path, key, e))
      || (v.Array? && s.items.Some? && exists i :: 0 <= i < |v.items| && ItemError(s.items.value, v, path, i, e))
  }

  ghost predicate KeyError(s: Node, v: Value, path: string, key: string, e: Error)
    requires v.Object? && key in v.fields
    decreases v, 0
  {
    || (Forbidden(s, key) && e == Error(Join(path, key), UnknownField))
    || (FieldSchema(s, key).Some? && Reported(FieldSchema(s, key).value, v.fields[key], Join(path, key), e))
  }

  ghost predicate ItemError(items: Node, v: Value, path: string, i: int, e: Error)
    requires v.Array? && 0 <= i < |v.items|
    decreases v, 0
  {
    Reported(items, v.items[i], Join(path, Decimal(i)), e)
  }

  // ---------------------------------------------------------------- the validator

  /** Returns every violated constraint and nothing else. */
  method Validate(s: Node, v: Value, path: string) returns (errs: seq<Error>)
    ensures forall e :: e in errs <==> Reported(s, v, path, e)
    decreases v, 1
  {
    if s.typ != "" && !TypeMatches(s.typ, v) {
      return [Error(path, WrongType(s.typ, TypeName(v)))];
    }
    errs := ValidateScalar(s, v, path);
    if v.Object? {
      var missing := ValidateRequired(s, v, path);
      var fields := ValidateFields(s, v, path);
      errs := errs + missing + fields;
    }
    if v.Array? && s.items.Some? {
      var items := ValidateItems(s.items.value, v, path);
      errs := errs + items;
    }
  }

  method ValidateScalar(s: Node, v: Value, path: string) returns (errs: seq<Error>)
    ensures forall e :: e in errs <==> e.path == path && ScalarProblem(s, v, e.problem)
    ensures forall e :: e in errs <==>
              e.path == path &&
              (|| (e.problem == NotInEnum(s.enum) && s.enum != [] && forall k :: 0 <= k < |s.enum| ==> v != ScalarValue(s.enum[k]))
               || (v.Number? && s.minimum.Some? && v.n < s.minimum.value && e.problem == BelowMinimum(s.minimum.value))
               || (v.Number? && s.maximum.Some? && v.n > s.maximum.value && e.problem == AboveMaximum(s.maximum.value)))
  {
    ghost var listed := forall k :: 0 <= k < |s.enum| ==> (Equals(s.enum[k], v) <==> v == ScalarValue(s.enum[k]));
    assert listed;
    errs := [];
    if |s.enum| > 0 {
      var found := false;
      for i := 0 to |s.enum|
        invariant found <==> exists k :: 0 <= k < i && Equals(s.enum[k], v)
      {
        if Equals(s.enum[i], v) {
          found := true;
        }
      }
      if !found {
        errs := errs + [Error(path, NotInEnum(s.enum))];
      }
    }
    if v.Number? {
      if s.minimum.Some? && v.n < s.minimum.value {
        errs := errs + [Error(path, BelowMinimum(s.minimum.value))];
      }
      if s.maximum.Some? && v.n > s.maximum.value {
        errs := errs + [Error(path, AboveMaximum(s.maximum.value))];
      }
    }
  }

  method ValidateRequired(s: Node, v: Value, path: string) returns (errs: seq<Error>)
    requires v.Object?
    ensures forall e :: e in errs <==> MissingError(s, v, path, e)
    ensures forall e :: e in errs <==>
              e.problem == MissingField &&
              exists k :: 0 <= k < |s.required| && e.path == path + ("/" + s.required[k]) &&
                          (s.required[k] !in v.fields || v.fields[s.required[k]] == Null)
  {
    errs := [];
    for i := 0 to |s.required|
      invariant forall e :: e in errs <==>
                  (e.problem == MissingField && exists k :: 0 <= k < i && !Present(v, s.required[k]) && e.path == Join(path, s.required[k]))
    {
      var field := s.required[i];
      if field !in v.fields || v.fields[field] == Null {
        errs := errs + [Error(Join(path, field), MissingField)];
      }
    }
  }

  method ValidateFields(s: Node, v: Value, path: string) returns (errs: seq<Error>)
    requires v.Object?
    ensures forall e :: e in errs <==> exists key :: key in v.fields && KeyError(s, v, path, key, e)
    decreases v, 0
  {
    errs := [];
    var left := v.fields.Keys;
    while left != {}
      invariant left <= v.fields.Keys
      invariant forall e :: e in errs <==> exists key :: key in v.fields && key !in left && KeyError(s, v, path, key, e)
      decreases left
    {
      var key :| key in left;
      var more: seq<Error>;
      if key in s.properties {
        more := Validate(s.properties[key], v.fields[key], Join(path, key));
      } else {
        more := ValidateAdditional(s.additional, v.fields[key], Join(path, key));
      }
      assert forall e :: e in more <==> KeyError(s, v, path, key, e);
      errs := errs + more;
      left := left - {key};
    }
  }

  method ValidateAdditional(a: Additional, v: Value, path: string) returns (errs: seq<Error>)
    ensures forall e :: e in errs <==>
              (a == Allowed(false) && e == Error(path, UnknownField)) || (a.Sub? && Reported(a.schema, v, path, e))
    decreases v, 2
  {
    match a
    case Unspecified => errs := [];
    case Allowed(allowed) => errs := if allowed then [] else [Error(path, UnknownField)];
    case Sub(sub) => errs := Validate(sub, v, path);
    case Neither => errs := [];
  }

  method ValidateItems(s: Node, v: Value, path: string) returns (errs: seq<Error>)
    requires v.Array?
    ensures forall e :: e in errs <==> exists i :: 0 <= i < |v.items| && ItemError(s, v, path, i, e)
    decreases v, 0
  {
    errs := [];
    for i := 0 to |v.items|
      invariant forall e :: e in errs <==> exists k :: 0 <= k < i && ItemError(s, v, path, k, e)
    {
      var more := Validate(s, v.items[i], Join(path, Decimal(i)));
      assert forall e :: e in more <==> ItemError(s, v, path, i, e);
      assert forall e :: (exists k :: 0 <= k < i + 1 && ItemError(s, v, path, k, e)) <==>
                         ((exists k :: 0 <= k < i && ItemError(s, v, path, k, e)) || ItemError(s, v, path, i, e));
      errs := errs + more;
    }
  }

  // ---------------------------------------------------------------- no errors means conforming

  /** A conforming value has no errors. */
  lemma {:induction false} ConformingIsSilent(s: Node, v: Value, path: string, e: Error)
    requires Conforms(s, v)
    ensures !Reported(s, v, path, e)
    decreases v
  {
    if v.Object? {
      forall key | key in v.fields ensures !KeyError(s, v, path, key, e) {
        if FieldSchema(s, key).Some? {
          ConformingIsSilent(FieldSchema(s, key).value, v.fields[key], Join(path, key), e);
        }
      }
    } else if v.Array? && s.items.Some? {
      forall i | 0 <= i < |v.items| ensures !ItemError(s.items.value, v, path, i, e) {
        ConformingIsSilent(s.items.value, v.items[i], Join(path, Decimal(i)), e);
      }
    }
  }

  ghost predicate FieldOk(s: Node, v: Value, key: string)
    requires v.Object? && key in v.fields
  {
    !Forbidden(s, key) && (FieldSchema(s, key).Some? ==> Conforms(FieldSchema(s, key).value, v.fields[key]))
  }

  lemma FieldsAreJudged(s: Node, v: Value)
    requires v.Object? && TypeOk(s, v) && EnumOk(s, v) && RequiredOk(s, v)
    ensures (forall key :: key in v.fields ==> FieldOk(s, v, key)) ==> Conforms(s, v)
  {
    if forall key :: key in v.fields ==> FieldOk(s, v, key) {
      forall key | key in v.fields && key in s.properties ensures Conforms(s.properties[key], v.fields[key]) {
        assert FieldOk(s, v, key);
      }
      forall key | key in v.fields && key !in s.properties
        ensures (s.additional.Allowed? ==> s.additional.allowed)
             && (s.additional.Sub? ==> Conforms(s.additional.schema, v.fields[key]))
      {
        assert FieldOk(s, v, key);
      }
    }
  }

  /** A value that does not conform has an error. */
  lemma {:induction false} NonconformingIsReported(s: Node, v: Value, path: string) returns (e: Error)
    requires !Conforms(s, v)
    ensures Reported(s, v, path, e)
    decreases v
  {
    if !TypeOk(s, v) {
      return Error(path, WrongType(s.typ, TypeName(v)));
    }
    if !EnumOk(s, v) {
      return Error(path, NotInEnum(s.enum));
    }
    if !RangeOk(s, v) {
      return Error(path, if s.minimum.Some? && v.n < s.minimum.value then BelowMinimum(s.minimum.value)
                         else AboveMaximum(s.maximum.value));
    }
    if !RequiredOk(s, v) {
      var field :| field in s.required && !Present(v, field);
      return Error(Join(path, field), MissingField);
    }
    if v.Object? {
      FieldsAreJudged(s, v);
      var key :| key in v.fields && !FieldOk(s, v, key);
      if Forbidden(s, key) {
        e := Error(Join(path, key), UnknownField);
      } else {
        e := NonconformingIsReported(FieldSchema(s, key).value, v.fields[key], Join(path, key));
      }
      assert KeyError(s, v, path, key, e);
    } else {
      var i :| 0 <= i < |v.items| && !Conforms(s.items.value, v.items[i]);
      e := NonconformingIsReported(s.items.value, v.items[i], Join(path, Decimal(i)));
      assert ItemError(s.items.value, v, path, i, e);
    }
  }

  /** Nothing is reported exactly for the values that conform. */
  lemma ConformsIffNothingReported(s: Node, v: Value, path: string)
    ensures Conforms(s, v) <==> forall e :: !Reported(s, v, path, e)
  {
    if Conforms(s, v) {
      forall e ensures !Reported(s, v, path, e) {
        ConformingIsSilent(s, v, path, e);
      }
    } else {
      var e := NonconformingIsReported(s, v, path);
      assert exists x :: Reported(s, v, path, x);
    }
  }

  // ---------------------------------------------------------------- errors point at what is wrong

  datatype Step = Key(name: string) | Index(i: nat)

  function StepText(step: Step): string {
    match step
    case Key(name) => "/" + name
    case Index(i) => "/" + Decimal(i)
  }

  function StepsText(steps: seq<Step>): string {
    if steps == [] then "" else StepText(steps[0]) + StepsText(steps[1..])
  }

  datatype Place = Place(schema: Node, value: Value)

  /** One step down from a value of the right type, to the part and the schema that judges it. */
  function Down(p: Place, step: Step): Option<Place> {
    if !TypeOk(p.schema, p.value) then None
    else
      match step
      case Key(name) =>
        if p.value.Object? && name in p.value.fields && FieldSchema(p.schema, name).Some? then
          Some(Place(FieldSchema(p.schema, name).value, p.value.fields[name]))
        else None
      case Index(i) =>
        if p.value.Array? && i < |p.value.items| && p.schema.items.Some? then
          Some(Place(p.schema.items.value, p.value.items[i]))
        else None
  }

  function Descend(p: Place, steps: seq<Step>): Option<Place>
    decreases |steps|
  {
    if steps == [] then Some(p)
    else match Down(p, steps[0])
      case None => None
      case Some(q) => Descend(q, steps[1..])
  }

  /** A constraint that fails right here; suffix addresses the field concerned. */
  ghost predicate FailsHere(p: Place, suffix: string, problem: Problem) {
    var s, v := p.schema, p.value;
    if !TypeOk(s, v) then suffix == "" && problem == WrongType(s.typ, TypeName(v))
    else
      || (suffix == "" && ScalarProblem(s, v, problem))
      || (v.Object? && problem == MissingField && exists field :: field in s.required && !Present(v, field) && suffix == "/" + field)
      || (v.Object? && problem == UnknownField && exists key :: key in v.fields && Forbidden(s, key) && suffix == "/" + key)
  }

  ghost predicate FailsAt(s: Node, v: Value, steps: seq<Step>, suffix: string, problem: Problem) {
    Descend(Place(s, v), steps).Some? && FailsHere(Descend(Place(s, v), steps).value, suffix, problem)
  }

  ghost predicate Located(s: Node, v: Value, path: string, e: Error) {
    exists steps, suffix :: FailsAt(s, v, steps, suffix, e.problem) && e.path == path + (StepsText(steps) + suffix)
  }

  /** An error is reported exactly when following some keys and indices into the document leads to a
      failed constraint, and its path spells that way out after the path passed in. */
  lemma {:induction false} ReportedIffLocated(s: Node, v: Value, path: string, e: Error)
    ensures Reported(s, v, path, e) <==> Located(s, v, path, e)
    ensures Reported(s, v, path, e) ==> path <= e.path
    decreases v
  {
    if Reported(s, v, path, e) {
      ReportedLocated(s, v, path, e);
    }
    if Located(s, v, path, e) {
      var steps, suffix :| FailsAt(s, v, steps, suffix, e.problem) && e.path == path + (StepsText(steps) + suffix);
      LocatedReported(s, v, path, e, steps, suffix);
    }
  }

  lemma LocatedHere(s: Node, v: Value, path: string, e: Error, suffix: string)
    requires FailsHere(Place(s, v), suffix, e.problem) && e.path == path + suffix
    ensures Located(s, v, path, e)
  {
    assert Descend(Place(s, v), []) == Some(Place(s, v));
    assert FailsAt(s, v, [], suffix, e.problem);
    assert StepsText([]) + suffix == suffix;
  }

  lemma PathBelow(path: string, step: Step, steps: seq<Step>, suffix: string)
    ensures path + StepText(step) + (StepsText(steps) + suffix) == path + (StepsText([step] + steps) + suffix)
  {
    var text, texts := StepText(step), StepsText(steps);
    FirstStep(step, steps);
    ConcatAssoc(text, texts, suffix);
    ConcatAssoc(path, text, texts + suffix);
  }

  lemma FirstStep(step: Step, steps: seq<Step>)
    ensures StepsText([step] + steps) == StepText(step) + StepsText(steps)
  {
    assert ([step] + steps)[0] == step && ([step] + steps)[1..] == steps;
  }

  lemma LocatedBelow(s: Node, v: Value, path: string, e: Error, step: Step, q: Place)
    requires Down(Place(s, v), step) == Some(q) && Located(q.schema, q.value, path + StepText(step), e)
    ensures Located(s, v, path, e)
  {
    var steps, suffix :| FailsAt(q.schema, q.value, steps, suffix, e.problem)
                      && e.path == path + StepText(step) + (StepsText(steps) + suffix);
    PathBelow(path, step, steps, suffix);
    var all := [step] + steps;
    assert all[0] == step && all[1..] == steps;
    assert Descend(Place(s, v), all) == Descend(q, steps);
    assert FailsAt(s, v, all, suffix, e.problem);
  }

  lemma {:induction false} ReportedLocated(s: Node, v: Value, path: string, e: Error)
    requires Reported(s, v, path, e)
    ensures Located(s, v, path, e)
    decreases v
  {
    if !TypeOk(s, v) || (e.path == path && ScalarProblem(s, v, e.problem)) {
      assert path + "" == path;
      LocatedHere(s, v, path, e, "");
    } else if MissingError(s, v, path, e) {
      var field :| field in s.required && !Present(v, field) && e.path == Join(path, field);
      LocatedHere(s, v, path, e, "/" + field);
    } else if v.Object? {
      var key :| key in v.fields && KeyError(s, v, path, key, e);
      if Forbidden(s, key) && e == Error(Join(path, key), UnknownField) {
        LocatedHere(s, v, path, e, "/" + key);
      } else {
        ReportedLocated(FieldSchema(s, key).value, v.fields[key], Join(path, key), e);
        LocatedBelow(s, v, path, e, Key(key), Place(FieldSchema(s, key).value, v.fields[key]));
      }
    } else {
      var i :| 0 <= i < |v.items| && ItemError(s.items.value, v, path, i, e);
      ReportedLocated(s.items.value, v.items[i], Join(path, Decimal(i)), e);
      LocatedBelow(s, v, path, e, Index(i), Place(s.items.value, v.items[i]));
    }
  }

  /** An error of a part is an error of the whole. */
  lemma ReportedBelow(s: Node, v: Value, path: string, e: Error, step: Step, q: Place)
    requires Down(Place(s, v), step) == Some(q) && Reported(q.schema, q.value, path + StepText(step), e)
    ensures Reported(s, v, path, e)
  {
    match step
    case Key(name) => assert KeyError(s, v, path, name, e);
    case Index(i) => assert ItemError(s.items.value, v, path, i, e);
  }

  lemma {:induction false} LocatedReported(s: Node, v: Value, path: string, e: Error, steps: seq<Step>, suffix: string)
    requires FailsAt(s, v, steps, suffix, e.problem) && e.path == path + (StepsText(steps) + suffix)
    ensures Reported(s, v, path, e)
    decreases |steps|
  {
    if steps == [] {
      assert path + ("" + suffix) == path + suffix;
      ReportedHere(s, v, path, e, suffix);
    } else {
      var step := steps[0];
      var q := Down(Place(s, v), step).value;
      PathBelow(path, step, steps[1..], suffix);
      assert [step] + steps[1..] == steps;
      LocatedReported(q.schema, q.value, path + StepText(step), e, steps[1..], suffix);
      ReportedBelow(s, v, path, e, step, q);
    }
  }

  lemma ReportedHere(s: Node, v: Value, path: string, e: Error, suffix: string)
    requires FailsHere(Place(s, v), suffix, e.problem) && e.path == path + suffix
    ensures Reported(s, v, path, e)
  {
    if suffix == "" {
      assert path + suffix == path;
    }
    if TypeOk(s, v) && !(suffix == "" && ScalarProblem(s, v, e.problem)) {
      if e.problem == MissingField && exists field :: field in s.required && !Present(v, field) && suffix == "/" + field {
        assert MissingError(s, v, path, e);
      } else {
        var key :| key in v.fields && Forbidden(s, key) && suffix == "/" + key;
        assert KeyError(s, v, path, key, e);
      }
    }
  }

  // ---------------------------------------------------------------- whole documents

  datatype SchemaDoc = NotASchema | Schema(node: Node)
  datatype ArgsDoc = NoArgs | NotJson | Args(value: Value)

  function Effective(args: ArgsDoc): Value
    requires !args.NotJson?
  {
    if args.NoArgs? then Object(map[]) else args.value
  }

  /** The package's Validate: no errors exactly when both documents decode and the arguments, an empty
      object if there are none, conform. */
  method ValidateDocument(schema: SchemaDoc, args: ArgsDoc) returns (errs: seq<Error>)
    ensures errs == [] <==> schema.Schema? && !args.NotJson? && Conforms(schema.node, Effective(args))
    ensures schema.NotASchema? ==> errs == [Error("", BadSchema)]
    ensures schema.Schema? && args.NotJson? ==> errs == [Error("", BadArguments)]
    ensures schema.Schema? && !args.NotJson? ==>
              forall e :: e in errs <==> Located(schema.node, Effective(args), "", e)
  {
    if schema.NotASchema? {
      return [Error("", BadSchema)];
    }
    var v: Value := Null;
    match args {
      case NoArgs => v := Object(map[]);
      case NotJson => return [Error("", BadArguments)];
      case Args(value) => v := value;
    }
    errs := Validate(schema.node, v, "");
    if Conforms(schema.node, v) {
      if errs != [] {
        assert errs[0] in errs;
        ConformingIsSilent(schema.node, v, "", errs[0]);
      }
    } else {
      var e := NonconformingIsReported(schema.node, v, "");
      assert e in errs;
    }
    forall e ensures e in errs <==> Located(schema.node, v, "", e) {
      ReportedIffLocated(schema.node, v, "", e);
    }
  }
}
