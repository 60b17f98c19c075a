/**
 * Schema-validated construction (`ValidatedTransformMeta` in
 * albumentations/core/validation.py).
 *
 * A class body is a dictionary from attribute names to attribute values. The
 * metaclass looks at it once, when the class is defined: if it declares an
 * `InitSchema` that is a pydantic model, its `__init__` is replaced by
 * `custom_init`, a closure over the original constructor and the schema.
 * Calling `custom_init` binds the caller's arguments against the original
 * constructor's declared parameters, runs the schema, and hands the schema's
 * validated dictionary to the original constructor.
 *
 * The declared signature is a list of parameters with an optional default
 * (`None` stands for `Parameter.empty`); the schema is a function from the
 * bound keyword arguments to the validated ones, or to the schema's own error.
 */
module Validation {
  import opened Wrappers

  /** An argument or default value; only its identity matters to the binder. */
  datatype Value = NoneValue | Bool(b: bool) | Int(i: int) | Str(s: string) | Object(id: nat)

  /** One declared parameter of a constructor, with its default if it has one. */
  datatype Param = Param(name: string, default: Option<Value>)

  /** What a class body may bind a name to. */
  datatype Attr =
    | NoneAttr                                 // the value `None`
    | Plain(v: Value)                          // any other non-callable value
    | Class(id: nat, isBaseModel: bool)        // a class; whether it subclasses pydantic's `BaseModel`
    | Function(id: nat, params: seq<Param>)    // a function, with its declared signature
    | CustomInit(original: Attr, schema: Attr) // the `custom_init` closure the metaclass installs

  type ClassDict = map<string, Attr>

  /** The exceptions raised while defining or constructing a class. */
  datatype ValidationError =
    | IssubclassTypeError     // `issubclass` on an `InitSchema` that is not a class
    | InitNotFound            // `ValueError("__init__ not found in class definition")`
    | SelfGivenTwice          // `custom_init(self, ...)` called with a keyword argument `self` as well
    | NoSignature             // `signature(original_init)` on something that is not a function
    | SchemaRejected(reason: string) // the schema's own validation error, passed through

  /** The schema's behaviour: `InitSchema(**kwargs).dict()`, or its validation error. */
  type Schema = map<string, Value> -> Result<map<string, Value>, string>

  const INIT_SCHEMA := "InitSchema"
  const INIT := "__init__"
  const SELF := "self"

  /**
   * `"InitSchema" in dct and issubclass(dct["InitSchema"], BaseModel)`:
   * `Ok(true)` when interception applies, `Ok(false)` when it does not, and
   * the `TypeError` of `issubclass` when `InitSchema` is not a class.
   */
  function Activates(dct: ClassDict): (r: Result<bool, ValidationError>)
    ensures r == Ok(true) <==> INIT_SCHEMA in dct && dct[INIT_SCHEMA].Class? && dct[INIT_SCHEMA].isBaseModel
    ensures r.Err? <==> INIT_SCHEMA in dct && !dct[INIT_SCHEMA].Class?
    ensures r.Err? ==> r.error == IssubclassTypeError
  {
    if INIT_SCHEMA !in dct then Ok(false)
    else match dct[INIT_SCHEMA]
      case Class(_, isBaseModel) => Ok(isBaseModel)
      case _ => Err(IssubclassTypeError)
  }

  /** `dct.get("__init__")`: a missing entry reads as `None`. */
  function GetInit(dct: ClassDict): Attr
  {
    if INIT in dct then dct[INIT] else NoneAttr
  }

  /**
   * `ValidatedTransformMeta.__new__`, up to the dictionary it hands to
   * `type.__new__`: unchanged when the class does not opt in, otherwise with
   * `__init__` replaced by `custom_init`; a class that opts in without a
   * constructor of its own fails at definition time.
   */
  function New(dct: ClassDict): (r: Result<ClassDict, ValidationError>)
    ensures Activates(dct) == Ok(false) ==> r == Ok(dct)
    ensures Activates(dct).Err? ==> r == Err(IssubclassTypeError)
    ensures Activates(dct) == Ok(true) ==>
      (r == Err(InitNotFound) <==> INIT !in dct || dct[INIT] == NoneAttr)
    ensures Activates(dct) == Ok(true) && INIT in dct && dct[INIT] != NoneAttr ==> r.Ok?
    ensures r.Ok? && Activates(dct) == Ok(true) ==>
      && r.value.Keys == dct.Keys + {INIT}
      && r.value[INIT] == CustomInit(dct[INIT], dct[INIT_SCHEMA])
      && forall k :: k in dct && k != INIT ==> r.value[k] == dct[k]
  {
    match Activates(dct)
    case Err(e) => Err(e)
    case Ok(active) =>
      if !active then Ok(dct)
      else
        var originalInit := GetInit(dct);
        if originalInit == NoneAttr then Err(InitNotFound)
        else Ok(dct[INIT := CustomInit(originalInit, dct[INIT_SCHEMA])])
  }

  /** The names of `params`, in declaration order. */
  function ParamNames(params: seq<Param>): (names: seq<string>)
    ensures |names| == |params|
    ensures forall i :: 0 <= i < |params| ==> names[i] == params[i].name
  {
    if params == [] then [] else [params[0].name] + ParamNames(params[1..])
  }

  /** `list(init_params.keys())[1:]`: every name but the first, which is taken to be `self`. */
  function PositionalNames(params: seq<Param>): (names: seq<string>)
    ensures |names| == if params == [] then 0 else |params| - 1
    ensures forall i :: 0 <= i < |names| ==> names[i] == params[i + 1].name
  {
    if params == [] then [] else ParamNames(params[1..])
  }

  /**
   * `dict(zip(names, args))`: pairs up to the shorter of the two lists, so
   * surplus arguments are dropped; a repeated name keeps its last pairing.
   */
  function Zip(names: seq<string>, args: seq<Value>): (r: map<string, Value>)
    ensures r.Keys == set i | 0 <= i < |names| && i < |args| :: names[i]
  {
    if names == [] || args == [] then map[]
    else map[names[0] := args[0]] + Zip(names[1..], args[1..])
  }

  /** The names the defaults loop may fill: every parameter not named `self` that declares a default. */
  ghost function DefaultNames(params: seq<Param>): set<string>
  {
    set i | 0 <= i < |params| && params[i].name != SELF && params[i].default.Some? :: params[i].name
  }

  /** One iteration of the defaults loop. */
  function FillOne(m: map<string, Value>, p: Param): map<string, Value>
  {
    if p.name != SELF && p.name !in m && p.default.Some? then m[p.name := p.default.value] else m
  }

  /** The defaults loop over `init_params.items()`, in declaration order. */
  function FillDefaults(m: map<string, Value>, params: seq<Param>): map<string, Value>
    decreases |params|
  {
    if params == [] then m else FillDefaults(FillOne(m, params[0]), params[1..])
  }

  /**
   * The keyword arguments `custom_init` builds before running the schema:
   * the positional bindings, overlaid by the keyword arguments, completed by
   * the declared defaults.
   */
  function Bind(params: seq<Param>, args: seq<Value>, kwargs: map<string, Value>): map<string, Value>
  {
    FillDefaults(Zip(PositionalNames(params), args) + kwargs, params)
  }

  /** Parameter names are pairwise distinct, as in every Python signature. */
  predicate DistinctNames(params: seq<Param>)
  {
    forall i, j :: 0 <= i < j < |params| ==> params[i].name != params[j].name
  }

  /**
   * The binding part of `custom_init`: `dict(zip(...))`, then
   * `full_kwargs.update(kwargs)`, then the loop that inserts defaults.
   */
  method BindArguments(params: seq<Param>, args: seq<Value>, kwargs: map<string, Value>)
    returns (fullKwargs: map<string, Value>)
    ensures fullKwargs == Bind(params, args, kwargs)
  {
    fullKwargs := Zip(PositionalNames(params), args);
    fullKwargs := fullKwargs + kwargs;
    for i := 0 to |params|
      invariant FillDefaults(fullKwargs, params[i..]) == Bind(params, args, kwargs)
    {
      assert params[i..][1..] == params[i + 1..];
      var p := params[i];
      if p.name != SELF && p.name !in fullKwargs && p.default.Some? {
        fullKwargs := fullKwargs[p.name := p.default.value];
      }
    }
  }

  /**
   * Calling the installed `custom_init` with `args` and `kwargs`: the
   * keyword arguments the original constructor receives, which are exactly
   * the schema's validated dictionary; the schema's error is passed through
   * as it is. Since `custom_init` takes the instance as its own parameter
   * `self`, Python rejects a keyword argument of that name before the body
   * runs.
   */
  method CallCustomInit(originalInit: Attr, schema: Schema, args: seq<Value>, kwargs: map<string, Value>)
    returns (r: Result<map<string, Value>, ValidationError>)
    ensures SELF in kwargs ==> r == Err(SelfGivenTwice)
    ensures SELF !in kwargs && !originalInit.Function? ==> r == Err(NoSignature)
    ensures SELF !in kwargs && originalInit.Function? ==>
      var validated := schema(Bind(originalInit.params, args, kwargs));
      && (validated.Ok? ==> r == Ok(validated.value))
      && (validated.Err? ==> r == Err(SchemaRejected(validated.error)))
  {
    if SELF in kwargs {
      return Err(SelfGivenTwice);
    }
    if !originalInit.Function? {
      return Err(NoSignature);
    }
    var fullKwargs := BindArguments(originalInit.params, args, kwargs);
    var config := schema(fullKwargs);
    if config.Err? {
      return Err(SchemaRejected(config.error));
    }
    r := Ok(config.value);
  }

  /** With distinct names, the i-th name is paired with the i-th argument. */
  lemma {:induction false} ZipPairs(names: seq<string>, args: seq<Value>, i: nat)
    requires forall a, b :: 0 <= a < b < |names| ==> names[a] != names[b]
    requires i < |names| && i < |args|
    ensures Zip(names, args)[names[i]] == args[i]
  {
    if i > 0 {
      ZipPairs(names[1..], args[1..], i - 1);
    }
  }

  /** Filling defaults keeps every existing entry and adds exactly the default-carrying names. */
  lemma {:induction false} FillKeeps(m: map<string, Value>, params: seq<Param>)
    ensures FillDefaults(m, params).Keys == m.Keys + DefaultNames(params)
    ensures forall k :: k in m ==> FillDefaults(m, params)[k] == m[k]
    decreases |params|
  {
    if params != [] {
      FillKeeps(FillOne(m, params[0]), params[1..]);
      DefaultNamesTail(params);
    }
  }

  /** The default-carrying names of a parameter list: its first parameter's, if any, and the rest's. */
  lemma DefaultNamesTail(params: seq<Param>)
    requires params != []
    ensures DefaultNames(params) ==
      (if params[0].name != SELF && params[0].default.Some? then {params[0].name} else {})
      + DefaultNames(params[1..])
  {
  }

  /** An absent parameter not named `self` that declares a default receives it. */
  lemma {:induction false} FillGivesDefault(m: map<string, Value>, params: seq<Param>, j: nat)
    requires DistinctNames(params) && j < |params|
    requires params[j].name != SELF && params[j].name !in m && params[j].default.Some?
    ensures params[j].name in FillDefaults(m, params)
    ensures FillDefaults(m, params)[params[j].name] == params[j].default.value
    decreases |params|
  {
    var m' := FillOne(m, params[0]);
    if j == 0 {
      FillKeeps(m', params[1..]);
    } else {
      assert params[1..][j - 1] == params[j];
      FillGivesDefault(m', params[1..], j - 1);
    }
  }

  /** Once every default-carrying name is bound, the defaults loop changes nothing. */
  lemma {:induction false} FillSettled(m: map<string, Value>, params: seq<Param>)
    requires DefaultNames(params) <= m.Keys
    ensures FillDefaults(m, params) == m
    decreases |params|
  {
    if params != [] {
      DefaultNamesTail(params);
      FillSettled(m, params[1..]);
    }
  }

  /** Bound parameters are never overwritten by defaults, so filling twice is filling once. */
  lemma FillIdempotent(m: map<string, Value>, params: seq<Param>)
    ensures FillDefaults(FillDefaults(m, params), params) == FillDefaults(m, params)
  {
    FillKeeps(m, params);
    FillSettled(FillDefaults(m, params), params);
  }

  /**
   * The bound names are exactly the positionally bound ones, the keyword
   * ones and the default-carrying ones: a parameter with no argument and no
   * default stays absent.
   */
  lemma BindKeys(params: seq<Param>, args: seq<Value>, kwargs: map<string, Value>)
    ensures Bind(params, args, kwargs).Keys ==
      (set i | 1 <= i < |params| && i <= |args| :: params[i].name) + kwargs.Keys + DefaultNames(params)
  {
    var names := PositionalNames(params);
    FillKeeps(Zip(names, args) + kwargs, params);
    var zipped := set i | 0 <= i < |names| && i < |args| :: names[i];
    var declared := set i | 1 <= i < |params| && i <= |args| :: params[i].name;
    forall x | x in zipped ensures x in declared {
      var i :| 0 <= i < |names| && i < |args| && names[i] == x;
      assert params[i + 1].name == x;
    }
    forall x | x in declared ensures x in zipped {
      var i :| 1 <= i < |params| && i <= |args| && params[i].name == x;
      assert names[i - 1] == x;
    }
  }

  /** A keyword argument is bound as given, overriding a positional argument for the same name. */
  lemma BindKeyword(params: seq<Param>, args: seq<Value>, kwargs: map<string, Value>, k: string)
    requires k in kwargs
    ensures k in Bind(params, args, kwargs) && Bind(params, args, kwargs)[k] == kwargs[k]
  {
    FillKeeps(Zip(PositionalNames(params), args) + kwargs, params);
  }

  /** The i-th positional argument binds the parameter after the first i + 1, unless a keyword names it. */
  lemma BindPositional(params: seq<Param>, args: seq<Value>, kwargs: map<string, Value>, i: nat)
    requires DistinctNames(params)
    requires i + 1 < |params| && i < |args| && params[i + 1].name !in kwargs
    ensures params[i + 1].name in Bind(params, args, kwargs)
    ensures Bind(params, args, kwargs)[params[i + 1].name] == args[i]
  {
    var names := PositionalNames(params);
    ZipPairs(names, args, i);
    FillKeeps(Zip(names, args) + kwargs, params);
  }

  /**
   * A parameter not named `self`, given neither positionally nor by keyword,
   * receives its declared default.
   */
  lemma BindDefault(params: seq<Param>, args: seq<Value>, kwargs: map<string, Value>, j: nat)
    requires DistinctNames(params) && j < |params|
    requires params[j].name != SELF && params[j].default.Some?
    requires params[j].name !in kwargs && (j == 0 || j > |args|)
    ensures params[j].name in Bind(params, args, kwargs)
    ensures Bind(params, args, kwargs)[params[j].name] == params[j].default.value
  {
    var names := PositionalNames(params);
    FillGivesDefault(Zip(names, args) + kwargs, params, j);
    FillKeeps(Zip(names, args) + kwargs, params);
  }

  /** `Cls(5)` against `(self, a, b=10)` binds `{a: 5, b: 10}`. */
  lemma PositionalThenDefault()
    ensures Bind([Param("self", None), Param("a", None), Param("b", Some(Int(10)))], [Int(5)], map[])
      == map["a" := Int(5), "b" := Int(10)]
  {
  }

  /** `Cls(1, 2, 3)` against `(self, a, b=10)`: `zip` drops the surplus `3` instead of failing. */
  lemma SurplusPositionalDropped()
    ensures Bind([Param("self", None), Param("a", None), Param("b", Some(Int(10)))], [Int(1), Int(2), Int(3)], map[])
      == map["a" := Int(1), "b" := Int(2)]
  {
  }
}
