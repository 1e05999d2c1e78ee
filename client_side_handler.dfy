/**
 * A client-side filter handler: maps (preset, property) pairs to a local
 * filter function, validates the keyword arguments meant for that function
 * against its parameter list, and wraps it into a predicate on records.
 */
module ClientSideHandler {
  import opened Wrappers
  import opened Values
  import opened QueryErrors
  import opened ServerProperties

  /** A query preset (a member of the presets enum), known by its name. */
  datatype Preset = Preset(name: string)

  /** `inspect.Parameter.kind`. */
  datatype ParamKind = PositionalOnly | PositionalOrKeyword | VarPositional | KeywordOnly | VarKeyword

  /** `inspect.Parameter.annotation`: none, `typing.Any`, or a class. */
  datatype Annotation = Unannotated | AnyAnnotation | Annotated(tag: TypeTag)

  /** One entry of a filter function's signature. */
  datatype Param = Param(name: string, kind: ParamKind, hasDefault: bool, annotation: Annotation)

  /** The keyword arguments a caller supplies for a filter function. */
  type Kwargs = map<string, Value>

  /**
   * A raw filter function: its declared parameters (the first one receives
   * the property value) and what it answers when called with a property
   * value and keyword arguments.
   */
  datatype FilterFunc = FilterFunc(params: seq<Param>, run: (Value, Kwargs) -> bool)

  /** An entry of a preset's property list: a property, or the "*" marker. */
  datatype PropEntry = Prop(prop: ServerProperty) | Wildcard

  /** The predicate `get_filter_func` returns. */
  datatype ClientFilter = ClientFilter(filter: FilterFunc, accessor: Accessor, kwargs: Kwargs) {

    /**
     * `_filter_func_wrapper(record, ...)`: the filter's answer on the property
     * value, or what reading the property raised. The wrapper catches only
     * AttributeError, which becomes False without calling the filter; a
     * KeyError or TypeError from a subscript escapes the predicate.
     */
    function Apply(rec: Record): (r: Result<bool, ReadError>)
      ensures accessor.Read(rec).Failure? && accessor.Read(rec).error.MissingAttribute? ==> r == Success(false)
      ensures accessor.Read(rec).Failure? && !accessor.Read(rec).error.MissingAttribute? ==>
                r == Failure(accessor.Read(rec).error)
      ensures accessor.Read(rec).Success? ==> r == Success(filter.run(accessor.Read(rec).value, kwargs))
    {
      match accessor.Read(rec)
      case Failure(e) => if e.MissingAttribute? then Success(false) else Failure(e)
      case Success(v) =>
        if |kwargs| > 0 then Success(filter.run(v, kwargs))
        else assert kwargs == map[]; Success(filter.run(v, map[]))
    }
  }

  /** A property function `lambda a: a.name` on a record without that attribute: False, whatever the filter. */
  lemma MissingAttributeRejects(f: ClientFilter)
    requires f.accessor == Path([Attribute("name")])
    ensures f.Apply(VDict(map[])) == Success(false)
  {
  }

  /** A server without a name makes the SERVER_NAME predicate raise KeyError('name'), whatever the filter. */
  lemma NamelessServerRaises(f: ClientFilter)
    requires f.accessor == GetPropFunc(ServerName)
    ensures f.Apply(VDict(map[])) == Failure(MissingKey("name"))
  {
    ServerNameRead(map[]);
  }

  // ---------------------------------------------------------------------
  // Keyword-argument validation (`_check_filter_func`)
  // ---------------------------------------------------------------------

  /** The parameters that are checked: all but the first. */
  function CheckedParams(params: seq<Param>): seq<Param> {
    if |params| == 0 then [] else params[1..]
  }

  predicate HasKind(ps: seq<Param>, k: ParamKind) {
    exists i :: 0 <= i < |ps| && ps[i].kind == k
  }

  function ParamNames(ps: seq<Param>): set<string> {
    set i | 0 <= i < |ps| :: ps[i].name
  }

  /** The annotation accepts the value: it is absent, `Any`, or a class the value is an instance of. */
  predicate AnnotationAdmits(a: Annotation, v: Value) {
    !a.Annotated? || IsInstance(v, a.tag)
  }

  /** What the loop finds wrong with one parameter (only positional-or-keyword ones are looked at). */
  function ParamError(p: Param, kw: Kwargs): Option<Reason> {
    if p.kind != PositionalOrKeyword then None
    else if p.name in kw then
      if p.annotation.Annotated? && !IsInstance(kw[p.name], p.annotation.tag)
      then Some(IncorrectType(p.name, p.annotation.tag, TypeOf(kw[p.name])))
      else None
    else if !p.hasDefault then Some(NotGiven(p.name))
    else None
  }

  /** The problem with the first faulty parameter, in declaration order. */
  function FirstParamError(ps: seq<Param>, kw: Kwargs): Option<Reason> {
    if |ps| == 0 then None
    else if ParamError(ps[0], kw).Some? then ParamError(ps[0], kw)
    else FirstParamError(ps[1..], kw)
  }

  /** The verdict of `_check_filter_func(func, kwargs)`. */
  function Validate(params: seq<Param>, kw: Kwargs): Outcome<Reason> {
    var ps := CheckedParams(params);
    match FirstParamError(ps, kw)
    case Some(reason) => Fail(reason)
    case None =>
      if !HasKind(ps, VarPositional) && !HasKind(ps, VarKeyword) && kw.Keys - ParamNames(ps) != {}
      then Fail(UnexpectedArguments(kw.Keys - ParamNames(ps)))
      else Pass
  }

  /** `_check_filter_func`: walks the parameters, then looks for unexpected keys. */
  method CheckFilterFunc(func: FilterFunc, kw: Kwargs) returns (r: Outcome<Reason>)
    ensures r == Validate(func.params, kw)
  {
    var ps := CheckedParams(func.params);
    var hasVarargs := HasKind(ps, VarPositional);
    var hasVarkwargs := HasKind(ps, VarKeyword);
    var i := 0;
    while i < |ps|
      invariant 0 <= i <= |ps|
      invariant FirstParamError(ps, kw) == FirstParamError(ps[i..], kw)
    {
      var p := ps[i];
      assert ps[i..][0] == p && ps[i..][1..] == ps[i + 1..];
      if p.kind == PositionalOrKeyword {
        if p.name in kw {
          var value := kw[p.name];
          if p.annotation.Annotated? && !IsInstance(value, p.annotation.tag) {
            return Fail(IncorrectType(p.name, p.annotation.tag, TypeOf(value)));
          }
        } else if !p.hasDefault {
          return Fail(NotGiven(p.name));
        }
      }
      i := i + 1;
    }
    if !hasVarargs && !hasVarkwargs {
      var unexpected := kw.Keys - ParamNames(ps);
      if unexpected != {} {
        return Fail(UnexpectedArguments(unexpected));
      }
    }
    return Pass;
  }

  /** The reported problem is that of the first faulty parameter; none is reported iff none is faulty. */
  lemma {:induction false} FirstParamErrorIsFirst(ps: seq<Param>, kw: Kwargs)
    ensures FirstParamError(ps, kw).None? <==> forall i :: 0 <= i < |ps| ==> ParamError(ps[i], kw).None?
    ensures FirstParamError(ps, kw).Some? ==>
              exists i :: 0 <= i < |ps| && ParamError(ps[i], kw) == FirstParamError(ps, kw) &&
                forall j :: 0 <= j < i ==> ParamError(ps[j], kw).None?
  {
    if |ps| > 0 {
      FirstParamErrorIsFirst(ps[1..], kw);
      if ParamError(ps[0], kw).None? {
        if FirstParamError(ps, kw).Some? {
          var i :| 0 <= i < |ps[1..]| && ParamError(ps[1..][i], kw) == FirstParamError(ps[1..], kw) &&
                   forall j :: 0 <= j < i ==> ParamError(ps[1..][j], kw).None?;
          assert ParamError(ps[i + 1], kw) == FirstParamError(ps, kw);
          forall j | 0 <= j < i + 1 ensures ParamError(ps[j], kw).None? {
            if j > 0 {
              assert ps[j] == ps[1..][j - 1];
            }
          }
        } else {
          forall i | 0 <= i < |ps| ensures ParamError(ps[i], kw).None? {
            if i > 0 {
              assert ps[i] == ps[1..][i - 1];
            }
          }
        }
      }
    }
  }

  /** Declarative reading of validation: when a set of kwargs is accepted. */
  ghost predicate Acceptable(params: seq<Param>, kw: Kwargs) {
    var ps := CheckedParams(params);
    && (forall i :: 0 <= i < |ps| && ps[i].kind == PositionalOrKeyword ==>
          (ps[i].name in kw ==> AnnotationAdmits(ps[i].annotation, kw[ps[i].name])) &&
          (ps[i].name !in kw ==> ps[i].hasDefault))
    && (HasKind(ps, VarPositional) || HasKind(ps, VarKeyword) || kw.Keys <= ParamNames(ps))
  }

  lemma ValidateAcceptsIff(params: seq<Param>, kw: Kwargs)
    ensures Validate(params, kw) == Pass <==> Acceptable(params, kw)
  {
    var ps := CheckedParams(params);
    FirstParamErrorIsFirst(ps, kw);
    if FirstParamError(ps, kw).Some? {
      var i :| 0 <= i < |ps| && ParamError(ps[i], kw) == FirstParamError(ps, kw);
      assert ps[i].kind == PositionalOrKeyword;
      assert !Acceptable(params, kw);
    } else {
      forall i | 0 <= i < |ps| && ps[i].kind == PositionalOrKeyword
        ensures (ps[i].name in kw ==> AnnotationAdmits(ps[i].annotation, kw[ps[i].name]))
        ensures (ps[i].name !in kw ==> ps[i].hasDefault)
      {
        assert ParamError(ps[i], kw).None?;
      }
      if kw.Keys <= ParamNames(ps) {
        assert kw.Keys - ParamNames(ps) == {};
      } else {
        var k :| k in kw.Keys && k !in ParamNames(ps);
        assert k in kw.Keys - ParamNames(ps);
      }
    }
  }

  /** A missing-argument failure names a required positional-or-keyword parameter that was not given. */
  lemma NotGivenMeansRequiredAndAbsent(params: seq<Param>, kw: Kwargs, name: string)
    requires Validate(params, kw) == Fail(NotGiven(name))
    ensures exists i :: 1 <= i < |params| && params[i].name == name &&
              params[i].kind == PositionalOrKeyword && !params[i].hasDefault && name !in kw
  {
    var ps := CheckedParams(params);
    FirstParamErrorIsFirst(ps, kw);
    var i :| 0 <= i < |ps| && ParamError(ps[i], kw) == Some(NotGiven(name));
    assert params[i + 1] == ps[i];
  }

  /** A type failure names a supplied argument whose parameter has a class annotation it fails. */
  lemma IncorrectTypeMeansAnnotatedMismatch(params: seq<Param>, kw: Kwargs, name: string, expected: TypeTag, found: TypeTag)
    requires Validate(params, kw) == Fail(IncorrectType(name, expected, found))
    ensures name in kw && found == TypeOf(kw[name]) && !IsInstance(kw[name], expected)
    ensures exists i :: 1 <= i < |params| && params[i].name == name &&
              params[i].kind == PositionalOrKeyword && params[i].annotation == Annotated(expected)
  {
    var ps := CheckedParams(params);
    FirstParamErrorIsFirst(ps, kw);
    var i :| 0 <= i < |ps| && ParamError(ps[i], kw) == Some(IncorrectType(name, expected, found));
    assert params[i + 1] == ps[i];
  }

  /** Extra keys are rejected only when there is neither `*args` nor `**kwargs`. */
  lemma UnexpectedOnlyWithoutVarArgs(params: seq<Param>, kw: Kwargs, names: set<string>)
    requires Validate(params, kw) == Fail(UnexpectedArguments(names))
    ensures !HasKind(CheckedParams(params), VarPositional) && !HasKind(CheckedParams(params), VarKeyword)
    ensures names == kw.Keys - ParamNames(CheckedParams(params)) && names != {}
  {
    var ps := CheckedParams(params);
    FirstParamErrorIsFirst(ps, kw);
  }

  /** `int` accepts a bool argument, because `bool` is a subclass of `int`. */
  lemma BoolPassesIntAnnotation(p0: Param, name: string, b: bool)
    ensures Validate([p0, Param(name, PositionalOrKeyword, false, Annotated(IntType))], map[name := VBool(b)]) == Pass
  {
    var q := Param(name, PositionalOrKeyword, false, Annotated(IntType));
    var kw := map[name := VBool(b)];
    assert CheckedParams([p0, q]) == [q];
    assert FirstParamError([q], kw) == None by {
      assert [q][1..] == [];
    }
    assert ParamNames([q]) == {name} by {
      assert [q][0].name == name;
    }
  }

  /** A keyword-only parameter without a default is never reported as missing. */
  lemma KeywordOnlyNotChecked(p0: Param, name: string)
    ensures Validate([p0, Param(name, KeywordOnly, false, Unannotated)], map[]) == Pass
  {
    var q := Param(name, KeywordOnly, false, Unannotated);
    assert CheckedParams([p0, q]) == [q];
    assert FirstParamError([q], map[]) == None by {
      assert [q][1..] == [];
    }
  }

  // ---------------------------------------------------------------------
  // The handler
  // ---------------------------------------------------------------------

  /**
   * A handler: the property list of each preset it maps (fixed at
   * construction) and its table of raw filter functions, keyed by preset.
   */
  datatype Handler = Handler(mappings: map<Preset, seq<PropEntry>>, filterFunctions: map<Preset, FilterFunc>) {

    /** `preset_known`. */
    predicate PresetKnown(preset: Preset) {
      preset in mappings
    }

    /** `check_supported`: the property is listed, or the list is exactly ["*"]. */
    predicate CheckSupported(preset: Preset, prop: ServerProperty)
      ensures CheckSupported(preset, prop) <==>
                PresetKnown(preset) && (Prop(prop) in mappings[preset] || mappings[preset] == [Wildcard])
    {
      if !PresetKnown(preset) then false
      else if Prop(prop) in mappings[preset] then true
      else mappings[preset] == [Wildcard]
    }

    /** The filter function `get_filter_func` finds: looked up by preset alone, once the pair is supported. */
    function LookupFilter(preset: Preset, prop: ServerProperty): Option<FilterFunc> {
      if CheckSupported(preset, prop) && preset in filterFunctions then Some(filterFunctions[preset]) else None
    }

    /** What `get_filter_func(preset, prop, prop_func, kwargs)` returns or raises. */
    function FilterFor(preset: Preset, prop: ServerProperty, acc: Accessor, kw: Kwargs): Result<ClientFilter, QueryError> {
      match LookupFilter(preset, prop)
      case None => Failure(QueryPresetMappingError(NoFilterFunction(preset.name, prop.Name())))
      case Some(f) =>
        match Validate(f.params, kw)
        case Fail(reason) => Failure(QueryPresetMappingError(InvalidArguments(preset.name, prop.Name(), reason)))
        case Pass => Success(ClientFilter(f, acc, kw))
    }

    /** `get_filter_func`. */
    method GetFilterFunc(preset: Preset, prop: ServerProperty, acc: Accessor, kw: Kwargs) returns (r: Result<ClientFilter, QueryError>)
      ensures r == FilterFor(preset, prop, acc, kw)
    {
      var filterFunc: Option<FilterFunc> := None;
      if CheckSupported(preset, prop) {
        filterFunc := if preset in filterFunctions then Some(filterFunctions[preset]) else None;
      }
      if filterFunc.None? {
        return Failure(QueryPresetMappingError(NoFilterFunction(preset.name, prop.Name())));
      }
      var valid := CheckFilterFunc(filterFunc.value, kw);
      if valid.Fail? {
        return Failure(QueryPresetMappingError(InvalidArguments(preset.name, prop.Name(), valid.error)));
      }
      return Success(ClientFilter(filterFunc.value, acc, kw));
    }
  }

  /** An unknown preset is never supported, and asking for its filter raises. */
  lemma UnknownPresetUnsupported(h: Handler, preset: Preset, prop: ServerProperty, acc: Accessor, kw: Kwargs)
    requires !h.PresetKnown(preset)
    ensures !h.CheckSupported(preset, prop)
    ensures h.FilterFor(preset, prop, acc, kw) == Failure(QueryPresetMappingError(NoFilterFunction(preset.name, prop.Name())))
  {
  }

  /** The "*" marker means every property only when it is the whole list. */
  lemma WildcardOnlyAlone(h: Handler, preset: Preset, prop: ServerProperty)
    requires h.PresetKnown(preset) && Wildcard in h.mappings[preset]
    ensures h.mappings[preset] == [Wildcard] ==> h.CheckSupported(preset, prop)
    ensures h.mappings[preset] != [Wildcard] ==> (h.CheckSupported(preset, prop) <==> Prop(prop) in h.mappings[preset])
  {
  }

  /** `get_filter_func` succeeds exactly for a supported pair with a registered function and acceptable kwargs. */
  lemma FilterForOutcomes(h: Handler, preset: Preset, prop: ServerProperty, acc: Accessor, kw: Kwargs)
    ensures !h.CheckSupported(preset, prop) || preset !in h.filterFunctions ==>
              h.FilterFor(preset, prop, acc, kw) == Failure(QueryPresetMappingError(NoFilterFunction(preset.name, prop.Name())))
    ensures h.CheckSupported(preset, prop) && preset in h.filterFunctions ==>
              var f := h.filterFunctions[preset];
              (h.FilterFor(preset, prop, acc, kw).Success? <==> Acceptable(f.params, kw)) &&
              (Validate(f.params, kw).Fail? ==>
                 h.FilterFor(preset, prop, acc, kw) ==
                 Failure(QueryPresetMappingError(InvalidArguments(preset.name, prop.Name(), Validate(f.params, kw).error))))
    ensures h.FilterFor(preset, prop, acc, kw).Success? ==>
              h.FilterFor(preset, prop, acc, kw).value == ClientFilter(h.filterFunctions[preset], acc, kw)
  {
    if h.CheckSupported(preset, prop) && preset in h.filterFunctions {
      ValidateAcceptsIff(h.filterFunctions[preset].params, kw);
    }
  }

  /** The raw function depends on the preset only: two supported properties get the same one. */
  lemma FilterKeyedOnPresetOnly(h: Handler, preset: Preset, p: ServerProperty, q: ServerProperty, acc: Accessor, kw: Kwargs)
    requires h.FilterFor(preset, p, acc, kw).Success? && h.CheckSupported(preset, q)
    ensures h.FilterFor(preset, q, acc, kw).Success?
    ensures h.FilterFor(preset, p, acc, kw).value.filter == h.FilterFor(preset, q, acc, kw).value.filter
  {
  }

  /**
   * Every predicate the handler builds reads the property it was given: an
   * AttributeError rejects the record, any other read error is passed on.
   */
  lemma BuiltFilterPropagatesReadErrors(h: Handler, preset: Preset, prop: ServerProperty, acc: Accessor, kw: Kwargs, rec: Record)
    requires h.FilterFor(preset, prop, acc, kw).Success?
    requires acc.Read(rec).Failure?
    ensures acc.Read(rec).error.MissingAttribute? ==> h.FilterFor(preset, prop, acc, kw).value.Apply(rec) == Success(false)
    ensures !acc.Read(rec).error.MissingAttribute? ==>
              h.FilterFor(preset, prop, acc, kw).value.Apply(rec) == Failure(acc.Read(rec).error)
  {
  }

  /** With a server property's accessor the AttributeError branch is never taken: every read error escapes. */
  lemma ServerReadErrorsEscape(f: ClientFilter, p: ServerProperty, rec: Record)
    requires f.accessor == GetPropFunc(p)
    requires f.accessor.Read(rec).Failure?
    ensures f.Apply(rec) == Failure(f.accessor.Read(rec).error)
  {
    assert !f.accessor.Read(rec).error.MissingAttribute?;
  }
}
