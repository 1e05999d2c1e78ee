/**
 * The query builder: turns one `where(preset, prop, kwargs)` request into a
 * client-side predicate and server-side filter parameters, and refuses a
 * second request on the same builder.
 */
module QueryBuilder {
  import opened Wrappers
  import opened Values
  import opened QueryErrors
  import opened ServerProperties
  import opened ClientSideHandler

  /** The prop handler's `get_prop_func`: a property's accessor, if the handler has one. */
  type PropFuncLookup = ServerProperty -> Option<Accessor>

  /** Parameters for the remote listing call (possibly empty). */
  type ServerFilters = map<string, Value>

  /** The server-side handler's `get_filters(preset, prop, params)`. */
  type ServerSideFilterFn = (Preset, ServerProperty, Kwargs) -> ServerFilters

  predicate AnyKnows(hs: seq<Handler>, preset: Preset) {
    exists i :: 0 <= i < |hs| && hs[i].PresetKnown(preset)
  }

  /** The position of the first handler supporting the pair. */
  function FirstSupporting(hs: seq<Handler>, preset: Preset, prop: ServerProperty): (r: Option<nat>)
    ensures r.Some? ==> r.value < |hs| && hs[r.value].CheckSupported(preset, prop)
    ensures r.Some? ==> forall j :: 0 <= j < r.value ==> !hs[j].CheckSupported(preset, prop)
    ensures r.None? ==> forall j :: 0 <= j < |hs| ==> !hs[j].CheckSupported(preset, prop)
  {
    if |hs| == 0 then None
    else if hs[0].CheckSupported(preset, prop) then Some(0)
    else
      match FirstSupporting(hs[1..], preset, prop)
      case None => None
      case Some(i) => Some(i + 1)
  }

  /** What `_get_preset_handler(preset, prop)` returns or raises. */
  function SelectHandler(hs: seq<Handler>, preset: Preset, prop: ServerProperty): Result<Handler, QueryError> {
    if !AnyKnows(hs, preset) then
      Failure(QueryPresetMappingError(NoHandlerKnowsPreset(preset.name, prop.Name())))
    else
      match FirstSupporting(hs, preset, prop)
      case Some(i) => Success(hs[i])
      case None => Failure(QueryPresetMappingError(NoHandlerSupportsPair(preset.name)))
  }

  /** The client-side part of `parse_where` after the chaining check: accessor, handler, predicate. */
  function Resolve(hs: seq<Handler>, propFuncs: PropFuncLookup, preset: Preset, prop: ServerProperty, kw: Kwargs): Result<ClientFilter, QueryError> {
    match propFuncs(prop)
    case None => Failure(QueryPropertyMappingError(NoPropFunc(prop.Name())))
    case Some(acc) =>
      match SelectHandler(hs, preset, prop)
      case Failure(e) => Failure(e)
      case Success(h) => h.FilterFor(preset, prop, acc, kw)
  }

  /** Selection: the two distinct errors, and first match in list order otherwise. */
  lemma SelectHandlerOutcomes(hs: seq<Handler>, preset: Preset, prop: ServerProperty)
    ensures SelectHandler(hs, preset, prop) == Failure(QueryPresetMappingError(NoHandlerKnowsPreset(preset.name, prop.Name())))
            <==> forall i :: 0 <= i < |hs| ==> !hs[i].PresetKnown(preset)
    ensures SelectHandler(hs, preset, prop) == Failure(QueryPresetMappingError(NoHandlerSupportsPair(preset.name)))
            <==> AnyKnows(hs, preset) && forall i :: 0 <= i < |hs| ==> !hs[i].CheckSupported(preset, prop)
    ensures SelectHandler(hs, preset, prop).Success? <==> exists i :: 0 <= i < |hs| && hs[i].CheckSupported(preset, prop)
    ensures SelectHandler(hs, preset, prop).Success? ==>
              exists i :: 0 <= i < |hs| && hs[i] == SelectHandler(hs, preset, prop).value &&
                hs[i].CheckSupported(preset, prop) && forall j :: 0 <= j < i ==> !hs[j].CheckSupported(preset, prop)
  {
    var r := FirstSupporting(hs, preset, prop);
    if r.Some? {
      assert hs[r.value].PresetKnown(preset);
    }
  }

  /** List order is the tie-break: a supporting handler placed first is the one chosen. */
  lemma FirstInListWins(h1: Handler, h2: Handler, rest: seq<Handler>, preset: Preset, prop: ServerProperty)
    requires h1.CheckSupported(preset, prop) && h2.CheckSupported(preset, prop)
    ensures SelectHandler([h1, h2] + rest, preset, prop) == Success(h1)
    ensures SelectHandler([h2, h1] + rest, preset, prop) == Success(h2)
  {
    assert ([h1, h2] + rest)[0] == h1;
    assert ([h2, h1] + rest)[0] == h2;
  }

  /** A missing accessor is reported before any handler is consulted. */
  lemma MissingAccessorFirst(hs: seq<Handler>, hs': seq<Handler>, propFuncs: PropFuncLookup, preset: Preset, prop: ServerProperty, kw: Kwargs)
    requires propFuncs(prop).None?
    ensures Resolve(hs, propFuncs, preset, prop, kw) == Failure(QueryPropertyMappingError(NoPropFunc(prop.Name())))
    ensures Resolve(hs, propFuncs, preset, prop, kw) == Resolve(hs', propFuncs, preset, prop, kw)
  {
  }

  /** On success the predicate is the first supporting handler's, built from the property's accessor. */
  lemma ResolvedFilterComesFromFirstSupporting(hs: seq<Handler>, propFuncs: PropFuncLookup, preset: Preset, prop: ServerProperty, kw: Kwargs)
    requires Resolve(hs, propFuncs, preset, prop, kw).Success?
    ensures propFuncs(prop).Some?
    ensures exists i :: 0 <= i < |hs| && hs[i].CheckSupported(preset, prop) &&
              (forall j :: 0 <= j < i ==> !hs[j].CheckSupported(preset, prop)) &&
              Resolve(hs, propFuncs, preset, prop, kw) == hs[i].FilterFor(preset, prop, propFuncs(prop).value, kw) &&
              Resolve(hs, propFuncs, preset, prop, kw).value == ClientFilter(hs[i].filterFunctions[preset], propFuncs(prop).value, kw)
  {
    SelectHandlerOutcomes(hs, preset, prop);
    var h := SelectHandler(hs, preset, prop).value;
    var i :| 0 <= i < |hs| && hs[i] == h && hs[i].CheckSupported(preset, prop) &&
             forall j :: 0 <= j < i ==> !hs[j].CheckSupported(preset, prop);
    FilterForOutcomes(h, preset, prop, propFuncs(prop).value, kw);
  }

  class QueryBuilder {
    const propFuncs: PropFuncLookup
    const clientSideHandlers: seq<Handler>
    const serverSideHandler: Option<ServerSideFilterFn>

    /** The `client_side_filter` property. */
    var clientSideFilter: Option<ClientFilter>
    /** The `server_side_filters` property. */
    var serverSideFilters: Option<ServerFilters>

    /** Server-side filters are only ever set after the client-side filter. */
    ghost predicate Valid()
      reads this
    {
      serverSideFilters.Some? ==> clientSideFilter.Some?
    }

    constructor (propHandler: PropFuncLookup, handlers: seq<Handler>, serverSide: Option<ServerSideFilterFn>)
      ensures Valid()
      ensures propFuncs == propHandler && clientSideHandlers == handlers && serverSideHandler == serverSide
      ensures clientSideFilter == None && serverSideFilters == None
    {
      propFuncs := propHandler;
      clientSideHandlers := handlers;
      serverSideHandler := serverSide;
      clientSideFilter := None;
      serverSideFilters := None;
    }

    /** `_get_preset_handler`: the first handler, in list order, that supports the pair. */
    method GetPresetHandler(preset: Preset, prop: ServerProperty) returns (r: Result<Handler, QueryError>)
      ensures r == SelectHandler(clientSideHandlers, preset, prop)
    {
      var hs := clientSideHandlers;
      if !AnyKnows(hs, preset) {
        return Failure(QueryPresetMappingError(NoHandlerKnowsPreset(preset.name, prop.Name())));
      }
      var i := 0;
      while i < |hs|
        invariant 0 <= i <= |hs|
        invariant forall j :: 0 <= j < i ==> !hs[j].CheckSupported(preset, prop)
      {
        if hs[i].CheckSupported(preset, prop) {
          return Success(hs[i]);
        }
        i := i + 1;
      }
      return Failure(QueryPresetMappingError(NoHandlerSupportsPair(preset.name)));
    }

    /** `parse_where(preset, prop, kwargs)`. */
    method ParseWhere(preset: Preset, prop: ServerProperty, kw: Kwargs) returns (r: Outcome<QueryError>)
      requires Valid()
      modifies this
      ensures Valid()
      ensures old(clientSideFilter).Some? ==>
                r == Fail(ParseQueryError(AlreadySetMessage)) &&
                clientSideFilter == old(clientSideFilter) && serverSideFilters == old(serverSideFilters)
      ensures old(clientSideFilter).None? && Resolve(clientSideHandlers, propFuncs, preset, prop, kw).Failure? ==>
                r == Fail(Resolve(clientSideHandlers, propFuncs, preset, prop, kw).error) &&
                clientSideFilter == None && serverSideFilters == None
      ensures old(clientSideFilter).None? && Resolve(clientSideHandlers, propFuncs, preset, prop, kw).Success? ==>
                clientSideFilter == Some(Resolve(clientSideHandlers, propFuncs, preset, prop, kw).value) &&
                (serverSideHandler.Some? ==>
                   r == Pass && serverSideFilters == Some(serverSideHandler.value(preset, prop, kw))) &&
                (serverSideHandler.None? ==>
                   r == Fail(AttributeError("get_filters")) && serverSideFilters == None)
    {
      if clientSideFilter.Some? {
        return Fail(ParseQueryError(AlreadySetMessage));
      }
      var propFunc := propFuncs(prop);
      if propFunc.None? {
        return Fail(QueryPropertyMappingError(NoPropFunc(prop.Name())));
      }
      var handler := GetPresetHandler(preset, prop);
      if handler.Failure? {
        return Fail(handler.error);
      }
      var filter := handler.value.GetFilterFunc(preset, prop, propFunc.value, kw);
      if filter.Failure? {
        return Fail(filter.error);
      }
      clientSideFilter := Some(filter.value);
      if serverSideHandler.None? {
        return Fail(AttributeError("get_filters"));
      }
      serverSideFilters := Some(serverSideHandler.value(preset, prop, kw));
      return Pass;
    }
  }

  /**
   * A fresh builder holds no filters; once a request has set the client-side
   * filter, a second request is refused with ParseQueryError.
   */
  method SecondWhereRejected(propHandler: PropFuncLookup, handlers: seq<Handler>, serverSide: Option<ServerSideFilterFn>,
                             preset: Preset, prop: ServerProperty, kw: Kwargs,
                             preset2: Preset, prop2: ServerProperty, kw2: Kwargs)
    returns (startsEmpty: bool, second: Outcome<QueryError>)
    ensures startsEmpty
    ensures Resolve(handlers, propHandler, preset, prop, kw).Success? ==> second == Fail(ParseQueryError(AlreadySetMessage))
    ensures Resolve(handlers, propHandler, preset, prop, kw).Failure? ==>
              (second.Pass? <==> Resolve(handlers, propHandler, preset2, prop2, kw2).Success? && serverSide.Some?)
  {
    var b := new QueryBuilder(propHandler, handlers, serverSide);
    startsEmpty := b.clientSideFilter.None? && b.serverSideFilters.None?;
    var first := b.ParseWhere(preset, prop, kw);
    second := b.ParseWhere(preset2, prop2, kw2);
  }
}
