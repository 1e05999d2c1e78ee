# Local query engine of the OpenStack query library

This project models the part of the query library that runs locally, after
resources have been listed from the cloud. It covers five pieces:

- **Client-side handler.** Maps (preset, property) pairs to filter functions.
  It checks a caller's keyword arguments against the function's signature and
  wraps the function into a predicate on records.
- **Query builder.** Handles `where(preset, prop, **kwargs)`. It picks the
  first handler in its list that supports the pair, builds the client-side
  predicate and asks the server-side handler for remote filter parameters.
  It refuses a second `where` on the same builder.
- **Query parser.** Records the sort specs and the grouping configuration.
  It then sorts the result list in place, one stable pass per spec, last
  spec first. Finally it splits the list into named groups: the explicit
  ranges, the "ungrouped results" group, or one group per distinct value in
  first-seen order.
- **`ServerProperties` enum.** Its `from_string` parser and its accessor
  table.
- **`SortOrder` and `ServerStatus` enums.** Their parsers.

Modules:

- **Shared modules.**
  - `Values`: resource records and property values, Python `==`, `str()` and
    the sort-key order.
  - `OrderedDicts`: insertion-ordered dictionaries with `update`.
  - `Seqs`: filter and order-preserving deduplication.
  - `Text`: `upper()`, `join`, `str(int)`.
  - `QueryErrors`: the exceptions.
- **`ClientSideHandler`**: the handler as a value. Its behaviour is fixed at
  construction.
- **`QueryBuilder`**: a class whose two filter fields `parse_where` updates.
  Handler selection and predicate building are specified by functions.
- **`Sorting`**: the stable sort.
  - It is specified by insertion sort: `SortPass` for one key, `SortAll` for
    a list of keys.
  - It is proved to permute, sort and keep ties in input order.
  - `SortInPlace` and `RunSort` carry it out on an array in place.
- **`QueryParser`**: a class holding the sort specs, the grouped property and
  the group mappings. `run_parser` sorts the caller's array in place.
- **`ServerProperties`, `SortOrders`, `ServerStatuses`**: the enums.

Modelling decisions:

- **Records and accessors.** A resource record is a `Value`, usually a
  dictionary whose fields are also its attributes. A property function such
  as `lambda a: a["k1"]["k2"]` or `lambda a: a.name` is an `Accessor`: the
  path of subscripts and attribute accesses it takes. Reading gives the
  value, or the exception the first failing step raises:
  - KeyError for a dictionary without the key;
  - TypeError for subscripting a value that is not a dictionary (PROJECT_ID
    of a server whose `location["project"]` is None);
  - AttributeError for a missing attribute.
- **What the client-side predicate catches.** `_filter_func_wrapper` catches
  only AttributeError, and answers False for it. A KeyError or TypeError
  propagates out of the predicate, and `ClientFilter.Apply` returns it as a
  failure instead of an answer. The server properties only subscript, so for
  them every read error escapes.
- **Sort order.** The sort key order ranks kinds:
  - None < numbers (bool counts as int) < strings < lists < dicts;
  - numbers compare by value and strings by code point;
  - lists compare lexicographically: the first items that do not tie decide,
    and a proper prefix sorts first;
  - dicts and None tie within their kind.
- **Python equality.** `==` is modelled shallowly: `True == 1` and
  `False == 0`, otherwise structural equality. So items inside lists and
  dicts are not compared the Python way: `[True] == [1]` holds in Python but
  not in the model. This never shows in the core, where such values are
  hashed and raise TypeError (see "Left out").
- **Group names use `str()`.** Two values with the same rendering, such as
  `1` and `'1'`, give the same group name. The later group then replaces the
  earlier one in the dictionary, so the records of the first value are in no
  group. This is modelled as written (`NameCollisionDropsGroup`).
- **Name of the ungrouped group.** The code names the extra group for values
  outside every range "ungrouped results", and so does the model.
- **Missing server-side handler.** The builder's optional server-side handler
  may be absent (None). Then `parse_where` fails with an AttributeError after
  it has already stored the client-side filter, because the source assigns
  that filter first. Any later `where` is then refused.
- **Known presets in `_get_preset_handler`.** A preset some handler knows but
  none supports for the property gives the second error. An unknown preset
  gives the first.

## Model

| member | source | states |
|---|---|---|
| ClientSideHandler.CheckFilterFunc | lib/openstack_query/handlers/client_side_handler.py:150-220 | The loop over the parameters after the first, then the unexpected-key check, returns exactly `Validate` of the signature and kwargs. |
| ClientSideHandler.FirstParamErrorIsFirst | lib/openstack_query/handlers/client_side_handler.py:197-213 | The loop reports no problem iff no parameter is faulty. Otherwise it reports the problem of the first faulty parameter in declaration order. |
| ClientSideHandler.ValidateAcceptsIff | lib/openstack_query/handlers/client_side_handler.py:197-220 | The kwargs are accepted iff every checked positional-or-keyword parameter is either given a value its annotation admits, or absent with a default; and there are `*args` or `**kwargs`, or no key is outside the parameter names. |
| ClientSideHandler.NotGivenMeansRequiredAndAbsent | lib/openstack_query/handlers/client_side_handler.py:212-213 | A "expected but not given" failure names a parameter other than the first, positional-or-keyword, without default, absent from the kwargs. |
| ClientSideHandler.IncorrectTypeMeansAnnotatedMismatch | lib/openstack_query/handlers/client_side_handler.py:200-211 | A type failure names a supplied argument whose parameter is annotated with a class that the value is not an instance of; the found type is the value's type. |
| ClientSideHandler.UnexpectedOnlyWithoutVarArgs | lib/openstack_query/handlers/client_side_handler.py:166-219 | Unexpected arguments are reported only without `*args`/`**kwargs`. The set reported is the non-empty set of keys that are not parameter names. |
| ClientSideHandler.BoolPassesIntAnnotation | lib/openstack_query/handlers/client_side_handler.py:203-206 | A bool argument passes an `int` annotation (isinstance with bool a subclass of int). |
| ClientSideHandler.KeywordOnlyNotChecked | lib/openstack_query/handlers/client_side_handler.py:198 | A keyword-only parameter without default is never reported missing: only positional-or-keyword parameters are checked. |
| ClientSideHandler.ClientFilter.Apply | lib/openstack_query/handlers/client_side_handler.py:126-148 | An AttributeError from the property function makes the predicate answer False without calling the filter function. A KeyError or TypeError, which `except AttributeError` does not catch, is raised by the predicate. Otherwise it answers what the filter function answers on the property value and the kwargs (empty kwargs being the same as none). |
| ClientSideHandler.MissingAttributeRejects | lib/openstack_query/handlers/client_side_handler.py:142-145 | A property function reading an attribute the record lacks makes the predicate answer False, whatever its filter function. |
| ClientSideHandler.NamelessServerRaises | lib/openstack_query/handlers/client_side_handler.py:142-145 | On a record without `name`, a SERVER_NAME predicate raises KeyError('name'), whatever its filter function. |
| ClientSideHandler.Handler.GetFilterFunc | lib/openstack_query/handlers/client_side_handler.py:57-124 | Returns exactly `FilterFor`: the no-mapping error, the argument error with its reason, or the wrapped predicate. |
| ClientSideHandler.Handler.PresetKnown | lib/openstack_query/handlers/client_side_handler.py:50-55 | A preset is known iff the handler holds a property list for it; `UnknownPresetUnsupported` gives its consequence. |
| ClientSideHandler.Handler.CheckSupported | lib/openstack_query/handlers/client_side_handler.py:32-48 | A pair is supported iff the preset is known and either the property is listed for it or its list is exactly `["*"]`; `WildcardOnlyAlone` and `UnknownPresetUnsupported` give the consequences. |
| ClientSideHandler.WildcardOnlyAlone | lib/openstack_query/handlers/client_side_handler.py:44-46 | A `"*"` entry in a longer list does not make every property supported. |
| ClientSideHandler.UnknownPresetUnsupported | lib/openstack_query/handlers/client_side_handler.py:38-39 | An unknown preset supports no property, and asking for its filter raises the no-mapping error. |
| ClientSideHandler.FilterForOutcomes | lib/openstack_query/handlers/client_side_handler.py:75-124 | `get_filter_func` raises the no-mapping error iff the pair is unsupported or no function is registered. Otherwise it succeeds iff the kwargs are acceptable and raises the argument error with the validation reason. On success the predicate wraps the registered function, the accessor and the kwargs. |
| ClientSideHandler.FilterKeyedOnPresetOnly | lib/openstack_query/handlers/client_side_handler.py:76-77 | The function found depends on the preset only: two supported properties of one preset get the same function. |
| ClientSideHandler.BuiltFilterPropagatesReadErrors | lib/openstack_query/handlers/client_side_handler.py:122-145 | Every predicate the handler hands out answers False on an AttributeError of the accessor it was given, and raises any other read error. |
| ClientSideHandler.ServerReadErrorsEscape | lib/openstack_query/handlers/client_side_handler.py:142-145 | With a server property's accessor, which only subscripts, every read error escapes the predicate. |
| QueryBuilder.FirstSupporting | lib/openstack_query/query_builder.py:153-155 | The index found is that of a supporting handler with no supporting handler before it. None means no handler supports the pair. |
| QueryBuilder.SelectHandlerOutcomes | lib/openstack_query/query_builder.py:121-167 | The unknown-preset error iff no handler knows the preset; the unsupported-pair error iff some handler knows it but none supports the pair; success iff some handler supports it, and then the handler returned is the first supporting one in list order. |
| QueryBuilder.FirstInListWins | lib/openstack_query/query_builder.py:153-155 | When two handlers both support the pair, whichever is earlier in the list is chosen. |
| QueryBuilder.MissingAccessorFirst | lib/openstack_query/query_builder.py:73-88 | A property without accessor raises the property-mapping error naming it, whatever the handlers are. |
| QueryBuilder.ResolvedFilterComesFromFirstSupporting | lib/openstack_query/query_builder.py:73-96 | A successful resolution has an accessor, comes from the first supporting handler, and wraps that handler's function for the preset with the property's accessor and the kwargs. |
| QueryBuilder.QueryBuilder.constructor | lib/openstack_query/query_builder.py:26-37 | A new builder stores its handlers and holds no client-side filter and no server-side filters. |
| QueryBuilder.QueryBuilder.GetPresetHandler | lib/openstack_query/query_builder.py:121-167 | The any-knows test and the scan over the handlers return exactly `SelectHandler`. |
| QueryBuilder.QueryBuilder.ParseWhere | lib/openstack_query/query_builder.py:53-100 | A builder whose filter is set refuses with "Error: Already set a query preset" and changes nothing. Otherwise, on failure nothing is set. On success the client-side filter is stored; then either the server-side filters are stored, or without a server-side handler an AttributeError is raised with no server-side filters. Filters are set only together with a client filter. |
| QueryBuilder.SecondWhereRejected | lib/openstack_query/query_builder.py:36-71 | A fresh builder holds no filters. After a successful `where` a second one is refused. After a failed one, the second one succeeds iff it resolves and a server-side handler exists. |
| Sorting.BeforeAsymmetric | lib/openstack_query/query_parser.py:123-126 | A key's "sorts before" (ascending or reversed) is asymmetric and excludes a tie. |
| Sorting.BeforeNegativelyTransitive | lib/openstack_query/query_parser.py:123-126 | "Sorts before" is negatively transitive, so "not after" is a total preorder. |
| Sorting.InsertPermutes | lib/openstack_query/query_parser.py:123-126 | Inserting an element adds exactly that element to the multiset. |
| Sorting.SortPass | lib/openstack_query/query_parser.py:123-126 | One `list.sort(key, reverse)` pass, by insertion, keeps the length; `SortPassPermutes`, `SortPassSorted` and `SortPassStable` state the rest. |
| Sorting.SortPassPermutes | lib/openstack_query/query_parser.py:123-126 | One sort pass is a permutation of its input. |
| Sorting.InsertSorted | lib/openstack_query/query_parser.py:123-126 | Inserting into a sorted list keeps it sorted. |
| Sorting.SortPassSorted | lib/openstack_query/query_parser.py:123-126 | One pass yields a list sorted by its key (descending when `reverse`). |
| Sorting.InsertStable | lib/openstack_query/query_parser.py:123-126 | Within any class of mutually tied elements, insertion puts the new element after those already present. |
| Sorting.SortPassStable | lib/openstack_query/query_parser.py:123-126 | A pass is stable: the elements of any tie class keep their input order, even with `reverse`. |
| Sorting.TieClassWithinTies | lib/openstack_query/query_parser.py:123-126 | The elements tied with a given one form such a class. |
| Sorting.SortAllPermutes | lib/openstack_query/query_parser.py:122-127 | The sequence of passes is a permutation of the input. |
| Sorting.SortAllLexSorted | lib/openstack_query/query_parser.py:122-127 | The passes, applied last spec first, sort lexicographically: the first spec decides, later ones break its ties. |
| Sorting.SortAllStable | lib/openstack_query/query_parser.py:122-127 | Elements tied on every spec keep their input order. |
| Sorting.InsertLast | lib/openstack_query/query_parser.py:123-126 | Shifting the element at `i` leftwards in place leaves `Insert` of it into the prefix in the first `i + 1` slots and the rest untouched. |
| Sorting.SortInPlace | lib/openstack_query/query_parser.py:123-126 | One in-place `list.sort(key, reverse)` leaves `SortPass` of the old contents. |
| Sorting.RunSort | lib/openstack_query/query_parser.py:122-127 | `_run_sort` leaves `SortAll` of the old contents in the array. |
| QueryParser.CheckPropValid | lib/openstack_query/query_parser.py:21-30 | Passes iff the prop handler supports the property; otherwise the fixed property-mapping error. |
| QueryParser.SupportedPrefix | lib/openstack_query/query_parser.py:37-40 | The length of the longest prefix of the specs naming supported properties; the next spec, if any, is unsupported. |
| QueryParser.RangeValues | lib/openstack_query/query_parser.py:58-73 | A value equals something in `all_prop_list` iff it equals something in one of the ranges. |
| QueryParser.RunGroupBy | lib/openstack_query/query_parser.py:154-162 | One group per mapping, named and ordered as the mappings. A record is in a group iff it is in the list and passes the group's test. |
| QueryParser.RecordedSortSpecs | lib/openstack_query/query_parser.py:37-40 | A repeated property keeps the position of its first occurrence and takes the flag of its last. |
| QueryParser.ExplicitGroupTest | lib/openstack_query/query_parser.py:60-72 | A named range becomes a group testing membership in exactly its own list, unless "ungrouped results" overrides that name. |
| QueryParser.UngroupedGroupTest | lib/openstack_query/query_parser.py:76-84 | "ungrouped results" is added when ranges are given, and accepts exactly the records that no range accepts. |
| QueryParser.ParseGroupByNeverClears | lib/openstack_query/query_parser.py:60-84 | `parse_group_by` never removes or reorders groups recorded by earlier calls. |
| QueryParser.GroupByName | lib/openstack_query/query_parser.py:159-162 | The output has a group of a given name iff the mappings do, and it holds exactly the records the test accepts, in input order. |
| QueryParser.GroupsKeepSortOrder | lib/openstack_query/query_parser.py:96-106 | Grouping a sorted list keeps every group sorted. |
| QueryParser.BuildUniqueValGroups | lib/openstack_query/query_parser.py:129-152 | The groups form a dictionary (distinct names). Each group is named `"<PROP> with value <str(v)>"` after a value `v` some record has, and tests equality with `v`. |
| QueryParser.UniqueValGroupsFirstSeen | lib/openstack_query/query_parser.py:129-152 | With distinct names, the automatic groups are one equality test per first occurrence of a value, in first-seen order. |
| QueryParser.ValueGroupsPartition | lib/openstack_query/query_parser.py:142-150 | Over pairwise distinct values, a record whose value has a representative is accepted by exactly one value group. |
| QueryParser.UniqueValGroupsPartition | lib/openstack_query/query_parser.py:129-152 | With distinct names, every record of the list falls in exactly one automatic group. |
| QueryParser.UniqueValGroupsNonEmpty | lib/openstack_query/query_parser.py:136-150 | A non-empty list yields at least one automatic group. |
| QueryParser.FirstSeenOrderExample | lib/openstack_query/query_parser.py:134-138 | The values 2, 1, 2, 3 give distinct values 2, 1, 3 in that order. |
| QueryParser.FirstSeenDedup | lib/openstack_query/query_parser.py:136-138 | Deduplicating 2, 1, 2, 3 keeps 2, 1, 3. |
| QueryParser.RangesExampleMappings | lib/openstack_query/query_parser.py:60-84 | Ranges "low" = [1, 2] and "high" = [3, 4] with the ungrouped group give "low", "high" and "ungrouped results" (outside 1 to 4), in that order. |
| QueryParser.CollidingValues | lib/openstack_query/query_parser.py:136-138 | `1` and `'1'` are distinct values. |
| QueryParser.CollidingNames | lib/openstack_query/query_parser.py:145 | Both render to the group name "SERVER_NAME with value 1". |
| QueryParser.NameCollisionDropsGroup | lib/openstack_query/query_parser.py:142-150 | For `[1, '1']` only the group testing `'1'` remains, and grouping puts `1` in no group. |
| QueryParser.QueryParser.constructor | lib/openstack_query/query_parser.py:15-19 | A new parser has no sort specs, no grouped property and no group mappings. |
| QueryParser.QueryParser.ParseSortBy | lib/openstack_query/query_parser.py:32-40 | The specs are reset, then the specs up to the first unsupported property are recorded by dict update. The call passes iff all are supported, and otherwise raises the property-mapping error; grouping is untouched. |
| QueryParser.QueryParser.ParseGroupBy | lib/openstack_query/query_parser.py:42-84 | Passes iff the property is supported, and on failure nothing changes. On success the grouped property is set and the ranges (with the ungrouped group) are added by dict update; no or empty ranges add nothing. |
| QueryParser.QueryParser.RunParser | lib/openstack_query/query_parser.py:86-108 | An empty list is returned as is. Otherwise the array is sorted in place by the recorded specs. Without a group-by the sorted list is returned. With one, the groups are derived from the list if none are recorded, kept for later runs, and the list is split by them. |
| QueryParser.AutoGroupsCached | lib/openstack_query/query_parser.py:102-106 | A second run of the same parser is split by the groups derived from the first run's values. |
| ServerProperties.FindByName | lib/enums/query/props/server_properties.py:30 | The member found has the name; None means no member has it. |
| ServerProperties.FromString | lib/enums/query/props/server_properties.py:24-35 | Success gives the member named by the upper-cased string. Failure happens when no member has that name and gives the "Could not find Server Property" error listing every name. |
| ServerProperties.FromStringRoundTrip | lib/enums/query/props/server_properties.py:24-35 | Parsing a member's name gives the member. |
| ServerProperties.FromStringCaseInsensitive | lib/enums/query/props/server_properties.py:24-30 | Strings equal up to case parse alike. |
| ServerProperties.NameInjective | lib/enums/query/props/server_properties.py:12-22 | Distinct members have distinct names. |
| ServerProperties.MappingIsExhaustive | lib/enums/query/props/server_properties.py:45-62 | Every member has an accessor. |
| ServerProperties.AccessorsDistinct | lib/enums/query/props/server_properties.py:45-57 | No two members read the same key path. |
| ServerProperties.GetPropFunc | lib/enums/query/props/server_properties.py:38-68 | Every property has an accessor made of subscripts only, so it never raises AttributeError. The path is non-empty, and nested only for PROJECT_ID. |
| ServerProperties.TopLevelRead | lib/enums/query/props/server_properties.py:46-55 | Every property except PROJECT_ID reads one top-level key, and raises KeyError naming it when the key is absent. |
| ServerProperties.ProjectIdRead | lib/enums/query/props/server_properties.py:56 | PROJECT_ID reads `location`, then `project`, then `id`. |
| ServerProperties.ProjectIdOfNoProject | lib/enums/query/props/server_properties.py:56 | When `location["project"]` is None, PROJECT_ID raises TypeError (`None["id"]`). |
| ServerProperties.ServerNameRead | lib/enums/query/props/server_properties.py:49 | SERVER_NAME reads `name`, and raises KeyError('name') without it. |
| ServerProperties.GetMarkerPropFunc | lib/enums/query/props/server_properties.py:70-75 | The pagination marker reads `id`. |
| SortOrders.SortOrder.Value | lib/enums/query/sort_order.py:11-12 | The value is the descending flag: true exactly for DESC. |
| SortOrders.FromString | lib/enums/query/sort_order.py:14-25 | ASC iff the upper-cased string is "ASC", DESC iff it is "DESC". Otherwise the "Could not find convert" error listing ASC,DESC. |
| SortOrders.FromStringRoundTrip | lib/enums/query/sort_order.py:14-20 | Parsing a member's name gives the member. |
| SortOrders.FromStringCaseInsensitive | lib/enums/query/sort_order.py:20 | Strings equal up to case parse alike. |
| SortOrders.LowerCaseExamples | lib/enums/query/sort_order.py:20 | "desc" and "Asc" parse to DESC and ASC. |
| ServerStatuses.FourStatuses | lib/enums/server_status.py:12-15 | There are exactly four distinct statuses. |
| ServerStatuses.FromString | lib/enums/server_status.py:17-22 | Success gives the status named by the upper-cased string. Failure gives a KeyError carrying the upper-cased key, and happens only when no status has that name. |
| ServerStatuses.FromStringRoundTrip | lib/enums/server_status.py:17-22 | Parsing a status's name gives the status. |
| ServerStatuses.FromStringCaseInsensitive | lib/enums/server_status.py:22 | Strings equal up to case parse alike. |
| ServerStatuses.MixedCaseSuspended | tests/enums/test_server_status.py:6-35 | "SuspendeD" parses to SUSPENDED. |
| ServerStatuses.MixedCaseActive | tests/enums/test_server_status.py:6-35 | "AcTiVE" parses to ACTIVE. |
| ServerStatuses.MixedCaseShutoff | tests/enums/test_server_status.py:6-35 | "ShutOff" parses to SHUTOFF. |
| ServerStatuses.MixedCaseError | tests/enums/test_server_status.py:6-35 | "ErRor" parses to ERROR. |
| ServerStatuses.UnknownStatus | lib/enums/server_status.py:22 | An unknown name is a KeyError, not a parse error. |
| Values.PyEqIsEquivalence | lib/openstack_query/query_parser.py:136-138 | Python `==` on property values is an equivalence, which the first-seen deduplication relies on. |
| Values.CmpAntisymmetric | lib/openstack_query/query_parser.py:123-124 | Comparing the other way round flips the sign of the three-way comparison. |
| Values.CmpTransitive | lib/openstack_query/query_parser.py:123-124 | "Not after" is transitive, and a chain ties its ends exactly when both steps tie. |
| Values.ListsCompareLexicographically | lib/openstack_query/query_parser.py:123-124 | One list key sorts before another iff, after a prefix of tied items, the first list ends while the second goes on or has a larger item. |
| Values.LessTransitive | lib/openstack_query/query_parser.py:123-124 | The sort key order is transitive. |
| Values.LessNegativelyTransitive | lib/openstack_query/query_parser.py:123-124 | The sort key order is negatively transitive. |
| Values.TiedIsEquivalence | lib/openstack_query/query_parser.py:123-124 | Ties under the key order form an equivalence. |
| Values.TiedStrings | lib/openstack_query/query_parser.py:123-124 | Two strings tie iff they are equal. |
| Values.Accessor.Read | lib/enums/query/props/server_properties.py:45-57 | Reading follows the path of subscripts and attribute accesses through nested records. A missing key raises KeyError naming a subscript of the path. Subscripting a value that is not a dictionary raises TypeError naming its type. A missing attribute raises AttributeError naming an attribute access of the path. |
| OrderedDicts.GetUpdate | lib/openstack_query/query_parser.py:40 | After `d.update({k: v})`, `k` maps to `v` and every other key is unchanged. |
| OrderedDicts.KeysUpdate | lib/openstack_query/query_parser.py:40 | Updating keeps the key order and appends a new key at the end. |
| OrderedDicts.GetUpdateAll | lib/openstack_query/query_parser.py:61-72 | After a series of updates each key maps to its last value. |
| OrderedDicts.KeysUpdateAll | lib/openstack_query/query_parser.py:142-150 | The keys after a series of updates are the first occurrences of the keys, in order. |
| OrderedDicts.UpdateAllFresh | lib/openstack_query/query_parser.py:142-150 | Updates with fresh, distinct keys append them in order. |
| OrderedDicts.UpdateAllEntriesFrom | lib/openstack_query/query_parser.py:142-150 | Every entry after a series of updates is an old entry or one of the pairs given. |
| OrderedDicts.KeysUpdateAllExtends | lib/openstack_query/query_parser.py:63-84 | Updates never remove or reorder existing keys. |
| Seqs.FilterPairwise | lib/openstack_query/query_parser.py:160 | The list comprehension keeps any pairwise order relation of its input. |
| Seqs.FilterKeepsOrder | lib/openstack_query/query_parser.py:160 | Two accepted records appear in the group in their input order. |
| Seqs.DedupCovers | lib/openstack_query/query_parser.py:136-138 | Order-preserving deduplication keeps a representative of every value and no two equal values. |
| Seqs.DedupIsFirstOccurrences | lib/openstack_query/query_parser.py:136-138 | It keeps exactly the first occurrence of each value. |
| Text.Upper | lib/enums/query/props/server_properties.py:30 | `upper()` replaces each lower-case ASCII letter by its capital and keeps the length. |
| Text.UpperIdempotent | lib/enums/query/props/server_properties.py:30 | Upper-casing twice is upper-casing once. |

## Left out

- Logging throughout the core, and the `req_params` list that only feeds a log line: they have no effect on results.
- `inspect.signature`: a filter function is given as its parameter list (name, kind, default present, annotation) and its behaviour. An annotation is either absent, `Any`, or a class. A subscripted generic such as `List[str]`, for which `isinstance` at client_side_handler.py:205 raises TypeError, is not modelled.
- `ClientSideHandler.CheckFilterFunc`: the message of UnexpectedArguments interpolates a Python set, whose display order is unspecified. The reason therefore carries the set of names, not a message (`Reason.Message` is None for it).
- The "no kwargs" path: `_check_filter_func` dereferences its kwargs. The model therefore always passes a mapping; an empty mapping calls the filter function without kwargs.
- Exceptions a property function raises other than the KeyError, TypeError and AttributeError of its steps, and errors the filter functions themselves raise.
- `Values.Less`: Python raises TypeError when a sort compares values it cannot order: keys of different kinds, two dicts, two None, or lists whose first unequal items are such values. The model ranks kinds and lets None and dicts tie instead.
- `QueryParser.QueryParser.ParseGroupBy`: `all_prop_list` is a Python set, so a list or dict among the range values raises TypeError at `all_prop_list.update(prop_list)`. The model collects the range values in a list and does not raise.
- `QueryParser.UngroupedGroupTest`: for the same reason, the ungrouped test `get_prop(obj) not in all_prop_list` raises TypeError on a record whose value is a list or dict. The model answers with `==` instead.
- `QueryParser.BuildUniqueValGroups`: a list or dict value cannot be a key of the ordered dict of unique values and raises TypeError. The model deduplicates with `==` instead.
- `ClientSideHandler.Handler.GetFilterFunc`: the predicate `get_filter_func` returns closes over the caller's kwargs dictionary itself, so a later change to that dictionary changes the filter. The model stores the kwargs as a value.
- Float, datetime and other value kinds beyond None, bool, int, str, list and dict.
- The preset enums and the concrete filter functions (regex, datetime, comparison presets) of the handlers: they are not part of this model. Handlers are values built from their mappings.
- The prop handler's `get_prop` and `check_supported` and the server-side handler's `get_filters`: they are parameters of the parser and the builder.
- The getters `client_side_filter` and `server_side_filters`: they read the builder's fields, which the model exposes directly.
- Timsort: the stable in-place sort is modelled by insertion sort. Both give the same result, because a stable sort's output is determined by the key order.
- `Text.Upper`: models ASCII letters only, not Unicode case mapping.
- `ServerProperties.GetPropFunc`: the QueryPropertyMappingError for a value outside the enum cannot happen with a typed argument and is not modelled.
