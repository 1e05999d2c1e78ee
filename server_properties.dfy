/** The queryable properties of a server, their parser and their accessor table. */
module ServerProperties {
  import opened Wrappers
  import opened Text
  import opened Values
  import opened QueryErrors

  datatype ServerProperty =
    | FlavorId
    | HypervisorId
    | ImageId
    | ProjectId
    | ServerCreationDate
    | ServerDescription
    | ServerId
    | ServerLastUpdatedDate
    | ServerName
    | ServerStatus
    | UserId
  {
    /** The enum member's name. */
    function Name(): string {
      match this
      case FlavorId => "FLAVOR_ID"
      case HypervisorId => "HYPERVISOR_ID"
      case ImageId => "IMAGE_ID"
      case ProjectId => "PROJECT_ID"
      case ServerCreationDate => "SERVER_CREATION_DATE"
      case ServerDescription => "SERVER_DESCRIPTION"
      case ServerId => "SERVER_ID"
      case ServerLastUpdatedDate => "SERVER_LAST_UPDATED_DATE"
      case ServerName => "SERVER_NAME"
      case ServerStatus => "SERVER_STATUS"
      case UserId => "USER_ID"
    }
  }

  /** The members in declaration order (the order iteration over the enum yields). */
  const All: seq<ServerProperty> := [
    FlavorId, HypervisorId, ImageId, ProjectId, ServerCreationDate, ServerDescription,
    ServerId, ServerLastUpdatedDate, ServerName, ServerStatus, UserId
  ]

  lemma AllIsEveryMember(p: ServerProperty)
    ensures p in All
  {
  }

  lemma NamesAreUpperCase(p: ServerProperty)
    ensures NoLowerAscii(p.Name())
  {
  }

  lemma NameInjective(p: ServerProperty, q: ServerProperty)
    ensures p.Name() == q.Name() ==> p == q
  {
  }

  function Names(ps: seq<ServerProperty>): seq<string> {
    if |ps| == 0 then [] else [ps[0].Name()] + Names(ps[1..])
  }

  function NotFoundMessage(val: string): string {
    "Could not find Server Property " + val + ". Available properties are " + Join(Names(All), ",")
  }

  /** The first member of `ps` whose name is `name`. */
  function FindByName(ps: seq<ServerProperty>, name: string): (r: Option<ServerProperty>)
    ensures r.Some? ==> r.value in ps && r.value.Name() == name
    ensures r.None? ==> forall p :: p in ps ==> p.Name() != name
  {
    if |ps| == 0 then None
    else if ps[0].Name() == name then Some(ps[0])
    else FindByName(ps[1..], name)
  }

  /** `ServerProperties.from_string`: look the upper-cased string up among the member names. */
  function FromString(val: string): (r: Result<ServerProperty, QueryError>)
    ensures r.Success? ==> r.value.Name() == Upper(val)
    ensures r.Failure? ==> forall p: ServerProperty :: p.Name() != Upper(val)
    ensures r.Failure? ==> r.error == ParseQueryError(NotFoundMessage(val))
  {
    match FindByName(All, Upper(val))
    case Some(p) => Success(p)
    case None => (AllIsEveryMemberForall(); Failure(ParseQueryError(NotFoundMessage(val))))
  }

  lemma AllIsEveryMemberForall()
    ensures forall p: ServerProperty :: p in All
  {
    forall p: ServerProperty ensures p in All {
      AllIsEveryMember(p);
    }
  }

  /** Parsing a member's own name gives that member back. */
  lemma FromStringRoundTrip(p: ServerProperty)
    ensures FromString(p.Name()) == Success(p)
  {
    NamesAreUpperCase(p);
    UpperOfNoLower(p.Name());
    AllIsEveryMember(p);
    var r := FromString(p.Name());
    if r.Success? {
      NameInjective(p, r.value);
    }
  }

  /** Parsing ignores case: strings equal up to case parse to the same member. */
  lemma FromStringCaseInsensitive(s: string, t: string)
    requires Upper(s) == Upper(t)
    ensures FromString(s).Success? <==> FromString(t).Success?
    ensures FromString(s).Success? ==> FromString(s) == FromString(t)
  {
    var a, b := FromString(s), FromString(t);
    if a.Success? && b.Success? {
      NameInjective(a.value, b.value);
    }
  }

  /** The accessor table of `get_prop_func`: the key path each property reads. */
  const PropMapping: map<ServerProperty, Accessor> := map[
    UserId := Path([Subscript("user_id")]),
    HypervisorId := Path([Subscript("host_id")]),
    ServerId := Path([Subscript("id")]),
    ServerName := Path([Subscript("name")]),
    ServerDescription := Path([Subscript("description")]),
    ServerStatus := Path([Subscript("status")]),
    ServerCreationDate := Path([Subscript("created_at")]),
    ServerLastUpdatedDate := Path([Subscript("updated_at")]),
    FlavorId := Path([Subscript("flavor_id")]),
    ImageId := Path([Subscript("image_id")]),
    ProjectId := Path([Subscript("location"), Subscript("project"), Subscript("id")])
  ]

  /** The exhaustiveness assertion: every member has an accessor. */
  lemma MappingIsExhaustive()
    ensures forall p: ServerProperty :: p in PropMapping
  {
    forall p: ServerProperty ensures p in PropMapping {
      HasAccessor(p);
    }
  }

  lemma HasAccessor(p: ServerProperty)
    ensures p in PropMapping
  {
  }

  /**
   * `get_prop_func(prop)`: every property reads a non-empty path of
   * subscripts, and only PROJECT_ID a nested one. No step is an attribute
   * access, so no property function of a server raises AttributeError.
   */
  function GetPropFunc(p: ServerProperty): (a: Accessor)
    ensures |a.steps| > 0
    ensures forall s :: s in a.steps ==> s.Subscript?
    ensures |a.steps| > 1 <==> p == ProjectId
  {
    MappingIsExhaustive();
    PropMapping[p]
  }

  /** `get_marker_prop_func()`: the accessor used as the pagination marker. */
  function GetMarkerPropFunc(): (a: Accessor)
    ensures a == Path([Subscript("id")])
  {
    GetPropFunc(ServerId)
  }

  /** No two properties read the same path. */
  lemma AccessorsDistinct(p: ServerProperty, q: ServerProperty)
    ensures GetPropFunc(p) == GetPropFunc(q) ==> p == q
  {
  }

  /** Every property but PROJECT_ID reads one top-level key of the record; without it the subscript raises KeyError. */
  lemma {:induction false} TopLevelRead(p: ServerProperty, fields: map<string, Value>)
    requires p != ProjectId
    ensures |GetPropFunc(p).steps| == 1 && GetPropFunc(p).steps[0].Subscript?
    ensures var k := GetPropFunc(p).steps[0].key;
            GetPropFunc(p).Read(VDict(fields)) == if k in fields then Success(fields[k]) else Failure(MissingKey(k))
  {
  }

  /** PROJECT_ID reads `location`, then `project`, then `id`. */
  lemma {:induction false} ProjectIdRead(id: Value, project: map<string, Value>, location: map<string, Value>, rec: map<string, Value>)
    requires "id" in project && project["id"] == id
    requires "project" in location && location["project"] == VDict(project)
    requires "location" in rec && rec["location"] == VDict(location)
    ensures GetPropFunc(ProjectId).Read(VDict(rec)) == Success(id)
  {
    var a := Path([Subscript("location"), Subscript("project"), Subscript("id")]);
    assert a.steps[1..] == [Subscript("project"), Subscript("id")];
    assert a.steps[1..][1..] == [Subscript("id")];
    assert a.steps[1..][1..][1..] == [];
  }

  /** A server without a project in its location: `None["id"]` raises TypeError. */
  lemma {:induction false} ProjectIdOfNoProject(location: map<string, Value>, rec: map<string, Value>)
    requires "project" in location && location["project"] == VNone
    requires "location" in rec && rec["location"] == VDict(location)
    ensures GetPropFunc(ProjectId).Read(VDict(rec)) == Failure(NotSubscriptable(NoneType))
  {
    var a := Path([Subscript("location"), Subscript("project"), Subscript("id")]);
    assert a.steps[1..] == [Subscript("project"), Subscript("id")];
    assert a.steps[1..][1..] == [Subscript("id")];
  }

  /** The name accessor reads `name`; on a record without it the accessor raises KeyError('name'). */
  lemma ServerNameRead(fields: map<string, Value>)
    ensures "name" in fields ==> GetPropFunc(ServerName).Read(VDict(fields)) == Success(fields["name"])
    ensures "name" !in fields ==> GetPropFunc(ServerName).Read(VDict(fields)) == Failure(MissingKey("name"))
  {
    assert Path([Subscript("name")]).steps[1..] == [];
  }
}
