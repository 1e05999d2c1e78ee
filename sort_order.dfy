/** The sort direction enum and its parser. */
module SortOrders {
  import opened Wrappers
  import opened Text
  import opened QueryErrors

  datatype SortOrder = Asc | Desc {
    function Name(): string {
      if Asc? then "ASC" else "DESC"
    }

    /** The member's value, passed to the sort as its `reverse` (descending) flag. */
    function Value(): (descending: bool)
      ensures descending <==> this == Desc
    {
      match this
      case Asc => false
      case Desc => true
    }
  }

  function NotFoundMessage(val: string): string {
    "Could not find convert " + val + " into a sort order enum. Available orders are ASC,DESC"
  }

  /** `SortOrder.from_string`: the member named by the upper-cased string. */
  function FromString(val: string): (r: Result<SortOrder, QueryError>)
    ensures r == Success(Asc) <==> Upper(val) == "ASC"
    ensures r == Success(Desc) <==> Upper(val) == "DESC"
    ensures r.Failure? <==> Upper(val) != "ASC" && Upper(val) != "DESC"
    ensures r.Failure? ==> r.error == ParseQueryError(NotFoundMessage(val))
  {
    var key := Upper(val);
    if key == "ASC" then Success(Asc)
    else if key == "DESC" then Success(Desc)
    else Failure(ParseQueryError(NotFoundMessage(val)))
  }

  lemma {:induction false} FromStringRoundTrip(o: SortOrder)
    ensures FromString(o.Name()) == Success(o)
  {
    assert NoLowerAscii(o.Name());
    UpperOfNoLower(o.Name());
  }

  /** Parsing ignores case. */
  lemma FromStringCaseInsensitive(s: string, t: string)
    requires Upper(s) == Upper(t)
    ensures FromString(s).Success? ==> FromString(s) == FromString(t)
  {
  }

  lemma LowerCaseExamples()
    ensures FromString("desc") == Success(Desc)
    ensures FromString("Asc") == Success(Asc)
  {
  }
}
