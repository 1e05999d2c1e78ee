/** The statuses a server can be in and their parser. */
module ServerStatuses {
  import opened Wrappers
  import opened Text

  datatype ServerStatus = Suspended | Active | Shutoff | Error {
    /** The member's name, which is also its value. */
    function Name(): string {
      match this
      case Suspended => "SUSPENDED"
      case Active => "ACTIVE"
      case Shutoff => "SHUTOFF"
      case Error => "ERROR"
    }
  }

  /** Python's KeyError from an enum lookup by name, carrying the key looked up. */
  datatype LookupError = KeyError(key: string)

  const All: seq<ServerStatus> := [Suspended, Active, Shutoff, Error]

  /** There are exactly four statuses. */
  lemma FourStatuses(s: ServerStatus)
    ensures s in All && |All| == 4
    ensures forall i, j :: 0 <= i < j < |All| ==> All[i] != All[j]
  {
  }

  /** `ServerStatus.from_string`: unwrapped enum lookup of the upper-cased name. */
  function FromString(val: string): (r: Result<ServerStatus, LookupError>)
    ensures r.Success? ==> r.value.Name() == Upper(val)
    ensures r.Failure? ==> r == Failure(KeyError(Upper(val)))
    ensures r.Failure? ==> forall s: ServerStatus :: s.Name() != Upper(val)
  {
    var key := Upper(val);
    if key == "SUSPENDED" then Success(Suspended)
    else if key == "ACTIVE" then Success(Active)
    else if key == "SHUTOFF" then Success(Shutoff)
    else if key == "ERROR" then Success(Error)
    else Failure(KeyError(key))
  }

  lemma {:induction false} FromStringRoundTrip(s: ServerStatus)
    ensures FromString(s.Name()) == Success(s)
  {
    assert NoLowerAscii(s.Name());
    UpperOfNoLower(s.Name());
  }

  /** Parsing ignores case. */
  lemma FromStringCaseInsensitive(s: string, t: string)
    requires Upper(s) == Upper(t)
    ensures FromString(s).Success? ==> FromString(s) == FromString(t)
  {
  }

  /** Mixed-case spellings of each status parse to it. */
  lemma MixedCaseSuspended()
    ensures FromString("SuspendeD") == Success(Suspended)
  {
    assert Upper("SuspendeD") == "SUSPENDED";
  }

  lemma MixedCaseActive()
    ensures FromString("AcTiVE") == Success(Active)
  {
    assert Upper("AcTiVE") == "ACTIVE";
  }

  lemma MixedCaseShutoff()
    ensures FromString("ShutOff") == Success(Shutoff)
  {
    assert Upper("ShutOff") == "SHUTOFF";
  }

  lemma MixedCaseError()
    ensures FromString("ErRor") == Success(Error)
  {
    assert Upper("ErRor") == "ERROR";
  }

  /** An unknown status is a KeyError, not a ParseQueryError. */
  lemma UnknownStatus()
    ensures FromString("running") == Failure(KeyError("RUNNING"))
  {
    assert Upper("running") == "RUNNING";
  }
}
