/**
 * The values a resource record and a filter argument are made of: a JSON-like
 * picture of the Python objects the query engine handles, with Python's
 * equality, `isinstance`, `str()` and `<` on them.
 */
module Values {
  import opened Wrappers
  import opened Text

  datatype Value =
    | VNone
    | VBool(b: bool)
    | VInt(i: int)
    | VStr(s: string)
    | VList(items: seq<Value>)
    | VDict(fields: map<string, Value>)

  /** A resource record (an openstacksdk object) is read like a dictionary. */
  type Record = Value

  /** The Python classes a filter parameter may be annotated with. */
  datatype TypeTag = NoneType | BoolType | IntType | StrType | ListType | DictType

  function TypeOf(v: Value): TypeTag {
    match v
    case VNone => NoneType
    case VBool(_) => BoolType
    case VInt(_) => IntType
    case VStr(_) => StrType
    case VList(_) => ListType
    case VDict(_) => DictType
  }

  /** `isinstance(v, t)`; `bool` is a subclass of `int`. */
  predicate IsInstance(v: Value, t: TypeTag) {
    TypeOf(v) == t || (t == IntType && v.VBool?)
  }

  /** `repr` of a Python class object, as used in error reasons. */
  function ClassRepr(t: TypeTag): string {
    match t
    case NoneType => "<class 'NoneType'>"
    case BoolType => "<class 'bool'>"
    case IntType => "<class 'int'>"
    case StrType => "<class 'str'>"
    case ListType => "<class 'list'>"
    case DictType => "<class 'dict'>"
  }

  predicate IsNumeric(v: Value) {
    v.VBool? || v.VInt?
  }

  function Num(v: Value): int
    requires IsNumeric(v)
  {
    if v.VBool? then (if v.b then 1 else 0) else v.i
  }

  /** Python `==` at the top level: `True == 1`, otherwise structural equality. */
  predicate PyEq(a: Value, b: Value) {
    if IsNumeric(a) && IsNumeric(b) then Num(a) == Num(b) else a == b
  }

  lemma PyEqIsEquivalence(a: Value, b: Value, c: Value)
    ensures PyEq(a, a)
    ensures PyEq(a, b) ==> PyEq(b, a)
    ensures PyEq(a, b) && PyEq(b, c) ==> PyEq(a, c)
  {
  }

  /** Python `v in vs` for a list of values (equality by `==`). */
  predicate InValues(v: Value, vs: seq<Value>) {
    exists i :: 0 <= i < |vs| && PyEq(v, vs[i])
  }

  /** `str(v)`. Dictionaries render as a placeholder: their key order is not modelled. */
  function Show(v: Value): string
    decreases v, 0
  {
    match v
    case VNone => "None"
    case VBool(b) => if b then "True" else "False"
    case VInt(i) => IntToString(i)
    case VStr(s) => s
    case VList(items) => "[" + ShowItems(items) + "]"
    case VDict(_) => "{...}"
  }

  /** `repr(v)`: strings are quoted, everything else renders as `str`. */
  function Repr(v: Value): string
    decreases v, 1
  {
    match v
    case VStr(s) => "'" + s + "'"
    case VList(items) => "[" + ShowItems(items) + "]"
    case _ => Show(v)
  }

  function ShowItems(items: seq<Value>): string
    decreases items, 0
  {
    if |items| == 0 then ""
    else if |items| == 1 then Repr(items[0])
    else Repr(items[0]) + ", " + ShowItems(items[1..])
  }

  // ---------------------------------------------------------------------
  // Ordering of sort keys (Python `<` as `list.sort` uses it)
  // ---------------------------------------------------------------------

  /** Lexicographic comparison of strings by code point. */
  predicate StrLess(a: string, b: string) {
    if |a| == 0 then |b| > 0
    else if |b| == 0 then false
    else if a[0] != b[0] then a[0] < b[0]
    else StrLess(a[1..], b[1..])
  }

  lemma {:induction false} StrLessIrreflexive(a: string)
    ensures !StrLess(a, a)
  {
    if |a| > 0 {
      StrLessIrreflexive(a[1..]);
    }
  }

  lemma {:induction false} StrLessTransitive(a: string, b: string, c: string)
    requires StrLess(a, b) && StrLess(b, c)
    ensures StrLess(a, c)
  {
    if |a| > 0 && |b| > 0 && |c| > 0 && a[0] == b[0] && b[0] == c[0] {
      StrLessTransitive(a[1..], b[1..], c[1..]);
    }
  }

  lemma {:induction false} StrLessTotal(a: string, b: string)
    ensures a == b || StrLess(a, b) || StrLess(b, a)
  {
    if |a| > 0 && |b| > 0 && a[0] == b[0] {
      StrLessTotal(a[1..], b[1..]);
      if a[1..] == b[1..] {
        assert a == [a[0]] + a[1..] && b == [b[0]] + b[1..];
      }
    }
  }

  function KindRank(v: Value): nat {
    match v
    case VNone => 0
    case VBool(_) => 1
    case VInt(_) => 1
    case VStr(_) => 2
    case VList(_) => 3
    case VDict(_) => 4
  }

  function Sign(n: int): int {
    if n < 0 then -1 else if n > 0 then 1 else 0
  }

  /**
   * Three-way comparison of sort keys, negative when `a < b`: numbers by
   * value, strings lexicographically, lists lexicographically by their
   * items. Keys of different kinds, which Python refuses to compare, are
   * ordered by kind; None and dictionaries tie with their own kind.
   */
  function Cmp(a: Value, b: Value): int
    decreases a, 1
  {
    if KindRank(a) != KindRank(b) then Sign(KindRank(a) - KindRank(b))
    else if IsNumeric(a) then Sign(Num(a) - Num(b))
    else if a.VStr? then (if StrLess(a.s, b.s) then -1 else if StrLess(b.s, a.s) then 1 else 0)
    else if a.VList? then CmpItems(a.items, b.items, 0)
    else 0
  }

  /** Compares `xs[i..]` with `ys[i..]`: the first items that do not tie decide, else the shorter list is smaller. */
  function CmpItems(xs: seq<Value>, ys: seq<Value>, i: nat): int
    requires i <= |xs| && i <= |ys|
    decreases VList(xs), 0, |xs| - i
  {
    if i == |xs| then (if i == |ys| then 0 else -1)
    else if i == |ys| then 1
    else if Cmp(xs[i], ys[i]) != 0 then Cmp(xs[i], ys[i])
    else CmpItems(xs, ys, i + 1)
  }

  /** `a < b` on sort keys. */
  predicate Less(a: Value, b: Value) {
    Cmp(a, b) < 0
  }

  /** Neither key sorts before the other. */
  predicate Tied(a: Value, b: Value) {
    !Less(a, b) && !Less(b, a)
  }

  lemma StrLessAsymmetric(a: string, b: string)
    ensures !(StrLess(a, b) && StrLess(b, a))
  {
    if StrLess(a, b) && StrLess(b, a) {
      StrLessTransitive(a, b, a);
      StrLessIrreflexive(a);
    }
  }

  lemma {:induction false} CmpAntisymmetric(a: Value, b: Value)
    ensures Cmp(b, a) == -Cmp(a, b)
    decreases a, 1
  {
    if KindRank(a) == KindRank(b) {
      if a.VStr? {
        StrLessAsymmetric(a.s, b.s);
      } else if a.VList? {
        CmpItemsAntisymmetric(a.items, b.items, 0);
      }
    }
  }

  lemma {:induction false} CmpItemsAntisymmetric(xs: seq<Value>, ys: seq<Value>, i: nat)
    requires i <= |xs| && i <= |ys|
    ensures CmpItems(ys, xs, i) == -CmpItems(xs, ys, i)
    decreases VList(xs), 0, |xs| - i
  {
    if i < |xs| && i < |ys| {
      CmpAntisymmetric(xs[i], ys[i]);
      CmpItemsAntisymmetric(xs, ys, i + 1);
    }
  }

  /** `<=` is transitive, and a chain `a <= b <= c` ties `a` with `c` exactly when both steps tie. */
  lemma {:induction false} CmpTransitive(a: Value, b: Value, c: Value)
    requires Cmp(a, b) <= 0 && Cmp(b, c) <= 0
    ensures Cmp(a, c) <= 0
    ensures Cmp(a, c) == 0 <==> Cmp(a, b) == 0 && Cmp(b, c) == 0
    decreases a, 1
  {
    if KindRank(a) == KindRank(b) == KindRank(c) {
      if a.VStr? {
        StrLessTotal(a.s, b.s);
        StrLessTotal(b.s, c.s);
        StrLessTotal(a.s, c.s);
        StrLessAsymmetric(a.s, c.s);
        if StrLess(a.s, b.s) && StrLess(b.s, c.s) {
          StrLessTransitive(a.s, b.s, c.s);
        }
        if StrLess(c.s, a.s) {
          if a.s == b.s {
            StrLessAsymmetric(b.s, c.s);
          } else {
            StrLessTransitive(c.s, a.s, b.s);
            StrLessAsymmetric(b.s, c.s);
          }
        }
      } else if a.VList? {
        CmpItemsTransitive(a.items, b.items, c.items, 0);
      }
    }
  }

  lemma {:induction false} CmpItemsTransitive(xs: seq<Value>, ys: seq<Value>, zs: seq<Value>, i: nat)
    requires i <= |xs| && i <= |ys| && i <= |zs|
    requires CmpItems(xs, ys, i) <= 0 && CmpItems(ys, zs, i) <= 0
    ensures CmpItems(xs, zs, i) <= 0
    ensures CmpItems(xs, zs, i) == 0 <==> CmpItems(xs, ys, i) == 0 && CmpItems(ys, zs, i) == 0
    decreases VList(xs), 0, |xs| - i
  {
    if i < |xs| && i < |ys| && i < |zs| {
      CmpTransitive(xs[i], ys[i], zs[i]);
      if Cmp(xs[i], ys[i]) == 0 && Cmp(ys[i], zs[i]) == 0 {
        CmpItemsTransitive(xs, ys, zs, i + 1);
      }
    }
  }

  lemma LessIrreflexive(a: Value)
    ensures !Less(a, a)
  {
    CmpAntisymmetric(a, a);
  }

  lemma LessTransitive(a: Value, b: Value, c: Value)
    requires Less(a, b) && Less(b, c)
    ensures Less(a, c)
  {
    CmpTransitive(a, b, c);
  }

  /** Less is a strict weak order: if a < c then any b is above a or below c. */
  lemma LessNegativelyTransitive(a: Value, b: Value, c: Value)
    requires Less(a, c)
    ensures Less(a, b) || Less(b, c)
  {
    if !Less(a, b) && !Less(b, c) {
      CmpAntisymmetric(a, b);
      CmpAntisymmetric(b, c);
      CmpAntisymmetric(a, c);
      CmpTransitive(c, b, a);
    }
  }

  lemma TiedIsEquivalence(a: Value, b: Value, c: Value)
    ensures Tied(a, a)
    ensures Tied(a, b) ==> Tied(b, a)
    ensures Tied(a, b) && Tied(b, c) ==> Tied(a, c)
  {
    LessIrreflexive(a);
    if Tied(a, b) && Tied(b, c) {
      if Less(a, c) {
        LessNegativelyTransitive(a, b, c);
      }
      if Less(c, a) {
        LessNegativelyTransitive(c, b, a);
      }
    }
  }

  /**
   * Reference reading of list comparison: the items before index `k` tie, and
   * at `k` either `xs` has run out while `ys` goes on, or `xs[k] < ys[k]`.
   */
  predicate FirstDifferenceAt(xs: seq<Value>, ys: seq<Value>, k: nat) {
    k <= |xs| && k <= |ys| &&
    (forall j :: 0 <= j < k ==> Tied(xs[j], ys[j])) &&
    ((k == |xs| && k < |ys|) || (k < |xs| && k < |ys| && Less(xs[k], ys[k])))
  }

  lemma {:induction false} CmpItemsFirstDifference(xs: seq<Value>, ys: seq<Value>, i: nat)
    requires i <= |xs| && i <= |ys|
    requires forall j :: 0 <= j < i ==> Tied(xs[j], ys[j])
    ensures CmpItems(xs, ys, i) < 0 <==> exists k: nat :: i <= k && FirstDifferenceAt(xs, ys, k)
    decreases |xs| - i
  {
    if i < |xs| && i < |ys| {
      CmpAntisymmetric(xs[i], ys[i]);
      if Cmp(xs[i], ys[i]) == 0 {
        CmpItemsFirstDifference(xs, ys, i + 1);
      } else if Cmp(xs[i], ys[i]) < 0 {
        assert FirstDifferenceAt(xs, ys, i);
      }
    } else if i == |xs| && i < |ys| {
      assert FirstDifferenceAt(xs, ys, i);
    }
  }

  /** Lists compare as Python compares them: the first items that do not tie decide. */
  lemma ListsCompareLexicographically(xs: seq<Value>, ys: seq<Value>)
    ensures Less(VList(xs), VList(ys)) <==> exists k: nat :: FirstDifferenceAt(xs, ys, k)
  {
    CmpItemsFirstDifference(xs, ys, 0);
  }

  /** A proper prefix sorts first, and `[1, 9] < [2]`. */
  lemma ListOrderExamples()
    ensures Less(VList([VInt(1)]), VList([VInt(1), VNone]))
    ensures Less(VList([VInt(1), VInt(9)]), VList([VInt(2)]))
    ensures !Less(VList([VInt(2)]), VList([VInt(1)]))
  {
  }

  /** Keys of one kind compare as Python compares them: strings tie only when equal. */
  lemma TiedStrings(a: string, b: string)
    ensures Tied(VStr(a), VStr(b)) <==> a == b
  {
    StrLessTotal(a, b);
    if a == b {
      StrLessIrreflexive(a);
    }
  }

  // ---------------------------------------------------------------------
  // Property accessors
  // ---------------------------------------------------------------------

  /**
   * What a property function can raise while reading a record: KeyError when
   * `rec[key]` is applied to a dictionary without `key`, TypeError when it is
   * applied to a value that is not subscriptable by a string (None, a number,
   * a string or a list), AttributeError when `rec.name` names no attribute.
   */
  datatype ReadError = MissingKey(key: string) | NotSubscriptable(kind: TypeTag) | MissingAttribute(name: string)

  /** One step of a property function: a subscript `[key]` or an attribute access `.name`. */
  datatype Step = Subscript(key: string) | Attribute(name: string)

  /**
   * A property function `lambda a: a["k1"].n2...`: the steps it takes. A
   * record's attributes are the fields of its dictionary; any other value has
   * none of the attributes a property function reads.
   */
  datatype Accessor = Path(steps: seq<Step>) {

    /** The property value of `rec`, or the exception the first failing step raises. */
    function Read(rec: Record): (r: Result<Value, ReadError>)
      ensures |steps| == 0 ==> r == Success(rec)
      ensures |steps| > 0 && rec.VDict? && StepName(steps[0]) in rec.fields ==>
                r == Path(steps[1..]).Read(rec.fields[StepName(steps[0])])
      ensures |steps| > 0 && rec.VDict? && StepName(steps[0]) !in rec.fields ==>
                r == Failure(if steps[0].Subscript? then MissingKey(steps[0].key) else MissingAttribute(steps[0].name))
      ensures |steps| > 0 && !rec.VDict? ==>
                r == Failure(if steps[0].Subscript? then NotSubscriptable(TypeOf(rec)) else MissingAttribute(steps[0].name))
      ensures r.Failure? && r.error.MissingKey? ==> Subscript(r.error.key) in steps
      ensures r.Failure? && r.error.MissingAttribute? ==> Attribute(r.error.name) in steps
      decreases |steps|
    {
      if |steps| == 0 then Success(rec)
      else if rec.VDict? && StepName(steps[0]) in rec.fields then Path(steps[1..]).Read(rec.fields[StepName(steps[0])])
      else if steps[0].Attribute? then Failure(MissingAttribute(steps[0].name))
      else if rec.VDict? then Failure(MissingKey(steps[0].key))
      else Failure(NotSubscriptable(TypeOf(rec)))
    }
  }

  /** The field a step reads. */
  function StepName(s: Step): string {
    if s.Subscript? then s.key else s.name
  }
}
