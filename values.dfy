/**
 * The values that `Contract.requires` accepts, Python's truth test over
 * them, and the emptiness rule of `requires`: a value is empty when it is
 * falsy and is not a `bool`.
 */
module Values {

  datatype Option<+T> = None | Some(value: T)

  /**
   * One constructor per category of the `value` parameter of `requires`.
   * Numbers and decimals carry their value as a real, collections their
   * elements. A generic iterable or object carries what its own `__bool__`
   * and `__len__` would return, or `None` when its type defines neither.
   * `Iterable` and `Object` share that payload and that rule; they stay two
   * constructors only because `requires` lists both categories.
   */
  datatype Value =
    | Str(s: string)
    | Int(n: int)
    | Float(x: real)
    | Bool(b: bool)
    | Decimal(d: real)
    | List(items: seq<Value>)
    | Tuple(items: seq<Value>)
    | Set(elems: set<Value>)
    | Dict(entries: map<Value, Value>)
    | Uuid(bits: nat)
    | Struct(format: string)
    | Callable(name: string)
    | Iterable(dunderBool: Option<bool>, dunderLen: Option<nat>)
    | Object(dunderBool: Option<bool>, dunderLen: Option<nat>)
    | NoneValue

  /** What the value's `__bool__` returns, when its type defines one. */
  function DunderBool(v: Value): Option<bool> {
    match v
    case Int(n) => Some(n != 0)
    case Float(x) => Some(x != 0.0)
    case Bool(b) => Some(b)
    case Decimal(d) => Some(d != 0.0)
    case Iterable(b, _) => b
    case Object(b, _) => b
    case NoneValue => Some(false)
    case _ => None
  }

  /** What the value's `__len__` returns, when its type defines one. */
  function DunderLen(v: Value): Option<nat> {
    match v
    case Str(s) => Some(|s|)
    case List(xs) => Some(|xs|)
    case Tuple(xs) => Some(|xs|)
    case Set(e) => Some(|e|)
    case Dict(m) => Some(|m|)
    case Iterable(_, l) => l
    case Object(_, l) => l
    case _ => None
  }

  /**
   * Python's truth test (`not value` is its negation): `__bool__` when the
   * type defines it, otherwise `__len__() != 0`, otherwise true.
   */
  predicate Truthy(v: Value) {
    match DunderBool(v)
    case Some(b) => b
    case None =>
      match DunderLen(v)
      case Some(n) => n != 0
      case None => true
  }

  /**
   * The emptiness rule of `requires`, written out category by category.
   * It is exactly PyFlunt's condition in `Contract.requires`, `not value and not isinstance(value, bool)`.
   */
  function IsEmpty(v: Value): (r: bool)
    ensures r <==> !Truthy(v) && !v.Bool?
  {
    match v
    case Str(s) => s == ""
    case Int(n) => n == 0
    case Float(x) => x == 0.0
    case Bool(_) => false
    case Decimal(d) => d == 0.0
    case List(xs) => xs == []
    case Tuple(xs) => xs == []
    case Set(e) => e == {}
    case Dict(m) => m == map[]
    case Uuid(_) => false
    case Struct(_) => false
    case Callable(_) => false
    case Iterable(b, l) => if b.Some? then !b.value else l == Some(0)
    case Object(b, l) => if b.Some? then !b.value else l == Some(0)
    case NoneValue => true
  }

  /** Neither `True` nor `False` is ever empty, although `False` is falsy. */
  lemma BoolCarveOut(b: bool)
    ensures !IsEmpty(Bool(b))
    ensures Truthy(Bool(b)) == b
  {
  }

  /** The falsy non-boolean values of each category are empty. */
  lemma FalsyValuesAreEmpty()
    ensures IsEmpty(Str(""))
    ensures IsEmpty(Int(0)) && IsEmpty(Float(0.0)) && IsEmpty(Decimal(0.0))
    ensures IsEmpty(List([])) && IsEmpty(Tuple([]))
    ensures IsEmpty(Set({})) && IsEmpty(Dict(map[]))
    ensures IsEmpty(NoneValue)
  {
  }

  /** UUIDs, `Struct`s and callables define neither `__bool__` nor `__len__`: never empty. */
  lemma AlwaysTruthyCategories(v: Value)
    requires v.Uuid? || v.Struct? || v.Callable?
    ensures Truthy(v) && !IsEmpty(v)
  {
  }
}
