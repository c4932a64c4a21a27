/**
 * The values kept in the cache. Go stores them as `interface{}`; the model
 * uses a tagged variant with one case per dynamic type the getters produce,
 * so a type assertion becomes a check on the tag.
 */
module Values {
  import opened Wrappers

  newtype Int32 = x: int | -0x8000_0000 <= x < 0x8000_0000
  newtype Int64 = x: int | -0x8000_0000_0000_0000 <= x < 0x8000_0000_0000_0000

  datatype Value =
    | Nil                               // Go's untyped nil (also what an absent key reads as)
    | Str(s: string)
    | Bool(b: bool)
    | Int(i: Int64)                     // Go `int`, 64 bits wide
    | Int32(i32: Int32)
    | Int64(i64: Int64)
    | Float64(bits: bv64)               // an IEEE 754 bit pattern, never computed with
    | Duration(nanos: Int64)            // `time.Duration`, in nanoseconds
    | StringSlice(items: seq<string>)
    | Other(token: nat)                 // any other raw value the source hands back (maps, lists)

  /** What a getter asks for: `Get` takes any value, the others one Go type each. */
  datatype Kind =
    | AnyKind | StringKind | BoolKind | IntKind | Int32Kind | Int64Kind
    | Float64Kind | DurationKind | StringSliceKind

  datatype Fault =
    | TypeMismatch(expected: Kind, found: Value)   // a panicking type assertion
    | ConfigUnreadable(name: string)               // ReadInConfig failed: fatal
    | NoWorkingDir                                 // os.Getwd failed: fatal
    | SliceOutOfRange                              // a string slice past its end: a panic

  /** `v` has the dynamic type that a getter of kind `k` asserts. */
  predicate HasKind(v: Value, k: Kind)
  {
    match k
    case AnyKind => true
    case StringKind => v.Str?
    case BoolKind => v.Bool?
    case IntKind => v.Int?
    case Int32Kind => v.Int32?
    case Int64Kind => v.Int64?
    case Float64Kind => v.Float64?
    case DurationKind => v.Duration?
    case StringSliceKind => v.StringSlice?
  }

  /** The type assertion `v.(T)` of a getter of kind `k`; `Get` asserts nothing. */
  function Checked(k: Kind, v: Value): (r: Result<Value, Fault>)
    ensures r.Ok? <==> HasKind(v, k)
    ensures r.Ok? ==> r.value == v
    ensures r.Err? ==> r.error == TypeMismatch(k, v)
  {
    if HasKind(v, k) then Ok(v) else Err(TypeMismatch(k, v))
  }

  /**
   * The assertions of the getters partition the values: the untyped `Get`
   * accepts every value, each typed getter accepts exactly one variant, so
   * no value passes two typed assertions, and nil or any other raw value
   * fails every typed one.
   */
  lemma AssertionsExclusive(v: Value, k1: Kind, k2: Kind)
    ensures Checked(AnyKind, v) == Ok(v)
    ensures k1 != AnyKind && k2 != AnyKind && k1 != k2 ==> Checked(k1, v).Err? || Checked(k2, v).Err?
    ensures (v.Nil? || v.Other?) && k1 != AnyKind ==> Checked(k1, v) == Err(TypeMismatch(k1, v))
    ensures !v.Nil? && !v.Other? ==> exists k :: k != AnyKind && Checked(k, v).Ok?
  {
    if !v.Nil? && !v.Other? {
      var k := KindOf(v);
      assert k != AnyKind && Checked(k, v).Ok?;
    }
  }

  /** The typed getter whose assertion a non-nil, non-raw value passes. */
  function KindOf(v: Value): (k: Kind)
    requires !v.Nil? && !v.Other?
    ensures k != AnyKind && HasKind(v, k)
  {
    match v
    case Str(_) => StringKind
    case Bool(_) => BoolKind
    case Int(_) => IntKind
    case Int32(_) => Int32Kind
    case Int64(_) => Int64Kind
    case Float64(_) => Float64Kind
    case Duration(_) => DurationKind
    case StringSlice(_) => StringSliceKind
  }

  /**
   * The Go zero value a typed viper getter returns for a missing key; the
   * untyped `Get` returns nil.
   */
  function ZeroOf(k: Kind): (v: Value)
    ensures HasKind(v, k)
    ensures k == AnyKind <==> v.Nil?
  {
    match k
    case AnyKind => Nil
    case StringKind => Str("")
    case BoolKind => Bool(false)
    case IntKind => Int(0)
    case Int32Kind => Int32(0)
    case Int64Kind => Int64(0)
    case Float64Kind => Float64(0)
    case DurationKind => Duration(0)
    case StringSliceKind => StringSlice([])
  }
}
