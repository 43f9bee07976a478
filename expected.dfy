/**
 * TRAP::Unexpected<E>, TRAP::Expected<T,E> and TRAP::Expected<void,E>
 * (TRAP/src/Utils/Expected.h).
 *
 * An Expected is a flag m_hasValue and a union of m_value and m_unexpected.
 * The branch-and-return members are functions over the datatype Expected;
 * AssignValue, AssignUnexpected, Emplace, Swap and SwapValueUnexpected, which
 * destroy and construct union members in place, are methods of ExpectedBox.
 * Expected<void,E> is the datatype at T = ().
 */
module ExpectedModel {

  /** Unexpected<E>: a wrapper around one error value. */
  datatype Unexpected<E> = Unexpected(error: E)

  /** Observable state of an Expected<T,E>. */
  datatype Expected<T, E> = Value(value: T) | Failure(error: E)

  /** What Value() does: return the value or throw BadExpectedAccess<E> carrying the error. */
  datatype Access<T, E> = Returns(v: T) | ThrowsBadExpectedAccess(carried: E)

  /** Unexpected == Unexpected compares the errors. */
  function UnexpectedEquals<E(==)>(x: Unexpected<E>, y: Unexpected<E>): (r: bool)
    ensures r <==> x == y
  {
    x.error == y.error
  }

  /** Expected(const Unexpected<G>&), Expected(Unexpected<G>&&): holds the error. */
  function FromUnexpected<T, E>(u: Unexpected<E>): (r: Expected<T, E>)
    ensures !r.Value? && r.error == u.error
  {
    Failure(u.error)
  }

  /** Value(): returns the value, or throws BadExpectedAccess carrying the error. */
  function GetValue<T, E>(x: Expected<T, E>): (r: Access<T, E>)
    ensures r.Returns? <==> x.Value?
    ensures r.Returns? ==> x == Value(r.v)
    ensures r.ThrowsBadExpectedAccess? ==> x == Failure(r.carried)
  {
    match x
    case Value(v) => Returns(v)
    case Failure(e) => ThrowsBadExpectedAccess(e)
  }

  /** Error(): only defined when no value is held (TRAP_ASSERT(!m_hasValue)). */
  function Error<T, E>(x: Expected<T, E>): (e: E)
    requires !x.Value?
    ensures x == Failure(e)
  {
    x.error
  }

  /** ValueOr(v). */
  function ValueOr<T, E>(x: Expected<T, E>, v: T): T
  {
    if x.Value? then x.value else v
  }

  /** ErrorOr(e): the held error, or e when a value is held. */
  function ErrorOr<T, E>(x: Expected<T, E>, e: E): E
  {
    if x.Value? then e else x.error
  }

  /** ValueOrElse(f). */
  function ValueOrElse<T, E>(x: Expected<T, E>, f: () -> T): T
  {
    if x.Value? then x.value else f()
  }

  /** ValueOr and ErrorOr fall back exactly on the side that is not held, and
      ValueOr is Value() with the exception replaced by the fallback. */
  lemma FallbacksMeaning<T, E>(x: Expected<T, E>, v: T, e: E)
    ensures x.Value? ==> ValueOr(x, v) == x.value && ErrorOr(x, e) == e
    ensures !x.Value? ==> ValueOr(x, v) == v && ErrorOr(x, e) == x.error
    ensures ValueOr(x, v) == match GetValue(x) { case Returns(w) => w case ThrowsBadExpectedAccess(_) => v }
    ensures ValueOrElse(x, () => v) == ValueOr(x, v)
  {
  }

  /** AndThen(f): f(value), or the error carried over unchanged. */
  function AndThen<T, E, U>(x: Expected<T, E>, f: T -> Expected<U, E>): Expected<U, E>
  {
    match x
    case Value(v) => f(v)
    case Failure(e) => Failure(e)
  }

  /** OrElse(f): the value carried over unchanged, or f(error). */
  function OrElse<T, E, G>(x: Expected<T, E>, f: E -> Expected<T, G>): Expected<T, G>
  {
    match x
    case Value(v) => Value(v)
    case Failure(e) => f(e)
  }

  /** Transform(f): Expected(f(value)), or the error. */
  function Transform<T, E, U>(x: Expected<T, E>, f: T -> U): Expected<U, E>
  {
    match x
    case Value(v) => Value(f(v))
    case Failure(e) => Failure(e)
  }

  /** TransformError(f): the value, or Unexpected(f(error)). */
  function TransformError<T, E, G>(x: Expected<T, E>, f: E -> G): Expected<T, G>
  {
    match x
    case Value(v) => Value(v)
    case Failure(e) => Failure(f(e))
  }

  /** AndThen passes an error through and applies f to a value; OrElse is its mirror. */
  lemma AndThenOrElseMeaning<T, E, U, G>(x: Expected<T, E>, f: T -> Expected<U, E>, g: E -> Expected<T, G>)
    ensures !x.Value? ==> AndThen(x, f) == Failure(x.error)
    ensures x.Value? ==> AndThen(x, f) == f(x.value)
    ensures x.Value? ==> OrElse(x, g) == Value(x.value)
    ensures !x.Value? ==> OrElse(x, g) == g(x.error)
  {
  }

  /** Transform touches only the value side and TransformError only the error
      side; each is the corresponding monadic combinator with a wrapped result. */
  lemma TransformsTouchOneSide<T, E, U, G>(x: Expected<T, E>, f: T -> U, g: E -> G)
    ensures Transform(x, f).Value? <==> x.Value?
    ensures !x.Value? ==> Transform(x, f).error == x.error
    ensures TransformError(x, g).Value? <==> x.Value?
    ensures x.Value? ==> TransformError(x, g).value == x.value
    ensures Transform(x, f) == AndThen(x, v => Value(f(v)))
    ensures TransformError(x, g) == OrElse(x, e => Failure(g(e)))
  {
  }

  /** Transform and TransformError commute: each side is mapped independently. */
  lemma TransformsCommute<T, E, U, G>(x: Expected<T, E>, f: T -> U, g: E -> G)
    ensures TransformError(Transform(x, f), g) == Transform(TransformError(x, g), f)
  {
  }

  /** Expected == Expected: same side and equal contents. */
  function Equals<T(==), E(==)>(lhs: Expected<T, E>, rhs: Expected<T, E>): (r: bool)
    ensures r <==> lhs == rhs
  {
    if lhs.Value? then rhs.Value? && lhs.value == rhs.value
    else !rhs.Value? && lhs.error == rhs.error
  }

  /** Expected == T and Expected == Unexpected<E>. */
  lemma MixedEquality<T, E>(x: Expected<T, E>, v: T, u: Unexpected<E>)
    ensures (x.Value? && x.value == v) <==> Equals(x, Value(v))
    ensures (!x.Value? && x.error == u.error) <==> Equals(x, FromUnexpected(u))
  {
  }

  // ---------------------------------------------------------------------------
  // Expected<void, E>
  // ---------------------------------------------------------------------------

  /** Expected<void,E>::AndThen(f): f(), or the error. */
  function VoidAndThen<E, U>(x: Expected<(), E>, f: () -> Expected<U, E>): Expected<U, E>
  {
    if x.Value? then f() else Failure(x.error)
  }

  /** Expected<void,E>::OrElse(f): an empty value, or f(error). */
  function VoidOrElse<E, G>(x: Expected<(), E>, f: E -> Expected<(), G>): Expected<(), G>
  {
    if x.Value? then Value(()) else f(x.error)
  }

  /** Expected<void,E>::Transform(f): Expected(f()), or the error. */
  function VoidTransform<E, U>(x: Expected<(), E>, f: () -> U): Expected<U, E>
  {
    if x.Value? then Value(f()) else Failure(x.error)
  }

  /** Expected<void,E> == Expected<void,E>: both hold a value, or both hold equal errors. */
  function VoidEquals<E(==)>(lhs: Expected<(), E>, rhs: Expected<(), E>): (r: bool)
    ensures r <==> lhs == rhs
  {
    match (lhs, rhs)
    case (Value(()), Value(())) => true
    case (Failure(a), Failure(b)) => a == b
    case _ => false
  }

  /** The void specialisation behaves as the general template would at T = (). */
  lemma VoidAgreesWithGeneral<E, U, G>(x: Expected<(), E>, f: () -> Expected<U, E>,
                                      g: E -> Expected<(), G>, h: () -> U)
    ensures VoidAndThen(x, f) == AndThen(x, _ => f())
    ensures VoidOrElse(x, g) == OrElse(x, g)
    ensures VoidTransform(x, h) == Transform(x, _ => h())
  {
    match x
    case Value(()) =>
    case Failure(_) =>
  }

  // ---------------------------------------------------------------------------
  // In-place members
  // ---------------------------------------------------------------------------

  /** Expected<T,E> as an object: the flag and both union members.  Only the
      member the flag selects is live. */
  class ExpectedBox<T(0), E(0)> {
    var hasValue: bool
    var val: T
    var unexpected: E

    /** The value this object denotes. */
    function Contents(): Expected<T, E>
      reads this
    {
      if hasValue then Value(val) else Failure(unexpected)
    }

    /** Expected(): holds the value-initialised T, given here as d. */
    constructor Default(d: T)
      ensures Contents() == Value(d)
    {
      hasValue := true;
      val := d;
    }

    /** Expected(in_place, args...) and Expected(U&&): holds v. */
    constructor InPlace(v: T)
      ensures Contents() == Value(v)
    {
      hasValue := true;
      val := v;
    }

    /** Expected(Unexpect, args...), Expected(const Unexpected&), Expected(Unexpected&&). */
    constructor Unexpect(e: E)
      ensures Contents() == Failure(e)
    {
      hasValue := false;
      unexpected := e;
    }

    /** Copy and move constructors: copy the flag and the live member. */
    constructor CopyOf(other: Expected<T, E>)
      ensures Contents() == other
    {
      hasValue := other.Value?;
      if other.Value? {
        val := other.value;
      } else {
        unexpected := other.error;
      }
    }

    /** HasValue() / operator bool. */
    function HasValue(): (b: bool)
      reads this
      ensures b <==> Contents().Value?
    {
      hasValue
    }

    /** AssignValue: assigns into a live value, or re-initialises the union. */
    method AssignValue(v: T)
      modifies this
      ensures Contents() == Value(v)
    {
      if hasValue {
        val := v;
      } else {
        val := v;
        hasValue := true;
      }
    }

    /** AssignUnexpected: the mirror of AssignValue for the error side. */
    method AssignUnexpected(e: E)
      modifies this
      ensures Contents() == Failure(e)
    {
      if hasValue {
        unexpected := e;
        hasValue := false;
      } else {
        unexpected := e;
      }
    }

    /** Copy and move assignment: AssignValue or AssignUnexpected according to the source. */
    method Assign(other: Expected<T, E>)
      modifies this
      ensures Contents() == other
      ensures HasValue() == other.Value?
    {
      if other.Value? {
        AssignValue(other.value);
      } else {
        AssignUnexpected(other.error);
      }
    }

    /** Emplace(args...): destroys the live member and constructs a value. */
    method Emplace(v: T)
      modifies this
      ensures Contents() == Value(v)
    {
      hasValue := true;
      val := v;
    }

    /** SwapValueUnexpected: this holds a value, rhs an error; afterwards this
        holds rhs's error and rhs holds this value. */
    method SwapValueUnexpected(rhs: ExpectedBox<T, E>)
      requires hasValue && !rhs.hasValue
      modifies this, rhs
      ensures Contents() == Failure(old(rhs.unexpected))
      ensures rhs.Contents() == Value(old(val))
    {
      var guard := rhs.unexpected;
      rhs.val := val;
      rhs.hasValue := true;
      unexpected := guard;
      hasValue := false;
    }

    /** Swap: exchanges presence and contents in all four combinations. */
    method Swap(x: ExpectedBox<T, E>)
      modifies this, x
      ensures Contents() == old(x.Contents())
      ensures x.Contents() == old(Contents())
    {
      if hasValue {
        if x.hasValue {
          var t := val;
          val := x.val;
          x.val := t;
        } else {
          SwapValueUnexpected(x);
        }
      } else {
        if x.hasValue {
          x.SwapValueUnexpected(this);
        } else {
          var t := unexpected;
          unexpected := x.unexpected;
          x.unexpected := t;
        }
      }
    }

    /** Value(): read-only checked access. */
    method GetValueChecked() returns (r: Access<T, E>)
      ensures r == GetValue(Contents())
    {
      if hasValue {
        r := Returns(val);
      } else {
        r := ThrowsBadExpectedAccess(unexpected);
      }
    }
  }

  /** Expected<void,E> as an object: only the flag and the error member. */
  class VoidExpectedBox<E(0)> {
    var hasValue: bool
    var unexpected: E

    function Contents(): Expected<(), E>
      reads this
    {
      if hasValue then Value(()) else Failure(unexpected)
    }

    /** Expected() and Expected(in_place): holds the empty value. */
    constructor Default()
      ensures Contents() == Value(())
    {
      hasValue := true;
    }

    /** Expected(Unexpect, args...) and construction from an Unexpected. */
    constructor Unexpect(e: E)
      ensures Contents() == Failure(e)
    {
      hasValue := false;
      unexpected := e;
    }

    /** Emplace(): destroys an error if one is held; afterwards a value is held. */
    method Emplace()
      modifies this
      ensures Contents() == Value(())
    {
      if !hasValue {
        hasValue := true;
      }
    }

    /** AssignUnexpected. */
    method AssignUnexpected(e: E)
      modifies this
      ensures Contents() == Failure(e)
    {
      unexpected := e;
      hasValue := false;
    }

    /** Move assignment: Emplace() when the source holds a value, else AssignUnexpected. */
    method Assign(other: Expected<(), E>)
      modifies this
      ensures Contents() == other
    {
      match other
      case Value(()) => Emplace();
      case Failure(e) => AssignUnexpected(e);
    }

    /** Swap: moves the error to whichever side held the value, or exchanges two errors. */
    method Swap(other: VoidExpectedBox<E>)
      modifies this, other
      ensures Contents() == old(other.Contents())
      ensures other.Contents() == old(Contents())
    {
      if hasValue {
        if !other.hasValue {
          unexpected := other.unexpected;
          hasValue := false;
          other.hasValue := true;
        }
      } else {
        if other.hasValue {
          other.unexpected := unexpected;
          hasValue := true;
          other.hasValue := false;
        } else {
          var t := unexpected;
          unexpected := other.unexpected;
          other.unexpected := t;
        }
      }
    }

    /** Value(): returns nothing, or throws BadExpectedAccess carrying the error. */
    method ValueChecked() returns (r: Access<(), E>)
      ensures r == GetValue(Contents())
    {
      if hasValue {
        r := Returns(());
      } else {
        r := ThrowsBadExpectedAccess(unexpected);
      }
    }
  }
}
