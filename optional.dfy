/**
 * TRAP::Optional<T> and TRAP::Optional<T&> (TRAP/src/Utils/Optional.h).
 *
 * An Optional<T> is a presence flag (m_active) and a union slot (m_value)
 * that is live only while the flag is set.  The pure members (ValueOr, the
 * monadic combinators, the relational operators) are functions over the
 * datatype Optional; the members that update the flag and the slot in place
 * (Reset, Emplace, Swap, the assignment operators, Take) are methods of the
 * class OptionalBox, whose abstract value is that datatype.
 */
module OptionalModel {

  /** Observable state of an Optional<T>. */
  datatype Optional<T> = NullOpt | Engaged(value: T)

  /** What the checked accessor Value() does: return, or throw BadOptionalAccess. */
  datatype Access<T> = Returns(v: T) | ThrowsBadOptionalAccess

  /** Value(): the contained value, or a BadOptionalAccess exception on an empty Optional. */
  function Value<T>(o: Optional<T>): (r: Access<T>)
    ensures r == ThrowsBadOptionalAccess <==> o == NullOpt
    ensures r.Returns? ==> o == Engaged(r.v)
  {
    match o
    case NullOpt => ThrowsBadOptionalAccess
    case Engaged(v) => Returns(v)
  }

  /** ValueOr(u): the contained value when present, u otherwise. */
  function ValueOr<T>(o: Optional<T>, u: T): T
  {
    if o.Engaged? then o.value else u
  }

  /** ValueOr never throws: it is Value() with the exception replaced by u. */
  lemma ValueOrIsValueWithFallback<T>(o: Optional<T>, u: T)
    ensures ValueOr(o, u) == match Value(o) { case Returns(v) => v case ThrowsBadOptionalAccess => u }
  {
  }

  /** Transform(f): Optional(f(v)) for a contained v, an empty Optional otherwise. */
  function Transform<T, U>(o: Optional<T>, f: T -> U): Optional<U>
  {
    match o
    case NullOpt => NullOpt
    case Engaged(v) => Engaged(f(v))
  }

  /** AndThen(f): f(v) for a contained v, an empty Optional otherwise. */
  function AndThen<T, U>(o: Optional<T>, f: T -> Optional<U>): Optional<U>
  {
    match o
    case NullOpt => NullOpt
    case Engaged(v) => f(v)
  }

  /** OrElse(f): *this when it holds a value, f() otherwise. */
  function OrElse<T>(o: Optional<T>, f: () -> Optional<T>): Optional<T>
  {
    if o.Engaged? then o else f()
  }

  /** ValueOrElse(f): the contained value, or f() when empty. */
  function ValueOrElse<T>(o: Optional<T>, f: () -> T): T
  {
    if o.Engaged? then o.value else f()
  }

  /** TransformOr(f, u): f(v) for a contained v, u otherwise. */
  function TransformOr<T, U>(o: Optional<T>, f: T -> U, u: U): U
  {
    if o.Engaged? then f(o.value) else u
  }

  /** TransformOrElse(f, u): f(v) for a contained v, u() otherwise. */
  function TransformOrElse<T, U>(o: Optional<T>, f: T -> U, u: () -> U): U
  {
    if o.Engaged? then f(o.value) else u()
  }

  /** Transform and AndThen leave an empty Optional empty; on a full one
      Transform wraps f(v) and AndThen returns f(v) itself. */
  lemma CombinatorsOnEmptyAndFull<T, U>(v: T, f: T -> U, g: T -> Optional<U>)
    ensures Transform(NullOpt, f) == NullOpt && AndThen(NullOpt, g) == NullOpt
    ensures Transform(Engaged(v), f) == Engaged(f(v)) && AndThen(Engaged(v), g) == g(v)
  {
  }

  /** Transform is AndThen with a continuation that always produces a value. */
  lemma TransformIsAndThenEngaged<T, U>(o: Optional<T>, f: T -> U)
    ensures Transform(o, f) == AndThen(o, x => Engaged(f(x)))
    ensures Transform(o, f).Engaged? <==> o.Engaged?
  {
  }

  /** Transform composes: mapping f then g is mapping their composition. */
  lemma TransformComposes<T, U, W>(o: Optional<T>, f: T -> U, g: U -> W)
    ensures Transform(Transform(o, f), g) == Transform(o, x => g(f(x)))
  {
  }

  /** AndThen is associative, and Engaged is its identity on both sides. */
  lemma AndThenMonadLaws<T, U, W>(o: Optional<T>, v: T, f: T -> Optional<U>, g: U -> Optional<W>)
    ensures AndThen(Engaged(v), f) == f(v)
    ensures AndThen(o, x => Engaged(x)) == o
    ensures AndThen(AndThen(o, f), g) == AndThen(o, x => AndThen(f(x), g))
  {
  }

  /** The fallback forms agree: ValueOrElse with a constant is ValueOr,
      TransformOr is ValueOr after Transform, and OrElse never empties a full Optional. */
  lemma FallbacksAgree<T, U>(o: Optional<T>, u: T, f: T -> U, w: U)
    ensures ValueOrElse(o, () => u) == ValueOr(o, u)
    ensures TransformOr(o, f, w) == ValueOr(Transform(o, f), w)
    ensures TransformOrElse(o, f, () => w) == TransformOr(o, f, w)
    ensures OrElse(o, () => NullOpt) == o
  {
  }

  // ---------------------------------------------------------------------------
  // Relational operators (non-member templates at the end of Optional.h)
  // ---------------------------------------------------------------------------

  /** The six comparison operators; contained values are modelled as int. */
  datatype RelOp = Eq | Ne | Lt | Gt | Le | Ge

  /** The comparison a RelOp denotes on two contained values. */
  function OnValues(op: RelOp, a: int, b: int): bool
  {
    match op
    case Eq => a == b
    case Ne => a != b
    case Lt => a < b
    case Gt => a > b
    case Le => a <= b
    case Ge => a >= b
  }

  /** Optional-to-Optional comparison, one branch list per operator as written:
      == and != first test presence; <, <= yield true on an empty lhs and
      false on an empty rhs; >, >= the other way round. */
  function Compare(op: RelOp, lhs: Optional<int>, rhs: Optional<int>): bool
  {
    match op
    case Eq =>
      if lhs.Engaged? != rhs.Engaged? then false
      else if !lhs.Engaged? then true
      else lhs.value == rhs.value
    case Ne =>
      if lhs.Engaged? != rhs.Engaged? then true
      else if !lhs.Engaged? then false
      else lhs.value != rhs.value
    case Lt =>
      if !lhs.Engaged? then true
      else if !rhs.Engaged? then false
      else lhs.value < rhs.value
    case Gt =>
      if !lhs.Engaged? then false
      else if !rhs.Engaged? then true
      else lhs.value > rhs.value
    case Le =>
      if !lhs.Engaged? then true
      else if !rhs.Engaged? then false
      else lhs.value <= rhs.value
    case Ge =>
      if !lhs.Engaged? then false
      else if !rhs.Engaged? then true
      else lhs.value >= rhs.value
  }

  /** == holds exactly when both are empty or both hold equal values; != is its negation. */
  lemma EqualityMeaning(lhs: Optional<int>, rhs: Optional<int>)
    ensures Compare(Eq, lhs, rhs) <==> lhs == rhs
    ensures Compare(Ne, lhs, rhs) <==> !Compare(Eq, lhs, rhs)
  {
  }

  /** < is true whenever lhs is empty (even when rhs is empty as well) and
      false when only rhs is empty; so an empty Optional is "less than" itself,
      and >= (not ==) is the exact negation of <, as > is of <=. */
  lemma OrderingQuirks(lhs: Optional<int>, rhs: Optional<int>)
    ensures !lhs.Engaged? ==> Compare(Lt, lhs, rhs)
    ensures lhs.Engaged? && !rhs.Engaged? ==> !Compare(Lt, lhs, rhs)
    ensures Compare(Lt, lhs, lhs) <==> lhs == NullOpt
    ensures Compare(Ge, lhs, rhs) <==> !Compare(Lt, lhs, rhs)
    ensures Compare(Gt, lhs, rhs) <==> !Compare(Le, lhs, rhs)
    ensures Compare(Eq, NullOpt, NullOpt) && !Compare(Ge, NullOpt, NullOpt)
  {
  }

  /** On two full Optionals every operator compares the contained values. */
  lemma CompareEngaged(op: RelOp, a: int, b: int)
    ensures Compare(op, Engaged(a), Engaged(b)) == OnValues(op, a, b)
  {
  }

  /** x == NullOpt is !x. */
  function EqualsNullOpt<T>(x: Optional<T>): (r: bool)
    ensures r <==> x == NullOpt
  {
    !x.Engaged?
  }

  /** The pair of defaults MAKE_OP gives an operator for an empty Optional
      compared against a plain value: (lhs empty, rhs empty). */
  function MixedDefaults(op: RelOp): (bool, bool)
  {
    match op
    case Eq => (false, false)
    case Ne => (true, true)
    case Lt => (true, false)
    case Gt => (false, true)
    case Le => (true, false)
    case Ge => (false, true)
  }

  /** Optional OP value. */
  function CompareToValue(op: RelOp, lhs: Optional<int>, rhs: int): bool
  {
    if lhs.Engaged? then OnValues(op, lhs.value, rhs) else MixedDefaults(op).0
  }

  /** value OP Optional. */
  function CompareValueTo(op: RelOp, lhs: int, rhs: Optional<int>): bool
  {
    if rhs.Engaged? then OnValues(op, lhs, rhs.value) else MixedDefaults(op).1
  }

  /** The MAKE_OP defaults make every mixed comparison agree with the
      Optional-to-Optional operator applied to the value wrapped in an Optional. */
  lemma MixedComparisonsAgree(op: RelOp, o: Optional<int>, v: int)
    ensures CompareToValue(op, o, v) == Compare(op, o, Engaged(v))
    ensures CompareValueTo(op, v, o) == Compare(op, Engaged(v), o)
  {
  }

  /** std::hash<Optional<T>>: the value's hash, or size_t(-1) for an empty Optional. */
  function Hash<T>(o: Optional<T>, hashValue: T -> bv64): (h: bv64)
    ensures o == NullOpt ==> h == 0xFFFF_FFFF_FFFF_FFFF
    ensures o.Engaged? ==> h == hashValue(o.value)
  {
    if !o.Engaged? then 0xFFFF_FFFF_FFFF_FFFF else hashValue(o.value)
  }

  // ---------------------------------------------------------------------------
  // In-place members of Optional<T>
  // ---------------------------------------------------------------------------

  /** Optional<T> as an object: the presence flag and the union slot.
      The slot keeps a stale value after a reset, as the union does. */
  class OptionalBox<T(0)> {
    var active: bool
    var slot: T

    /** The value this object denotes. */
    function Contents(): Optional<T>
      reads this
    {
      if active then Engaged(slot) else NullOpt
    }

    /** Optional() and Optional(NullOpt): no value. */
    constructor Empty()
      ensures Contents() == NullOpt
    {
      active := false;
    }

    /** Optional(U&&) and Optional(InPlace, args...): holds v. */
    constructor Holding(v: T)
      ensures Contents() == Engaged(v)
    {
      active := true;
      slot := v;
    }

    /** Copy and converting constructors: m_active copied, slot built from *other when set. */
    constructor CopyOf(other: Optional<T>)
      ensures Contents() == other
    {
      active := other.Engaged?;
      if other.Engaged? {
        slot := other.value;
      }
    }

    /** HasValue() / operator bool. */
    function HasValue(): (b: bool)
      reads this
      ensures b <==> Contents().Engaged?
    {
      active
    }

    /** ResetNoCheck: ends the slot's lifetime and clears the flag. */
    method ResetNoCheck()
      modifies this
      ensures Contents() == NullOpt && slot == old(slot)
    {
      active := false;
    }

    /** ConstructFrom: builds the slot and sets the flag. */
    method ConstructFrom(v: T)
      modifies this
      ensures Contents() == Engaged(v)
    {
      slot := v;
      active := true;
    }

    /** Reset(): empty afterwards; no effect at all on an empty Optional. */
    method Reset()
      modifies this
      ensures Contents() == NullOpt
      ensures old(Contents()) == NullOpt ==> slot == old(slot)
    {
      if !active {
        return;
      }
      ResetNoCheck();
    }

    /** Emplace(args...): destroy any value, then construct a new one. */
    method Emplace(v: T)
      modifies this
      ensures Contents() == Engaged(v)
    {
      Reset();
      ConstructFrom(v);
    }

    /** operator=(NullOpt). */
    method AssignNullOpt()
      modifies this
      ensures Contents() == NullOpt
    {
      if active {
        ResetNoCheck();
      }
    }

    /** operator=(U&&): assign into a live slot, otherwise construct one. */
    method AssignValue(u: T)
      modifies this
      ensures Contents() == Engaged(u)
    {
      if active {
        slot := u;
      } else {
        ConstructFrom(u);
      }
    }

    /** AssignFromOptional (copy, move and converting assignment): a switch on
        m_active + 2 * o.HasValue(). */
    method AssignFromOptional(o: Optional<T>)
      modifies this
      ensures Contents() == o
    {
      var code := (if active then 1 else 0) + (if o.Engaged? then 2 else 0);
      match code {
        case 0 =>
        case 1 => ResetNoCheck();
        case 2 => ConstructFrom(o.value);
        case 3 => slot := o.value;
        case _ => assert false;
      }
    }

    /** Swap(other): a switch on m_active + 2 * other.m_active that moves the
        value into whichever side was empty, or exchanges two values. */
    method Swap(other: OptionalBox<T>)
      modifies this, other
      ensures Contents() == old(other.Contents())
      ensures other.Contents() == old(Contents())
    {
      var code := (if active then 1 else 0) + (if other.active then 2 else 0);
      match code {
        case 0 =>
        case 1 =>
          other.ConstructFrom(slot);
          ResetNoCheck();
        case 2 =>
          ConstructFrom(other.slot);
          other.ResetNoCheck();
        case 3 =>
          var t := slot;
          slot := other.slot;
          other.slot := t;
        case _ => assert false;
      }
    }

    /** Take(): returns the previous contents and leaves this Optional empty. */
    method Take() returns (ret: Optional<T>)
      modifies this
      ensures ret == old(Contents())
      ensures Contents() == NullOpt
    {
      ret := Contents();
      Reset();
    }

    /** Value() on the object. */
    method GetValue() returns (r: Access<T>)
      ensures r == Value(Contents())
      ensures r.Returns? ==> r.v == slot && active
    {
      if active {
        r := Returns(slot);
      } else {
        r := ThrowsBadOptionalAccess;
      }
    }
  }

  // ---------------------------------------------------------------------------
  // Optional<T&>: a nullable pointer to the referred object
  // ---------------------------------------------------------------------------

  /** An object an Optional<T&> can refer to. */
  class Cell<T> {
    var v: T
    constructor (v0: T)
      ensures v == v0
    {
      v := v0;
    }
  }

  /** Optional<T&>: HasValue() is m_value != nullptr. */
  class OptionalRef<T> {
    var target: Cell?<T>

    /** Optional<T&>(NullOpt) and the default constructor. */
    constructor Empty()
      ensures target == null
    {
      target := null;
    }

    /** Optional<T&>(const Optional<U>& rhs): binds to rhs's value if it has one. */
    constructor FromOptional(rhs: OptionalRef<T>)
      ensures target == rhs.target
    {
      target := rhs.target;
    }

    /** Reset() and operator=(NullOpt): drop the reference. */
    method Reset()
      modifies this
      ensures target == null
    {
      target := null;
    }

    /** Emplace(u) / operator=(U&&): rebind to u; the referred object is untouched. */
    method Emplace(u: Cell<T>)
      modifies this
      ensures target == u && u.v == old(u.v)
    {
      target := u;
    }

    /** Swap: exchanges the two pointers. */
    method Swap(rhs: OptionalRef<T>)
      modifies this, rhs
      ensures target == old(rhs.target) && rhs.target == old(target)
    {
      var t := target;
      target := rhs.target;
      rhs.target := t;
    }

    /** The converting operator=(const Optional<U>&) for an Optional<U> of
        another type U (assignment from the same type is the defaulted copy
        assignment, which cannot throw, and is not this member): it binds
        through rhs.Value(), which throws BadOptionalAccess, leaving this
        unchanged, when rhs is empty. The referent types are the same here
        because the model has no conversions between them. */
    method AssignOptional(rhs: OptionalRef<T>) returns (threw: bool)
      modifies this
      ensures threw <==> old(rhs.target) == null
      ensures threw ==> target == old(target)
      ensures !threw ==> target == old(rhs.target)
    {
      if rhs.target == null {
        return true;
      }
      target := rhs.target;
      return false;
    }

    /** Take(): returns the reference and leaves this empty. */
    method Take() returns (ret: Cell?<T>)
      modifies this
      ensures ret == old(target) && target == null
    {
      ret := target;
      target := null;
    }

    /** ValueOr(u): the referred value, or u. */
    function ValueOr(u: T): (r: T)
      reads this, target
      ensures target != null ==> r == target.v
      ensures target == null ==> r == u
    {
      if target != null then target.v else u
    }
  }
}
