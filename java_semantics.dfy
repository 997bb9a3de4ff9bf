/** What the generated method bodies do when they run: an evaluator for the
    accessor bodies over a map of field slots, one for the equals body over two
    key-class instances, and Java's Objects.hash for the hashCode body. */
module JavaSemantics {
  import opened Wrappers
  import opened JavaModel

  /** A runtime value: null, some non-null object (abstracted to an integer, which
      also serves as its Object.hashCode), or a java.util.Optional. */
  datatype RtValue = Null | Scalar(datum: int) | OptEmpty | OptOf(content: RtValue)

  type Slots = map<string, RtValue>

  /** An object: its identity, its runtime class name and its field slots. */
  datatype Instance = Instance(ref: nat, cls: string, slots: Slots)

  /** How a call of a boolean-valued body ends. `Stuck` marks a body outside the
      shapes the generator emits (it would not compile). */
  datatype Outcome = Returns(value: bool) | Throws(exception: string) | Stuck

  function EvalExpr(e: ValueExpr, fields: Slots, params: Slots): Option<RtValue>
  {
    match e
    case FieldRef(f) => if f in fields then Some(fields[f]) else None
    case ParamRef(p) => if p in params then Some(params[p]) else None
    case OfNullable(x) =>
      var v :- EvalExpr(x, fields, params);
      if v.Null? then Some(OptEmpty) else Some(OptOf(v))
    case OrElseNull(x) =>
      var v :- EvalExpr(x, fields, params);
      if v.OptEmpty? then Some(Null) else if v.OptOf? then Some(v.content) else None
  }

  /** The value a call of a getter returns on an object with the given slots. */
  function EvalGetter(m: MethodDecl, fields: Slots): Option<RtValue>
  {
    if |m.params| == 0 && |m.body| == 1 && m.body[0].Return? then
      EvalExpr(m.body[0].e, fields, map[])
    else None
  }

  /** The slots after a call of a setter with the given argument. */
  function EvalSetter(m: MethodDecl, fields: Slots, arg: RtValue): Option<Slots>
  {
    if |m.params| == 1 && |m.body| == 1 && m.body[0].AssignField? then
      var v :- EvalExpr(m.body[0].e, fields, map[m.params[0].name := arg]);
      Some(fields[m.body[0].field := v])
    else None
  }

  /** A condition of an equals body; `other` is the cast argument once the cast ran. */
  function EvalCond(c: Cond, self: Instance, obj: Option<Instance>, other: Option<Instance>): Outcome
  {
    match c
    case SameReference => Returns(obj.Some? && obj.value.ref == self.ref)
    case ArgIsNull => Returns(obj.None?)
    case ClassDiffers =>
      if obj.None? then Throws("NullPointerException") else Returns(self.cls != obj.value.cls)
    case FieldsDeepEqual(f) =>
      if other.Some? && f in self.slots && f in other.value.slots
      then Returns(self.slots[f] == other.value.slots[f]) else Stuck
    case FieldsNotDeepEqual(f) =>
      if other.Some? && f in self.slots && f in other.value.slots
      then Returns(self.slots[f] != other.value.slots[f]) else Stuck
  }

  /** Runs an equals body statement by statement. A cast succeeds on null and on an
      object of exactly the target class (generated classes have no subclasses). */
  function EvalEqualsBody(body: seq<Stmt>, self: Instance, obj: Option<Instance>, other: Option<Instance>): Outcome
    decreases |body|
  {
    if body == [] then Stuck
    else match body[0]
      case IfReturn(c, r) =>
        var t := EvalCond(c, self, obj, other);
        if !t.Returns? then t
        else if t.value then Returns(r)
        else EvalEqualsBody(body[1..], self, obj, other)
      case CastOther(t) =>
        if obj.Some? && obj.value.cls != t then Throws("ClassCastException")
        else EvalEqualsBody(body[1..], self, obj, obj)
      case ReturnBool(b) => Returns(b)
      case _ => Stuck
  }

  /** The outcome of `self.equals(obj)`; `None` stands for a null argument. */
  function EvalEquals(m: MethodDecl, self: Instance, obj: Option<Instance>): Outcome
  {
    EvalEqualsBody(m.body, self, obj, None)
  }

  const INT32_MODULUS: int := 0x1_0000_0000

  /** Java int arithmetic: the result wrapped into the 32-bit two's-complement range. */
  function ToInt32(x: int): (r: int)
    ensures -0x8000_0000 <= r < 0x8000_0000
    ensures (x - r) % INT32_MODULUS == 0
  {
    var m := x % INT32_MODULUS;
    if m >= 0x8000_0000 then m - INT32_MODULUS else m
  }

  /** The hash an element contributes to Arrays.hashCode: 0 for null and for an
      empty Optional, the value's own hash otherwise. A scalar stands for any field
      value and hashes as its own number; a real BigDecimal or String has its own
      hashCode, so concrete hash values hold only under this abstraction. */
  function ValueHash(v: RtValue): int
  {
    match v
    case Null => 0
    case Scalar(d) => ToInt32(d)
    case OptEmpty => 0
    case OptOf(c) => ValueHash(c)
  }

  /** Objects.hash(values...): start at 1, then result = 31 * result + hash. */
  function ObjectsHash(values: seq<RtValue>): int
  {
    if values == [] then 1
    else ToInt32(31 * ObjectsHash(values[..|values| - 1]) + ValueHash(values[|values| - 1]))
  }

  /** The value a call of a hashCode body returns. */
  function EvalHashCode(m: MethodDecl, self: Instance): Option<int>
  {
    if |m.body| == 1 && m.body[0].ReturnHash? then
      var fs := m.body[0].fields;
      if forall i :: 0 <= i < |fs| ==> fs[i] in self.slots then
        Some(ObjectsHash(seq(|fs|, i requires 0 <= i < |fs| && fs[i] in self.slots => self.slots[fs[i]])))
      else None
    else None
  }
}
