/** A language-neutral description of the Java the generator emits: types, JPA
    annotations with their arguments, fields, methods with small statement bodies,
    and the enum and class declarations. Only the structure is modelled, not the
    printed source text. */
module JavaModel {
  import opened Wrappers

  /** The Java types that appear in generated declarations. */
  datatype JavaType =
    | Char                      // primitive char
    | BoxedChar                 // java.lang.Character
    | Str                       // java.lang.String
    | Date                      // java.time.LocalDate
    | Decimal                   // java.math.BigDecimal
    | Bool                      // primitive boolean
    | BoxedBool                 // java.lang.Boolean
    | Long                      // primitive long
    | Int                       // primitive int
    | Void
    | Named(name: string)       // a generated entity class
    | OptionalOf(inner: JavaType)
    | ListOf(element: JavaType)

  datatype Modifier = Public | Private | Static | Final

  /** The annotations the generator attaches, with the members it sets. A member
      that the generator does not add is `None`. */
  datatype Annotation =
    | Entity
    | Table(name: string)
    | IdClass(value: string)
    | Id
    | Column(name: string, nullable: bool, length: Option<nat>, precision: Option<nat>, scale: Option<nat>)
    | ManyToOne
    | JoinColumn(name: string)
    | OneToMany(mappedBy: string, orphanRemoval: bool, fetchEager: bool, cascadeAll: bool)
    | OrderBy(value: string)
    | Override

  /** Value expressions of generated accessor bodies. */
  datatype ValueExpr =
    | FieldRef(field: string)
    | ParamRef(param: string)
    | OfNullable(arg: ValueExpr)  // Optional.ofNullable(arg)
    | OrElseNull(arg: ValueExpr)  // arg.orElse(null)

  /** The tests of a generated equals method. */
  datatype Cond =
    | SameReference               // this == obj
    | ArgIsNull                   // obj == null
    | ClassDiffers                // getClass() != obj.getClass()
    | FieldsDeepEqual(field: string)     // Objects.deepEquals(f, other.f)
    | FieldsNotDeepEqual(field: string)  // !Objects.deepEquals(f, other.f)

  datatype Stmt =
    | Return(e: ValueExpr)
    | ReturnBool(b: bool)
    | ReturnHash(fields: seq<string>)     // return Objects.hash(f1, f2, ...)
    | AssignField(field: string, e: ValueExpr)
    | IfReturn(cond: Cond, result: bool)  // if (cond) { return result; }
    | CastOther(castType: string)         // T other = (T) obj;

  datatype Param = Param(ptype: JavaType, name: string)

  datatype FieldDecl = FieldDecl(
    ftype: JavaType, name: string, modifiers: seq<Modifier>,
    annotations: seq<Annotation>, initializer: Option<string>)

  datatype MethodDecl = MethodDecl(
    name: string, annotations: seq<Annotation>, modifiers: seq<Modifier>,
    params: seq<Param>, returnType: JavaType, body: seq<Stmt>)

  /** A generated top-level or nested type. */
  datatype TypeSpec =
    | EnumSpec(name: string, modifiers: seq<Modifier>, constants: seq<string>)
    | ClassSpec(
        name: string, annotations: seq<Annotation>, modifiers: seq<Modifier>,
        superinterfaces: seq<string>, fields: seq<FieldDecl>, methods: seq<MethodDecl>,
        nested: seq<TypeSpec>)

  /** The names of a sequence of fields, in order. */
  function FieldNames(fields: seq<FieldDecl>): (names: seq<string>)
    ensures |names| == |fields|
    ensures forall i :: 0 <= i < |fields| ==> names[i] == fields[i].name
  {
    seq(|fields|, i requires 0 <= i < |fields| => fields[i].name)
  }
}
