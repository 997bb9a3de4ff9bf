/** The two type tables of the generator: the Java type of an entity field
    (selectJavaFieldType) and of its getter/setter property (selectJavaPropertyType). */
module TypeSelection {
  import opened Wrappers
  import opened RifModel
  import opened JavaModel

  /** The layout column type a field storage type can represent; `None` for types
      that never store a layout column. */
  function ColumnTypeOf(t: JavaType): Option<RifColumnType>
  {
    match t
    case Char => Some(CHAR)
    case BoxedChar => Some(CHAR)
    case Str => Some(CHAR)
    case Date => Some(DATE)
    case Decimal => Some(NUM)
    case _ => None
  }

  /** The number of Optional wrappers around a type. */
  function OptionalDepth(t: JavaType): nat
  {
    if t.OptionalOf? then 1 + OptionalDepth(t.inner) else 0
  }

  /** True of a single-character CHAR column. */
  predicate IsSingleChar(f: RifField)
  {
    f.rifColumnType == CHAR && f.rifColumnLength == 1
  }

  /** The storage type of a layout field. The only combination without a type is a
      DATE column whose length is not 8, which raises IllegalArgumentException. */
  function SelectJavaFieldType(f: RifField): (r: Result<JavaType, GenError>)
    ensures r.Err? <==> f.rifColumnType == DATE && f.rifColumnLength != 8
    ensures r.Err? ==> r.error == UnhandledFieldType(f)
    ensures r.Ok? ==> ColumnTypeOf(r.value) == Some(f.rifColumnType)
    ensures r.Ok? ==> (r.value == Char <==> IsSingleChar(f) && !f.rifColumnOptional)
    ensures r.Ok? ==> (r.value == BoxedChar <==> IsSingleChar(f) && f.rifColumnOptional)
    ensures r.Ok? ==> (r.value == Str <==> f.rifColumnType == CHAR && f.rifColumnLength != 1)
  {
    if f.rifColumnType == CHAR && f.rifColumnLength == 1 && !f.rifColumnOptional then Ok(Char)
    else if f.rifColumnType == CHAR && f.rifColumnLength == 1 && f.rifColumnOptional then Ok(BoxedChar)
    else if f.rifColumnType == CHAR then Ok(Str)
    else if f.rifColumnType == DATE && f.rifColumnLength == 8 then Ok(Date)
    else if f.rifColumnType == NUM then Ok(Decimal)
    else
      assert f.rifColumnType.DATE?;
      Err(UnhandledFieldType(f))
  }

  /** The accessor type of a layout field: the storage type itself for a required
      column, the storage type inside exactly one Optional for an optional one. */
  function SelectJavaPropertyType(f: RifField): (r: Result<JavaType, GenError>)
    ensures r.Ok? <==> SelectJavaFieldType(f).Ok?
    ensures r.Err? ==> r.error == UnhandledFieldType(f)
    ensures r.Ok? ==> OptionalDepth(r.value) == if f.rifColumnOptional then 1 else 0
    ensures r.Ok? && f.rifColumnOptional ==> r.value.OptionalOf? && r.value.inner == SelectJavaFieldType(f).value
    ensures r.Ok? && !f.rifColumnOptional ==> r.value == SelectJavaFieldType(f).value
  {
    var fieldType :- SelectJavaFieldType(f);
    if !f.rifColumnOptional then Ok(fieldType) else Ok(OptionalOf(fieldType))
  }

  /** Flipping only the optional flag of a field keeps its column type and changes
      its accessor from the bare storage type to exactly one Optional around the
      (boxed) storage type: CHAR(1) goes from `char` to `Optional<Character>`. */
  lemma FlippingOptionalWrapsOnce(f: RifField)
    requires SelectJavaFieldType(f).Ok? && !f.rifColumnOptional
    ensures var g := f.(rifColumnOptional := true);
      && SelectJavaPropertyType(g).Ok?
      && SelectJavaPropertyType(g).value.OptionalOf?
      && ColumnTypeOf(SelectJavaPropertyType(g).value.inner) == ColumnTypeOf(SelectJavaPropertyType(f).value)
      && (IsSingleChar(f) ==> SelectJavaPropertyType(f).value == Char && SelectJavaPropertyType(g).value == OptionalOf(BoxedChar))
      && (!IsSingleChar(f) ==> SelectJavaPropertyType(g).value == OptionalOf(SelectJavaPropertyType(f).value))
  {
  }
}
