/** One entity field with its getter and setter, as every header and line field
    gets them (the loop bodies of generateHeaderEntity and generateLineEntity). */
module Accessors {
  import opened Wrappers
  import opened RifModel
  import opened JavaModel
  import opened JavaSemantics
  import opened TypeSelection
  import opened Naming
  import opened Annotations

  /** addGetterStatement: a required field is returned as it is stored, an
      optional one through Optional.ofNullable. */
  function GetterBody(optional: bool, field: string): seq<Stmt>
  {
    if !optional then [Return(FieldRef(field))] else [Return(OfNullable(FieldRef(field)))]
  }

  /** addSetterStatement: a required value is stored as it is passed, an optional
      one through orElse(null). The parameter has the field's name. */
  function SetterBody(optional: bool, field: string): seq<Stmt>
  {
    if !optional then [AssignField(field, ParamRef(field))]
    else [AssignField(field, OrElseNull(ParamRef(field)))]
  }

  datatype EntityMembers = EntityMembers(field: FieldDecl, getter: MethodDecl, setter: MethodDecl)

  /** The private field, public getter and public setter of one layout field, in the
      order the generator evaluates them: the field type (IllegalArgumentException),
      the annotations (missing scale), the getter name (empty name). */
  function FieldMembers(spec: MappingSpec, f: RifField): Result<EntityMembers, GenError>
  {
    var fieldType :- SelectJavaFieldType(f);
    var annotations :- CreateAnnotations(spec, f);
    var field := FieldDecl(fieldType, f.javaFieldName, [Private], annotations, None);
    var getterName :- CalculateGetterName(field);
    // both succeed once the field type and the getter name did
    var propertyType := SelectJavaPropertyType(f).value;
    var setterName := CalculateSetterName(field).value;
    Ok(EntityMembers(
      field,
      MethodDecl(getterName, [], [Public], [], propertyType, GetterBody(f.rifColumnOptional, f.javaFieldName)),
      MethodDecl(setterName, [], [Public], [Param(propertyType, f.javaFieldName)], Void,
                 SetterBody(f.rifColumnOptional, f.javaFieldName))))
  }

  /** A layout field's members exist exactly when its type, its annotations and its
      getter name do, and the first of those to fail decides the error. The field
      keeps the layout's Java name and storage type; getter and setter are public
      and typed by the property type. */
  lemma FieldMembersContract(spec: MappingSpec, f: RifField)
    ensures var r := FieldMembers(spec, f);
      r.Ok? <==> SelectJavaFieldType(f).Ok? && CreateAnnotations(spec, f).Ok? && f.javaFieldName != []
    ensures var r := FieldMembers(spec, f);
      && (SelectJavaFieldType(f).Err? ==> r == Err(SelectJavaFieldType(f).error))
      && (SelectJavaFieldType(f).Ok? && CreateAnnotations(spec, f).Err? ==> r == Err(CreateAnnotations(spec, f).error))
      && (SelectJavaFieldType(f).Ok? && CreateAnnotations(spec, f).Ok? && f.javaFieldName == [] ==> r == Err(StringIndexOutOfBounds(0)))
    ensures var r := FieldMembers(spec, f);
      r.Ok? ==>
      && r.value.field == FieldDecl(SelectJavaFieldType(f).value, f.javaFieldName, [Private], CreateAnnotations(spec, f).value, None)
      && r.value.getter.name == "get" + Capitalize(f.javaFieldName).value
      && r.value.getter.modifiers == [Public] && r.value.getter.params == []
      && r.value.getter.returnType == SelectJavaPropertyType(f).value
      && r.value.getter.body == GetterBody(f.rifColumnOptional, f.javaFieldName)
      && r.value.setter.name == "set" + Capitalize(f.javaFieldName).value
      && r.value.setter.modifiers == [Public]
      && r.value.setter.params == [Param(SelectJavaPropertyType(f).value, f.javaFieldName)]
      && r.value.setter.returnType == Void
      && r.value.setter.body == SetterBody(f.rifColumnOptional, f.javaFieldName)
  {
  }

  /** The values a caller can pass to a setter: an Optional (never holding null)
      for an optional field, a plain value or null for a required one. */
  predicate IsPropertyValue(optional: bool, v: RtValue)
  {
    if optional then v.OptEmpty? || (v.OptOf? && v.content.Scalar?) else v.Null? || v.Scalar?
  }

  /** What a field slot holds: null or a plain value. */
  predicate IsStoredValue(v: RtValue) { v.Null? || v.Scalar? }

  /** Setting a property and then getting it returns the value that was set, for
      required and optional fields alike. The slot holds the value itself for a
      required field and the Optional's content (or null) for an optional one. */
  lemma SetThenGet(spec: MappingSpec, f: RifField, slots: Slots, arg: RtValue)
    requires FieldMembers(spec, f).Ok?
    requires IsPropertyValue(f.rifColumnOptional, arg)
    ensures var m := FieldMembers(spec, f).value;
      var after := EvalSetter(m.setter, slots, arg);
      && after.Some?
      && after.value == slots[f.javaFieldName := if f.rifColumnOptional && arg.OptEmpty? then Null
                                                 else if f.rifColumnOptional then arg.content else arg]
      && IsStoredValue(after.value[f.javaFieldName])
      && EvalGetter(m.getter, after.value) == Some(arg)
  {
    FieldMembersContract(spec, f);
    var m := FieldMembers(spec, f).value;
    var n := f.javaFieldName;
    assert m.setter.params == [Param(SelectJavaPropertyType(f).value, n)];
    assert m.setter.body == SetterBody(f.rifColumnOptional, n);
    assert m.getter.body == GetterBody(f.rifColumnOptional, n);
    var params := map[n := arg];
    var stored := if f.rifColumnOptional && arg.OptEmpty? then Null
                  else if f.rifColumnOptional then arg.content else arg;
    assert EvalExpr(m.setter.body[0].e, slots, params) == Some(stored);
    assert EvalSetter(m.setter, slots, arg) == Some(slots[n := stored]);
    var after := slots[n := stored];
    assert EvalExpr(FieldRef(n), after, map[]) == Some(stored);
    if f.rifColumnOptional {
      assert EvalExpr(OfNullable(FieldRef(n)), after, map[]) == Some(arg);
    }
    assert EvalGetter(m.getter, after) == Some(arg);
  }

  /** Getting a property and setting it back leaves the object unchanged, and an
      optional field's getter never returns null. */
  lemma GetThenSet(spec: MappingSpec, f: RifField, slots: Slots)
    requires FieldMembers(spec, f).Ok?
    requires f.javaFieldName in slots && IsStoredValue(slots[f.javaFieldName])
    ensures var m := FieldMembers(spec, f).value;
      var got := EvalGetter(m.getter, slots);
      && got.Some?
      && IsPropertyValue(f.rifColumnOptional, got.value)
      && EvalSetter(m.setter, slots, got.value) == Some(slots)
  {
    FieldMembersContract(spec, f);
    var m := FieldMembers(spec, f).value;
    var n := f.javaFieldName;
    assert m.setter.params == [Param(SelectJavaPropertyType(f).value, n)];
    assert m.setter.body == SetterBody(f.rifColumnOptional, n);
    assert m.getter.body == GetterBody(f.rifColumnOptional, n);
    var v := slots[n];
    var got := if !f.rifColumnOptional then v else if v.Null? then OptEmpty else OptOf(v);
    assert EvalExpr(FieldRef(n), slots, map[]) == Some(v);
    if f.rifColumnOptional {
      assert EvalExpr(OfNullable(FieldRef(n)), slots, map[]) == Some(got);
    }
    assert EvalGetter(m.getter, slots) == Some(got);
    assert EvalExpr(m.setter.body[0].e, slots, map[n := got]) == Some(v);
    assert slots[n := v] == slots;
  }
}
