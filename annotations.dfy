/** The JPA annotations of one entity field (createAnnotations). */
module Annotations {
  import opened Wrappers
  import opened RifModel
  import opened JavaModel

  /** The field is a primary-key column: the header id field, or the line-number
      field when the layout has lines. */
  predicate IsIdField(spec: MappingSpec, f: RifField)
  {
    f.javaFieldName == spec.headerEntityIdField
    || (spec.hasLines && f.javaFieldName == spec.lineEntityLineNumberField)
  }

  /** A name in the back-quotes JPA needs for case-sensitive SQL identifiers. */
  function BackQuoted(name: string): (q: string)
    ensures |q| == |name| + 2 && q[0] == '`' && q[|q| - 1] == '`' && q[1..|q| - 1] == name
  {
    "`" + name + "`"
  }

  /** @Id when the field is a key column, then @Column (always last); see
      CreateAnnotationsContract. */
  function CreateAnnotations(spec: MappingSpec, f: RifField): Result<seq<Annotation>, GenError>
  {
    var idAnnotations := if IsIdField(spec, f) then [Id] else [];
    var name := BackQuoted(f.javaFieldName);
    match f.rifColumnType
    case CHAR => Ok(idAnnotations + [Column(name, f.rifColumnOptional, Some(f.rifColumnLength), None, None)])
    case NUM =>
      if f.rifColumnScale.None? then Err(NoValuePresent("rifColumnScale"))
      else Ok(idAnnotations + [Column(name, f.rifColumnOptional, None, Some(f.rifColumnLength), f.rifColumnScale)])
    case DATE => Ok(idAnnotations + [Column(name, f.rifColumnOptional, None, None, None)])
  }

  /** @Id when the field is a key column, then @Column (always last) whose name is
      the back-quoted field name and whose nullable is the column's optionality;
      CHAR columns add their length, NUM columns their precision (the length) and
      scale, DATE columns neither. A NUM column without a scale fails in
      Optional.get(). */
  lemma CreateAnnotationsContract(spec: MappingSpec, f: RifField)
    ensures var r := CreateAnnotations(spec, f);
      && (r.Err? <==> f.rifColumnType == NUM && f.rifColumnScale.None?)
      && (r.Err? ==> r.error.NoValuePresent?)
    ensures var r := CreateAnnotations(spec, f);
      r.Ok? ==>
        && |r.value| == (if IsIdField(spec, f) then 2 else 1)
        && (Id in r.value <==> IsIdField(spec, f))
        && (IsIdField(spec, f) ==> r.value[0] == Id)
    ensures var r := CreateAnnotations(spec, f);
      r.Ok? ==> var c := r.value[|r.value| - 1];
        && c.Column?
        && c.name == BackQuoted(f.javaFieldName)
        && c.nullable == f.rifColumnOptional
        && (c.length.Some? <==> f.rifColumnType == CHAR)
        && (c.length.Some? ==> c.length.value == f.rifColumnLength)
        && (c.precision.Some? <==> f.rifColumnType == NUM)
        && (c.precision.Some? ==> c.precision.value == f.rifColumnLength)
        && (c.scale.Some? <==> f.rifColumnType == NUM)
        && (c.scale.Some? ==> c.scale == f.rifColumnScale)
  {
  }
}
