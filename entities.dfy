/** The three artifacts generated for one mapping: the column enum, the header
    entity and the line entity with its composite-key class (generateColumnEnum,
    generateHeaderEntity, generateLineEntity). Each generator is a method with the
    source's loop, proved equal to a function that the lemmas below describe. */
module Entities {
  import opened Wrappers
  import opened RifModel
  import opened JavaModel
  import opened JavaSemantics
  import opened TypeSelection
  import opened Naming
  import opened Annotations
  import opened Accessors
  import opened KeyMethods

  // ---------------------------------------------------------------- column enum

  /** The enum's constants: each RIF column name in layout order, a name already
      present adding nothing. JavaPoet keys enum constants by name in insertion
      order, so a repeated name keeps the position of its first occurrence. See
      ColumnConstantsContract. */
  function ColumnConstants(layout: seq<RifField>): seq<string>
    decreases |layout|
  {
    if layout == [] then []
    else
      var prior := ColumnConstants(layout[..|layout| - 1]);
      var name := layout[|layout| - 1].rifColumnName;
      if name in prior then prior else prior + [name]
  }

  /** The constants are exactly the layout's column names, each once, and there
      are none exactly when the layout is empty. */
  lemma {:induction false} ColumnConstantsContract(layout: seq<RifField>)
    ensures var cs := ColumnConstants(layout);
      && (forall name :: name in cs <==> exists i :: 0 <= i < |layout| && layout[i].rifColumnName == name)
      && (forall i, j :: 0 <= i < j < |cs| ==> cs[i] != cs[j])
      && |cs| <= |layout|
      && (cs == [] <==> layout == [])
    decreases |layout|
  {
    if layout != [] {
      var init := layout[..|layout| - 1];
      ColumnConstantsContract(init);
      var cs := ColumnConstants(layout);
      var name := layout[|layout| - 1].rifColumnName;
      assert name in cs;
      forall x ensures x in cs <==> exists i :: 0 <= i < |layout| && layout[i].rifColumnName == x {
        if x in cs && x != name {
          var i :| 0 <= i < |init| && init[i].rifColumnName == x;
          assert layout[i] == init[i];
        }
        if (exists i :: 0 <= i < |layout| && layout[i].rifColumnName == x) && x != name {
          var i :| 0 <= i < |layout| && layout[i].rifColumnName == x;
          assert i < |init| && init[i] == layout[i];
        }
      }
    }
  }

  /** Taking layout fields one at a time: a name already present adds nothing. */
  lemma ColumnConstantsStep(layout: seq<RifField>, k: nat)
    requires k < |layout|
    ensures var prior := ColumnConstants(layout[..k]); var name := layout[k].rifColumnName;
      ColumnConstants(layout[..k + 1]) == if name in prior then prior else prior + [name]
  {
    assert layout[..k + 1][..k] == layout[..k];
  }

  /** When the column names are distinct, the constants are exactly the column
      names, in layout order. */
  lemma {:induction false} ColumnConstantsOfDistinctNames(layout: seq<RifField>)
    requires forall i, j :: 0 <= i < j < |layout| ==> layout[i].rifColumnName != layout[j].rifColumnName
    ensures |ColumnConstants(layout)| == |layout|
    ensures forall i :: 0 <= i < |layout| ==> ColumnConstants(layout)[i] == layout[i].rifColumnName
    decreases |layout|
  {
    if layout != [] {
      var init := layout[..|layout| - 1];
      ColumnConstantsOfDistinctNames(init);
      ColumnConstantsContract(init);
      var name := layout[|layout| - 1].rifColumnName;
      assert name !in ColumnConstants(init) by {
        forall j | 0 <= j < |init| ensures init[j].rifColumnName != name {
          assert init[j] == layout[j];
        }
      }
    }
  }

  /** The public enum of the layout's columns. JavaPoet refuses to build an enum
      without constants (IllegalArgumentException), which is what an empty layout
      gives. */
  function ColumnEnum(spec: MappingSpec): (r: Result<TypeSpec, GenError>)
    ensures r.Err? <==> spec.rifLayout == []
    ensures r.Err? ==> r.error == NoEnumConstants(spec.columnEnum)
    ensures r.Ok? ==> r.value == EnumSpec(spec.columnEnum, [Public], ColumnConstants(spec.rifLayout))
  {
    if spec.rifLayout == [] then Err(NoEnumConstants(spec.columnEnum))
    else Ok(EnumSpec(spec.columnEnum, [Public], ColumnConstants(spec.rifLayout)))
  }

  /** generateColumnEnum: one addEnumConstant per layout field, then build. */
  method GenerateColumnEnum(spec: MappingSpec) returns (r: Result<TypeSpec, GenError>)
    ensures r == ColumnEnum(spec)
  {
    var layout := spec.rifLayout;
    var constants: seq<string> := [];
    for fieldIndex := 0 to |layout|
      invariant constants == ColumnConstants(layout[..fieldIndex])
    {
      ColumnConstantsStep(layout, fieldIndex);
      if layout[fieldIndex].rifColumnName !in constants {
        constants := constants + [layout[fieldIndex].rifColumnName];
      }
    }
    assert layout[..|layout|] == layout;
    ColumnConstantsContract(layout);
    if constants == [] {
      return Err(NoEnumConstants(spec.columnEnum));
    }
    r := Ok(EnumSpec(spec.columnEnum, [Public], constants));
  }

  // ------------------------------------------------------------ per-field members

  /** The fields and accessors accumulated for a run of layout fields. */
  datatype Members = Members(fields: seq<FieldDecl>, methods: seq<MethodDecl>)

  /** The members of the given layout fields, in order; the first field whose
      members fail decides the error. */
  function MembersOf(spec: MappingSpec, fs: seq<RifField>): Result<Members, GenError>
    decreases |fs|
  {
    if fs == [] then Ok(Members([], []))
    else
      var prefix :- MembersOf(spec, fs[..|fs| - 1]);
      var m :- FieldMembers(spec, fs[|fs| - 1]);
      Ok(Members(prefix.fields + [m.field], prefix.methods + [m.getter, m.setter]))
  }

  /** A run succeeds exactly when every field's members do. */
  lemma {:induction false} MembersOfOk(spec: MappingSpec, fs: seq<RifField>)
    ensures MembersOf(spec, fs).Ok? <==> forall i :: 0 <= i < |fs| ==> FieldMembers(spec, fs[i]).Ok?
    decreases |fs|
  {
    if fs != [] {
      var init := fs[..|fs| - 1];
      MembersOfOk(spec, init);
      MembersOfLast(spec, fs);
      if MembersOf(spec, fs).Ok? {
        AllFieldsOkExtend(spec, fs, init);
      } else if MembersOf(spec, init).Ok? {
        assert FieldMembers(spec, fs[|fs| - 1]).Err?;
      } else {
        var j :| 0 <= j < |init| && FieldMembers(spec, init[j]).Err?;
        assert init[j] == fs[j];
      }
    }
  }

  /** Every field has members when those before the last one and the last one do. */
  lemma AllFieldsOkExtend(spec: MappingSpec, fs: seq<RifField>, init: seq<RifField>)
    requires fs != [] && init == fs[..|fs| - 1] && FieldMembers(spec, fs[|fs| - 1]).Ok?
    requires forall i :: 0 <= i < |init| ==> FieldMembers(spec, init[i]).Ok?
    ensures forall i :: 0 <= i < |fs| ==> FieldMembers(spec, fs[i]).Ok?
  {
    forall i | 0 <= i < |fs|
      ensures FieldMembers(spec, fs[i]).Ok?
    {
      if i < |init| {
        assert init[i] == fs[i];
      }
    }
  }

  /** A non-empty run succeeds exactly when the run before its last field and
      that field both succeed. */
  lemma MembersOfLast(spec: MappingSpec, fs: seq<RifField>)
    requires fs != []
    ensures MembersOf(spec, fs).Ok? <==> MembersOf(spec, fs[..|fs| - 1]).Ok? && FieldMembers(spec, fs[|fs| - 1]).Ok?
  {
  }

  /** Field i of a successful run yields entity field i and accessors 2i (getter)
      and 2i+1 (setter). */
  lemma {:induction false} MembersOfElements(spec: MappingSpec, fs: seq<RifField>)
    requires MembersOf(spec, fs).Ok?
    ensures var ms := MembersOf(spec, fs).value;
      |ms.fields| == |fs| && |ms.methods| == 2 * |fs|
    ensures var ms := MembersOf(spec, fs).value;
      forall i :: 0 <= i < |fs| ==>
        && FieldMembers(spec, fs[i]).Ok?
        && ms.fields[i] == FieldMembers(spec, fs[i]).value.field
        && ms.methods[2 * i] == FieldMembers(spec, fs[i]).value.getter
        && ms.methods[2 * i + 1] == FieldMembers(spec, fs[i]).value.setter
    decreases |fs|
  {
    if fs != [] {
      var init := fs[..|fs| - 1];
      var prefix := MembersOf(spec, init).value;
      var m := FieldMembers(spec, fs[|fs| - 1]).value;
      var ms := MembersOf(spec, fs).value;
      assert ms == Members(prefix.fields + [m.field], prefix.methods + [m.getter, m.setter]);
      MembersOfElements(spec, init);
      forall i | 0 <= i < |fs|
        ensures FieldMembers(spec, fs[i]).Ok?
        ensures ms.fields[i] == FieldMembers(spec, fs[i]).value.field
        ensures ms.methods[2 * i] == FieldMembers(spec, fs[i]).value.getter
        ensures ms.methods[2 * i + 1] == FieldMembers(spec, fs[i]).value.setter
      {
        if i < |init| {
          assert init[i] == fs[i];
          assert ms.fields[i] == prefix.fields[i];
          assert ms.methods[2 * i] == prefix.methods[2 * i];
          assert ms.methods[2 * i + 1] == prefix.methods[2 * i + 1];
        } else {
          assert i == |init| && |prefix.methods| == 2 * i;
          assert ms.fields[i] == m.field;
          assert ms.methods[2 * i] == m.getter;
          assert ms.methods[2 * i + 1] == m.setter;
        }
      }
    }
  }

  /** When the fields before index k succeed and field k fails, the run fails with
      field k's error, whatever follows it. */
  lemma {:induction false} MembersOfFailsAt(spec: MappingSpec, fs: seq<RifField>, k: nat)
    requires k < |fs|
    requires MembersOf(spec, fs[..k]).Ok? && FieldMembers(spec, fs[k]).Err?
    ensures MembersOf(spec, fs) == Err(FieldMembers(spec, fs[k]).error)
    decreases |fs|
  {
    if k < |fs| - 1 {
      var init := fs[..|fs| - 1];
      assert init[..k] == fs[..k] && init[k] == fs[k];
      MembersOfFailsAt(spec, init, k);
    } else {
      assert fs[..|fs| - 1] == fs[..k];
    }
  }

  /** Appending one successful field to a successful run. */
  lemma MembersOfStep(spec: MappingSpec, fs: seq<RifField>, k: nat)
    requires k < |fs|
    requires MembersOf(spec, fs[..k]).Ok? && FieldMembers(spec, fs[k]).Ok?
    ensures var prefix := MembersOf(spec, fs[..k]).value; var m := FieldMembers(spec, fs[k]).value;
      MembersOf(spec, fs[..k + 1]) == Ok(Members(prefix.fields + [m.field], prefix.methods + [m.getter, m.setter]))
  {
    assert fs[..k + 1][..k] == fs[..k];
  }

  // ---------------------------------------------------------------- header entity

  /** The header's collection of its lines, ordered by line number. */
  function LinesField(spec: MappingSpec): FieldDecl
  {
    FieldDecl(ListOf(Named(spec.lineEntity)), "lines", [Private],
              [OneToMany(spec.lineEntityParentField, true, true, true),
               OrderBy(spec.lineEntityLineNumberField + " ASC")],
              Some("new LinkedList<>()"))
  }

  function LinesGetter(spec: MappingSpec): MethodDecl
  {
    MethodDecl("getLines", [], [Public], [], ListOf(Named(spec.lineEntity)), [Return(FieldRef("lines"))])
  }

  /** The header entity: members for layout fields 0 to the last header index, then
      the lines collection when the layout has lines. A last header index past the
      end of the layout makes List.get throw once the layout is exhausted. */
  function HeaderEntity(spec: MappingSpec): Result<TypeSpec, GenError>
  {
    var members :- MembersOf(spec, HeaderScope(spec));
    if spec.lastHeaderFieldIndex >= |spec.rifLayout| then
      Err(IndexOutOfBounds(|spec.rifLayout|, |spec.rifLayout|))
    else
      Ok(ClassSpec(spec.headerEntity, [Entity, Table(BackQuoted(spec.headerTable))], [Public], [],
                   members.fields + (if spec.hasLines then [LinesField(spec)] else []),
                   members.methods + (if spec.hasLines then [LinesGetter(spec)] else []),
                   []))
  }

  /** Once the members of the header scope are known, the header entity is
      decided by whether the last header index lies inside the layout. */
  lemma HeaderEntityOfMembers(spec: MappingSpec, members: Members)
    requires MembersOf(spec, HeaderScope(spec)) == Ok(members)
    ensures spec.lastHeaderFieldIndex >= |spec.rifLayout| ==>
      HeaderEntity(spec) == Err(IndexOutOfBounds(|spec.rifLayout|, |spec.rifLayout|))
    ensures spec.lastHeaderFieldIndex < |spec.rifLayout| ==>
      HeaderEntity(spec) == Ok(ClassSpec(spec.headerEntity, [Entity, Table(BackQuoted(spec.headerTable))], [Public], [],
                   members.fields + (if spec.hasLines then [LinesField(spec)] else []),
                   members.methods + (if spec.hasLines then [LinesGetter(spec)] else []),
                   []))
  {
  }

  method GenerateHeaderEntity(spec: MappingSpec) returns (r: Result<TypeSpec, GenError>)
    ensures r == HeaderEntity(spec)
  {
    var layout := spec.rifLayout;
    ghost var scope := HeaderScope(spec);
    var fields: seq<FieldDecl> := [];
    var methods: seq<MethodDecl> := [];
    var fieldIndex := 0;
    while fieldIndex <= spec.lastHeaderFieldIndex
      invariant 0 <= fieldIndex <= |scope|
      invariant fieldIndex == 0 || fieldIndex <= spec.lastHeaderFieldIndex + 1
      invariant MembersOf(spec, scope[..fieldIndex]) == Ok(Members(fields, methods))
      decreases spec.lastHeaderFieldIndex - fieldIndex
    {
      if fieldIndex >= |layout| {
        assert scope[..fieldIndex] == scope;
        HeaderEntityOfMembers(spec, Members(fields, methods));
        return Err(IndexOutOfBounds(fieldIndex, |layout|));
      }
      assert scope[fieldIndex] == layout[fieldIndex];
      var members := FieldMembers(spec, layout[fieldIndex]);
      if members.Err? {
        MembersOfFailsAt(spec, scope, fieldIndex);
        return Err(members.error);
      }
      MembersOfStep(spec, scope, fieldIndex);
      fields := fields + [members.value.field];
      methods := methods + [members.value.getter, members.value.setter];
      fieldIndex := fieldIndex + 1;
    }
    assert scope[..fieldIndex] == scope;
    HeaderEntityOfMembers(spec, Members(fields, methods));
    if spec.hasLines {
      fields := fields + [LinesField(spec)];
      methods := methods + [LinesGetter(spec)];
    } else {
      assert fields + [] == fields && methods + [] == methods;
    }
    r := Ok(ClassSpec(spec.headerEntity, [Entity, Table(BackQuoted(spec.headerTable))], [Public], [],
                      fields, methods, []));
  }

  // ------------------------------------------------------------------ line entity

  /** The index of the first layout field with the given Java name (the stream
      filter followed by findAny/findFirst), if there is one. */
  function FindByJavaName(fs: seq<RifField>, name: string): (r: Option<nat>)
    ensures r.Some? ==> r.value < |fs| && fs[r.value].javaFieldName == name
    ensures r.Some? ==> forall j :: 0 <= j < r.value ==> fs[j].javaFieldName != name
    ensures r.None? <==> forall j :: 0 <= j < |fs| ==> fs[j].javaFieldName != name
    decreases |fs|
  {
    if fs == [] then None
    else if fs[0].javaFieldName == name then Some(0)
    else
      match FindByJavaName(fs[1..], name)
      case None => None
      case Some(k) => Some(k + 1)
  }

  /** The layout field with the given Java name; Optional.get() on an empty
      result throws NoSuchElementException. */
  function LookUpField(layout: seq<RifField>, name: string, lookup: string): (r: Result<RifField, GenError>)
    ensures r.Err? <==> forall j :: 0 <= j < |layout| ==> layout[j].javaFieldName != name
    ensures r.Err? ==> r.error == NoValuePresent(lookup)
    ensures r.Ok? ==> r.value in layout && r.value.javaFieldName == name
  {
    match FindByJavaName(layout, name)
    case None => Err(NoValuePresent(lookup))
    case Some(k) => Ok(layout[k])
  }

  /** The two key fields of the composite-key class and the line-number getter's
      name. */
  datatype KeyFields = KeyFields(parentId: FieldDecl, lineNumber: FieldDecl, lineNumberGetter: string)

  /** The key fields, in the order the generator looks them up: the parent
      claim's id field (by the header id field's name) and its type, then the
      line-number field and its type, then the capitalized getter name. */
  function LineKeyFields(spec: MappingSpec): Result<KeyFields, GenError>
  {
    var parentRifField :- LookUpField(spec.rifLayout, spec.headerEntityIdField, "parentClaimRifField");
    var parentType :- SelectJavaFieldType(parentRifField);
    var lineNumberRifField :- LookUpField(spec.rifLayout, spec.lineEntityLineNumberField, "rifLineNumberField");
    var lineNumberType :- SelectJavaFieldType(lineNumberRifField);
    var capitalized :- Capitalize(spec.lineEntityLineNumberField);
    Ok(KeyFields(FieldDecl(parentType, spec.lineEntityParentField, [Private], [], None),
                 FieldDecl(lineNumberType, spec.lineEntityLineNumberField, [Private], [], None),
                 "get" + capitalized))
  }

  const SerialVersionUidField: FieldDecl :=
    FieldDecl(Long, "serialVersionUID", [Private, Static, Final], [], Some("1"))

  /** The nested, serializable composite-key class: the serial version, the two
      key fields, their getters, hashCode over the two key fields and the given
      equals. */
  function KeyClassWith(spec: MappingSpec, key: KeyFields, equals: MethodDecl): TypeSpec
  {
    ClassSpec(spec.lineEntityIdClass, [], [Public, Static], ["Serializable"],
              [SerialVersionUidField, key.parentId, key.lineNumber],
              [MethodDecl("getParentClaim", [], [], [], key.parentId.ftype, [Return(FieldRef(key.parentId.name))]),
               MethodDecl(key.lineNumberGetter, [], [], [], key.lineNumber.ftype, [Return(FieldRef(key.lineNumber.name))]),
               GenerateHashCodeMethod([key.parentId, key.lineNumber]),
               equals],
              [])
  }

  /** The key class as the generator emits it: its equals is generated for the
      line entity's type, so it casts to the line entity and keeps the
      non-negated field tests (see KeyMethods). */
  function KeyClass(spec: MappingSpec, key: KeyFields): TypeSpec
  {
    KeyClassWith(spec, key, AsWrittenEqualsMethod(spec.lineEntity, [key.parentId, key.lineNumber]))
  }

  /** The key class as evidently intended: equals casts to the key class itself
      and returns false at the first key field that differs. */
  function IntendedKeyClass(spec: MappingSpec, key: KeyFields): TypeSpec
  {
    KeyClassWith(spec, key, CorrectedEqualsMethod(spec.lineEntityIdClass, [key.parentId, key.lineNumber]))
  }

  /** The line's reference to its header: part of the key, many-to-one, joined on
      the header id column. */
  function ParentClaimField(spec: MappingSpec): FieldDecl
  {
    FieldDecl(Named(spec.headerEntity), spec.lineEntityParentField, [Private],
              [Id, ManyToOne, JoinColumn(BackQuoted(spec.headerEntityIdField))], None)
  }

  /** The line entity: the parent reference and its accessors first, then the
      members of every line field, with the key class nested inside. */
  function LineEntity(spec: MappingSpec): Result<TypeSpec, GenError>
  {
    var key :- LineKeyFields(spec);
    var parent := ParentClaimField(spec);
    var getterName :- CalculateGetterName(parent);
    var setterName := CalculateSetterName(parent).value;
    var members :- MembersOf(spec, LineScope(spec));
    Ok(ClassSpec(spec.lineEntity, [Entity, IdClass(spec.lineEntityIdClass), Table(BackQuoted(spec.lineTable))],
                 [Public], [],
                 [parent] + members.fields,
                 [MethodDecl(getterName, [], [Public], [], Named(spec.headerEntity), [Return(FieldRef(parent.name))]),
                  MethodDecl(setterName, [], [Public], [Param(Named(spec.headerEntity), parent.name)], Void,
                             SetterBody(false, parent.name))]
                 + members.methods,
                 [KeyClass(spec, key)]))
  }

  /** Once the key fields, the parent accessors and the members of the line scope
      are known, so is the line entity. */
  lemma LineEntityOfMembers(spec: MappingSpec, key: KeyFields, getterName: string, setterName: string, members: Members)
    requires LineKeyFields(spec) == Ok(key)
    requires CalculateGetterName(ParentClaimField(spec)) == Ok(getterName)
    requires CalculateSetterName(ParentClaimField(spec)) == Ok(setterName)
    requires MembersOf(spec, LineScope(spec)) == Ok(members)
    ensures LineEntity(spec) ==
      Ok(ClassSpec(spec.lineEntity, [Entity, IdClass(spec.lineEntityIdClass), Table(BackQuoted(spec.lineTable))],
                   [Public], [],
                   [ParentClaimField(spec)] + members.fields,
                   [MethodDecl(getterName, [], [Public], [], Named(spec.headerEntity), [Return(FieldRef(spec.lineEntityParentField))]),
                    MethodDecl(setterName, [], [Public], [Param(Named(spec.headerEntity), spec.lineEntityParentField)], Void,
                               SetterBody(false, spec.lineEntityParentField))]
                   + members.methods,
                   [KeyClass(spec, key)]))
  {
  }

  /** The for-loop of generateLineEntity: the members of every field from the
      first line index to the end of the layout. */
  method GenerateLineMembers(spec: MappingSpec) returns (r: Result<Members, GenError>)
    ensures r == MembersOf(spec, LineScope(spec))
  {
    var layout := spec.rifLayout;
    ghost var scope := LineScope(spec);
    ghost var end := if spec.firstLineFieldIndex <= |layout| then |layout| else spec.firstLineFieldIndex;
    var fields: seq<FieldDecl> := [];
    var methods: seq<MethodDecl> := [];
    var fieldIndex := spec.firstLineFieldIndex;
    while fieldIndex < |layout|
      invariant spec.firstLineFieldIndex <= fieldIndex <= end
      invariant MembersOf(spec, scope[..fieldIndex - spec.firstLineFieldIndex]) == Ok(Members(fields, methods))
      decreases |layout| - fieldIndex
    {
      var k := fieldIndex - spec.firstLineFieldIndex;
      assert scope[k] == layout[fieldIndex];
      var members := FieldMembers(spec, layout[fieldIndex]);
      if members.Err? {
        MembersOfFailsAt(spec, scope, k);
        return Err(members.error);
      }
      MembersOfStep(spec, scope, k);
      fields := fields + [members.value.field];
      methods := methods + [members.value.getter, members.value.setter];
      fieldIndex := fieldIndex + 1;
    }
    assert scope[..fieldIndex - spec.firstLineFieldIndex] == scope;
    r := Ok(Members(fields, methods));
  }

  method GenerateLineEntity(spec: MappingSpec) returns (r: Result<TypeSpec, GenError>)
    ensures r == LineEntity(spec)
  {
    var keyOrError := LineKeyFields(spec);
    if keyOrError.Err? {
      r := Err(keyOrError.error);
      assert r == LineEntity(spec);
      return;
    }
    var key := keyOrError.value;
    var parent := ParentClaimField(spec);
    var getterName := CalculateGetterName(parent);
    if getterName.Err? {
      r := Err(getterName.error);
      assert r == LineEntity(spec);
      return;
    }
    var setterName := CalculateSetterName(parent);
    var members := GenerateLineMembers(spec);
    if members.Err? {
      r := Err(members.error);
      assert r == LineEntity(spec);
      return;
    }
    LineEntityOfMembers(spec, key, getterName.value, setterName.value, members.value);
    r := Ok(ClassSpec(spec.lineEntity, [Entity, IdClass(spec.lineEntityIdClass), Table(BackQuoted(spec.lineTable))],
                      [Public], [],
                      [parent] + members.value.fields,
                      [MethodDecl(getterName.value, [], [Public], [], Named(spec.headerEntity), [Return(FieldRef(parent.name))]),
                       MethodDecl(setterName.value, [], [Public], [Param(Named(spec.headerEntity), parent.name)], Void,
                                  SetterBody(false, parent.name))]
                      + members.value.methods,
                      [KeyClass(spec, key)]));
  }

  // ------------------------------------------------------------ entity properties

  /** The header entity exists exactly when every header-scope field has members
      and the last header index lies inside the layout; a last header index past
      the end fails with List.get's IndexOutOfBoundsException. */
  lemma HeaderEntityOkIff(spec: MappingSpec)
    ensures HeaderEntity(spec).Ok? <==>
      spec.lastHeaderFieldIndex < |spec.rifLayout| &&
      forall i :: 0 <= i < |HeaderScope(spec)| ==> FieldMembers(spec, HeaderScope(spec)[i]).Ok?
    ensures ((forall i :: 0 <= i < |HeaderScope(spec)| ==> FieldMembers(spec, HeaderScope(spec)[i]).Ok?) &&
             spec.lastHeaderFieldIndex >= |spec.rifLayout|) ==>
      HeaderEntity(spec) == Err(IndexOutOfBounds(|spec.rifLayout|, |spec.rifLayout|))
  {
    MembersOfOk(spec, HeaderScope(spec));
  }

  /** A header entity's fields are those of layout fields 0 to the last header
      index, in order, each @Id exactly when it is a key column, followed by the
      `lines` collection ordered by line number only when the layout has lines;
      each field's getter and setter follow in the same order. */
  lemma HeaderEntityFields(spec: MappingSpec)
    requires HeaderEntity(spec).Ok?
    ensures var h := HeaderEntity(spec).value; var n := |HeaderScope(spec)|;
      && h.ClassSpec? && h.name == spec.headerEntity && h.nested == []
      && h.annotations == [Entity, Table(BackQuoted(spec.headerTable))]
      && n == (if spec.lastHeaderFieldIndex < 0 then 0 else spec.lastHeaderFieldIndex + 1)
      && n <= |spec.rifLayout|
      && |h.fields| == n + (if spec.hasLines then 1 else 0)
      && |h.methods| == 2 * n + (if spec.hasLines then 1 else 0)
      && (forall i :: 0 <= i < n ==>
            && FieldMembers(spec, spec.rifLayout[i]).Ok?
            && h.fields[i] == FieldMembers(spec, spec.rifLayout[i]).value.field
            && h.fields[i].name == spec.rifLayout[i].javaFieldName
            && (Id in h.fields[i].annotations <==> IsIdField(spec, spec.rifLayout[i]))
            && h.methods[2 * i] == FieldMembers(spec, spec.rifLayout[i]).value.getter
            && h.methods[2 * i + 1] == FieldMembers(spec, spec.rifLayout[i]).value.setter)
      && (spec.hasLines ==>
            && h.fields[n] == LinesField(spec)
            && OrderBy(spec.lineEntityLineNumberField + " ASC") in h.fields[n].annotations
            && h.methods[2 * n] == LinesGetter(spec))
  {
    var scope := HeaderScope(spec);
    var members := MembersOf(spec, scope).value;
    HeaderEntityOfMembers(spec, members);
    MembersOfElements(spec, scope);
    var h := HeaderEntity(spec).value;
    var n := |scope|;
    forall i | 0 <= i < n
      ensures FieldMembers(spec, spec.rifLayout[i]).Ok?
      ensures h.fields[i].name == spec.rifLayout[i].javaFieldName
      ensures Id in h.fields[i].annotations <==> IsIdField(spec, spec.rifLayout[i])
    {
      assert scope[i] == spec.rifLayout[i];
      assert h.fields[i] == members.fields[i];
      FieldMembersContract(spec, spec.rifLayout[i]);
      CreateAnnotationsContract(spec, spec.rifLayout[i]);
    }
  }

  /** The line entity exists exactly when both key fields are found in the layout
      and have field types, the line-number and parent names are non-empty, and
      every line-scope field has members. */
  lemma LineEntityOkIff(spec: MappingSpec)
    ensures LineEntity(spec).Ok? <==>
      && LookUpField(spec.rifLayout, spec.headerEntityIdField, "parentClaimRifField").Ok?
      && SelectJavaFieldType(LookUpField(spec.rifLayout, spec.headerEntityIdField, "parentClaimRifField").value).Ok?
      && LookUpField(spec.rifLayout, spec.lineEntityLineNumberField, "rifLineNumberField").Ok?
      && SelectJavaFieldType(LookUpField(spec.rifLayout, spec.lineEntityLineNumberField, "rifLineNumberField").value).Ok?
      && spec.lineEntityLineNumberField != []
      && spec.lineEntityParentField != []
      && forall i :: 0 <= i < |LineScope(spec)| ==> FieldMembers(spec, LineScope(spec)[i]).Ok?
  {
    MembersOfOk(spec, LineScope(spec));
  }

  /** A line entity can only be generated when the layout holds both fields the
      composite key is made of. */
  lemma LineEntityNeedsKeyFields(spec: MappingSpec)
    requires LineEntity(spec).Ok?
    ensures exists j :: 0 <= j < |spec.rifLayout| && spec.rifLayout[j].javaFieldName == spec.headerEntityIdField
    ensures exists j :: 0 <= j < |spec.rifLayout| && spec.rifLayout[j].javaFieldName == spec.lineEntityLineNumberField
  {
    LineEntityOkIff(spec);
  }

  /** How a generated line entity is put together from its key fields, its
      parent accessors and the members of the line scope. */
  lemma LineEntityParts(spec: MappingSpec)
    requires LineEntity(spec).Ok?
    ensures LineKeyFields(spec).Ok? && CalculateGetterName(ParentClaimField(spec)).Ok?
    ensures CalculateSetterName(ParentClaimField(spec)).Ok? && MembersOf(spec, LineScope(spec)).Ok?
    ensures var e := LineEntity(spec).value; var members := MembersOf(spec, LineScope(spec)).value;
      && e.ClassSpec? && e.name == spec.lineEntity
      && e.annotations == [Entity, IdClass(spec.lineEntityIdClass), Table(BackQuoted(spec.lineTable))]
      && e.fields == [ParentClaimField(spec)] + members.fields
      && |e.methods| == 2 + |members.methods| && e.methods[2..] == members.methods
      && e.methods[0].name == CalculateGetterName(ParentClaimField(spec)).value
      && e.methods[1].name == CalculateSetterName(ParentClaimField(spec)).value
      && e.nested == [KeyClass(spec, LineKeyFields(spec).value)]
  {
    var parent := ParentClaimField(spec);
    var members := MembersOf(spec, LineScope(spec)).value;
    LineEntityOfMembers(spec, LineKeyFields(spec).value, CalculateGetterName(parent).value,
                        CalculateSetterName(parent).value, members);
  }

  /** A line entity starts with the back-reference to its header (part of the key,
      joined on the header id column) and its two accessors, then has the fields of
      layout indices first line to the end, in order, each followed in the method
      list by its getter and setter. */
  lemma LineEntityFields(spec: MappingSpec, e: TypeSpec)
    requires LineEntity(spec) == Ok(e)
    ensures e.ClassSpec? && e.fields[0] == ParentClaimField(spec)
    ensures |e.fields| == 1 + |LineScope(spec)| && |e.methods| == 2 + 2 * |LineScope(spec)|
    ensures e.methods[0].name == "get" + Capitalize(spec.lineEntityParentField).value
    ensures e.methods[1].name == "set" + Capitalize(spec.lineEntityParentField).value
    ensures forall i :: 0 <= i < |LineScope(spec)| ==>
      && FieldMembers(spec, LineScope(spec)[i]).Ok?
      && e.fields[1 + i] == FieldMembers(spec, LineScope(spec)[i]).value.field
      && e.methods[2 + 2 * i] == FieldMembers(spec, LineScope(spec)[i]).value.getter
      && e.methods[3 + 2 * i] == FieldMembers(spec, LineScope(spec)[i]).value.setter
  {
    LineEntityParts(spec);
    MembersOfElements(spec, LineScope(spec));
    forall i | 0 <= i < |LineScope(spec)|
      ensures && FieldMembers(spec, LineScope(spec)[i]).Ok?
              && e.fields[1 + i] == FieldMembers(spec, LineScope(spec)[i]).value.field
              && e.methods[2 + 2 * i] == FieldMembers(spec, LineScope(spec)[i]).value.getter
              && e.methods[3 + 2 * i] == FieldMembers(spec, LineScope(spec)[i]).value.setter
    {
      LineEntityFieldAt(spec, e, i);
    }
  }

  /** One line field's members inside a successful line entity. */
  lemma LineEntityFieldAt(spec: MappingSpec, e: TypeSpec, i: nat)
    requires LineEntity(spec) == Ok(e) && i < |LineScope(spec)|
    ensures FieldMembers(spec, LineScope(spec)[i]).Ok?
    ensures e.ClassSpec? && |e.fields| > 1 + i && |e.methods| > 3 + 2 * i
    ensures e.fields[1 + i] == FieldMembers(spec, LineScope(spec)[i]).value.field
    ensures e.methods[2 + 2 * i] == FieldMembers(spec, LineScope(spec)[i]).value.getter
    ensures e.methods[3 + 2 * i] == FieldMembers(spec, LineScope(spec)[i]).value.setter
  {
    LineEntityParts(spec);
    MembersAfterAccessors(spec, LineScope(spec), MembersOf(spec, LineScope(spec)).value, e.fields, e.methods, i);
  }

  /** Field i of a run placed after one leading field and two leading methods. */
  lemma MembersAfterAccessors(spec: MappingSpec, fs: seq<RifField>, members: Members,
                              fields: seq<FieldDecl>, methods: seq<MethodDecl>, i: nat)
    requires MembersOf(spec, fs) == Ok(members) && i < |fs|
    requires |fields| == 1 + |members.fields| && fields[1..] == members.fields
    requires |methods| == 2 + |members.methods| && methods[2..] == members.methods
    ensures FieldMembers(spec, fs[i]).Ok?
    ensures |fields| > 1 + i && |methods| > 3 + 2 * i
    ensures fields[1 + i] == FieldMembers(spec, fs[i]).value.field
    ensures methods[2 + 2 * i] == FieldMembers(spec, fs[i]).value.getter
    ensures methods[3 + 2 * i] == FieldMembers(spec, fs[i]).value.setter
  {
    MembersOfElements(spec, fs);
    assert fields[1 + i] == fields[1..][i];
    assert methods[2 + 2 * i] == methods[2..][2 * i];
    assert methods[3 + 2 * i] == methods[2..][2 * i + 1];
  }

  /** The nested key class of a line entity: serializable, holding the serial
      version and exactly the two key fields, with hashCode over those two. */
  lemma LineKeyClassShape(spec: MappingSpec)
    requires LineEntity(spec).Ok?
    ensures var e := LineEntity(spec).value;
      && |e.nested| == 1 && e.nested[0].ClassSpec?
      && e.nested[0].name == spec.lineEntityIdClass
      && e.nested[0].modifiers == [Public, Static]
      && e.nested[0].superinterfaces == ["Serializable"]
      && e.nested[0].fields[0] == SerialVersionUidField
      && FieldNames(e.nested[0].fields) == ["serialVersionUID", spec.lineEntityParentField, spec.lineEntityLineNumberField]
      && |e.nested[0].methods| == 4
      && e.nested[0].methods[2] == GenerateHashCodeMethod(e.nested[0].fields[1..])
  {
    var key := LineKeyFields(spec).value;
    var parent := ParentClaimField(spec);
    LineEntityOfMembers(spec, key, CalculateGetterName(parent).value, CalculateSetterName(parent).value,
                        MembersOf(spec, LineScope(spec)).value);
    var k := LineEntity(spec).value.nested[0];
    assert k == KeyClass(spec, key);
    assert k.fields[1..] == [key.parentId, key.lineNumber];
  }

  /** The key class of a generated line entity, as emitted: its equals is false
      for null, true for the same reference, false for an object of another
      class, and throws ClassCastException for any other key object, because it
      casts to the line entity. (Java does not allow a nested class to share its
      enclosing class's name, so the two names differ.) */
  lemma LineKeyEquality(spec: MappingSpec, a: Instance, b: Instance)
    requires LineEntity(spec).Ok?
    requires spec.lineEntity != spec.lineEntityIdClass
    requires a.cls == spec.lineEntityIdClass
    ensures var k := LineEntity(spec).value.nested[0];
      && k.methods[3].name == "equals"
      && EvalEquals(k.methods[3], a, None) == Returns(false)
      && EvalEquals(k.methods[3], a, Some(b)) ==
           if a.ref == b.ref then Returns(true)
           else if b.cls != a.cls then Returns(false)
           else Throws("ClassCastException")
  {
    var key := LineKeyFields(spec).value;
    var parent := ParentClaimField(spec);
    LineEntityOfMembers(spec, key, CalculateGetterName(parent).value, CalculateSetterName(parent).value,
                        MembersOf(spec, LineScope(spec)).value);
    var keyFields := [key.parentId, key.lineNumber];
    var rest := AsWrittenChecks(FieldNames(keyFields)) + [ReturnBool(true)];
    assert AsWrittenEqualsMethod(spec.lineEntity, keyFields).body == EqualsPrologue(spec.lineEntity) + rest;
    EvalPrologue(spec.lineEntity, rest, a, None);
    EvalPrologue(spec.lineEntity, rest, a, Some(b));
  }

  /** The intended key class differs from the emitted one only in equals, and
      its equals is composite-key equality over the parent claim and the line
      number; keys it calls equal hash alike. */
  lemma IntendedKeyEquality(spec: MappingSpec, key: KeyFields, a: Instance, b: Instance)
    requires LineKeyFields(spec) == Ok(key)
    requires a.cls == spec.lineEntityIdClass
    requires var names := [spec.lineEntityParentField, spec.lineEntityLineNumberField];
      HasSlots(a, names) && HasSlots(b, names)
    ensures var k := IntendedKeyClass(spec, key); var names := [spec.lineEntityParentField, spec.lineEntityLineNumberField];
      && k.methods[..3] == KeyClass(spec, key).methods[..3]
      && k == KeyClass(spec, key).(methods := k.methods)
      && k.methods[3].name == "equals" && k.methods[2].name == "hashCode"
      && EvalEquals(k.methods[3], a, None) == Returns(false)
      && EvalEquals(k.methods[3], a, Some(b)) ==
           Returns(a.ref == b.ref || (b.cls == spec.lineEntityIdClass && AgreeOn(a, b, names)))
      && (EvalEquals(k.methods[3], a, Some(b)) == Returns(true) && (a.ref == b.ref ==> a == b) ==>
            EvalHashCode(k.methods[2], a) == EvalHashCode(k.methods[2], b))
  {
    var keyFields := [key.parentId, key.lineNumber];
    assert FieldNames(keyFields) == [spec.lineEntityParentField, spec.lineEntityLineNumberField];
    CorrectedEqualsIsKeyEquality(spec.lineEntityIdClass, keyFields, a, b);
    if EvalEquals(CorrectedEqualsMethod(spec.lineEntityIdClass, keyFields), a, Some(b)) == Returns(true) && (a.ref == b.ref ==> a == b) {
      CorrectedEqualsAgreesWithHashCode(spec.lineEntityIdClass, keyFields, a, b);
    }
  }
}
