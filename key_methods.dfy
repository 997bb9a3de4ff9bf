/** The hashCode and equals methods of the line entity's composite-key class
    (generateHashCodeMethod, generateEqualsMethod), with what they do at run time. */
module KeyMethods {
  import opened Wrappers
  import opened JavaModel
  import opened JavaSemantics

  /** `return Objects.hash(f1, f2, ...)` over the given fields, in order. */
  function GenerateHashCodeMethod(fields: seq<FieldDecl>): MethodDecl
  {
    MethodDecl("hashCode", [Override], [Public], [], Int, [ReturnHash(FieldNames(fields))])
  }

  /** `public boolean equals(Object obj)` with the given body. */
  function EqualsMethodDecl(body: seq<Stmt>): MethodDecl
  {
    MethodDecl("equals", [Override], [Public], [Param(Named("Object"), "obj")], Bool, body)
  }

  /** The three guards and the cast that open every generated equals body. */
  function EqualsPrologue(castType: string): seq<Stmt>
  {
    [IfReturn(SameReference, true), IfReturn(ArgIsNull, false), IfReturn(ClassDiffers, false), CastOther(castType)]
  }

  /** One `if (Objects.deepEquals(f, other.f)) return false;` per field, as written. */
  function AsWrittenChecks(names: seq<string>): seq<Stmt>
  {
    seq(|names|, i requires 0 <= i < |names| => IfReturn(FieldsDeepEqual(names[i]), false))
  }

  /** One `if (!Objects.deepEquals(f, other.f)) return false;` per field. */
  function CorrectedChecks(names: seq<string>): seq<Stmt>
  {
    seq(|names|, i requires 0 <= i < |names| => IfReturn(FieldsNotDeepEqual(names[i]), false))
  }

  /** The equals method exactly as the generator builds it. */
  function AsWrittenEqualsMethod(typeName: string, fields: seq<FieldDecl>): MethodDecl
  {
    EqualsMethodDecl(EqualsPrologue(typeName) + AsWrittenChecks(FieldNames(fields)) + [ReturnBool(true)])
  }

  /** The equals method the key class needs: cast to the key class itself and
      return false as soon as a key field differs. */
  function CorrectedEqualsMethod(idClass: string, fields: seq<FieldDecl>): MethodDecl
  {
    EqualsMethodDecl(EqualsPrologue(idClass) + CorrectedChecks(FieldNames(fields)) + [ReturnBool(true)])
  }

  /** generateEqualsMethod: the guards, the cast to `typeName`, then one test per
      field appended in a loop, then `return true`. */
  method GenerateEqualsMethod(typeName: string, fields: seq<FieldDecl>) returns (m: MethodDecl)
    ensures m == AsWrittenEqualsMethod(typeName, fields)
  {
    var body := [IfReturn(SameReference, true)];
    body := body + [IfReturn(ArgIsNull, false)];
    body := body + [IfReturn(ClassDiffers, false)];
    body := body + [CastOther(typeName)];
    for i := 0 to |fields|
      invariant body == EqualsPrologue(typeName) + AsWrittenChecks(FieldNames(fields[..i]))
    {
      assert AsWrittenChecks(FieldNames(fields[..i + 1]))
          == AsWrittenChecks(FieldNames(fields[..i])) + [IfReturn(FieldsDeepEqual(fields[i].name), false)];
      body := body + [IfReturn(FieldsDeepEqual(fields[i].name), false)];
    }
    assert fields[..|fields|] == fields;
    body := body + [ReturnBool(true)];
    m := EqualsMethodDecl(body);
  }

  predicate HasSlots(x: Instance, names: seq<string>)
  {
    forall i :: 0 <= i < |names| ==> names[i] in x.slots
  }

  /** The two objects hold equal values in every named field. */
  predicate AgreeOn(a: Instance, b: Instance, names: seq<string>)
    requires HasSlots(a, names) && HasSlots(b, names)
  {
    forall i :: 0 <= i < |names| ==> a.slots[names[i]] == b.slots[names[i]]
  }

  /** The two objects hold different values in every named field. */
  predicate DifferInAll(a: Instance, b: Instance, names: seq<string>)
    requires HasSlots(a, names) && HasSlots(b, names)
  {
    forall i :: 0 <= i < |names| ==> a.slots[names[i]] != b.slots[names[i]]
  }

  function KeyValues(x: Instance, names: seq<string>): (vs: seq<RtValue>)
    requires HasSlots(x, names)
    ensures |vs| == |names| && forall i :: 0 <= i < |names| ==> vs[i] == x.slots[names[i]]
  {
    seq(|names|, i requires 0 <= i < |names| => x.slots[names[i]])
  }

  /** The generated hashCode is Objects.hash of exactly the given fields, so two
      objects that agree on those fields have the same hash, whatever else differs. */
  lemma HashCodeCoversExactlyFields(fields: seq<FieldDecl>, a: Instance, b: Instance)
    requires HasSlots(a, FieldNames(fields)) && HasSlots(b, FieldNames(fields))
    ensures EvalHashCode(GenerateHashCodeMethod(fields), a) == Some(ObjectsHash(KeyValues(a, FieldNames(fields))))
    ensures AgreeOn(a, b, FieldNames(fields)) ==>
      EvalHashCode(GenerateHashCodeMethod(fields), a) == EvalHashCode(GenerateHashCodeMethod(fields), b)
  {
    var names := FieldNames(fields);
    var va := seq(|names|, i requires 0 <= i < |names| && names[i] in a.slots => a.slots[names[i]]);
    assert va == KeyValues(a, names);
    if AgreeOn(a, b, names) {
      var vb := seq(|names|, i requires 0 <= i < |names| && names[i] in b.slots => b.slots[names[i]]);
      assert vb == KeyValues(b, names) == KeyValues(a, names);
    }
  }

  /** How the three guards and the cast of the prologue decide. */
  lemma {:induction false} EvalPrologue(castType: string, rest: seq<Stmt>, a: Instance, obj: Option<Instance>)
    ensures EvalEqualsBody(EqualsPrologue(castType) + rest, a, obj, None) ==
      if obj.Some? && obj.value.ref == a.ref then Returns(true)
      else if obj.None? then Returns(false)
      else if a.cls != obj.value.cls then Returns(false)
      else if obj.value.cls != castType then Throws("ClassCastException")
      else EvalEqualsBody(rest, a, obj, obj)
  {
    var b0 := EqualsPrologue(castType) + rest;
    var b1 := [IfReturn(ArgIsNull, false), IfReturn(ClassDiffers, false), CastOther(castType)] + rest;
    var b2 := [IfReturn(ClassDiffers, false), CastOther(castType)] + rest;
    var b3 := [CastOther(castType)] + rest;
    assert b0[0] == IfReturn(SameReference, true) && b0[1..] == b1;
    assert b1[0] == IfReturn(ArgIsNull, false) && b1[1..] == b2;
    assert b2[0] == IfReturn(ClassDiffers, false) && b2[1..] == b3;
    assert b3[0] == CastOther(castType) && b3[1..] == rest;
    if !(obj.Some? && obj.value.ref == a.ref) {
      assert EvalEqualsBody(b0, a, obj, None) == EvalEqualsBody(b1, a, obj, None);
      if obj.Some? {
        assert EvalEqualsBody(b1, a, obj, None) == EvalEqualsBody(b2, a, obj, None);
        if a.cls == obj.value.cls {
          assert EvalEqualsBody(b2, a, obj, None) == EvalEqualsBody(b3, a, obj, None);
        }
      }
    }
  }

  /** The corrected tests fall through exactly when all named fields agree. */
  lemma {:induction false} EvalCorrectedChecks(names: seq<string>, a: Instance, b: Instance, rest: seq<Stmt>)
    requires HasSlots(a, names) && HasSlots(b, names)
    ensures EvalEqualsBody(CorrectedChecks(names) + rest, a, Some(b), Some(b)) ==
      if AgreeOn(a, b, names) then EvalEqualsBody(rest, a, Some(b), Some(b)) else Returns(false)
    decreases |names|
  {
    var body := CorrectedChecks(names) + rest;
    if names == [] {
      assert body == rest;
    } else {
      assert body[0] == IfReturn(FieldsNotDeepEqual(names[0]), false);
      assert body[1..] == CorrectedChecks(names[1..]) + rest;
      EvalCorrectedChecks(names[1..], a, b, rest);
      assert AgreeOn(a, b, names) <==> a.slots[names[0]] == b.slots[names[0]] && AgreeOn(a, b, names[1..]);
    }
  }

  /** The as-written tests fall through exactly when all named fields differ. */
  lemma {:induction false} EvalAsWrittenChecks(names: seq<string>, a: Instance, b: Instance, rest: seq<Stmt>)
    requires HasSlots(a, names) && HasSlots(b, names)
    ensures EvalEqualsBody(AsWrittenChecks(names) + rest, a, Some(b), Some(b)) ==
      if DifferInAll(a, b, names) then EvalEqualsBody(rest, a, Some(b), Some(b)) else Returns(false)
    decreases |names|
  {
    var body := AsWrittenChecks(names) + rest;
    if names == [] {
      assert body == rest;
    } else {
      assert body[0] == IfReturn(FieldsDeepEqual(names[0]), false);
      assert body[1..] == AsWrittenChecks(names[1..]) + rest;
      EvalAsWrittenChecks(names[1..], a, b, rest);
      assert DifferInAll(a, b, names) <==> a.slots[names[0]] != b.slots[names[0]] && DifferInAll(a, b, names[1..]);
    }
  }

  /** The corrected equals is composite-key equality: false for null, true for the
      same reference, and otherwise true exactly for an object of the key class that
      agrees on every key field. */
  lemma CorrectedEqualsIsKeyEquality(idClass: string, fields: seq<FieldDecl>, a: Instance, b: Instance)
    requires a.cls == idClass
    requires HasSlots(a, FieldNames(fields)) && HasSlots(b, FieldNames(fields))
    ensures EvalEquals(CorrectedEqualsMethod(idClass, fields), a, None) == Returns(false)
    ensures EvalEquals(CorrectedEqualsMethod(idClass, fields), a, Some(b)) ==
      Returns(a.ref == b.ref || (b.cls == idClass && AgreeOn(a, b, FieldNames(fields))))
  {
    var names := FieldNames(fields);
    var rest := CorrectedChecks(names) + [ReturnBool(true)];
    assert CorrectedEqualsMethod(idClass, fields).body == EqualsPrologue(idClass) + rest;
    EvalPrologue(idClass, rest, a, None);
    EvalPrologue(idClass, rest, a, Some(b));
    if a.ref != b.ref && b.cls == idClass {
      EvalCorrectedChecks(names, a, b, [ReturnBool(true)]);
    }
  }

  /** With the corrected equals, equal objects have equal hash codes. */
  lemma CorrectedEqualsAgreesWithHashCode(idClass: string, fields: seq<FieldDecl>, a: Instance, b: Instance)
    requires a.cls == idClass
    requires HasSlots(a, FieldNames(fields)) && HasSlots(b, FieldNames(fields))
    requires a.ref == b.ref ==> a == b
    requires EvalEquals(CorrectedEqualsMethod(idClass, fields), a, Some(b)) == Returns(true)
    ensures EvalHashCode(GenerateHashCodeMethod(fields), a) == EvalHashCode(GenerateHashCodeMethod(fields), b)
  {
    CorrectedEqualsIsKeyEquality(idClass, fields, a, b);
    HashCodeCoversExactlyFields(fields, a, b);
  }

  /** As written, the cast goes to `typeName`; handed any type other than the key
      class, equals on two distinct key objects throws ClassCastException. */
  lemma AsWrittenEqualsThrowsOnDistinctKeys(typeName: string, idClass: string, fields: seq<FieldDecl>, a: Instance, b: Instance)
    requires typeName != idClass
    requires a.cls == idClass && b.cls == idClass && a.ref != b.ref
    ensures EvalEquals(AsWrittenEqualsMethod(typeName, fields), a, Some(b)) == Throws("ClassCastException")
  {
    var rest := AsWrittenChecks(FieldNames(fields)) + [ReturnBool(true)];
    assert AsWrittenEqualsMethod(typeName, fields).body == EqualsPrologue(typeName) + rest;
    EvalPrologue(typeName, rest, a, Some(b));
  }

  /** Even with the cast going to the key class, the un-negated test makes two
      distinct objects equal exactly when they differ in EVERY key field: the
      opposite of composite-key equality. */
  lemma InvertedTestEqualsWhenAllKeysDiffer(idClass: string, fields: seq<FieldDecl>, a: Instance, b: Instance)
    requires a.cls == idClass && b.cls == idClass && a.ref != b.ref
    requires HasSlots(a, FieldNames(fields)) && HasSlots(b, FieldNames(fields))
    ensures EvalEquals(AsWrittenEqualsMethod(idClass, fields), a, Some(b)) == Returns(DifferInAll(a, b, FieldNames(fields)))
  {
    var names := FieldNames(fields);
    var rest := AsWrittenChecks(names) + [ReturnBool(true)];
    assert AsWrittenEqualsMethod(idClass, fields).body == EqualsPrologue(idClass) + rest;
    EvalPrologue(idClass, rest, a, Some(b));
    EvalAsWrittenChecks(names, a, b, [ReturnBool(true)]);
  }

  /** A sample key class with the two key fields of a claim line. */
  const SampleIdClass: string := "CarrierClaimLineId"
  const SampleKeyFields: seq<FieldDecl> :=
    [FieldDecl(Str, "parentClaim", [Private], [], None), FieldDecl(Decimal, "lineNumber", [Private], [], None)]
  const SampleKey: Instance := Instance(1, SampleIdClass, map["parentClaim" := Scalar(7), "lineNumber" := Scalar(1)])
  const SampleKeyCopy: Instance := Instance(2, SampleIdClass, map["parentClaim" := Scalar(7), "lineNumber" := Scalar(1)])
  const SampleOtherKey: Instance := Instance(3, SampleIdClass, map["parentClaim" := Scalar(8), "lineNumber" := Scalar(2)])

  /** Two distinct key objects with equal keys are reported unequal as written, and
      equal by the corrected method. */
  lemma EqualKeysReportedUnequal()
    ensures EvalEquals(AsWrittenEqualsMethod(SampleIdClass, SampleKeyFields), SampleKey, Some(SampleKeyCopy)) == Returns(false)
    ensures EvalEquals(CorrectedEqualsMethod(SampleIdClass, SampleKeyFields), SampleKey, Some(SampleKeyCopy)) == Returns(true)
  {
    var names := FieldNames(SampleKeyFields);
    assert names == ["parentClaim", "lineNumber"];
    InvertedTestEqualsWhenAllKeysDiffer(SampleIdClass, SampleKeyFields, SampleKey, SampleKeyCopy);
    assert SampleKey.slots[names[0]] == SampleKeyCopy.slots[names[0]];
    CorrectedEqualsIsKeyEquality(SampleIdClass, SampleKeyFields, SampleKey, SampleKeyCopy);
  }

  /** Two key objects that differ in both key fields are reported equal as written,
      although their hash codes differ: the hashCode/equals contract is broken. */
  lemma DifferentKeysReportedEqual()
    ensures EvalEquals(AsWrittenEqualsMethod(SampleIdClass, SampleKeyFields), SampleKey, Some(SampleOtherKey)) == Returns(true)
    ensures EvalHashCode(GenerateHashCodeMethod(SampleKeyFields), SampleKey)
         != EvalHashCode(GenerateHashCodeMethod(SampleKeyFields), SampleOtherKey)
  {
    var names := FieldNames(SampleKeyFields);
    assert names == ["parentClaim", "lineNumber"];
    InvertedTestEqualsWhenAllKeysDiffer(SampleIdClass, SampleKeyFields, SampleKey, SampleOtherKey);
    HashCodeCoversExactlyFields(SampleKeyFields, SampleKey, SampleOtherKey);
    HashCodeCoversExactlyFields(SampleKeyFields, SampleOtherKey, SampleKey);
    assert KeyValues(SampleKey, names) == [Scalar(7), Scalar(1)];
    assert KeyValues(SampleOtherKey, names) == [Scalar(8), Scalar(2)];
    SampleHashes();
  }

  /** Proof helper for SampleHashes: a small non-negative number is its own
      32-bit value. */
  lemma SmallIntsAreInt32(x: int)
    requires 0 <= x < 0x8000_0000
    ensures ToInt32(x) == x
  {
  }

  /** The sample keys' hashes under the model's hashing, where a scalar hashes as
      its own number (see JavaSemantics.ValueHash). */
  lemma SampleHashes()
    ensures ObjectsHash([Scalar(7), Scalar(1)]) == 1179
    ensures ObjectsHash([Scalar(8), Scalar(2)]) == 1211
  {
    assert [Scalar(7), Scalar(1)][..1] == [Scalar(7)];
    assert [Scalar(8), Scalar(2)][..1] == [Scalar(8)];
    assert [Scalar(7)][..0] == [] && [Scalar(8)][..0] == [];
    SmallIntsAreInt32(1); SmallIntsAreInt32(2); SmallIntsAreInt32(7); SmallIntsAreInt32(8);
    SmallIntsAreInt32(38); SmallIntsAreInt32(39);
    assert ObjectsHash([Scalar(7)]) == 38;
    assert ObjectsHash([Scalar(8)]) == 39;
    SmallIntsAreInt32(1179); SmallIntsAreInt32(1211);
  }
}
