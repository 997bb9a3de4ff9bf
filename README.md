# RIF layouts code generator and claim types, modelled in Dafny

This project models the annotation processor that turns the RIF layout spreadsheet
of the Blue Button data model into Java source (`RifLayoutsProcessor`), and the
`ClaimType` enum of the FHIR server.

For every mapping of an annotated package, the processor:

- writes a column enum;
- writes, when the layout has line records, a JPA line entity with a nested
  composite-key class;
- writes a JPA header entity.

Any exception from the generators is caught at the top of `process` and logged as
one ERROR entry, and the processor reports the annotations as handled. When
processing is over, the debug log file is written after the catch, so a failure to
write it escapes `process` (see "## Left out").

The generated Java is modelled as a small syntax tree (`JavaModel`): type, field
and method declarations with their annotations and statement bodies. Next to it,
`JavaSemantics` is an evaluator for the bodies the generator emits: getters,
setters, `equals` and `hashCode` (including Java's 32-bit `int` arithmetic in
`Objects.hash`). The properties of the generated code are therefore stated about
what it does, not only about its shape.

Modules:

- `RifModel`: layout fields, mapping specifications, the header and line scopes,
  and the exceptions generation raises (as `GenError`).
- `TypeSelection`, `Annotations`, `Naming`, `Accessors`: the per-field helpers
  (`selectJavaFieldType`, `selectJavaPropertyType`, `createAnnotations`,
  `capitalize`, the getter and setter names and statements).
- `KeyMethods`: `generateHashCodeMethod` and `generateEqualsMethod`, as written and
  corrected (see Findings).
- `Entities`: `generateColumnEnum`, `generateHeaderEntity`, `generateLineEntity`.
  Each is a method with the source's loop, proved equal to a function that the
  lemmas describe.
- `Processor`: `generateCode`, both `process` methods and `log`. The class
  `RifLayoutsProcessor` holds the log (`logMessages`) and the types handed to the
  Filer (`written`).
- `ClaimTypes`: the `ClaimType` constants, their constructor and getters, and
  `parse`.

A thrown exception is an `Err` of a `Result`. An artifact already written stays
written when a later generator of the same mapping throws.

## Behaviour worth knowing

- The first failure ends the whole round. The exception escapes the loops of both
  `process` methods, so:
  - later mappings of the package are not generated;
  - later annotated elements are not processed.
- Artifacts already written stay written. Each generator writes its type to the
  Filer as soon as it is built. A column enum or line entity written before a later
  generator of that mapping fails stays written.
- The ERROR entry of a `RifLayoutProcessingException` (an annotated element that is
  not a package, or a missing spreadsheet) carries no element. The element is
  passed to `log` as an unused format argument, not as the associated element.
- The nested key class of the line entity is emitted with an `equals` that throws
  `ClassCastException` for two distinct keys (see "## Findings"). The model nests
  that class as emitted; `Entities.IntendedKeyClass` is the corrected class.
- The column enum keys its constants by name: a repeated column name adds no second
  constant, and an empty layout makes building the enum fail.

## Model

Source paths: `RifLayoutsProcessor.java` is
`bluebutton-data-model-codegen/src/main/java/gov/hhs/cms/bluebutton/data/model/codegen/RifLayoutsProcessor.java`;
`ClaimType.java` is
`apps/bfd-server/bfd-server-war/src/main/java/gov/cms/bfd/server/war/r4/providers/ClaimType.java`.

| member | source | states |
|---|---|---|
| RifModel.HeaderScope | bluebutton-data-model-codegen/src/main/java/gov/hhs/cms/bluebutton/data/model/codegen/RifLayoutsProcessor.java:364-365 | the header loop visits layout indices 0 to the last header index, in order. It has last+1 fields when that index lies inside the layout, and none when it is negative. |
| RifModel.LineScope | bluebutton-data-model-codegen/src/main/java/gov/hhs/cms/bluebutton/data/model/codegen/RifLayoutsProcessor.java:316-318 | the line loop visits layout indices from the first line index to the end of the layout, in order; it visits none when the first index is past the end. |
| RifModel.ScopesCoverLayout | bluebutton-data-model-codegen/src/main/java/gov/hhs/cms/bluebutton/data/model/codegen/RifLayoutsProcessor.java:364-365 | when the header ends just before the first line field, the header fields followed by the line fields are exactly the layout. Without lines, the header holds the whole layout. |
| RifModel.BoundaryFieldIsLineField | bluebutton-data-model-codegen/src/main/java/gov/hhs/cms/bluebutton/data/model/codegen/RifLayoutsProcessor.java:316-318 | the field at the boundary index is the first line field, and the header has exactly as many fields as that index. |
| TypeSelection.SelectJavaFieldType | bluebutton-data-model-codegen/src/main/java/gov/hhs/cms/bluebutton/data/model/codegen/RifLayoutsProcessor.java:456-471 | the storage type fails (IllegalArgumentException naming the field) exactly for a DATE column whose length is not 8. Otherwise the type stores the column's type: `char` exactly for required CHAR(1), `Character` exactly for optional CHAR(1), `String` exactly for other CHAR columns. |
| TypeSelection.SelectJavaPropertyType | bluebutton-data-model-codegen/src/main/java/gov/hhs/cms/bluebutton/data/model/codegen/RifLayoutsProcessor.java:481-486 | the accessor type fails exactly when the storage type does (with the same error). It is wrapped in exactly one Optional for an optional column, and is the storage type itself for a required one. |
| TypeSelection.FlippingOptionalWrapsOnce | bluebutton-data-model-codegen/src/main/java/gov/hhs/cms/bluebutton/data/model/codegen/RifLayoutsProcessor.java:456-486 | making a required column optional keeps its column type and wraps its accessor type in one Optional. A CHAR(1) column's accessor goes from `char` to `Optional<Character>`. |
| Annotations.BackQuoted | bluebutton-data-model-codegen/src/main/java/gov/hhs/cms/bluebutton/data/model/codegen/RifLayoutsProcessor.java:510 | a quoted name is the name between two back-quotes. |
| Annotations.CreateAnnotations | bluebutton-data-model-codegen/src/main/java/gov/hhs/cms/bluebutton/data/model/codegen/RifLayoutsProcessor.java:498-527 | the annotations of one field, as a specification function with no ensures of its own. Annotations.CreateAnnotationsContract states its error case (NUM without a scale), where `@Id` appears, and the `@Column` attributes. |
| Annotations.CreateAnnotationsContract | bluebutton-data-model-codegen/src/main/java/gov/hhs/cms/bluebutton/data/model/codegen/RifLayoutsProcessor.java:498-527 | the annotations fail (NoSuchElementException) exactly for a NUM column without a scale. `@Id` is present exactly for the header id field, or for the line-number field when there are lines; it comes first. `@Column` is last: back-quoted name, nullable = optional, length exactly for CHAR, precision and scale exactly for NUM. |
| Naming.ToUpperCase | bluebutton-data-model-codegen/src/main/java/gov/hhs/cms/bluebutton/data/model/codegen/RifLayoutsProcessor.java:605 | a character changes exactly when it is a lower-case letter, and then to its upper-case letter. |
| Naming.Capitalize | bluebutton-data-model-codegen/src/main/java/gov/hhs/cms/bluebutton/data/model/codegen/RifLayoutsProcessor.java:603-606 | fails exactly for the empty name, with StringIndexOutOfBoundsException(0). Otherwise it has the same length, an upper-cased first character and the rest unchanged. |
| Naming.CapitalizeIdempotent | bluebutton-data-model-codegen/src/main/java/gov/hhs/cms/bluebutton/data/model/codegen/RifLayoutsProcessor.java:603-606 | capitalizing twice is capitalizing once. |
| Naming.CalculateGetterName | bluebutton-data-model-codegen/src/main/java/gov/hhs/cms/bluebutton/data/model/codegen/RifLayoutsProcessor.java:535-540 | exists exactly for a non-empty field name: "is" + capitalized name for `boolean`/`Boolean` fields, "get" + capitalized name otherwise. |
| Naming.CalculateSetterName | bluebutton-data-model-codegen/src/main/java/gov/hhs/cms/bluebutton/data/model/codegen/RifLayoutsProcessor.java:564-566 | exists exactly for a non-empty field name, and is "set" + capitalized name. |
| Naming.AccessorNamesAgreeAndDiffer | bluebutton-data-model-codegen/src/main/java/gov/hhs/cms/bluebutton/data/model/codegen/RifLayoutsProcessor.java:535-566 | no getter name equals any setter name, and a field's getter and setter end in the same capitalized name. |
| Accessors.GetterBody | bluebutton-data-model-codegen/src/main/java/gov/hhs/cms/bluebutton/data/model/codegen/RifLayoutsProcessor.java:551-556 | the addGetterStatement statement (the field itself, or `Optional.ofNullable` of it for an optional column). It has no ensures of its own: Accessors.SetThenGet and Accessors.GetThenSet state what it returns together with the setter. |
| Accessors.SetterBody | bluebutton-data-model-codegen/src/main/java/gov/hhs/cms/bluebutton/data/model/codegen/RifLayoutsProcessor.java:577-596 | the addSetterStatement statement (store the parameter, or its `orElse(null)` for an optional column). It has no ensures of its own: Accessors.SetThenGet and Accessors.GetThenSet state what it stores together with the getter. |
| Accessors.FieldMembers | bluebutton-data-model-codegen/src/main/java/gov/hhs/cms/bluebutton/data/model/codegen/RifLayoutsProcessor.java:367-381 | the private field, getter and setter of one layout field, with no ensures of its own. Accessors.FieldMembersContract states when it fails, which error wins, and every part of the three members. |
| Accessors.FieldMembersContract | bluebutton-data-model-codegen/src/main/java/gov/hhs/cms/bluebutton/data/model/codegen/RifLayoutsProcessor.java:367-381 | a field's members exist exactly when its storage type, its annotations and its getter name do, and the first failure decides the error. The private field has the layout's Java name, storage type and annotations. The public getter and setter have the property type and the addGetterStatement/addSetterStatement bodies. |
| Accessors.SetThenGet | bluebutton-data-model-codegen/src/main/java/gov/hhs/cms/bluebutton/data/model/codegen/RifLayoutsProcessor.java:551-596 | running the generated setter and then the getter returns the value that was set, for required and optional fields. The slot stores the value, or for an optional field its content, or null for an empty Optional. |
| Accessors.GetThenSet | bluebutton-data-model-codegen/src/main/java/gov/hhs/cms/bluebutton/data/model/codegen/RifLayoutsProcessor.java:551-596 | setting back what the generated getter returned leaves the object unchanged, and an optional field's getter never returns null. |
| JavaModel.FieldNames | bluebutton-data-model-codegen/src/main/java/gov/hhs/cms/bluebutton/data/model/codegen/RifLayoutsProcessor.java:420 | the field names, one per field, in order. |
| JavaSemantics.ToInt32 | bluebutton-data-model-codegen/src/main/java/gov/hhs/cms/bluebutton/data/model/codegen/RifLayoutsProcessor.java:419-420 | Java `int` arithmetic in the generated hashCode: the result lies in the 32-bit range and equals the exact value modulo 2^32. |
| KeyMethods.GenerateHashCodeMethod | bluebutton-data-model-codegen/src/main/java/gov/hhs/cms/bluebutton/data/model/codegen/RifLayoutsProcessor.java:417-422 | the hashCode method, with no ensures of its own. KeyMethods.HashCodeCoversExactlyFields states what it returns when run. |
| KeyMethods.HashCodeCoversExactlyFields | bluebutton-data-model-codegen/src/main/java/gov/hhs/cms/bluebutton/data/model/codegen/RifLayoutsProcessor.java:417-422 | the generated hashCode returns Objects.hash of the given fields' values, in order, so objects that agree on those fields hash alike. |
| KeyMethods.AsWrittenEqualsMethod | bluebutton-data-model-codegen/src/main/java/gov/hhs/cms/bluebutton/data/model/codegen/RifLayoutsProcessor.java:432-448 | the equals method the generator emits, with no ensures of its own. KeyMethods.EvalPrologue and KeyMethods.EvalAsWrittenChecks state what it returns when run, KeyMethods.AsWrittenEqualsThrowsOnDistinctKeys states that it throws with a foreign cast type, and KeyMethods.InvertedTestEqualsWhenAllKeysDiffer states its result with the key class as cast type. |
| KeyMethods.CorrectedEqualsMethod | bluebutton-data-model-codegen/src/main/java/gov/hhs/cms/bluebutton/data/model/codegen/RifLayoutsProcessor.java:432-448 | the equals method with negated field tests, with no ensures of its own. KeyMethods.CorrectedEqualsIsKeyEquality and KeyMethods.CorrectedEqualsAgreesWithHashCode state that it is key equality consistent with hashCode. |
| KeyMethods.GenerateEqualsMethod | bluebutton-data-model-codegen/src/main/java/gov/hhs/cms/bluebutton/data/model/codegen/RifLayoutsProcessor.java:432-448 | the loop builds the equals method as written (the three guards, the cast, one test per field, `return true`). Its behaviour is given by the lemmas below. |
| KeyMethods.EvalPrologue | bluebutton-data-model-codegen/src/main/java/gov/hhs/cms/bluebutton/data/model/codegen/RifLayoutsProcessor.java:436-440 | the same reference gives true, null gives false and another class gives false. An object of a class other than the cast type throws ClassCastException. Otherwise the field tests decide. |
| KeyMethods.EvalCorrectedChecks | bluebutton-data-model-codegen/src/main/java/gov/hhs/cms/bluebutton/data/model/codegen/RifLayoutsProcessor.java:441-444 | with negated tests, equals continues past the tests exactly when the objects agree on every field, and otherwise returns false. |
| KeyMethods.EvalAsWrittenChecks | bluebutton-data-model-codegen/src/main/java/gov/hhs/cms/bluebutton/data/model/codegen/RifLayoutsProcessor.java:441-444 | with the tests as written, equals continues past the tests exactly when the objects differ in every field, and otherwise returns false. |
| KeyMethods.CorrectedEqualsIsKeyEquality | bluebutton-data-model-codegen/src/main/java/gov/hhs/cms/bluebutton/data/model/codegen/RifLayoutsProcessor.java:432-448 | the corrected equals is false for null. Otherwise it is true exactly for the same reference, or for an object of the key class that agrees on every key field. |
| KeyMethods.CorrectedEqualsAgreesWithHashCode | bluebutton-data-model-codegen/src/main/java/gov/hhs/cms/bluebutton/data/model/codegen/RifLayoutsProcessor.java:417-448 | objects the corrected equals calls equal have equal generated hash codes. |
| KeyMethods.AsWrittenEqualsThrowsOnDistinctKeys | bluebutton-data-model-codegen/src/main/java/gov/hhs/cms/bluebutton/data/model/codegen/RifLayoutsProcessor.java:291-292 | as written, the cast names a type other than the key class, so equals on two distinct key objects throws ClassCastException. |
| KeyMethods.InvertedTestEqualsWhenAllKeysDiffer | bluebutton-data-model-codegen/src/main/java/gov/hhs/cms/bluebutton/data/model/codegen/RifLayoutsProcessor.java:441-444 | even with the right cast, the tests as written make two distinct key objects equal exactly when they differ in every key field. |
| KeyMethods.EqualKeysReportedUnequal | bluebutton-data-model-codegen/src/main/java/gov/hhs/cms/bluebutton/data/model/codegen/RifLayoutsProcessor.java:441-444 | once the cast at 291-292 names the key class, two key objects holding (7, 1) are unequal under the tests as written and equal when corrected. |
| KeyMethods.DifferentKeysReportedEqual | bluebutton-data-model-codegen/src/main/java/gov/hhs/cms/bluebutton/data/model/codegen/RifLayoutsProcessor.java:441-444 | once the cast at 291-292 names the key class, key objects (7, 1) and (8, 2) are equal under the tests as written, although their generated hash codes differ (1179 and 1211, with a number hashing as itself). |
| Entities.ColumnConstants | bluebutton-data-model-codegen/src/main/java/gov/hhs/cms/bluebutton/data/model/codegen/RifLayoutsProcessor.java:224-227 | the enum constants JavaPoet keeps for the layout's column names, with no ensures of its own. Entities.ColumnConstantsContract and Entities.ColumnConstantsOfDistinctNames state which names they are and in what order. |
| Entities.ColumnConstantsContract | bluebutton-data-model-codegen/src/main/java/gov/hhs/cms/bluebutton/data/model/codegen/RifLayoutsProcessor.java:224-227 | the constants are exactly the layout's column names, each once (a repeated name adds nothing), at most one per field, and none exactly when the layout is empty. |
| Entities.ColumnConstantsOfDistinctNames | bluebutton-data-model-codegen/src/main/java/gov/hhs/cms/bluebutton/data/model/codegen/RifLayoutsProcessor.java:224-227 | when the column names are distinct, constant i is the column name of field i, one per field, in layout order. |
| Entities.ColumnEnum | bluebutton-data-model-codegen/src/main/java/gov/hhs/cms/bluebutton/data/model/codegen/RifLayoutsProcessor.java:222-229 | the enum fails (IllegalArgumentException from building an enum without constants) exactly for an empty layout. Otherwise it is the public enum named by the mapping, holding the layout's constants. |
| Entities.GenerateColumnEnum | bluebutton-data-model-codegen/src/main/java/gov/hhs/cms/bluebutton/data/model/codegen/RifLayoutsProcessor.java:222-229 | the loop adds one constant per layout field and then builds exactly the column enum, or fails as it does. |
| Entities.MembersOf | bluebutton-data-model-codegen/src/main/java/gov/hhs/cms/bluebutton/data/model/codegen/RifLayoutsProcessor.java:364-382 | the members of a run of layout fields, with no ensures of its own. Entities.MembersOfOk, Entities.MembersOfElements and Entities.MembersOfFailsAt state when it succeeds, where each field's members land and which error wins. |
| Entities.MembersOfOk | bluebutton-data-model-codegen/src/main/java/gov/hhs/cms/bluebutton/data/model/codegen/RifLayoutsProcessor.java:364-382 | a run of fields succeeds exactly when every field's members do. |
| Entities.MembersOfElements | bluebutton-data-model-codegen/src/main/java/gov/hhs/cms/bluebutton/data/model/codegen/RifLayoutsProcessor.java:364-382 | in a successful run, field i yields entity field i, getter 2i and setter 2i+1. |
| Entities.MembersOfFailsAt | bluebutton-data-model-codegen/src/main/java/gov/hhs/cms/bluebutton/data/model/codegen/RifLayoutsProcessor.java:364-382 | the first field whose members fail decides the run's error, whatever follows it. |
| Entities.LinesField | bluebutton-data-model-codegen/src/main/java/gov/hhs/cms/bluebutton/data/model/codegen/RifLayoutsProcessor.java:389-397 | the header's `lines` collection (`@OneToMany` mapped by the parent field, orphan removal, eager fetch, cascade all; `@OrderBy` the line number ASC; initialised to a new LinkedList). It has no ensures of its own: Entities.HeaderEntityFields states that a header with lines ends in it. |
| Entities.LinesGetter | bluebutton-data-model-codegen/src/main/java/gov/hhs/cms/bluebutton/data/model/codegen/RifLayoutsProcessor.java:399-401 | the public `getLines` returning `lines`, with no ensures of its own. Entities.HeaderEntityFields states that it is the header's last method when there are lines. |
| Entities.HeaderEntity | bluebutton-data-model-codegen/src/main/java/gov/hhs/cms/bluebutton/data/model/codegen/RifLayoutsProcessor.java:355-409 | the header entity, with no ensures of its own. Entities.HeaderEntityOkIff states exactly when it exists, and Entities.HeaderEntityFields states its name, annotations, fields and methods. |
| Entities.GenerateHeaderEntity | bluebutton-data-model-codegen/src/main/java/gov/hhs/cms/bluebutton/data/model/codegen/RifLayoutsProcessor.java:355-409 | the loop (including the out-of-range get) builds exactly the header entity, or throws its error. |
| Entities.HeaderEntityOkIff | bluebutton-data-model-codegen/src/main/java/gov/hhs/cms/bluebutton/data/model/codegen/RifLayoutsProcessor.java:364-365 | the header entity exists exactly when every header field has members and the last header index lies in the layout. When only the index lies outside, the error is IndexOutOfBoundsException. |
| Entities.HeaderEntityFields | bluebutton-data-model-codegen/src/main/java/gov/hhs/cms/bluebutton/data/model/codegen/RifLayoutsProcessor.java:355-402 | a header entity is named and annotated per the mapping and has layout fields 0..last in order, each `@Id` exactly when it is a key column, with getter and setter at 2i and 2i+1. With lines, it ends in the `lines` collection (ordered by line number ASC) and its getter. |
| Entities.FindByJavaName | bluebutton-data-model-codegen/src/main/java/gov/hhs/cms/bluebutton/data/model/codegen/RifLayoutsProcessor.java:267-268 | finds the first layout field with the name. No earlier field has it, and none is found exactly when no field has it. |
| Entities.LookUpField | bluebutton-data-model-codegen/src/main/java/gov/hhs/cms/bluebutton/data/model/codegen/RifLayoutsProcessor.java:267-279 | fails (NoSuchElementException) exactly when no layout field has the name; otherwise it returns a layout field with that name. |
| Entities.LineEntity | bluebutton-data-model-codegen/src/main/java/gov/hhs/cms/bluebutton/data/model/codegen/RifLayoutsProcessor.java:247-342 | the line entity, with no ensures of its own. Entities.LineEntityOkIff states exactly when it exists; Entities.LineEntityParts, Entities.LineEntityFields and Entities.LineKeyClassShape state its parts. |
| Entities.GenerateLineMembers | bluebutton-data-model-codegen/src/main/java/gov/hhs/cms/bluebutton/data/model/codegen/RifLayoutsProcessor.java:316-335 | the line loop yields exactly the members of the line scope, or the first field's error. |
| Entities.GenerateLineEntity | bluebutton-data-model-codegen/src/main/java/gov/hhs/cms/bluebutton/data/model/codegen/RifLayoutsProcessor.java:247-342 | the steps in the source's order (lookups, key class with the as-written hashCode and equals, parent field and accessors, loop) build exactly the line entity, or throw its first error. |
| Entities.LineEntityOkIff | bluebutton-data-model-codegen/src/main/java/gov/hhs/cms/bluebutton/data/model/codegen/RifLayoutsProcessor.java:267-335 | the line entity exists exactly when the conditions below all hold. |
| Entities.LineEntityNeedsKeyFields | bluebutton-data-model-codegen/src/main/java/gov/hhs/cms/bluebutton/data/model/codegen/RifLayoutsProcessor.java:267-279 | a generated line entity implies that the layout holds both key fields. |
| Entities.LineEntityParts | bluebutton-data-model-codegen/src/main/java/gov/hhs/cms/bluebutton/data/model/codegen/RifLayoutsProcessor.java:247-313 | a line entity is named and annotated (`@Entity`, `@IdClass`, `@Table`) per the mapping. Its fields are the parent reference then the line members, its methods are the two parent accessors then the line accessors, and it nests the key class as emitted, whose equals casts to the line entity. |
| Entities.LineEntityFields | bluebutton-data-model-codegen/src/main/java/gov/hhs/cms/bluebutton/data/model/codegen/RifLayoutsProcessor.java:298-335 | the parent reference (`@Id @ManyToOne @JoinColumn` on the header id) comes first, with getParent…/setParent…. Line field i follows at 1+i, with getter and setter at 2+2i and 3+2i. |
| Entities.LineKeyFields | bluebutton-data-model-codegen/src/main/java/gov/hhs/cms/bluebutton/data/model/codegen/RifLayoutsProcessor.java:267-287 | the two key fields and the line-number getter name, looked up in the source's order. It has no ensures of its own: Entities.LineEntityOkIff states exactly when the lookups and their types succeed, Entities.LineEntityNeedsKeyFields that both fields are then in the layout, and Entities.LineKeyClassShape how the key class holds them. |
| Entities.ParentClaimField | bluebutton-data-model-codegen/src/main/java/gov/hhs/cms/bluebutton/data/model/codegen/RifLayoutsProcessor.java:298-303 | the line's parent reference: the header entity's type, `@Id @ManyToOne @JoinColumn` on the back-quoted header id field. It has no ensures of its own: Entities.LineEntityFields states that it is the line entity's first field, with its getter and setter. |
| Entities.KeyClass | bluebutton-data-model-codegen/src/main/java/gov/hhs/cms/bluebutton/data/model/codegen/RifLayoutsProcessor.java:259-295 | the nested key class as emitted, with no ensures of its own. Entities.LineKeyClassShape states its shape, and Entities.LineKeyEquality states that its equals throws ClassCastException on a distinct key. |
| Entities.LineKeyClassShape | bluebutton-data-model-codegen/src/main/java/gov/hhs/cms/bluebutton/data/model/codegen/RifLayoutsProcessor.java:259-295 | the nested key class is public static and Serializable. It holds serialVersionUID, then the parent and line-number fields, and four methods; its hashCode covers exactly the two key fields. |
| Entities.LineKeyEquality | bluebutton-data-model-codegen/src/main/java/gov/hhs/cms/bluebutton/data/model/codegen/RifLayoutsProcessor.java:289-292 | the emitted key class's equals is false for null, true for the same reference and false for an object of another class. For any other key object it throws ClassCastException, because it casts to the line entity. |
| Entities.IntendedKeyEquality | bluebutton-data-model-codegen/src/main/java/gov/hhs/cms/bluebutton/data/model/codegen/RifLayoutsProcessor.java:289-292 | the intended key class differs from the emitted one only in equals. Its equals is composite-key equality on parent and line number, and keys it calls equal hash alike. |
| Processor.CodeEmission | bluebutton-data-model-codegen/src/main/java/gov/hhs/cms/bluebutton/data/model/codegen/RifLayoutsProcessor.java:190-209 | the artifacts one mapping writes and its failure, with no ensures of its own. Processor.CodeEmissionOrder states when it fails and the order of what it writes. |
| Processor.CodeEmissionOrder | bluebutton-data-model-codegen/src/main/java/gov/hhs/cms/bluebutton/data/model/codegen/RifLayoutsProcessor.java:190-209 | a mapping fails exactly when one of its generators does. A failing enum writes nothing; otherwise the enum is written first, and a failing line entity leaves the header ungenerated. On success the output is enum, line (with lines), header. |
| Processor.PackageEmission | bluebutton-data-model-codegen/src/main/java/gov/hhs/cms/bluebutton/data/model/codegen/RifLayoutsProcessor.java:176-178 | the artifacts the mappings of a package write, one after another, with no ensures of its own. Processor.PackageEmissionStops and Processor.PackageEmissionAppend state how the mappings combine. |
| Processor.PackageEmissionStops | bluebutton-data-model-codegen/src/main/java/gov/hhs/cms/bluebutton/data/model/codegen/RifLayoutsProcessor.java:177-178 | after a mapping fails, later mappings change nothing. |
| Processor.PackageEmissionAppend | bluebutton-data-model-codegen/src/main/java/gov/hhs/cms/bluebutton/data/model/codegen/RifLayoutsProcessor.java:177-178 | without a failure, each mapping's artifacts follow those of the mappings before it. |
| Processor.DirectedSpec | bluebutton-data-model-codegen/src/main/java/gov/hhs/cms/bluebutton/data/model/codegen/RifLayoutsProcessor.java:162-169 | one mapping as process(PackageElement) directs it over a parsed sheet, with no ensures of its own. Processor.ParsedPackageRun states what the mappings built with it generate. |
| Processor.PackageMappings | bluebutton-data-model-codegen/src/main/java/gov/hhs/cms/bluebutton/data/model/codegen/RifLayoutsProcessor.java:157-169 | the package's two mappings in order: beneficiaries without lines, then carrier claims with lines. It has no ensures of its own: Processor.ParsedPackageRun states that the first has no lines and the second has, and in what order they are generated. |
| Processor.ElementRun | bluebutton-data-model-codegen/src/main/java/gov/hhs/cms/bluebutton/data/model/codegen/RifLayoutsProcessor.java:102-179 | the log entries, artifacts and failure of processing one annotated element, with no ensures of its own. Processor.ParsedPackageRun and Processor.ElementNotes state what it logs and generates. |
| Processor.ParsedPackageRun | bluebutton-data-model-codegen/src/main/java/gov/hhs/cms/bluebutton/data/model/codegen/RifLayoutsProcessor.java:157-178 | a package whose sheets were read logs three notes. It generates the beneficiary mapping (no lines, at most enum and header), then the carrier mapping (with lines) only if the first succeeded. The run fails exactly when one of them does. |
| Processor.FormatLogEntry | bluebutton-data-model-codegen/src/main/java/gov/hhs/cms/bluebutton/data/model/codegen/RifLayoutsProcessor.java:626-630 | the text of one log entry, with no ensures of its own. Processor.LogEntryParts, Processor.KindTagsDiffer, Processor.ErrorEntryIffErrorKind and Processor.LogEntryWithoutElementIsInjective state its parts and what it determines. |
| Processor.LogEntryParts | bluebutton-data-model-codegen/src/main/java/gov/hhs/cms/bluebutton/data/model/codegen/RifLayoutsProcessor.java:626-630 | every entry starts with the bracketed kind and ends with the message. |
| Processor.KindTagsDiffer | bluebutton-data-model-codegen/src/main/java/gov/hhs/cms/bluebutton/data/model/codegen/RifLayoutsProcessor.java:626-630 | entries of different kinds never coincide. |
| Processor.ErrorEntryIffErrorKind | bluebutton-data-model-codegen/src/main/java/gov/hhs/cms/bluebutton/data/model/codegen/RifLayoutsProcessor.java:626-630 | an entry starts with `[ERROR]` exactly when its kind is ERROR. |
| Processor.LogEntryWithoutElementIsInjective | bluebutton-data-model-codegen/src/main/java/gov/hhs/cms/bluebutton/data/model/codegen/RifLayoutsProcessor.java:629-630 | an entry without an element determines its kind and its message. |
| Processor.ElementNotes | bluebutton-data-model-codegen/src/main/java/gov/hhs/cms/bluebutton/data/model/codegen/RifLayoutsProcessor.java:135-174 | processing one element logs no ERROR entry. |
| Processor.ElementsRun | bluebutton-data-model-codegen/src/main/java/gov/hhs/cms/bluebutton/data/model/codegen/RifLayoutsProcessor.java:101-108 | the loop over the annotated elements, stopping at the first failure, with no ensures of its own. Processor.RunLogsOnlyNotes and Processor.ElementsRunStops state what it logs and that later elements are not processed. |
| Processor.RunLogsOnlyNotes | bluebutton-data-model-codegen/src/main/java/gov/hhs/cms/bluebutton/data/model/codegen/RifLayoutsProcessor.java:102-108 | the loop over the annotated elements logs no ERROR entry. |
| Processor.ExceptionName | bluebutton-data-model-codegen/src/main/java/gov/hhs/cms/bluebutton/data/model/codegen/RifLayoutsProcessor.java:111-118 | the Java exception class behind each generator failure, which the fatal entry names. It has no ensures of its own: Processor.ParsedPackageRun states that a failing mapping ends the element's run with that class. |
| Processor.FailureEntry | bluebutton-data-model-codegen/src/main/java/gov/hhs/cms/bluebutton/data/model/codegen/RifLayoutsProcessor.java:109-118 | the entry each catch block logs: the exception's message, or `FATAL ERROR: ` and the exception's class, without an element. It has no ensures of its own: Processor.FailureEntryIsError states that it is an ERROR entry, and Processor.RunLogErrorEntries that it is the last entry of a failed round. |
| Processor.FailureEntryIsError | bluebutton-data-model-codegen/src/main/java/gov/hhs/cms/bluebutton/data/model/codegen/RifLayoutsProcessor.java:109-119 | both catch blocks log an ERROR entry. |
| Processor.RunLogErrorEntries | bluebutton-data-model-codegen/src/main/java/gov/hhs/cms/bluebutton/data/model/codegen/RifLayoutsProcessor.java:97-119 | around a run that logged only notes, the log has one more entry exactly when the run failed. That entry is the failure's ERROR entry, and it is the only ERROR entry. |
| Processor.ProcessLog | bluebutton-data-model-codegen/src/main/java/gov/hhs/cms/bluebutton/data/model/codegen/RifLayoutsProcessor.java:97-119 | the whole log of a `process` call, with no ensures of its own. Processor.ErrorEntryIffFailure states that it holds an ERROR entry exactly when the round failed, as its last entry. |
| Processor.ErrorEntryIffFailure | bluebutton-data-model-codegen/src/main/java/gov/hhs/cms/bluebutton/data/model/codegen/RifLayoutsProcessor.java:97-119 | `process` logs an ERROR entry exactly when the round failed; it is then the last entry and every other entry is a note. |
| Processor.ElementsRunStops | bluebutton-data-model-codegen/src/main/java/gov/hhs/cms/bluebutton/data/model/codegen/RifLayoutsProcessor.java:102-108 | after an element fails, later elements are not processed. |
| Processor.RifLayoutsProcessor.constructor | bluebutton-data-model-codegen/src/main/java/gov/hhs/cms/bluebutton/data/model/codegen/RifLayoutsProcessor.java:74 | a new processor has an empty log and has written nothing. |
| Processor.RifLayoutsProcessor.Log | bluebutton-data-model-codegen/src/main/java/gov/hhs/cms/bluebutton/data/model/codegen/RifLayoutsProcessor.java:621-632 | appends exactly one entry, in the format of Processor.FormatLogEntry, and writes nothing. |
| Processor.RifLayoutsProcessor.GenerateCode | bluebutton-data-model-codegen/src/main/java/gov/hhs/cms/bluebutton/data/model/codegen/RifLayoutsProcessor.java:190-209 | writes exactly the mapping's emission, returns its failure, and logs nothing. |
| Processor.RifLayoutsProcessor.GenerateMappings | bluebutton-data-model-codegen/src/main/java/gov/hhs/cms/bluebutton/data/model/codegen/RifLayoutsProcessor.java:176-178 | the loop over the mappings writes exactly the package's emission and returns its failure. |
| Processor.RifLayoutsProcessor.ProcessPackage | bluebutton-data-model-codegen/src/main/java/gov/hhs/cms/bluebutton/data/model/codegen/RifLayoutsProcessor.java:135-179 | appends exactly the element's log and output and returns its failure: missing spreadsheet, unreadable workbook, or a mapping's exception. |
| Processor.RifLayoutsProcessor.ProcessElement | bluebutton-data-model-codegen/src/main/java/gov/hhs/cms/bluebutton/data/model/codegen/RifLayoutsProcessor.java:102-107 | a non-package element fails at once without logging; a package is processed. |
| Processor.RifLayoutsProcessor.Process | bluebutton-data-model-codegen/src/main/java/gov/hhs/cms/bluebutton/data/model/codegen/RifLayoutsProcessor.java:97-125 | returns true whenever it returns (the debug-file write is left out). It appends exactly the round's log (trigger note, notes, one ERROR entry on failure) and writes exactly the round's output. |
| ClaimTypes.Values | apps/bfd-server/bfd-server-war/src/main/java/gov/cms/bfd/server/war/r4/providers/ClaimType.java:105 | `values()`: the constants in declaration order, with no ensures of its own. ClaimTypes.LowerNames and ClaimTypes.ParseLowerCasedName state what parse finds among them. |
| ClaimTypes.Name | apps/bfd-server/bfd-server-war/src/main/java/gov/cms/bfd/server/war/r4/providers/ClaimType.java:106 | `name()`: a constant's identifier, with no ensures of its own. ClaimTypes.ParseLowerCasedName states that the lower-cased name parses back to the constant. |
| ClaimTypes.LowerChar | apps/bfd-server/bfd-server-war/src/main/java/gov/cms/bfd/server/war/r4/providers/ClaimType.java:106 | an upper-case letter maps to its own lower-case letter, other characters are unchanged, and the result is never an upper-case letter. |
| ClaimTypes.ToLowerCase | apps/bfd-server/bfd-server-war/src/main/java/gov/cms/bfd/server/war/r4/providers/ClaimType.java:106 | same length, each character lower-cased. |
| ClaimTypes.LowerNames | apps/bfd-server/bfd-server-war/src/main/java/gov/cms/bfd/server/war/r4/providers/ClaimType.java:105-106 | the lower-cased name of each constant, in declaration order. |
| ClaimTypes.FirstMatch | apps/bfd-server/bfd-server-war/src/main/java/gov/cms/bfd/server/war/r4/providers/ClaimType.java:105-107 | a found position holds the text and no earlier name does, so it is the first match. Nothing is found exactly when no name equals the text. |
| ClaimTypes.Parsed | apps/bfd-server/bfd-server-war/src/main/java/gov/cms/bfd/server/war/r4/providers/ClaimType.java:104-108 | the constant parse returns, with no ensures of its own. ClaimTypes.ParseLowerCasedName, ClaimTypes.ParseIsExact and ClaimTypes.ParseIsCaseSensitive state which texts it accepts and what it returns. |
| ClaimTypes.Parse | apps/bfd-server/bfd-server-war/src/main/java/gov/cms/bfd/server/war/r4/providers/ClaimType.java:104-108 | the loop over the constants returns the first constant whose lower-cased name equals the text, or empty when none does. |
| ClaimTypes.ParseLowerCasedName | apps/bfd-server/bfd-server-war/src/main/java/gov/cms/bfd/server/war/r4/providers/ClaimType.java:104-108 | every constant is recovered from its lower-cased name. |
| ClaimTypes.ParseIsExact | apps/bfd-server/bfd-server-war/src/main/java/gov/cms/bfd/server/war/r4/providers/ClaimType.java:104-108 | a parsed constant's lower-cased name is the text, and nothing parses exactly when the text is no constant's lower-cased name. |
| ClaimTypes.ParseIsCaseSensitive | apps/bfd-server/bfd-server-war/src/main/java/gov/cms/bfd/server/war/r4/providers/ClaimType.java:104-108 | text holding an upper-case letter parses to nothing. |
| ClaimTypes.ParseExamples | apps/bfd-server/bfd-server-war/src/main/java/gov/cms/bfd/server/war/r4/providers/ClaimType.java:104-108 | "pde" parses to PDE; "PDE" parses to nothing. |
| ClaimTypes.NewClaimType | apps/bfd-server/bfd-server-war/src/main/java/gov/cms/bfd/server/war/r4/providers/ClaimType.java:47-61 | the attributes the constructor stores, with no ensures of its own. ClaimTypes.ConstructorArgumentsAreKept states that it keeps its arguments and turns a null array into an empty list. |
| ClaimTypes.ConstructorArgumentsAreKept | apps/bfd-server/bfd-server-war/src/main/java/gov/cms/bfd/server/war/r4/providers/ClaimType.java:47-61 | the constructor keeps its first four arguments. The lazy attributes are the array's elements in order, or empty for a null array. |
| ClaimTypes.Attributes | apps/bfd-server/bfd-server-war/src/main/java/gov/cms/bfd/server/war/r4/providers/ClaimType.java:25-29 | the constructor arguments PDE is declared with (no lazy attributes), with no ensures of its own. ClaimTypes.PdeAttributes states each of them. |
| ClaimTypes.GetEntityClass | apps/bfd-server/bfd-server-war/src/main/java/gov/cms/bfd/server/war/r4/providers/ClaimType.java:67-69 | getEntityClass, with no ensures of its own. ClaimTypes.PdeAttributes states its value for PDE. |
| ClaimTypes.GetEntityIdAttribute | apps/bfd-server/bfd-server-war/src/main/java/gov/cms/bfd/server/war/r4/providers/ClaimType.java:72-74 | getEntityIdAttribute, with no ensures of its own. ClaimTypes.PdeAttributes states its value for PDE. |
| ClaimTypes.GetEntityBeneficiaryIdAttribute | apps/bfd-server/bfd-server-war/src/main/java/gov/cms/bfd/server/war/r4/providers/ClaimType.java:80-82 | getEntityBeneficiaryIdAttribute, with no ensures of its own. ClaimTypes.PdeAttributes states its value for PDE. |
| ClaimTypes.GetTransformer | apps/bfd-server/bfd-server-war/src/main/java/gov/cms/bfd/server/war/r4/providers/ClaimType.java:88-90 | getTransformer, with no ensures of its own. ClaimTypes.PdeAttributes states its value for PDE. |
| ClaimTypes.GetEntityLazyAttributes | apps/bfd-server/bfd-server-war/src/main/java/gov/cms/bfd/server/war/r4/providers/ClaimType.java:95-97 | getEntityLazyAttributes, with no ensures of its own. ClaimTypes.PdeAttributes states that PDE has none. |
| ClaimTypes.PdeAttributes | apps/bfd-server/bfd-server-war/src/main/java/gov/cms/bfd/server/war/r4/providers/ClaimType.java:24-29 | PDE's getters report the Part D event entity, its event id and beneficiary id attributes, its transformer, and no lazy attributes. |

In `LineEntityOkIff`, the line entity needs all of these:

- the header id field and the line-number field are found in the layout;
- both have storage types;
- the line-number and parent names are non-empty;
- every line field has members.

## Left out

- Reading the spreadsheet (`XSSFWorkbook`, `RifLayout.parse`): the layout of each
  sheet is given as data, and opening or parsing the workbook is one outcome,
  `Unreadable`, carrying the exception's class name.
- `MappingSpec`: the names it derives (enum, line entity, key class, parent and
  line-number fields) and its two scope indices are given as data.
  `MappingSpec` is not part of this model.
- The Filer: writing a type is appending it to `written`. `IOException` from the
  Filer and the rendering of types to Java text (JavaPoet) are left out.
- JavaPoet's name validation is left out, so an empty field name reaches
  `capitalize` and fails there, and an enum constant that is no valid Java
  identifier is not rejected.
- The Messager call inside `log`.
- The debug log file (`writeDebugLogMessages`). `DEBUG` is true, so when the round
  environment reports that processing is over, `process` writes every log message
  to a source-output resource after the catch. The model leaves out this file
  system work. An IOException there escapes `process` as an UncheckedIOException
  (it is not caught); the model leaves this escape out too.
- `getSupportedAnnotationTypes` and `getSupportedSourceVersion`: constant
  declarations for the compiler.
- The texts of the annotation, of the element and of the mapping list, used in
  log notes: these come from `toString` methods outside the processor and are
  given as strings.
- Processor.FailureEntry: a fatal error's stack trace is reduced to the
  exception's class name.
- Processor.RifLayoutsProcessor.Log: messages are taken as already formatted. A
  `%` in an exception message, which `String.format` would re-interpret, is not
  modelled.
- Entities.LookUpField: `findAny` on the parent id field is modelled as the first
  match, as `findFirst` is.
- Naming.ToUpperCase: only ASCII letters are upper-cased, as Java field names in
  the layouts are ASCII.
- ClaimTypes.LowerChar: only ASCII letters are lower-cased, as the constant names
  are ASCII.
- JPA itself (how `@Id`, `@IdClass`, `@ManyToOne`, `@OneToMany` behave at run
  time): only the annotations are modelled.
- ClaimTypes: the entity class, the JPA metamodel attributes and the transformer
  function are foreign to this code and are represented by their names.
- `CoverageTransformerV2.java`, `FhirTestUtilities.java` and
  `RetrieveEobsByDate.java`: context files, not part of this model.

## Findings

| source | as written | input that shows it | evidently intended | confidence | as-written member | corrected member |
|---|---|---|---|---|---|---|
| bluebutton-data-model-codegen/src/main/java/gov/hhs/cms/bluebutton/data/model/codegen/RifLayoutsProcessor.java:291-292 | the key class's equals is generated with the line entity's name as the cast type | two distinct key objects, e.g. keys (7, 1) and (7, 1): `(CarrierClaimLine) obj` on a key object throws ClassCastException | cast to the key class itself (`getLineEntityIdClass()`) | high; not executed | Entities.LineKeyEquality | Entities.IntendedKeyEquality |
| bluebutton-data-model-codegen/src/main/java/gov/hhs/cms/bluebutton/data/model/codegen/RifLayoutsProcessor.java:441-444 | `if (Objects.deepEquals(f, other.f)) return false;` for each key field | once the cast at 291-292 names the key class: keys (7, 1) and (7, 1) are unequal; keys (7, 1) and (8, 2) are equal with hash codes 1179 and 1211 | `if (!Objects.deepEquals(f, other.f)) return false;`, consistent with hashCode | high; not executed | KeyMethods.DifferentKeysReportedEqual | KeyMethods.CorrectedEqualsAgreesWithHashCode |

The line entity nests its key class as emitted (`Entities.KeyClass`).
`Entities.LineKeyEquality` shows that its `equals` throws on distinct keys, and
`KeyMethods.AsWrittenEqualsThrowsOnDistinctKeys` states the same for any cast to a
class other than the key class. `Entities.IntendedKeyClass` is the corrected class,
and `Entities.IntendedKeyEquality` proves its `equals` is key equality.
`KeyMethods.GenerateEqualsMethod` models the generator as written.
`KeyMethods.EqualKeysReportedUnequal` and
`KeyMethods.InvertedTestEqualsWhenAllKeysDiffer` give the second finding's other
direction.

In the class as emitted, the second finding is masked by the first: the cast to
the line entity throws on every distinct key object before any field test runs.
The second finding's members therefore evaluate `equals` with the key class as the
cast type, as it is once the first finding is corrected.

The hash codes 1179 and 1211 hold in the model, where a key field holding a number
hashes as the number itself (`JavaSemantics.ValueHash`). A real key field holds a
`BigDecimal`, `String` or `Character` with its own `hashCode`, so the actual values
differ; the finding only needs the two hashes to differ.
