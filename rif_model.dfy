/** The input side of the generator: the fields of one RIF layout (one row of the
    layout spreadsheet each), the mapping specification that pairs a layout with the
    names of the entities to generate, and the failures generation can raise. */
module RifModel {
  import opened Wrappers

  /** The three column types of the layout spreadsheet. */
  datatype RifColumnType = CHAR | NUM | DATE

  /** One layout field: its RIF column name (the enum constant), its type, its
      length (for NUM columns, the precision), its optional scale, whether the
      column may be empty, and the Java field name used in the entities. */
  datatype RifField = RifField(
    rifColumnName: string,
    rifColumnType: RifColumnType,
    rifColumnLength: nat,
    rifColumnScale: Option<nat>,
    rifColumnOptional: bool,
    javaFieldName: string)

  /** The generation directives for one layout. The derived names (enum, line
      entity, key class, parent and line-number fields) and the two scope indices
      are carried as given values. */
  datatype MappingSpec = MappingSpec(
    packageName: string,
    rifLayout: seq<RifField>,
    columnEnum: string,
    headerEntity: string,
    headerTable: string,
    headerEntityIdField: string,
    hasLines: bool,
    lineEntity: string,
    lineTable: string,
    lineEntityIdClass: string,
    lineEntityParentField: string,
    lineEntityLineNumberField: string,
    firstLineFieldIndex: nat,
    lastHeaderFieldIndex: int)

  /** The exceptions the generator can throw while it builds one mapping's code. */
  datatype GenError =
    | UnhandledFieldType(field: RifField)      // IllegalArgumentException from the type table
    | NoValuePresent(lookup: string)           // NoSuchElementException from Optional.get()
    | IndexOutOfBounds(index: int, size: nat)  // List.get past the end of the layout
    | StringIndexOutOfBounds(index: int)       // charAt(0) of an empty name
    | NoEnumConstants(enumName: string)        // IllegalArgumentException from building an enum without constants

  /** The layout fields the header entity is built from: indices 0 to the last
      header index inclusive, cut at the end of the layout. */
  function HeaderScope(spec: MappingSpec): (s: seq<RifField>)
    ensures |s| <= |spec.rifLayout|
    ensures forall i :: 0 <= i < |s| ==> s[i] == spec.rifLayout[i] && i <= spec.lastHeaderFieldIndex
    ensures spec.lastHeaderFieldIndex < |spec.rifLayout| ==> |s| == if spec.lastHeaderFieldIndex < 0 then 0 else spec.lastHeaderFieldIndex + 1
    ensures spec.lastHeaderFieldIndex >= |spec.rifLayout| ==> s == spec.rifLayout
  {
    var n := |spec.rifLayout|;
    if spec.lastHeaderFieldIndex < 0 then []
    else if spec.lastHeaderFieldIndex < n then spec.rifLayout[..spec.lastHeaderFieldIndex + 1]
    else spec.rifLayout
  }

  /** The layout fields the line entity is built from: the first line index to the
      end of the layout. */
  function LineScope(spec: MappingSpec): (s: seq<RifField>)
    ensures |s| == if spec.firstLineFieldIndex <= |spec.rifLayout| then |spec.rifLayout| - spec.firstLineFieldIndex else 0
    ensures forall i :: 0 <= i < |s| ==> s[i] == spec.rifLayout[spec.firstLineFieldIndex + i]
  {
    if spec.firstLineFieldIndex <= |spec.rifLayout| then spec.rifLayout[spec.firstLineFieldIndex..] else []
  }

  /** The index relationship the mapping's scope calculation establishes: with line
      records, the header ends right before the first line field; without them,
      the header takes the whole layout. */
  predicate ScopesPartitionLayout(spec: MappingSpec)
  {
    if spec.hasLines then
      spec.firstLineFieldIndex <= |spec.rifLayout| && spec.lastHeaderFieldIndex == spec.firstLineFieldIndex - 1
    else
      spec.lastHeaderFieldIndex == |spec.rifLayout| - 1
  }

  /** Under that relationship, every layout field belongs to exactly one scope: the
      header fields followed by the line fields are the layout, in order. */
  lemma ScopesCoverLayout(spec: MappingSpec)
    requires ScopesPartitionLayout(spec)
    ensures spec.hasLines ==> HeaderScope(spec) + LineScope(spec) == spec.rifLayout
    ensures !spec.hasLines ==> HeaderScope(spec) == spec.rifLayout
  {
    if spec.hasLines {
      assert HeaderScope(spec) == spec.rifLayout[..spec.firstLineFieldIndex];
    }
  }

  /** A field at the boundary index belongs to the line scope, not to the header. */
  lemma BoundaryFieldIsLineField(spec: MappingSpec)
    requires ScopesPartitionLayout(spec) && spec.hasLines
    requires spec.firstLineFieldIndex < |spec.rifLayout|
    ensures |HeaderScope(spec)| == spec.firstLineFieldIndex
    ensures LineScope(spec)[0] == spec.rifLayout[spec.firstLineFieldIndex]
  {
  }
}
