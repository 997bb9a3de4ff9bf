/** Accessor naming: capitalize and the getter and setter names built from it. */
module Naming {
  import opened Wrappers
  import opened RifModel
  import opened JavaModel

  predicate IsLowerAscii(c: char) { 'a' <= c <= 'z' }

  /** Character.toUpperCase, restricted to the ASCII letters field names use. */
  function ToUpperCase(c: char): (u: char)
    ensures !IsLowerAscii(u)
    ensures u != c <==> IsLowerAscii(c)
    ensures IsLowerAscii(c) ==> u as int == c as int - 32
  {
    if IsLowerAscii(c) then (c as int - 32) as char else c
  }

  /** The name with its first character upper-cased. `charAt(0)` of an empty name
      throws StringIndexOutOfBoundsException. */
  function Capitalize(name: string): (r: Result<string, GenError>)
    ensures r.Err? <==> name == []
    ensures r.Err? ==> r.error == StringIndexOutOfBounds(0)
    ensures r.Ok? ==> |r.value| == |name| && r.value[0] == ToUpperCase(name[0]) && r.value[1..] == name[1..]
  {
    if name == [] then Err(StringIndexOutOfBounds(0))
    else Ok([ToUpperCase(name[0])] + name[1..])
  }

  /** Capitalizing twice is capitalizing once. */
  lemma CapitalizeIdempotent(name: string)
    requires name != []
    ensures Capitalize(Capitalize(name).value) == Capitalize(name)
  {
  }

  predicate IsBooleanType(t: JavaType) { t == Bool || t == BoxedBool }

  /** "is" + the capitalized name for boolean fields, "get" + it otherwise. */
  function CalculateGetterName(field: FieldDecl): (r: Result<string, GenError>)
    ensures r.Ok? <==> field.name != []
    ensures r.Err? ==> r.error == StringIndexOutOfBounds(0)
    ensures r.Ok? && IsBooleanType(field.ftype) ==> r.value == "is" + Capitalize(field.name).value
    ensures r.Ok? && !IsBooleanType(field.ftype) ==> r.value == "get" + Capitalize(field.name).value
  {
    var capitalized :- Capitalize(field.name);
    if IsBooleanType(field.ftype) then Ok("is" + capitalized) else Ok("get" + capitalized)
  }

  /** "set" + the capitalized name, whatever the field's type. */
  function CalculateSetterName(field: FieldDecl): (r: Result<string, GenError>)
    ensures r.Ok? <==> field.name != []
    ensures r.Err? ==> r.error == StringIndexOutOfBounds(0)
    ensures r.Ok? ==> r.value == "set" + Capitalize(field.name).value
  {
    var capitalized :- Capitalize(field.name);
    Ok("set" + capitalized)
  }

  /** No getter name ever equals a setter name, and getter and setter of one field
      carry the same capitalized name after their prefixes. */
  lemma AccessorNamesAgreeAndDiffer(field: FieldDecl, other: FieldDecl)
    requires field.name != [] && other.name != []
    ensures CalculateGetterName(field).value != CalculateSetterName(other).value
    ensures var g := CalculateGetterName(field).value; var s := CalculateSetterName(field).value;
      s[3..] == g[|g| - |field.name|..] && |s| == |field.name| + 3
  {
    var g := CalculateGetterName(field).value;
    var s := CalculateSetterName(other).value;
    assert s[0] == 's';
    assert g[0] == 'g' || g[0] == 'i';
  }
}
