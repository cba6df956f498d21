/**
 * ReflectionUtils: field and getter lookup by name, dotted field paths, and
 * setting a field of an instance, over the class model of module Reflection.
 */
module ReflectionUtils {
  import opened Wrappers
  import opened JavaText
  import opened Reflection

  // ---------------------------------------------------------------- capitalize

  /** Character.toUpperCase, for the ASCII letters. */
  function ToUpperCase(c: char): char
  {
    if 'a' <= c <= 'z' then (c as int - 32) as char else c
  }

  /**
   * capitalize: null and the empty string come back unchanged; otherwise the
   * first character is upper-cased and the rest is kept.
   */
  function Capitalize(s: Option<string>): (r: Option<string>)
    ensures s.None? || s == Some("") ==> r == s
    ensures s.Some? ==> r.Some? && |r.value| == |s.value|
    ensures s.Some? && s.value != "" ==>
      r.value[0] == ToUpperCase(s.value[0]) && r.value[1..] == s.value[1..]
  {
    if s.None? || s.value == "" then s
    else Some([ToUpperCase(s.value[0])] + s.value[1..])
  }

  /** The name findGetterMethod looks for: "get" followed by the capitalised field name. */
  function GetterName(fieldName: string): (r: string)
    ensures |r| == 3 + |fieldName| && r[..3] == "get"
    ensures fieldName != "" ==> r[3] == ToUpperCase(fieldName[0]) && r[4..] == fieldName[1..]
  {
    "get" + Capitalize(Some(fieldName)).value
  }

  // ------------------------------------------------- declared-field lookup

  /** The index of the first field called name, or -1. */
  function IndexOfField(fields: seq<Field>, name: string): (r: int)
    ensures -1 <= r < |fields|
    ensures r == -1 <==> forall k :: 0 <= k < |fields| ==> fields[k].name != name
    ensures 0 <= r ==> fields[r].name == name && forall k :: 0 <= k < r ==> fields[k].name != name
  {
    if fields == [] then -1
    else if fields[0].name == name then 0
    else
      var k := IndexOfField(fields[1..], name);
      if k == -1 then -1 else k + 1
  }

  /**
   * getFieldIfExists: Class.getDeclaredField, with NoSuchFieldException
   * turned into null. Only the class's own fields are searched.
   */
  function GetFieldIfExists(c: Class, name: string): (r: Option<Field>)
    ensures r.None? <==> forall k :: 0 <= k < |c.declaredFields| ==> c.declaredFields[k].name != name
    ensures r.Some? ==> r.value in c.declaredFields && r.value.name == name
  {
    var i := IndexOfField(c.declaredFields, name);
    if i < 0 then None else Some(c.declaredFields[i])
  }

  // ------------------------------------------------------ superclass chain

  /** The class followed by its superclasses, nearest first. */
  function Chain(c: Class): (r: seq<Class>)
    ensures |r| >= 1 && r[0] == c
    decreases c
  {
    [c] + if c.superclass.Some? then Chain(c.superclass.value) else []
  }

  /** getField: the declared field of that name in the class, else in its superclasses, in order. */
  function GetField(c: Class, name: string): Option<Field>
    decreases c
  {
    match GetFieldIfExists(c, name)
    case Some(f) => Some(f)
    case None => if c.superclass.Some? then GetField(c.superclass.value, name) else None
  }

  /** findGetterMethod: the public no-argument method "get" + capitalize(name), looked up the superclass chain. */
  function FindGetterMethod(c: Class, fieldName: string): Option<Method>
    decreases c
  {
    var getterName := GetterName(fieldName);
    if getterName in c.methods then Some(Method(getterName, c.methods[getterName]))
    else if c.superclass.Some? then FindGetterMethod(c.superclass.value, fieldName)
    else None
  }

  /** The chain of a class with a superclass is the class followed by the superclass's chain. */
  lemma ChainUnfold(c: Class)
    ensures c.superclass.None? ==> Chain(c) == [c]
    ensures c.superclass.Some? ==> Chain(c) == [c] + Chain(c.superclass.value)
  {
  }

  /** The position in a chain of the first class declaring a field called name, or -1. */
  function FirstDeclaringField(chain: seq<Class>, name: string): (r: int)
    ensures -1 <= r < |chain|
    ensures r == -1 ==> forall k :: 0 <= k < |chain| ==> GetFieldIfExists(chain[k], name).None?
    ensures 0 <= r ==> GetFieldIfExists(chain[r], name).Some?
    ensures 0 <= r ==> forall k :: 0 <= k < r ==> GetFieldIfExists(chain[k], name).None?
  {
    if chain == [] then -1
    else if GetFieldIfExists(chain[0], name).Some? then 0
    else
      var k := FirstDeclaringField(chain[1..], name);
      if k == -1 then -1 else k + 1
  }

  /** The position in a chain of the first class with a method called getterName, or -1. */
  function FirstWithMethod(chain: seq<Class>, getterName: string): (r: int)
    ensures -1 <= r < |chain|
    ensures r == -1 ==> forall k :: 0 <= k < |chain| ==> getterName !in chain[k].methods
    ensures 0 <= r ==> getterName in chain[r].methods && forall k :: 0 <= k < r ==> getterName !in chain[k].methods
  {
    if chain == [] then -1
    else if getterName in chain[0].methods then 0
    else
      var k := FirstWithMethod(chain[1..], getterName);
      if k == -1 then -1 else k + 1
  }

  /**
   * getField searches the superclass chain in order: it is null exactly when
   * no class of the chain declares the field, and otherwise the field of the
   * first class that does.
   */
  lemma {:induction false} GetFieldSearchesChain(c: Class, name: string)
    ensures var i := FirstDeclaringField(Chain(c), name);
      GetField(c, name) == if i < 0 then None else GetFieldIfExists(Chain(c)[i], name)
    decreases c
  {
    ChainUnfold(c);
    if GetFieldIfExists(c, name).None? && c.superclass.Some? {
      GetFieldSearchesChain(c.superclass.value, name);
      assert Chain(c)[1..] == Chain(c.superclass.value);
    }
  }

  /**
   * findGetterMethod searches the superclass chain in order: it is null
   * exactly when no class of the chain has the getter, and otherwise the
   * getter of the first class that has it, with that class's return type.
   */
  lemma {:induction false} FindGetterSearchesChain(c: Class, fieldName: string)
    ensures var g := GetterName(fieldName);
      var i := FirstWithMethod(Chain(c), g);
      FindGetterMethod(c, fieldName) == if i < 0 then None else Some(Method(g, Chain(c)[i].methods[g]))
    decreases c
  {
    ChainUnfold(c);
    if GetterName(fieldName) !in c.methods && c.superclass.Some? {
      FindGetterSearchesChain(c.superclass.value, fieldName);
      assert Chain(c)[1..] == Chain(c.superclass.value);
    }
  }

  // ------------------------------------------------------ dotted field paths

  /**
   * The walk of findFieldByName: from the current field and class, look each
   * remaining segment up among the declared fields of the current class and
   * move to the type of the field found; a missing segment ends in null.
   */
  function FieldWalk(table: ClassTable, field: Option<Field>, c: Class, segments: seq<string>): Option<Field>
    decreases |segments|
  {
    if segments == [] then field
    else match GetFieldIfExists(c, segments[0])
      case None => None
      case Some(f) => FieldWalk(table, Some(f), ClassFor(table, f.fieldType), segments[1..])
  }

  /** What findFieldByName returns: null for an empty name, else the walk over the dot-separated segments. */
  function FieldAtPath(table: ClassTable, c: Class, fieldName: string): Option<Field>
  {
    if fieldName == "" then None else FieldWalk(table, None, c, Split(fieldName, '.'))
  }

  /**
   * findFieldByName. The object argument is the class itself; the field
   * types along the path are resolved through the table.
   */
  method FindFieldByName(table: ClassTable, c: Class, fieldName: string) returns (r: Option<Field>)
    ensures r == FieldAtPath(table, c, fieldName)
    ensures fieldName == "" ==> r.None?
  {
    if fieldName == "" {
      return None;
    }
    var clazz := c;
    var fieldNames := Split(fieldName, '.');
    var field: Option<Field> := None;
    var i := 0;
    while i < |fieldNames|
      invariant 0 <= i <= |fieldNames|
      invariant FieldWalk(table, None, c, fieldNames) == FieldWalk(table, field, clazz, fieldNames[i..])
    {
      assert fieldNames[i..][0] == fieldNames[i] && fieldNames[i..][1..] == fieldNames[i + 1..];
      var f := GetFieldIfExists(clazz, fieldNames[i]);
      if f.None? {
        return None;
      }
      field := f;
      clazz := ClassFor(table, f.value.fieldType);
      i := i + 1;
    }
    assert fieldNames[i..] == [];
    return field;
  }

  /**
   * The last segment of a path is looked up among the declared fields of the
   * type of the field its prefix resolves to; a prefix that fails makes the
   * whole path fail.
   */
  lemma {:induction false} FieldWalkSnoc(table: ClassTable, field: Option<Field>, c: Class, segments: seq<string>, last: string)
    requires segments != []
    ensures FieldWalk(table, field, c, segments + [last]) ==
      match FieldWalk(table, field, c, segments)
      case None => None
      case Some(f) => GetFieldIfExists(ClassFor(table, f.fieldType), last)
    decreases |segments|
  {
    assert (segments + [last])[0] == segments[0];
    assert (segments + [last])[1..] == segments[1..] + [last];
    match GetFieldIfExists(c, segments[0])
    case None =>
    case Some(f) =>
      var c' := ClassFor(table, f.fieldType);
      if |segments| == 1 {
        assert segments[1..] + [last] == [last];
        assert FieldWalk(table, field, c, segments) == Some(f);
        assert [last][1..] == [];
        match GetFieldIfExists(c', last)
        case None =>
        case Some(g) => assert FieldWalk(table, Some(f), c', [last]) == FieldWalk(table, Some(g), ClassFor(table, g.fieldType), []);
      } else {
        FieldWalkSnoc(table, Some(f), ClassFor(table, f.fieldType), segments[1..], last);
      }
  }

  /** A name without a dot is looked up among the declared fields of the class alone. */
  lemma SimpleNameIsDeclaredField(table: ClassTable, c: Class, fieldName: string)
    requires fieldName != "" && '.' !in fieldName
    ensures FieldAtPath(table, c, fieldName) == GetFieldIfExists(c, fieldName)
  {
    assert Split(fieldName, '.') == [fieldName];
    assert [fieldName][1..] == [];
    match GetFieldIfExists(c, fieldName)
    case None =>
    case Some(f) => assert FieldWalk(table, Some(f), ClassFor(table, f.fieldType), []) == Some(f);
  }

  /** Once a prefix of the path fails to resolve, the whole path resolves to null. */
  lemma {:induction false} FieldWalkMissingPrefix(table: ClassTable, field: Option<Field>, c: Class, segments: seq<string>, j: nat)
    requires 1 <= j <= |segments|
    requires FieldWalk(table, field, c, segments[..j]).None?
    ensures FieldWalk(table, field, c, segments).None?
    decreases |segments| - j
  {
    if j < |segments| {
      assert segments[..j + 1] == segments[..j] + [segments[j]];
      FieldWalkSnoc(table, field, c, segments[..j], segments[j]);
      FieldWalkMissingPrefix(table, field, c, segments, j + 1);
    } else {
      assert segments[..j] == segments;
    }
  }

  /** A field found by findFieldByName is named by the last segment of the path. */
  lemma {:induction false} FieldWalkNamesLastSegment(table: ClassTable, c: Class, segments: seq<string>)
    requires FieldWalk(table, None, c, segments).Some?
    ensures segments != []
    ensures FieldWalk(table, None, c, segments).value.name == segments[|segments| - 1]
  {
    if |segments| == 1 {
      assert segments[1..] == [];
    } else {
      var init := segments[..|segments| - 1];
      assert segments == init + [segments[|segments| - 1]];
      FieldWalkSnoc(table, None, c, init, segments[|segments| - 1]);
    }
  }

  // --------------------------------------------------------- getter paths

  /** Method.invoke of a getter: None when invoke throws (null target, or a target without that getter). */
  function Invoke(m: Method, target: Value): Option<Value>
  {
    if target.Null? || m.name !in target.getterResults then None
    else Some(target.getterResults[m.name])
  }

  /**
   * The walk of getValueByFieldName: the value reached and the declared
   * return type of the last getter, or None once a getter is missing or
   * throws.
   */
  function ValueWalk(table: ClassTable, v: Value, c: Class, segments: seq<string>): Option<(Value, Class)>
    decreases |segments|
  {
    if segments == [] then Some((v, c))
    else match FindGetterMethod(c, segments[0])
      case None => None
      case Some(m) =>
        match Invoke(m, v)
        case None => None
        case Some(next) => ValueWalk(table, next, ClassFor(table, m.returnType), segments[1..])
  }

  /** What getValueByFieldName returns: null whenever the walk fails or the item itself is null. */
  function ValueAtPath(table: ClassTable, item: Value, fieldName: string): Value
  {
    if item.Null? then Null
    else match ValueWalk(table, item, item.cls, Split(fieldName, '.'))
      case None => Null
      case Some((v, _)) => v
  }

  /** getValueByFieldName, with the runtime class of the item as the starting class. */
  method GetValueByFieldName(table: ClassTable, item: Value, fieldName: string) returns (r: Value)
    ensures r == ValueAtPath(table, item, fieldName)
  {
    if item.Null? {
      return Null;
    }
    var itemClass := item.cls;
    var fieldValue := item;
    var fieldNames := Split(fieldName, '.');
    var i := 0;
    while i < |fieldNames|
      invariant 0 <= i <= |fieldNames|
      invariant ValueWalk(table, item, item.cls, fieldNames)
             == ValueWalk(table, fieldValue, itemClass, fieldNames[i..])
    {
      assert fieldNames[i..][0] == fieldNames[i] && fieldNames[i..][1..] == fieldNames[i + 1..];
      var getter := FindGetterMethod(itemClass, fieldNames[i]);
      if getter.None? {
        return Null;
      }
      var result := Invoke(getter.value, fieldValue);
      if result.None? {
        return Null;
      }
      fieldValue := result.value;
      itemClass := ClassFor(table, getter.value.returnType);
      i := i + 1;
    }
    assert fieldNames[i..] == [];
    return fieldValue;
  }

  /** Walking a path in two parts is walking the first part and continuing from where it ends. */
  lemma {:induction false} ValueWalkAppend(table: ClassTable, v: Value, c: Class, first: seq<string>, rest: seq<string>)
    ensures ValueWalk(table, v, c, first + rest) ==
      match ValueWalk(table, v, c, first)
      case None => None
      case Some((v', c')) => ValueWalk(table, v', c', rest)
    decreases |first|
  {
    if first == [] {
      assert first + rest == rest;
    } else {
      assert (first + rest)[0] == first[0];
      assert (first + rest)[1..] == first[1..] + rest;
      match FindGetterMethod(c, first[0])
      case None =>
      case Some(m) =>
        match Invoke(m, v)
        case None =>
        case Some(next) => ValueWalkAppend(table, next, ClassFor(table, m.returnType), first[1..], rest);
    }
  }

  /** For a name without a dot, getValueByFieldName returns what the item's getter for it returns. */
  lemma SimpleNameCallsGetter(table: ClassTable, item: Value, fieldName: string, m: Method)
    requires item.Obj? && '.' !in fieldName
    requires FindGetterMethod(item.cls, fieldName) == Some(m)
    requires m.name in item.getterResults
    ensures ValueAtPath(table, item, fieldName) == item.getterResults[m.name]
  {
    assert Split(fieldName, '.') == [fieldName];
    assert [fieldName][1..] == [];
    var next := item.getterResults[m.name];
    assert Invoke(m, item) == Some(next);
    assert ValueWalk(table, next, ClassFor(table, m.returnType), []) == Some((next, ClassFor(table, m.returnType)));
  }

  /**
   * getValueByFieldName returns null when some segment of the path has no
   * getter in the class that the segments before it lead to.
   */
  lemma MissingGetterYieldsNull(table: ClassTable, item: Value, fieldName: string, j: nat, v: Value, c: Class)
    requires item.Obj?
    requires j < |Split(fieldName, '.')|
    requires ValueWalk(table, item, item.cls, Split(fieldName, '.')[..j]) == Some((v, c))
    requires FindGetterMethod(c, Split(fieldName, '.')[j]).None?
    ensures ValueAtPath(table, item, fieldName) == Null
  {
    var segments := Split(fieldName, '.');
    assert segments == segments[..j] + segments[j..];
    ValueWalkAppend(table, item, item.cls, segments[..j], segments[j..]);
    assert segments[j..][0] == segments[j];
  }

  // ------------------------------------------------------ fields by names

  /** The requested names that the class declares, in request order, duplicates kept. */
  function DeclaredNames(c: Class, names: seq<string>): seq<string>
  {
    if names == [] then []
    else (if GetFieldIfExists(c, names[0]).Some? then [names[0]] else []) + DeclaredNames(c, names[1..])
  }

  /** getFieldsByNamesFromClass: getFieldIfExists on every name, nulls filtered out. */
  function GetFieldsByNamesFromClass(c: Class, names: seq<string>): (r: seq<Field>)
    ensures |r| <= |names|
    ensures forall k :: 0 <= k < |r| ==> r[k] in c.declaredFields
  {
    if names == [] then []
    else
      (match GetFieldIfExists(c, names[0]) case None => [] case Some(f) => [f])
        + GetFieldsByNamesFromClass(c, names[1..])
  }

  /**
   * getFieldsByNamesFromClass returns, position by position, the declared
   * field of each requested name the class declares, in request order.
   */
  lemma {:induction false} FieldsByNamesFollowRequest(c: Class, names: seq<string>)
    ensures |GetFieldsByNamesFromClass(c, names)| == |DeclaredNames(c, names)|
    ensures forall k :: 0 <= k < |DeclaredNames(c, names)| ==>
      GetFieldIfExists(c, DeclaredNames(c, names)[k]) == Some(GetFieldsByNamesFromClass(c, names)[k])
  {
    if names != [] {
      FieldsByNamesFollowRequest(c, names[1..]);
    }
  }

  // ------------------------------------------------------------ setFieldData

  /** An object whose fields are set reflectively. */
  class Instance {
    const cls: Class
    var fieldValues: map<string, Value>

    constructor (cls: Class, fieldValues: map<string, Value>)
      ensures this.cls == cls && this.fieldValues == fieldValues
    {
      this.cls := cls;
      this.fieldValues := fieldValues;
    }
  }

  /**
   * setFieldData: when the instance's class declares the field, that field
   * and no other takes the new value; otherwise nothing happens.
   */
  method SetFieldData(fieldName: string, o: Value, instance: Instance)
    modifies instance
    ensures GetFieldIfExists(instance.cls, fieldName).None? ==> instance.fieldValues == old(instance.fieldValues)
    ensures GetFieldIfExists(instance.cls, fieldName).Some? ==>
      instance.fieldValues == old(instance.fieldValues)[fieldName := o]
  {
    var field := GetFieldIfExists(instance.cls, fieldName);
    if field.Some? {
      instance.fieldValues := instance.fieldValues[field.value.name := o];
    }
  }
}
