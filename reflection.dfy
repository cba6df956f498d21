/**
 * What the core reads through Java reflection, as plain values: classes with
 * their declared fields (in declaration order), their public no-argument
 * methods and their superclass, the OpenCSV annotations on each field, and
 * runtime objects.
 */
module Reflection {
  import opened Wrappers

  type ClassName = string

  /** The OpenCSV binding annotations the core looks for (CsvIgnore is kept apart, on the field). */
  datatype AnnotationKind =
    | CsvBindByPosition | CsvBindAndSplitByPosition | CsvBindAndJoinByPosition | CsvCustomBindByPosition
    | CsvBindByName | CsvBindAndSplitByName | CsvBindAndJoinByName | CsvCustomBindByName

  /**
   * A declared field. bindByName and customBindByName hold the column
   * attribute of @CsvBindByName and @CsvCustomBindByName when the field
   * carries them; otherAnnotations holds the remaining six kinds it carries.
   */
  datatype Field = Field(
    name: string,
    fieldType: ClassName,
    ignored: bool,
    bindByName: Option<string>,
    customBindByName: Option<string>,
    otherAnnotations: set<AnnotationKind>)

  /** Field.isAnnotationPresent for one binding annotation kind. */
  predicate IsAnnotationPresent(f: Field, a: AnnotationKind)
  {
    match a
    case CsvBindByName => f.bindByName.Some?
    case CsvCustomBindByName => f.customBindByName.Some?
    case _ => a in f.otherAnnotations
  }

  /** A public no-argument method: its name and declared return type. */
  datatype Method = Method(name: string, returnType: ClassName)

  /**
   * A class: its declared fields in declaration order, the public
   * no-argument methods it declares (name to return type) and its superclass.
   */
  datatype Class = Class(
    name: ClassName,
    declaredFields: seq<Field>,
    methods: map<string, ClassName>,
    superclass: Option<Class>)

  /** The classes that field types and return types name. */
  type ClassTable = map<ClassName, Class>

  /**
   * Class.forName through the table; a name the table does not list stands
   * for a class that declares no fields and no methods.
   */
  function ClassFor(table: ClassTable, name: ClassName): Class
  {
    if name in table then table[name] else Class(name, [], map[], None)
  }

  /** A runtime value: null, or an object of a class with what each of its getters returns. */
  datatype Value = Null | Obj(cls: Class, getterResults: map<string, Value>)
}
