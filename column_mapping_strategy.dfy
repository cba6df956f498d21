/**
 * The mapping strategies a reader can be given, and the header
 * DefaultColumnMappingStrategy generates. What OpenCSV computes (its
 * strategies' own headers, findMaxIndex) comes in as data.
 */
module MappingStrategies {
  import opened Wrappers
  import opened Reflection
  import opened ColumnMapping

  /** A header as generateHeader returns it: a String[] whose entries may be null. */
  type Header = seq<Option<string>>

  /** OpenCSV's CsvRequiredFieldEmptyException, which generateHeader may throw. */
  datatype HeaderError = RequiredFieldEmpty

  /** What findMaxIndex returns: -1 when no column is mapped, else the largest column index. */
  type MaxIndex = x: int | x >= -1

  /**
   * A MappingStrategy object.
   * - ColumnPosition: OpenCSV's ColumnPositionMappingStrategy; header is what its generateHeader yields.
   * - DefaultColumnMapping: DefaultColumnMappingStrategy over its own bean class; superHeader and
   *   maxIndex are what its OpenCSV superclass computes.
   * - OtherStrategy: any other strategy; header is what its generateHeader yields.
   */
  datatype Strategy =
    | ColumnPosition(header: Result<Header, HeaderError>)
    | DefaultColumnMapping(beanClass: Class, superHeader: Result<Header, HeaderError>, maxIndex: MaxIndex)
    | OtherStrategy(header: Result<Header, HeaderError>)
  {
    /** instanceof ColumnPositionMappingStrategy: DefaultColumnMappingStrategy extends it. */
    predicate IsColumnPosition()
    {
      ColumnPosition? || DefaultColumnMapping?
    }
  }

  /**
   * List.toArray(new String[n]): a list that fits is copied into the fresh
   * array, whose remaining entries stay null; a longer list gets an array of
   * its own length.
   */
  function ToArray(list: seq<string>, n: nat): (r: Header)
    ensures |r| == if |list| < n then n else |list|
    ensures forall k :: 0 <= k < |list| ==> r[k] == Some(list[k])
    ensures forall k :: |list| <= k < |r| ==> r[k] == None
  {
    if |list| < n then ToArray(list, n - 1) + [None]
    else seq(|list|, k requires 0 <= k < |list| => Some(list[k]))
  }

  /**
   * DefaultColumnMappingStrategy.generateHeader. The superclass header is
   * computed first and its exception propagates; with no mapped column
   * (maxIndex -1) that header is returned; otherwise it is replaced by the
   * column names of the bean class in an array of length max(k, maxIndex).
   */
  function DefaultGenerateHeader(beanClass: Class, superHeader: Result<Header, HeaderError>, maxIndex: MaxIndex)
    : (r: Result<Header, HeaderError>)
    ensures superHeader.Failure? ==> r == superHeader
    ensures superHeader.Success? && maxIndex == -1 ==> r == superHeader
    ensures superHeader.Success? && maxIndex >= 0 ==>
      var names := GetColumnNames(beanClass.declaredFields);
      && r.Success?
      && |r.value| == (if |names| < maxIndex then maxIndex else |names|)
      && (forall k :: 0 <= k < |names| ==> r.value[k] == Some(names[k]))
      && (forall k :: |names| <= k < |r.value| ==> r.value[k] == None)
  {
    match superHeader
    case Failure(e) => Failure(e)
    case Success(header) =>
      if maxIndex == -1 then Success(header)
      else Success(ToArray(GetColumnNames(beanClass.declaredFields), maxIndex))
  }

  /** generateHeader on any strategy. */
  function GenerateHeader(s: Strategy): Result<Header, HeaderError>
  {
    match s
    case ColumnPosition(h) => h
    case DefaultColumnMapping(c, h, m) => DefaultGenerateHeader(c, h, m)
    case OtherStrategy(h) => h
  }

  /**
   * Once some column is mapped, the header no longer depends on the bean the
   * superclass looked at: only on the bean class and the maximum index.
   */
  lemma HeaderIndependentOfBean(beanClass: Class, h1: Header, h2: Header, maxIndex: MaxIndex)
    requires maxIndex >= 0
    ensures DefaultGenerateHeader(beanClass, Success(h1), maxIndex)
         == DefaultGenerateHeader(beanClass, Success(h2), maxIndex)
  {
  }

  /** The entries of a String[] that holds no null. */
  function Lift(names: seq<string>): (r: Header)
    ensures |r| == |names| && forall k :: 0 <= k < |names| ==> r[k] == Some(names[k])
  {
    if names == [] then [] else [Some(names[0])] + Lift(names[1..])
  }

  /**
   * When the maximum index does not exceed the number of names, the
   * generated header is exactly the column names, none null.
   */
  lemma HeaderIsColumnNames(beanClass: Class, h: Header, maxIndex: MaxIndex)
    requires 0 <= maxIndex <= |GetColumnNames(beanClass.declaredFields)|
    ensures DefaultGenerateHeader(beanClass, Success(h), maxIndex)
         == Success(Lift(GetColumnNames(beanClass.declaredFields)))
  {
    var r := DefaultGenerateHeader(beanClass, Success(h), maxIndex).value;
    var expected := Lift(GetColumnNames(beanClass.declaredFields));
    assert |r| == |expected|;
    assert forall k :: 0 <= k < |r| ==> r[k] == expected[k];
    assert r == expected;
  }
}
