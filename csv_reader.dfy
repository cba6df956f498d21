/**
 * CsvReader: the checks a read makes before OpenCSV parses the records
 * (header validation, the position-annotation check, the skipLines choice)
 * and the transform applied to what it returns.
 */
module Reading {
  import opened Wrappers
  import opened JavaText
  import opened Reflection
  import opened Configuration
  import opened ColumnMapping
  import opened MappingStrategies

  const EMPTY_FILE_MESSAGE := "The CSV file is empty."
  const CSV_HEADER_MISMATCH_MESSAGE := "CSV headers do not match the expected headers."
  const FILE_READ_ERROR_MESSAGE := "Error reading CSV file: "
  const FILE_PATH_EMPTY_ERROR_MESSAGE := "File path cannot be null or empty"
  const CSV_READER_NULL_ERROR_MESSAGE := "The CSV reader object is null"
  const POSITION_ANNOTATIONS_MESSAGE :=
    "When using ColumnPositionMappingStrategy, CsvBindByPosition, CsvBindAndSplitByPosition, "
    + "CsvBindAndJoinByPosition, or CsvCustomBindByPosition annotations must be used."

  const POSITION_ANNOTATIONS: seq<AnnotationKind> :=
    [CsvBindByPosition, CsvBindAndSplitByPosition, CsvBindAndJoinByPosition, CsvCustomBindByPosition]

  const NAME_ANNOTATIONS: seq<AnnotationKind> :=
    [CsvBindByName, CsvBindAndSplitByName, CsvBindAndJoinByName, CsvCustomBindByName]

  /** Why a read fails. All but NullSkipLines are CsvReaderExceptions. */
  datatype ReaderError =
    | ReaderNull
    | EmptyFile
    | HeaderMismatch
    | FileRead(cause: HeaderError)
    | PositionAnnotationsMissing
    | NullSkipLines
    | FilePathEmpty
  {
    /** The exception message; the NullPointerException of a null skipLines has none. */
    function Message(): Option<string>
    {
      match this
      case ReaderNull => Some(CSV_READER_NULL_ERROR_MESSAGE)
      case EmptyFile => Some(EMPTY_FILE_MESSAGE)
      case HeaderMismatch => Some(CSV_HEADER_MISMATCH_MESSAGE)
      case FileRead(_) => Some(FILE_READ_ERROR_MESSAGE)
      case PositionAnnotationsMissing => Some(POSITION_ANNOTATIONS_MESSAGE)
      case NullSkipLines => None
      case FilePathEmpty => Some(FILE_PATH_EMPTY_ERROR_MESSAGE)
    }
  }

  // ------------------------------------------------------ annotation checks

  /** hasAnyAnnotation: the declared fields are scanned, skipping @CsvIgnore ones, for the annotation. */
  predicate HasAnyAnnotation(fields: seq<Field>, a: AnnotationKind)
  {
    fields != [] && ((!fields[0].ignored && IsAnnotationPresent(fields[0], a)) || HasAnyAnnotation(fields[1..], a))
  }

  /** hasAnnotationPresent: some annotation of the list is on some field that is not ignored. */
  predicate HasAnnotationPresent(fields: seq<Field>, annotations: seq<AnnotationKind>)
  {
    annotations != [] && (HasAnyAnnotation(fields, annotations[0]) || HasAnnotationPresent(fields, annotations[1..]))
  }

  predicate PositionAnnotationsPresent(fields: seq<Field>)
  {
    HasAnnotationPresent(fields, POSITION_ANNOTATIONS)
  }

  predicate NameAnnotationsPresent(fields: seq<Field>)
  {
    HasAnnotationPresent(fields, NAME_ANNOTATIONS)
  }

  /** columnMappingAnnotationPresent */
  predicate ColumnMappingAnnotationPresent(fields: seq<Field>)
  {
    PositionAnnotationsPresent(fields) || NameAnnotationsPresent(fields)
  }

  /** A field counts for a list of annotations when it is not ignored and carries one of them. */
  predicate Carries(f: Field, annotations: seq<AnnotationKind>)
  {
    !f.ignored && exists j :: 0 <= j < |annotations| && IsAnnotationPresent(f, annotations[j])
  }

  lemma {:induction false} HasAnyAnnotationIff(fields: seq<Field>, a: AnnotationKind)
    ensures HasAnyAnnotation(fields, a) <==>
      exists i :: 0 <= i < |fields| && !fields[i].ignored && IsAnnotationPresent(fields[i], a)
  {
    if fields != [] {
      HasAnyAnnotationIff(fields[1..], a);
      if HasAnyAnnotation(fields[1..], a) {
        var i :| 0 <= i < |fields[1..]| && !fields[1..][i].ignored && IsAnnotationPresent(fields[1..][i], a);
        assert fields[i + 1] == fields[1..][i];
      }
      if exists i :: 0 <= i < |fields| && !fields[i].ignored && IsAnnotationPresent(fields[i], a) {
        var i :| 0 <= i < |fields| && !fields[i].ignored && IsAnnotationPresent(fields[i], a);
        if i > 0 {
          assert fields[1..][i - 1] == fields[i];
        }
      }
    }
  }

  /**
   * hasAnnotationPresent holds exactly when some declared field that is not
   * @CsvIgnore carries one of the listed annotations.
   */
  lemma {:induction false} HasAnnotationPresentIff(fields: seq<Field>, annotations: seq<AnnotationKind>)
    ensures HasAnnotationPresent(fields, annotations) <==>
      exists i :: 0 <= i < |fields| && Carries(fields[i], annotations)
  {
    if annotations != [] {
      HasAnyAnnotationIff(fields, annotations[0]);
      HasAnnotationPresentIff(fields, annotations[1..]);
      if exists i :: 0 <= i < |fields| && Carries(fields[i], annotations) {
        var i :| 0 <= i < |fields| && Carries(fields[i], annotations);
        var j :| 0 <= j < |annotations| && IsAnnotationPresent(fields[i], annotations[j]);
        if j > 0 {
          assert annotations[1..][j - 1] == annotations[j];
          assert Carries(fields[i], annotations[1..]);
        }
      }
      if HasAnnotationPresent(fields, annotations[1..]) {
        var i :| 0 <= i < |fields| && Carries(fields[i], annotations[1..]);
        var j :| 0 <= j < |annotations[1..]| && IsAnnotationPresent(fields[i], annotations[1..][j]);
        assert annotations[j + 1] == annotations[1..][j];
      }
    }
  }

  /**
   * Annotations on an ignored field never count: giving an ignored field any
   * other annotations leaves all three predicates unchanged.
   */
  lemma IgnoredFieldsDoNotCount(fields: seq<Field>, i: nat, replacement: Field)
    requires i < |fields| && fields[i].ignored && replacement.ignored
    ensures PositionAnnotationsPresent(fields[i := replacement]) == PositionAnnotationsPresent(fields)
    ensures NameAnnotationsPresent(fields[i := replacement]) == NameAnnotationsPresent(fields)
    ensures ColumnMappingAnnotationPresent(fields[i := replacement]) == ColumnMappingAnnotationPresent(fields)
  {
    var other := fields[i := replacement];
    HasAnnotationPresentIff(fields, POSITION_ANNOTATIONS);
    HasAnnotationPresentIff(other, POSITION_ANNOTATIONS);
    HasAnnotationPresentIff(fields, NAME_ANNOTATIONS);
    HasAnnotationPresentIff(other, NAME_ANNOTATIONS);
    assert forall k :: 0 <= k < |fields| && k != i ==> other[k] == fields[k];
  }

  // ------------------------------------------------------ header validation

  /**
   * generateExpectedHeaders: the strategy's header when the bean class has
   * binding annotations and a strategy is set; otherwise the names of all
   * declared fields, @CsvIgnore ones included.
   */
  function GenerateExpectedHeaders(beanClass: Class, strategy: Option<Strategy>): Result<Header, HeaderError>
  {
    if ColumnMappingAnnotationPresent(beanClass.declaredFields) && strategy.Some? then
      GenerateHeader(strategy.value)
    else
      Success(Lift(DeclaredFieldNames(beanClass.declaredFields)))
  }

  /** getDeclaredFields() mapped to Field::getName: every declared field, @CsvIgnore ones included. */
  function DeclaredFieldNames(fields: seq<Field>): (r: seq<string>)
    ensures |r| == |fields| && forall k :: 0 <= k < |fields| ==> r[k] == fields[k].name
  {
    if fields == [] then [] else [fields[0].name] + DeclaredFieldNames(fields[1..])
  }

  /**
   * On a bean class without binding annotations the strategy is never
   * consulted: header validation is the same as with no strategy at all.
   */
  lemma StrategyIgnoredWithoutAnnotations(firstLine: Option<string>, hasHeader: bool, separator: char,
                                          beanClass: Class, strategy: Option<Strategy>)
    requires !ColumnMappingAnnotationPresent(beanClass.declaredFields)
    ensures GenerateExpectedHeaders(beanClass, strategy) == Success(Lift(DeclaredFieldNames(beanClass.declaredFields)))
    ensures ValidateHeader(firstLine, hasHeader, separator, beanClass, strategy)
         == ValidateHeader(firstLine, hasHeader, separator, beanClass, None)
  {
  }

  /** compareHeaders (Arrays.equals): same length and, index by index, the same non-null string. */
  function CompareHeaders(actual: seq<string>, expected: Header): (r: bool)
    ensures r <==> |actual| == |expected| && forall k :: 0 <= k < |actual| ==> expected[k] == Some(actual[k])
  {
    Lift(actual) == expected
  }

  /**
   * validateCsvHeader, given the first line of the source (None when the
   * source is empty). Nothing is checked without a header; an empty source
   * fails before the expected header is generated.
   */
  function ValidateHeader(firstLine: Option<string>, hasHeader: bool, separator: char,
                          beanClass: Class, strategy: Option<Strategy>): Outcome<ReaderError>
  {
    if !hasHeader then Pass
    else if firstLine.None? then Fail(EmptyFile)
    else
      var actualHeaders := Split(firstLine.value, separator);
      match GenerateExpectedHeaders(beanClass, strategy)
      case Failure(e) => Fail(FileRead(e))
      case Success(expectedHeaders) =>
        if |actualHeaders| != |expectedHeaders| || !CompareHeaders(actualHeaders, expectedHeaders)
        then Fail(HeaderMismatch)
        else Pass
  }

  /** The header line is accepted exactly when its split equals the expected header as an ordered sequence. */
  lemma HeaderAcceptedIff(line: string, separator: char, beanClass: Class, strategy: Option<Strategy>)
    requires GenerateExpectedHeaders(beanClass, strategy).Success?
    ensures ValidateHeader(Some(line), true, separator, beanClass, strategy).Pass? <==>
      Lift(Split(line, separator)) == GenerateExpectedHeaders(beanClass, strategy).value
  {
  }

  /**
   * A header written from the expected names with the separator is
   * accepted, provided no name contains the separator and the last name is
   * not empty.
   */
  lemma WrittenHeaderAccepted(names: seq<string>, separator: char, beanClass: Class, strategy: Option<Strategy>)
    requires GenerateExpectedHeaders(beanClass, strategy) == Success(Lift(names))
    requires |names| >= 1
    requires forall k :: 0 <= k < |names| ==> separator !in names[k]
    requires |names| == 1 || names[|names| - 1] != ""
    ensures ValidateHeader(Some(Join(names, separator)), true, separator, beanClass, strategy) == Pass
  {
    SplitJoin(names, separator);
  }

  /** A null in the expected header (padding from toArray) rejects every header line. */
  lemma NullInExpectedHeaderRejects(line: string, separator: char, beanClass: Class, strategy: Option<Strategy>, k: nat)
    requires GenerateExpectedHeaders(beanClass, strategy).Success?
    requires k < |GenerateExpectedHeaders(beanClass, strategy).value|
    requires GenerateExpectedHeaders(beanClass, strategy).value[k] == None
    ensures ValidateHeader(Some(line), true, separator, beanClass, strategy) == Fail(HeaderMismatch)
  {
  }

  /**
   * A DefaultColumnMappingStrategy whose maximum index exceeds the number of
   * column names pads its header with nulls, so, on an annotated class, no
   * header line is ever accepted.
   */
  lemma PaddedDefaultHeaderNeverMatches(line: string, separator: char, beanClass: Class,
                                        strategyClass: Class, superHeader: Header, maxIndex: MaxIndex)
    requires ColumnMappingAnnotationPresent(beanClass.declaredFields)
    requires maxIndex > |GetColumnNames(strategyClass.declaredFields)|
    ensures ValidateHeader(Some(line), true, separator, beanClass,
                           Some(DefaultColumnMapping(strategyClass, Success(superHeader), maxIndex)))
         == Fail(HeaderMismatch)
  {
    var strategy := Some(DefaultColumnMapping(strategyClass, Success(superHeader), maxIndex));
    var k := |GetColumnNames(strategyClass.declaredFields)|;
    assert GenerateExpectedHeaders(beanClass, strategy).value[k] == None;
    NullInExpectedHeaderRejects(line, separator, beanClass, strategy, k);
  }

  // --------------------------------------------- the other steps of a read

  /**
   * checkPositionAnnotations: a ColumnPositionMappingStrategy (the default
   * strategy included) needs a position annotation on a field that is not
   * ignored.
   */
  function CheckPositionAnnotations(strategy: Option<Strategy>, beanClass: Class): (r: Outcome<ReaderError>)
    ensures r.Fail? ==> r.error == PositionAnnotationsMissing
    ensures r.Fail? <==> (strategy.Some? && strategy.value.IsColumnPosition() &&
      forall i :: 0 <= i < |beanClass.declaredFields| ==> !Carries(beanClass.declaredFields[i], POSITION_ANNOTATIONS))
  {
    HasAnnotationPresentIff(beanClass.declaredFields, POSITION_ANNOTATIONS);
    if strategy.Some? && strategy.value.IsColumnPosition() && !PositionAnnotationsPresent(beanClass.declaredFields)
    then Fail(PositionAnnotationsMissing)
    else Pass
  }

  /**
   * The skipLines parseCSV passes on: the configured value when the bean
   * class has binding annotations (a null Integer then fails to unbox), and
   * 0 otherwise.
   */
  function SkipLinesFor(beanClass: Class, skipLines: Option<int32>): (r: Result<int32, ReaderError>)
    ensures !ColumnMappingAnnotationPresent(beanClass.declaredFields) ==> r == Success(0)
    ensures ColumnMappingAnnotationPresent(beanClass.declaredFields) && skipLines.Some? ==> r == Success(skipLines.value)
    ensures r.Failure? <==> ColumnMappingAnnotationPresent(beanClass.declaredFields) && skipLines.None?
  {
    if ColumnMappingAnnotationPresent(beanClass.declaredFields) then
      if skipLines.None? then Failure(NullSkipLines) else Success(skipLines.value)
    else Success(0)
  }

  /** What parseCSV hands to OpenCSV's CsvToBeanBuilder besides the bean class. */
  datatype ParserSettings = ParserSettings(
    strategy: Option<Strategy>,
    skipLines: int32,
    separator: char,
    ignoreLeadingWhiteSpace: bool,
    orderedResults: bool,
    throwExceptions: bool,
    ignoreEmptyLine: bool,
    strictQuotes: bool)

  function ParserSettingsFor(config: Settings, strategy: Option<Strategy>, skipLines: int32): ParserSettings
  {
    ParserSettings(strategy, skipLines, config.separator, config.ignoreLeadingWhiteSpace,
                   config.orderedResults, config.throwsExceptions, config.ignoreEmptyLines, config.strictQuotes)
  }

  /** OpenCSV's CsvToBean.parse: the lines left in the stream, and the settings, to beans. */
  type Parser<T> = (seq<string>, ParserSettings) -> seq<T>

  /** transformData: the transformer applied to each bean, in order. */
  function TransformData<T>(data: seq<T>, transformer: T -> T): (r: seq<T>)
    ensures |r| == |data|
    ensures forall k :: 0 <= k < |data| ==> r[k] == transformer(data[k])
  {
    if data == [] then [] else [transformer(data[0])] + TransformData(data[1..], transformer)
  }

  /** With the default DefaultDataTransformer, the identity, the parsed beans come back unchanged. */
  lemma IdentityTransformKeepsData<T>(data: seq<T>, transformer: T -> T)
    requires forall x :: transformer(x) == x
    ensures TransformData(data, transformer) == data
  {
  }

  /** validateCsvFile: a null or empty path is refused. */
  function ValidateCsvFile(filePath: Option<string>): (r: Outcome<ReaderError>)
    ensures r.Fail? ==> r.error == FilePathEmpty
    ensures r.Pass? <==> filePath.Some? && |filePath.value| > 0
  {
    if filePath.None? || filePath.value == "" then Fail(FilePathEmpty) else Pass
  }

  /**
   * readCSVFromReader as a whole, on the lines of the source (None for a
   * null reader): null reader, then the header, then the position
   * annotations, then skipLines; the parser is given every line, the header
   * included, because validation leaves the stream where it was.
   */
  function ReadCsv<T>(source: Option<seq<string>>, config: Settings, beanClass: Class,
                      strategy: Option<Strategy>, transformer: T -> T, parse: Parser<T>): Result<seq<T>, ReaderError>
  {
    if source.None? then Failure(ReaderNull)
    else
      var lines := source.value;
      match ValidateHeader(FirstLine(lines), config.hasHeader, config.separator, beanClass, strategy)
      case Fail(e) => Failure(e)
      case Pass =>
        match CheckPositionAnnotations(strategy, beanClass)
        case Fail(e) => Failure(e)
        case Pass =>
          match SkipLinesFor(beanClass, config.skipLines)
          case Failure(e) => Failure(e)
          case Success(skip) =>
            Success(TransformData(parse(lines, ParserSettingsFor(config, strategy, skip)), transformer))
  }

  /** An empty source with a header expected fails as empty, never as a header mismatch. */
  lemma EmptySourceFailsAsEmpty<T>(config: Settings, beanClass: Class, strategy: Option<Strategy>,
                                   transformer: T -> T, parse: Parser<T>)
    requires config.hasHeader
    ensures ReadCsv(Some([]), config, beanClass, strategy, transformer, parse) == Failure(EmptyFile)
  {
  }

  /** Without a header, header validation reads nothing and cannot fail. */
  lemma NoHeaderNoValidation(firstLine: Option<string>, separator: char, beanClass: Class, strategy: Option<Strategy>)
    ensures ValidateHeader(firstLine, false, separator, beanClass, strategy) == Pass
  {
  }

  /** A rejected header is what a read reports, even when the position check would fail too. */
  lemma HeaderCheckedBeforePositions<T>(lines: seq<string>, config: Settings, beanClass: Class,
                                        strategy: Option<Strategy>, transformer: T -> T, parse: Parser<T>)
    requires config.hasHeader && lines != []
    requires ValidateHeader(Some(lines[0]), true, config.separator, beanClass, strategy).Fail?
    ensures ReadCsv(Some(lines), config, beanClass, strategy, transformer, parse)
         == Failure(ValidateHeader(Some(lines[0]), true, config.separator, beanClass, strategy).error)
  {
  }

  /** The position check comes second: once the header passes, a failing position check is what a read reports. */
  lemma PositionsCheckedAfterHeader<T>(lines: seq<string>, config: Settings, beanClass: Class,
                                       strategy: Option<Strategy>, transformer: T -> T, parse: Parser<T>)
    requires ValidateHeader(FirstLine(lines), config.hasHeader, config.separator, beanClass, strategy) == Pass
    requires CheckPositionAnnotations(strategy, beanClass).Fail?
    ensures ReadCsv(Some(lines), config, beanClass, strategy, transformer, parse) == Failure(PositionAnnotationsMissing)
  {
  }

  /** When every check passes, a read returns the transformed parser output on every line of the source. */
  lemma ReadAfterChecks<T>(lines: seq<string>, config: Settings, beanClass: Class, strategy: Option<Strategy>,
                           transformer: T -> T, parse: Parser<T>, skip: int32)
    requires ValidateHeader(FirstLine(lines), config.hasHeader, config.separator, beanClass, strategy) == Pass
    requires CheckPositionAnnotations(strategy, beanClass) == Pass
    requires SkipLinesFor(beanClass, config.skipLines) == Success(skip)
    ensures ReadCsv(Some(lines), config, beanClass, strategy, transformer, parse)
         == Success(TransformData(parse(lines, ParserSettingsFor(config, strategy, skip)), transformer))
  {
  }

  /**
   * A read succeeds exactly when the header (if any) is accepted, the
   * position check passes and skipLines can be unboxed; the result is then
   * the transformed output of the parser run on the whole source.
   */
  lemma ReadSucceedsIff<T>(lines: seq<string>, config: Settings, beanClass: Class,
                           strategy: Option<Strategy>, transformer: T -> T, parse: Parser<T>)
    ensures ReadCsv(Some(lines), config, beanClass, strategy, transformer, parse).Success? <==>
      && (config.hasHeader ==> lines != [] && ValidateHeader(Some(lines[0]), true, config.separator, beanClass, strategy).Pass?)
      && !(strategy.Some? && strategy.value.IsColumnPosition() && !PositionAnnotationsPresent(beanClass.declaredFields))
      && (ColumnMappingAnnotationPresent(beanClass.declaredFields) ==> config.skipLines.Some?)
    ensures ReadCsv(Some(lines), config, beanClass, strategy, transformer, parse).Success? ==>
      var skip := if ColumnMappingAnnotationPresent(beanClass.declaredFields) then config.skipLines.value else 0;
      ReadCsv(Some(lines), config, beanClass, strategy, transformer, parse).value
        == TransformData(parse(lines, ParserSettingsFor(config, strategy, skip)), transformer)
  {
  }

  // ------------------------------------------------------- the objects

  /** The BufferedReader over the source's lines: a position, a mark, and whether it is closed. */
  class LineReader {
    const lines: seq<string>
    var pos: nat
    var markedAt: Option<nat>
    var closed: bool

    ghost predicate Valid()
      reads this
    {
      pos <= |lines| && (markedAt.Some? ==> markedAt.value <= |lines|)
    }

    /** The lines not yet read. */
    function Remaining(): seq<string>
      reads this
      requires Valid()
    {
      lines[pos..]
    }

    constructor (lines: seq<string>)
      ensures Valid() && this.lines == lines && pos == 0 && markedAt.None? && !closed
    {
      this.lines := lines;
      pos := 0;
      markedAt := None;
      closed := false;
    }

    method Mark()
      requires Valid()
      modifies this`markedAt
      ensures Valid() && markedAt == Some(pos)
    {
      markedAt := Some(pos);
    }

    /** readLine: the next line, or null at the end of the source. */
    method ReadLine() returns (line: Option<string>)
      requires Valid()
      modifies this`pos
      ensures Valid()
      ensures old(pos) < |lines| ==> line == Some(lines[old(pos)]) && pos == old(pos) + 1
      ensures old(pos) == |lines| ==> line.None? && pos == old(pos)
    {
      if pos < |lines| {
        line := Some(lines[pos]);
        pos := pos + 1;
      } else {
        line := None;
      }
    }

    method Reset()
      requires Valid() && markedAt.Some?
      modifies this`pos
      ensures Valid() && pos == markedAt.value
    {
      pos := markedAt.value;
    }

    method Close()
      modifies this`closed
      ensures closed
    {
      closed := true;
    }
  }

  /** The lines a reader still holds, or None for a null reader. */
  function SourceOf(reader: LineReader?): Option<seq<string>>
    reads reader
    requires reader != null ==> reader.Valid()
  {
    if reader == null then None else Some(reader.Remaining())
  }

  /** The first line a reader would return, or None at the end of the source. */
  function FirstLine(lines: seq<string>): Option<string>
  {
    if lines == [] then None else Some(lines[0])
  }

  class CsvReader<T> {
    var config: CsvConfig
    var dataTransformer: T -> T
    var mappingStrategy: Option<Strategy>
    var beanClass: Class

    /** CsvReader.of(type): a fresh default configuration, the identity transformer, no strategy. */
    constructor Of(beanClass: Class)
      ensures this.beanClass == beanClass && mappingStrategy.None?
      ensures fresh(config) && config.Snapshot() == Defaults
      ensures forall x :: dataTransformer(x) == x
    {
      this.beanClass := beanClass;
      config := new CsvConfig();
      dataTransformer := x => x;
      mappingStrategy := None;
    }

    method Config(config: CsvConfig) returns (r: CsvReader<T>)
      modifies this
      ensures r == this && this.config == config
      ensures dataTransformer == old(dataTransformer) && mappingStrategy == old(mappingStrategy)
      ensures beanClass == old(beanClass)
    {
      this.config := config;
      r := this;
    }

    method Transform(transformer: T -> T) returns (r: CsvReader<T>)
      modifies this
      ensures r == this && dataTransformer == transformer
      ensures config == old(config) && mappingStrategy == old(mappingStrategy) && beanClass == old(beanClass)
    {
      dataTransformer := transformer;
      r := this;
    }

    method MappingStrategy(mappingStrategy: Option<Strategy>) returns (r: CsvReader<T>)
      modifies this
      ensures r == this && this.mappingStrategy == mappingStrategy
      ensures config == old(config) && dataTransformer == old(dataTransformer) && beanClass == old(beanClass)
    {
      this.mappingStrategy := mappingStrategy;
      r := this;
    }

    /**
     * validateCsvHeader on the stream: mark, read the first line, compare,
     * reset. On success the stream is back where it was, so the header line
     * is still there for the parser.
     */
    method ValidateCsvHeader(reader: LineReader, hasHeader: bool) returns (result: Outcome<ReaderError>)
      requires reader.Valid()
      modifies reader
      ensures reader.Valid() && reader.closed == old(reader.closed)
      ensures result == ValidateHeader(FirstLine(old(reader.Remaining())), hasHeader, config.separator,
                                       beanClass, mappingStrategy)
      ensures result.Pass? ==> reader.pos == old(reader.pos)
    {
      if hasHeader {
        reader.Mark();
        var header := reader.ReadLine();
        if header.None? {
          return Fail(EmptyFile);
        }
        var actualHeaders := Split(header.value, config.separator);
        var expectedHeaders := GenerateExpectedHeaders(beanClass, mappingStrategy);
        if expectedHeaders.Failure? {
          return Fail(FileRead(expectedHeaders.error));
        }
        if |actualHeaders| != |expectedHeaders.value| || !CompareHeaders(actualHeaders, expectedHeaders.value) {
          return Fail(HeaderMismatch);
        }
        reader.Reset();
      }
      return Pass;
    }

    /**
     * readCSVFromReader: the reader's checks in order, then the parser on
     * what the stream still holds, then the transformer. The stream is closed
     * on every path that opened it.
     */
    method ReadCsvFromReader(reader: LineReader?, parse: Parser<T>) returns (result: Result<seq<T>, ReaderError>)
      requires reader != null ==> reader.Valid()
      modifies reader
      ensures result == ReadCsv(old(SourceOf(reader)), config.Snapshot(), beanClass, mappingStrategy,
                                dataTransformer, parse)
      ensures reader == null ==> result == Failure(ReaderNull)
      ensures reader != null ==> reader.closed
    {
      if reader == null {
        return Failure(ReaderNull);
      }
      var validation := ValidateCsvHeader(reader, config.hasHeader);
      if validation.Fail? {
        reader.Close();
        return Failure(validation.error);
      }
      var check := CheckPositionAnnotations(mappingStrategy, beanClass);
      if check.Fail? {
        reader.Close();
        return Failure(check.error);
      }
      var skip := SkipLinesFor(beanClass, config.skipLines);
      if skip.Failure? {
        reader.Close();
        return Failure(skip.error);
      }
      var beans := parse(reader.Remaining(), ParserSettingsFor(config.Snapshot(), mappingStrategy, skip.value));
      reader.Close();
      return Success(TransformData(beans, dataTransformer));
    }
  }
}
