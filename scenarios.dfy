/**
 * The reader's behaviour on the beans and inputs its unit tests use:
 * Student (name and age, each bound by name and by position) and
 * StudentWithNoPositionAnnotation (the same two fields, unannotated).
 */
module Scenarios {
  import opened Wrappers
  import opened JavaText
  import opened Reflection
  import opened Configuration
  import opened ColumnMapping
  import opened MappingStrategies
  import opened Reading

  /** A Student object as OpenCSV builds it. */
  datatype StudentBean = StudentBean(name: string, age: string)

  const NameField := Field("name", "java.lang.String", false, Some("name"), None, {CsvBindByPosition})
  const AgeField := Field("age", "java.lang.String", false, Some("age"), None, {CsvBindByPosition})

  const StudentClass := Class("Student", [NameField, AgeField],
                         map["getName" := "java.lang.String", "getAge" := "java.lang.String"], None)

  const PlainStudentClass := Class("StudentWithNoPositionAnnotation",
                              [Field("name", "java.lang.String", false, None, None, {}),
                               Field("age", "java.lang.String", false, None, None, {})],
                              map["getName" := "java.lang.String", "getAge" := "java.lang.String"], None)

  /** new DefaultColumnMappingStrategy(c) once OpenCSV has indexed positions up to maxIndex. */
  function DefaultStrategyFor(c: Class, maxIndex: MaxIndex): Strategy
  {
    DefaultColumnMapping(c, Success([]), maxIndex)
  }

  /** Student's annotations are seen; an unannotated class has none. */
  lemma AnnotationsDetected()
    ensures PositionAnnotationsPresent(StudentClass.declaredFields)
    ensures NameAnnotationsPresent(StudentClass.declaredFields)
    ensures !ColumnMappingAnnotationPresent(PlainStudentClass.declaredFields)
  {
    assert HasAnyAnnotation(StudentClass.declaredFields, CsvBindByPosition);
    assert HasAnyAnnotation(StudentClass.declaredFields, CsvBindByName);
    HasAnnotationPresentIff(PlainStudentClass.declaredFields, POSITION_ANNOTATIONS);
    HasAnnotationPresentIff(PlainStudentClass.declaredFields, NAME_ANNOTATIONS);
  }

  /** A two-column line splits into its two columns. */
  lemma TwoColumnSplit(first: string, second: string, sep: char)
    requires sep !in first && sep !in second && second != ""
    ensures Split(first + [sep] + second, sep) == [first, second]
  {
    SplitJoin([first, second], sep);
    assert Join([first, second], sep) == first + [sep] + second;
  }

  /** A two-column header line is accepted when the class expects exactly those two names. */
  lemma TwoColumnHeaderAccepted(first: string, second: string, sep: char, c: Class, strategy: Option<Strategy>)
    requires GenerateExpectedHeaders(c, strategy) == Success([Some(first), Some(second)])
    requires sep !in first && sep !in second && second != ""
    ensures ValidateHeader(Some(first + [sep] + second), true, sep, c, strategy) == Pass
  {
    TwoColumnSplit(first, second, sep);
    assert Lift([first, second]) == [Some(first), Some(second)];
    HeaderAcceptedIff(first + [sep] + second, sep, c, strategy);
  }

  /** "name,age" and, with ';' as separator, "name;age" are accepted for Student without a strategy. */
  lemma StudentHeaderAccepted(sep: char)
    requires sep == ',' || sep == ';'
    ensures ValidateHeader(Some("name" + [sep] + "age"), true, sep, StudentClass, None) == Pass
  {
    StudentNamesExpected();
    TwoColumnHeaderAccepted("name", "age", sep, StudentClass, None);
  }

  /** Student's declared fields, in declaration order. */
  lemma StudentNamesExpected()
    ensures GenerateExpectedHeaders(StudentClass, None) == Success([Some("name"), Some("age")])
  {
    var names := DeclaredFieldNames(StudentClass.declaredFields);
    assert names == ["name", "age"];
    assert Lift(names) == [Some("name"), Some("age")];
  }

  /** The unannotated class expects its declared fields whatever strategy is set. */
  lemma PlainNamesExpected(strategy: Option<Strategy>)
    ensures GenerateExpectedHeaders(PlainStudentClass, strategy) == Success([Some("name"), Some("age")])
  {
    AnnotationsDetected();
    var names := DeclaredFieldNames(PlainStudentClass.declaredFields);
    assert names == ["name", "age"];
    assert Lift(names) == [Some("name"), Some("age")];
  }

  /** The same columns in another order are a mismatch: the comparison is positional. */
  lemma PermutedHeaderRejected(sep: char)
    requires sep == ',' || sep == ';'
    ensures ValidateHeader(Some("age" + [sep] + "name"), true, sep, StudentClass, None) == Fail(HeaderMismatch)
  {
    TwoColumnSplit("age", "name", sep);
    StudentNamesExpected();
    assert !CompareHeaders(["age", "name"], [Some("name"), Some("age")]);
  }

  /** Student's column names: the @CsvBindByName columns. */
  lemma StudentColumnNames()
    ensures GetColumnNames(StudentClass.declaredFields) == ["name", "age"]
  {
    var fields := StudentClass.declaredFields;
    assert fields[1..][1..] == [];
    assert GetColumnNames(fields[1..]) == ["age"];
  }

  /**
   * new DefaultColumnMappingStrategy(Student.class): once OpenCSV has indexed
   * Student's positions (0 and 1, so the largest index is 1; any largest
   * index up to the column count behaves alike), the generated header is the
   * two column names, and "name,age" passes the header check.
   */
  lemma StudentStrategyHeader(sep: char, maxIndex: MaxIndex)
    requires sep == ',' || sep == ';'
    requires 0 <= maxIndex <= 2
    ensures GenerateExpectedHeaders(StudentClass, Some(DefaultStrategyFor(StudentClass, maxIndex)))
         == Success([Some("name"), Some("age")])
    ensures ValidateHeader(Some("name" + [sep] + "age"), true, sep, StudentClass,
                           Some(DefaultStrategyFor(StudentClass, maxIndex))) == Pass
  {
    var strategy := DefaultStrategyFor(StudentClass, maxIndex);
    AnnotationsDetected();
    StudentColumnNames();
    HeaderIsColumnNames(StudentClass, [], maxIndex);
    assert Lift(["name", "age"]) == [Some("name"), Some("age")];
    assert GenerateExpectedHeaders(StudentClass, Some(strategy)) == Success([Some("name"), Some("age")]);
    TwoColumnHeaderAccepted("name", "age", sep, StudentClass, Some(strategy));
  }

  /**
   * The custom-strategy read: with skipLines 1 and DefaultColumnMappingStrategy
   * over Student, a source whose first line is the header is read
   * successfully, and OpenCSV receives every line together with the strategy.
   */
  lemma StudentStrategyReadSucceeds<T>(config: Settings, maxIndex: MaxIndex, lines: seq<string>,
                                       transformer: T -> T, parse: Parser<T>)
    requires config == Defaults.(skipLines := Some(1))
    requires 0 <= maxIndex <= 2
    requires lines != [] && lines[0] == "name" + [config.separator] + "age"
    ensures ReadCsv(Some(lines), config, StudentClass, Some(DefaultStrategyFor(StudentClass, maxIndex)),
                    transformer, parse)
         == Success(TransformData(parse(lines, StudentParserSettings.(strategy := Some(DefaultStrategyFor(StudentClass, maxIndex)))),
                                  transformer))
  {
    var strategy := Some(DefaultStrategyFor(StudentClass, maxIndex));
    AnnotationsDetected();
    StudentStrategyHeader(config.separator, maxIndex);
    assert FirstLine(lines) == Some("name" + [config.separator] + "age");
    assert CheckPositionAnnotations(strategy, StudentClass) == Pass;
    assert SkipLinesFor(StudentClass, config.skipLines) == Success(1);
    assert ParserSettingsFor(config, strategy, 1) == StudentParserSettings.(strategy := strategy);
    ReadAfterChecks(lines, config, StudentClass, strategy, transformer, parse, 1);
  }

  /** The unannotated class expects its declared names whatever strategy is set, and "name,age" matches them. */
  lemma PlainHeaderAccepted(strategy: Option<Strategy>, sep: char)
    requires sep == ',' || sep == ';'
    ensures ValidateHeader(Some("name" + [sep] + "age"), true, sep, PlainStudentClass, strategy) == Pass
  {
    PlainNamesExpected(strategy);
    TwoColumnHeaderAccepted("name", "age", sep, PlainStudentClass, strategy);
  }

  /**
   * A column-position strategy, such as DefaultColumnMappingStrategy, on the
   * unannotated class: the header check passes against the declared names,
   * and the read then fails for want of position annotations.
   */
  lemma StrategyWithoutPositionsFails<T>(config: Settings, strategy: Strategy, rest: seq<string>,
                                         transformer: T -> T, parse: Parser<T>)
    requires config.hasHeader && (config.separator == ',' || config.separator == ';')
    requires strategy.IsColumnPosition()
    ensures ReadCsv(Some(["name" + [config.separator] + "age"] + rest), config, PlainStudentClass, Some(strategy),
                    transformer, parse)
         == Failure(PositionAnnotationsMissing)
  {
    var lines := ["name" + [config.separator] + "age"] + rest;
    PlainHeaderAccepted(Some(strategy), config.separator);
    assert FirstLine(lines) == Some("name" + [config.separator] + "age");
    AnnotationsDetected();
    PositionsCheckedAfterHeader(lines, config, PlainStudentClass, Some(strategy), transformer, parse);
  }

  /** An empty source read without a header reaches the parser with no lines at all. */
  lemma EmptyContentWithoutHeader<T>(transformer: T -> T, parse: Parser<T>)
    ensures ReadCsv(Some([]), Defaults.(skipLines := Some(1), hasHeader := false), StudentClass, None, transformer, parse)
         == Success(TransformData(parse([], ParserSettingsFor(Defaults.(skipLines := Some(1), hasHeader := false), None, 1)),
                                  transformer))
  {
    AnnotationsDetected();
  }

  /** The path checks of readCSV and readCSVFromClasspath. */
  lemma InvalidPaths()
    ensures ValidateCsvFile(Some("")) == Fail(FilePathEmpty)
    ensures ValidateCsvFile(None) == Fail(FilePathEmpty)
    ensures ValidateCsvFile(Some("csv/student.csv")) == Pass
  {
  }

  /** What parseCSV passes OpenCSV under the tests' configuration (skipLines 1, defaults otherwise). */
  const StudentParserSettings := ParserSettings(None, 1, ',', false, true, true, false, false)

  /**
   * Student read with skipLines 1 from any source whose first line is the
   * header: the read succeeds and OpenCSV receives every line, header included.
   */
  lemma StudentReadSucceeds<T>(config: Settings, lines: seq<string>, transformer: T -> T, parse: Parser<T>)
    requires config == Defaults.(skipLines := Some(1))
    requires lines != [] && lines[0] == "name" + [config.separator] + "age"
    ensures ReadCsv(Some(lines), config, StudentClass, None, transformer, parse)
         == Success(TransformData(parse(lines, StudentParserSettings), transformer))
  {
    AnnotationsDetected();
    StudentHeaderAccepted(config.separator);
    assert FirstLine(lines) == Some("name" + [config.separator] + "age");
    assert SkipLinesFor(StudentClass, config.skipLines) == Success(1);
    assert ParserSettingsFor(config, None, 1) == StudentParserSettings;
    ReadAfterChecks(lines, config, StudentClass, None, transformer, parse, 1);
  }

  /**
   * With the identity transformer of CsvReader.of, the Student read under
   * skipLines 1 returns what OpenCSV parses, unchanged.
   */
  lemma StudentReadIsParse(config: Settings, lines: seq<string>, transformer: StudentBean -> StudentBean,
                           parse: Parser<StudentBean>)
    requires config == Defaults.(skipLines := Some(1))
    requires forall x :: transformer(x) == x
    requires lines != [] && lines[0] == "name,age"
    ensures ReadCsv(Some(lines), config, StudentClass, None, transformer, parse)
         == Success(parse(lines, StudentParserSettings))
  {
    assert "name" + [config.separator] + "age" == "name,age";
    StudentReadSucceeds(config, lines, transformer, parse);
    IdentityTransformKeepsData(parse(lines, StudentParserSettings), transformer);
  }

  /**
   * The tests' set-up, CsvReader.of(Student.class) with skipLines(1), reading
   * through the reader object a source whose first line is the header (such
   * as "name,age", "John,30", "Alice,25"): OpenCSV's beans come back unchanged.
   */
  method ReadStudents(lines: seq<string>, parse: Parser<StudentBean>) returns (result: Result<seq<StudentBean>, ReaderError>)
    requires lines != [] && lines[0] == "name,age"
    ensures result == Success(parse(lines, StudentParserSettings))
  {
    var csvReader := new CsvReader<StudentBean>.Of(StudentClass);
    var _ := csvReader.config.SkipLines(Some(1));
    var source := new LineReader(lines);
    var settings, transformer := csvReader.config.Snapshot(), csvReader.dataTransformer;
    assert SourceOf(source) == Some(lines);
    StudentReadIsParse(settings, lines, transformer, parse);
    result := csvReader.ReadCsvFromReader(source, parse);
  }

  /** CsvReader.readCSVFromReader(null) fails with the null-reader error. */
  method ReadFromNull(parse: Parser<StudentBean>) returns (result: Result<seq<StudentBean>, ReaderError>)
    ensures result == Failure(ReaderNull)
    ensures result.error.Message() == Some("The CSV reader object is null")
  {
    var csvReader := new CsvReader<StudentBean>.Of(StudentClass);
    result := csvReader.ReadCsvFromReader(null, parse);
  }
}
