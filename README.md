# csv reader core, modelled in Dafny

This project models the reading side of the `io.github.zinkowinn.csv` library, a thin layer over OpenCSV
that binds CSV records to Java beans. Before OpenCSV parses anything, `CsvReader` runs its own checks:

- the first line must match the header the bean class expects;
- a position-based mapping strategy needs position annotations on the bean class;
- the `skipLines` value is chosen depending on whether the class carries binding annotations.

Afterwards it applies a `DataTransformer` to every bean. The model covers those checks in source order,
together with the rest of the core:

- the fluent `CsvConfig` object;
- `DefaultColumnMapper`, the column names of a bean class;
- `DefaultColumnMappingStrategy.generateHeader`;
- `ReflectionUtils`: dotted field paths, getter lookup up the superclass chain, fields by names, setting a field.

## Layout

| file | module | models |
|---|---|---|
| `wrappers.dfy` | `Wrappers` | `Option` for Java `null`, `Result`/`Outcome` for thrown exceptions |
| `java_text.dfy` | `JavaText` | `String.split` with a one-character literal separator and limit 0, and `String.join` |
| `reflection.dfy` | `Reflection` | classes, declared fields, OpenCSV annotations, getters, runtime objects as values |
| `reflection_utils.dfy` | `ReflectionUtils` | `ReflectionUtils` |
| `csv_config.dfy` | `Configuration` | `CsvConfig`, a class whose fluent setters update it in place |
| `column_mapper.dfy` | `ColumnMapping` | `DefaultColumnMapper.getColumnNames` |
| `column_mapping_strategy.dfy` | `MappingStrategies` | mapping strategies and `DefaultColumnMappingStrategy.generateHeader` |
| `csv_reader.dfy` | `Reading` | `CsvReader`, with a `LineReader` class standing for the `BufferedReader` |
| `scenarios.dfy` | `Scenarios` | the `Student` beans and inputs of the reader's unit tests |

Modelling choices:

- Java `null` is `None`.
- Each exception is a `Failure`/`Fail` value: `ReaderError` for `CsvReaderException`, `HeaderError` for
  OpenCSV's `CsvRequiredFieldEmptyException`, and `NullSkipLines` for the `NullPointerException` of unboxing
  a null `skipLines`.
- `java.lang.reflect` is replaced by values:
  - a `Class` lists its declared fields in declaration order, its public no-argument methods with their
    return types, and its superclass;
  - a field names its type, and a getter names its return type, through a `ClassTable`.
- OpenCSV's own work comes in as data:
  - the header of a strategy;
  - the `findMaxIndex` result;
  - the parser, as a function from the remaining lines and the builder settings to beans.
- `readCSVFromReader` is a method on the `CsvReader` object. It is proved equal to the specification function
  `Reading.ReadCsv`, and the properties of a read are lemmas about `ReadCsv`.
- The two loops of `ReflectionUtils` are methods proved against the walk functions `FieldWalk` and
  `ValueWalk`.

The value `DefaultColumnMappingStrategy` calls `numColumns` is what `findMaxIndex` returns, the largest column
index, not a column count. `toArray(new String[numColumns])` therefore pads with nulls only when that index
exceeds the number of column names. `MappingStrategies.ToArray` models the copy as written.

## Model


| member | source | states |
|---|---|---|
| JavaText.StripTrailingEmpty | src/main/java/io/github/ZinKoWinn/csv/CsvReader.java:289 | limit 0 of `split`: the result is a prefix of the pieces, it does not end in an empty string, and every dropped piece was empty |
| JavaText.PiecesAreSeparatorFree | src/main/java/io/github/ZinKoWinn/csv/CsvReader.java:289 | no piece produced by the split contains the separator, and there is more than one piece exactly when the separator occurs |
| JavaText.JoinPieces | src/main/java/io/github/ZinKoWinn/csv/CsvReader.java:289 | joining the pieces with the separator gives back the split line |
| JavaText.PiecesJoin | src/main/java/io/github/ZinKoWinn/csv/CsvReader.java:289 | cutting a join of separator-free parts gives the parts back |
| JavaText.SplitJoin | src/main/java/io/github/ZinKoWinn/csv/CsvReader.java:289 | a header written with the separator is split back into the same names when no name contains the separator and the last name is not empty |
| JavaText.SplitIsPrefixOfPieces | src/main/java/io/github/ZinKoWinn/csv/utils/ReflectionUtils.java:37 | the dotted-path split yields separator-free segments that form a prefix of all the pieces |
| ReflectionUtils.Capitalize | src/main/java/io/github/ZinKoWinn/csv/utils/ReflectionUtils.java:201-206 | null and "" come back unchanged; otherwise the length is kept, the first character is upper-cased and the rest is unchanged |
| ReflectionUtils.GetterName | src/main/java/io/github/ZinKoWinn/csv/utils/ReflectionUtils.java:91 | the getter name is "get", then the field name with its first letter upper-cased |
| ReflectionUtils.GetFieldIfExists | src/main/java/io/github/ZinKoWinn/csv/utils/ReflectionUtils.java:145-151 | null exactly when the class declares no field of that name; otherwise a declared field of that name |
| ReflectionUtils.FirstDeclaringField | src/main/java/io/github/ZinKoWinn/csv/utils/ReflectionUtils.java:103-112 | reference search over the flattened chain: -1 when no class declares the field, else the index of a class that declares it with none declaring it before |
| ReflectionUtils.FirstWithMethod | src/main/java/io/github/ZinKoWinn/csv/utils/ReflectionUtils.java:90-100 | reference search over the flattened chain: -1 when no class has the getter, else the index of a class that has it with none having it before |
| ReflectionUtils.GetFieldSearchesChain | src/main/java/io/github/ZinKoWinn/csv/utils/ReflectionUtils.java:103-112 | `getField` is null exactly when no class on the superclass chain declares the field; otherwise it is the field of the nearest class that does (the one `FirstDeclaringField` finds) |
| ReflectionUtils.FindGetterSearchesChain | src/main/java/io/github/ZinKoWinn/csv/utils/ReflectionUtils.java:90-100 | `findGetterMethod` is null exactly when no class on the chain has the getter; otherwise it is the getter of the nearest class that has it (the one `FirstWithMethod` finds), with that class's return type |
| ReflectionUtils.FindFieldByName | src/main/java/io/github/ZinKoWinn/csv/utils/ReflectionUtils.java:33-51 | the loop returns what the walk over the dot-separated segments gives (each segment looked up among the declared fields of the previous field's type), and null for an empty name |
| ReflectionUtils.SimpleNameIsDeclaredField | src/main/java/io/github/ZinKoWinn/csv/utils/ReflectionUtils.java:33-51 | a non-empty name without a dot resolves to the class's own declared field of that name, or null |
| ReflectionUtils.FieldWalkSnoc | src/main/java/io/github/ZinKoWinn/csv/utils/ReflectionUtils.java:40-43 | the last segment is looked up in the type of the field its prefix resolves to |
| ReflectionUtils.FieldWalkMissingPrefix | src/main/java/io/github/ZinKoWinn/csv/utils/ReflectionUtils.java:40-50 | once a prefix of the path fails to resolve, the whole lookup returns null |
| ReflectionUtils.FieldWalkNamesLastSegment | src/main/java/io/github/ZinKoWinn/csv/utils/ReflectionUtils.java:40-45 | a field that is found is named by the last segment of the path |
| ReflectionUtils.GetValueByFieldName | src/main/java/io/github/ZinKoWinn/csv/utils/ReflectionUtils.java:60-81 | the loop returns what the chain of getter calls gives, starting from the item's runtime class and moving to each getter's return type; null for a null item, a missing getter or a failing call |
| ReflectionUtils.ValueWalkAppend | src/main/java/io/github/ZinKoWinn/csv/utils/ReflectionUtils.java:67-74 | following a path in two parts equals following the first part and continuing from where it ends |
| ReflectionUtils.MissingGetterYieldsNull | src/main/java/io/github/ZinKoWinn/csv/utils/ReflectionUtils.java:67-80 | a segment with no getter in the class reached so far makes the whole result null |
| ReflectionUtils.SimpleNameCallsGetter | src/main/java/io/github/ZinKoWinn/csv/utils/ReflectionUtils.java:60-76 | for a name without a dot, the result is what the item's getter for that name returns |
| ReflectionUtils.GetFieldsByNamesFromClass | src/main/java/io/github/ZinKoWinn/csv/utils/ReflectionUtils.java:131-136 | at most one field per requested name, each one declared by the class |
| ReflectionUtils.FieldsByNamesFollowRequest | src/main/java/io/github/ZinKoWinn/csv/utils/ReflectionUtils.java:131-136 | position by position, the result holds the declared field of each requested name the class declares, in request order |
| ReflectionUtils.SetFieldData | src/main/java/io/github/ZinKoWinn/csv/utils/ReflectionUtils.java:183-193 | a declared field takes the new value and no other field changes; for an undeclared name the instance is left unchanged |
| Configuration.CsvConfig.constructor | src/main/java/io/github/ZinKoWinn/csv/config/CsvConfig.java:47-61 | a new configuration holds the initial value of every field: separator ',', skipLines 0, header expected, and the rest |
| Configuration.CsvConfig.Separator | src/main/java/io/github/ZinKoWinn/csv/config/CsvConfig.java:63-66 | returns the same object, with the separator updated and every other setting unchanged |
| Configuration.CsvConfig.SkipLines | src/main/java/io/github/ZinKoWinn/csv/config/CsvConfig.java:68-71 | same object; skipLines (possibly null) updated, nothing else changed |
| Configuration.CsvConfig.VerifyReader | src/main/java/io/github/ZinKoWinn/csv/config/CsvConfig.java:73-76 | same object; verifyReader updated, nothing else changed |
| Configuration.CsvConfig.QuoteChar | src/main/java/io/github/ZinKoWinn/csv/config/CsvConfig.java:78-81 | same object; quoteChar updated, nothing else changed |
| Configuration.CsvConfig.EscapeChar | src/main/java/io/github/ZinKoWinn/csv/config/CsvConfig.java:83-86 | same object; escapeChar updated, nothing else changed |
| Configuration.CsvConfig.StrictQuotes | src/main/java/io/github/ZinKoWinn/csv/config/CsvConfig.java:88-91 | same object; strictQuotes updated, nothing else changed |
| Configuration.CsvConfig.IgnoreLeadingWhiteSpace | src/main/java/io/github/ZinKoWinn/csv/config/CsvConfig.java:93-96 | same object; ignoreLeadingWhiteSpace updated, nothing else changed |
| Configuration.CsvConfig.IgnoreQuotations | src/main/java/io/github/ZinKoWinn/csv/config/CsvConfig.java:98-101 | same object; ignoreQuotations updated, nothing else changed |
| Configuration.CsvConfig.ThrowsExceptions | src/main/java/io/github/ZinKoWinn/csv/config/CsvConfig.java:103-106 | same object; throwsExceptions updated, nothing else changed |
| Configuration.CsvConfig.MultilineLimit | src/main/java/io/github/ZinKoWinn/csv/config/CsvConfig.java:108-111 | same object; multilineLimit (possibly null) updated, nothing else changed |
| Configuration.CsvConfig.OrderedResults | src/main/java/io/github/ZinKoWinn/csv/config/CsvConfig.java:113-116 | same object; orderedResults updated, nothing else changed |
| Configuration.CsvConfig.IgnoreEmptyLines | src/main/java/io/github/ZinKoWinn/csv/config/CsvConfig.java:118-121 | same object; ignoreEmptyLines updated, nothing else changed |
| Configuration.CsvConfig.LineEnd | src/main/java/io/github/ZinKoWinn/csv/config/CsvConfig.java:123-126 | same object; lineEnd updated, nothing else changed |
| Configuration.CsvConfig.HasHeader | src/main/java/io/github/ZinKoWinn/csv/config/CsvConfig.java:128-131 | same object; hasHeader updated, nothing else changed |
| Configuration.SkipHeaderThenDisableHeader | src/test/java/io/github/zinkowinn/csv/CsvReaderTest.java:92 | a chain of setter calls acts on one object, and of two writes to one field the later one remains |
| ColumnMapping.ColumnNamesAppend | src/main/java/io/github/ZinKoWinn/csv/core/DefaultColumnMapper.java:30-45 | the filter and map over declared fields distribute over concatenation |
| ColumnMapping.ColumnNamesLength | src/main/java/io/github/ZinKoWinn/csv/core/DefaultColumnMapper.java:31-32 | there is one column name per field without @CsvIgnore |
| ColumnMapping.ColumnNameAtDeclarationRank | src/main/java/io/github/ZinKoWinn/csv/core/DefaultColumnMapper.java:30-45 | a field without @CsvIgnore supplies its column (the @CsvBindByName column, else the @CsvCustomBindByName column, else the field name) at the position equal to the number of non-ignored fields declared before it |
| ColumnMapping.DeclarationRankIncreases | src/main/java/io/github/ZinKoWinn/csv/core/DefaultColumnMapper.java:31-44 | columns keep declaration order |
| ColumnMapping.EveryColumnFromAField | src/main/java/io/github/ZinKoWinn/csv/core/DefaultColumnMapper.java:30-45 | every column name comes from a field without @CsvIgnore, at that field's rank |
| MappingStrategies.ToArray | src/main/java/io/github/ZinKoWinn/csv/core/strategy/DefaultColumnMappingStrategy.java:48 | `toArray(new String[n])` has length max(k, n), holds the list first and nulls after it |
| MappingStrategies.DefaultGenerateHeader | src/main/java/io/github/ZinKoWinn/csv/core/strategy/DefaultColumnMappingStrategy.java:42-50 | the superclass's exception propagates; with no mapped column its header is returned; otherwise the header is the bean's column names, padded with nulls up to the maximum index |
| MappingStrategies.HeaderIndependentOfBean | src/main/java/io/github/ZinKoWinn/csv/core/strategy/DefaultColumnMappingStrategy.java:43-49 | once a column is mapped, the header does not depend on what the superclass generated |
| MappingStrategies.HeaderIsColumnNames | src/main/java/io/github/ZinKoWinn/csv/core/strategy/DefaultColumnMappingStrategy.java:44-49 | when the maximum index does not exceed the number of names, the header is exactly the column names, none of them null |
| Reading.HasAnyAnnotationIff | src/main/java/io/github/ZinKoWinn/csv/CsvReader.java:394-398 | `hasAnyAnnotation` holds exactly when some declared field without @CsvIgnore carries the annotation |
| Reading.HasAnnotationPresentIff | src/main/java/io/github/ZinKoWinn/csv/CsvReader.java:383-386 | `hasAnnotationPresent` holds exactly when some field without @CsvIgnore carries one of the listed annotations |
| Reading.IgnoredFieldsDoNotCount | src/main/java/io/github/ZinKoWinn/csv/CsvReader.java:354-375 | annotations on an @CsvIgnore field change none of the position, name or column-mapping checks |
| Reading.DeclaredFieldNames | src/main/java/io/github/ZinKoWinn/csv/CsvReader.java:315 | one name per declared field, in declaration order, @CsvIgnore fields included |
| Reading.StrategyIgnoredWithoutAnnotations | src/main/java/io/github/ZinKoWinn/csv/CsvReader.java:310-318 | on a class without binding annotations the strategy is never consulted: the expected header is the declared field names, and validation is as without a strategy |
| Reading.CompareHeaders | src/main/java/io/github/ZinKoWinn/csv/CsvReader.java:327-329 | the headers are equal exactly when the lengths match and, index by index, the expected entry is the non-null actual name |
| Reading.HeaderAcceptedIff | src/main/java/io/github/ZinKoWinn/csv/CsvReader.java:281-303 | a first line is accepted exactly when its split, as an ordered sequence, equals the expected header |
| Reading.WrittenHeaderAccepted | src/main/java/io/github/ZinKoWinn/csv/CsvReader.java:289-298 | the expected names joined with the separator are accepted, provided no name contains it and the last is not empty |
| Reading.NullInExpectedHeaderRejects | src/main/java/io/github/ZinKoWinn/csv/CsvReader.java:295-297 | a null in the expected header rejects every first line as a mismatch |
| Reading.PaddedDefaultHeaderNeverMatches | src/main/java/io/github/ZinKoWinn/csv/CsvReader.java:312-313 | with DefaultColumnMappingStrategy on an annotated class, a maximum index above the number of column names makes every header a mismatch |
| Reading.CheckPositionAnnotations | src/main/java/io/github/ZinKoWinn/csv/CsvReader.java:339-345 | fails, with the position-annotations error, exactly when the strategy is a ColumnPositionMappingStrategy (DefaultColumnMappingStrategy included) and no field without @CsvIgnore carries a position annotation |
| Reading.SkipLinesFor | src/main/java/io/github/ZinKoWinn/csv/CsvReader.java:239 | the configured skipLines with binding annotations present, 0 without; fails exactly when annotations are present and skipLines is null |
| Reading.TransformData | src/main/java/io/github/ZinKoWinn/csv/CsvReader.java:256-260 | the same number of beans, each one the transformer applied to the bean at the same position |
| Reading.IdentityTransformKeepsData | src/main/java/io/github/ZinKoWinn/csv/core/DefaultDataTransformer.java:23-25 | with the default no-op transformer the parsed beans come back unchanged |
| Reading.ValidateCsvFile | src/main/java/io/github/ZinKoWinn/csv/CsvReader.java:268-272 | passes exactly when the path is non-null and non-empty; otherwise fails with the empty-path error |
| Reading.EmptySourceFailsAsEmpty | src/main/java/io/github/ZinKoWinn/csv/CsvReader.java:285-288 | with a header expected, an empty source fails as an empty file |
| Reading.NoHeaderNoValidation | src/main/java/io/github/ZinKoWinn/csv/CsvReader.java:281-282 | without a header, validation always passes |
| Reading.HeaderCheckedBeforePositions | src/main/java/io/github/ZinKoWinn/csv/CsvReader.java:219-221 | a rejected header is the error a read reports, whatever the later checks would say |
| Reading.PositionsCheckedAfterHeader | src/main/java/io/github/ZinKoWinn/csv/CsvReader.java:220-221 | once the header passes, a failing position check is the error a read reports |
| Reading.ReadAfterChecks | src/main/java/io/github/ZinKoWinn/csv/CsvReader.java:219-222 | when the header, the position check and skipLines all pass, the read returns the transformed parser output on every line of the source |
| Reading.ReadSucceedsIff | src/main/java/io/github/ZinKoWinn/csv/CsvReader.java:214-226 | a read succeeds exactly when the header (if any) passes, the position check passes and skipLines can be unboxed; the result is then the transformed parser output on every line, header included |
| Reading.CsvReader.Of | src/main/java/io/github/ZinKoWinn/csv/CsvReader.java:72-88 | a fresh default configuration, the identity transformer and no strategy |
| Reading.CsvReader.Config | src/main/java/io/github/ZinKoWinn/csv/CsvReader.java:107-110 | same reader; the configuration is replaced and nothing else changes |
| Reading.CsvReader.Transform | src/main/java/io/github/ZinKoWinn/csv/CsvReader.java:118-121 | same reader; the transformer is replaced and nothing else changes |
| Reading.CsvReader.MappingStrategy | src/main/java/io/github/ZinKoWinn/csv/CsvReader.java:129-132 | same reader; the strategy is replaced and nothing else changes |
| Reading.CsvReader.ValidateCsvHeader | src/main/java/io/github/ZinKoWinn/csv/CsvReader.java:281-303 | the outcome is the header validation of the stream's first line; when it passes, the stream is back where it was (mark and reset) |
| Reading.CsvReader.ReadCsvFromReader | src/main/java/io/github/ZinKoWinn/csv/CsvReader.java:214-226 | the outcome is the whole read (null reader, header, position check, skipLines, parse, transform) on the stream's lines and the current configuration; the stream is closed on every path |
| Scenarios.AnnotationsDetected | src/test/java/io/github/zinkowinn/csv/dto/Student.java:16-23 | Student has position and name annotations; the unannotated Student has neither |
| Scenarios.TwoColumnSplit | src/main/java/io/github/ZinKoWinn/csv/CsvReader.java:289 | a line of two separator-free columns, the second non-empty, splits into exactly those two columns |
| Scenarios.TwoColumnHeaderAccepted | src/main/java/io/github/ZinKoWinn/csv/CsvReader.java:289-298 | a two-column line is accepted when the class expects exactly those two names |
| Scenarios.StudentHeaderAccepted | src/test/java/io/github/zinkowinn/csv/CsvReaderTest.java:178-191 | "name,age", and "name;age" with ';' as separator, are accepted for Student |
| Scenarios.PermutedHeaderRejected | src/main/java/io/github/ZinKoWinn/csv/CsvReader.java:295-297 | "age,name" (or "age;name" with ';' as separator) is a mismatch for Student: the comparison is positional |
| Scenarios.StudentNamesExpected | src/main/java/io/github/ZinKoWinn/csv/CsvReader.java:315 | without a strategy, Student expects ["name", "age"] |
| Scenarios.PlainNamesExpected | src/main/java/io/github/ZinKoWinn/csv/CsvReader.java:312-315 | the unannotated bean expects ["name", "age"] whatever strategy is set |
| Scenarios.StudentColumnNames | src/main/java/io/github/ZinKoWinn/csv/core/DefaultColumnMapper.java:33-43 | Student's column names are its @CsvBindByName columns, in order |
| Scenarios.StudentStrategyHeader | src/test/java/io/github/zinkowinn/csv/CsvReaderTest.java:119-133 | DefaultColumnMappingStrategy(Student), with Student's largest position index (or any up to the column count), generates ["name", "age"], and "name,age" (or "name;age" with ';') passes the header check |
| Scenarios.StudentStrategyReadSucceeds | src/test/java/io/github/zinkowinn/csv/CsvReaderTest.java:119-133 | the custom-strategy read with skipLines 1 succeeds on any source whose first line is the header, and OpenCSV receives every line together with that strategy |
| Scenarios.PlainHeaderAccepted | src/test/java/io/github/zinkowinn/csv/dto/StudentWithNoPositionAnnotation.java:14-17 | the unannotated bean accepts "name,age" whatever strategy is set |
| Scenarios.StrategyWithoutPositionsFails | src/test/java/io/github/zinkowinn/csv/CsvReaderTest.java:135-143 | DefaultColumnMappingStrategy on the unannotated bean passes the header check, then fails for want of position annotations |
| Scenarios.EmptyContentWithoutHeader | src/test/java/io/github/zinkowinn/csv/CsvReaderTest.java:88-95 | an empty source read without a header reaches the parser with no lines and skipLines 1 |
| Scenarios.InvalidPaths | src/test/java/io/github/zinkowinn/csv/CsvReaderTest.java:45-50 | the empty path and the null path are refused; a non-empty path passes |
| Scenarios.StudentReadSucceeds | src/test/java/io/github/zinkowinn/csv/CsvReaderTest.java:104-117 | with skipLines 1, any source whose first line is the Student header (such as "name,age", "John,30", "Alice,25") is read successfully, and OpenCSV receives every line, header included |
| Scenarios.StudentReadIsParse | src/main/java/io/github/ZinKoWinn/csv/CsvReader.java:219-222 | with the identity transformer that `CsvReader.of` installs, that read returns OpenCSV's beans unchanged |
| Scenarios.ReadStudents | src/test/java/io/github/zinkowinn/csv/CsvReaderTest.java:24-28 | the tests' reader object, set up with skipLines 1, returns OpenCSV's beans unchanged |
| Scenarios.ReadFromNull | src/test/java/io/github/zinkowinn/csv/CsvReaderTest.java:82-86 | reading from a null reader fails with the null-reader message |

## Left out

- The OpenCSV parse: `CsvToBean.parse`, quoting, escaping, and how `skipLines` and the other builder settings act. It is a parameter of the read. Its exceptions are not modelled.
- The line-splitting rules of `BufferedReader.readLine` (`\n`, `\r`, `\r\n`): the source is given as its lines. The `mark(1)` read-ahead limit is not modelled; `reset` always returns to the mark. Logging of the headers is left out.
- `readCSV(String)`, `readCSV(byte[])`, `readCSVFromBase64` and `readCSVFromClasspath`: file, classpath and Base64 I/O. They are only modelled as far as `ValidateCsvFile` and the read from a reader. Their `IOException` wrapping and the missing-resource `IllegalArgumentException` are not modelled.
- `config(UnaryOperator<CsvConfig>)`: a function from a configuration object to one. Its effect is that of `Reading.CsvReader.Config` applied to the object the operator returns.
- `ReflectionUtils.newInstanceOf` and its `InstantiationException`. The bean instance given to `generateHeader` only matters to OpenCSV's part of the header, which is data here.
- `ReflectionUtils.getFields`: a plain copy of the declared fields, with nothing to state beyond `Class.declaredFields`.
- `e.printStackTrace()` in the reflection helpers.
- The Lombok builder of `CsvConfig`: only `new CsvConfig()` and the fluent setters are modelled.
- ReflectionUtils.ToUpperCase: upper-cases ASCII letters only, whereas `Character.toUpperCase` also maps other Unicode letters.
- ReflectionUtils.FindFieldByName: takes the `Class` directly. The `ClassCastException` on a non-`Class` argument is not modelled, because the cast happens outside the caught exception type.
- ReflectionUtils.SetFieldData: the `IllegalArgumentException` of a value whose type does not fit the field, and the `IllegalAccessException` turned into `IllegalCastException`, are not modelled. Fields are untyped slots here.
- Class names that the class table does not list stand for classes with no fields and no methods, such as primitive and library types.
- Null arguments that the Dafny types exclude. `config(null)` and `transform(null)` (CsvReader.java:107-121) make the next read throw a `NullPointerException`, at `config.isHasHeader()` or in `transformData`. `setFieldData` with a null instance throws one at `instance.getClass()`. `findFieldByName` with a null name throws one before its `try`. `getValueByFieldName` with a null name returns null, because that `NullPointerException` is caught.
- An `IOException` from `readLine`, `reset` or `close` of the stream, which the reader turns into `CsvReaderException` with the file-read message (CsvReader.java:223-224 and 299-300). The model's `LineReader` never fails, so `FileRead` arises only from `generateHeader`.
- `CsvWriter` is not part of this model.
