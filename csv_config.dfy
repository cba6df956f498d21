/**
 * CsvConfig: the parser settings a reader passes on to OpenCSV, held in a
 * mutable object whose fluent methods each set one field and return the
 * object itself.
 */
module Configuration {
  import opened Wrappers

  /** Java's int; Integer fields hold one of these or null. */
  newtype int32 = x: int | -0x8000_0000 <= x < 0x8000_0000

  /** Every field of a CsvConfig at one moment. Integer, Character and String fields may be null (None). */
  datatype Settings = Settings(
    separator: char,
    skipLines: Option<int32>,
    quoteChar: Option<char>,
    escapeChar: Option<char>,
    multilineLimit: Option<int32>,
    ignoreLeadingWhiteSpace: bool,
    ignoreQuotations: bool,
    throwsExceptions: bool,
    ignoreEmptyLines: bool,
    orderedResults: bool,
    strictQuotes: bool,
    verifyReader: bool,
    hasHeader: bool,
    lineEnd: Option<string>)

  /** The field initialisers, which the no-argument constructor applies. */
  const Defaults: Settings := Settings(
    separator := ',',
    skipLines := Some(0),
    quoteChar := Some('\0'),
    escapeChar := Some('\0'),
    multilineLimit := None,
    ignoreLeadingWhiteSpace := false,
    ignoreQuotations := false,
    throwsExceptions := true,
    ignoreEmptyLines := false,
    orderedResults := true,
    strictQuotes := false,
    verifyReader := false,
    hasHeader := true,
    lineEnd := Some("\n"))

  class CsvConfig {
    var separator: char
    var skipLines: Option<int32>
    var quoteChar: Option<char>
    var escapeChar: Option<char>
    var multilineLimit: Option<int32>
    var ignoreLeadingWhiteSpace: bool
    var ignoreQuotations: bool
    var throwsExceptions: bool
    var ignoreEmptyLines: bool
    var orderedResults: bool
    var strictQuotes: bool
    var verifyReader: bool
    var hasHeader: bool
    var lineEnd: Option<string>

    /** The object's fields, read together. */
    function Snapshot(): Settings
      reads this
    {
      Settings(separator, skipLines, quoteChar, escapeChar, multilineLimit,
               ignoreLeadingWhiteSpace, ignoreQuotations, throwsExceptions, ignoreEmptyLines,
               orderedResults, strictQuotes, verifyReader, hasHeader, lineEnd)
    }

    /** new CsvConfig(): every field at its initialiser. */
    constructor ()
      ensures Snapshot() == Defaults
      ensures separator == ',' && skipLines == Some(0) && hasHeader
    {
      separator := ',';
      skipLines := Some(0);
      quoteChar := Some('\0');
      escapeChar := Some('\0');
      multilineLimit := None;
      ignoreLeadingWhiteSpace := false;
      ignoreQuotations := false;
      throwsExceptions := true;
      ignoreEmptyLines := false;
      orderedResults := true;
      strictQuotes := false;
      verifyReader := false;
      hasHeader := true;
      lineEnd := Some("\n");
    }

    method Separator(separator: char) returns (r: CsvConfig)
      modifies this
      ensures r == this
      ensures Snapshot() == old(Snapshot()).(separator := separator)
    {
      this.separator := separator;
      r := this;
    }

    method SkipLines(skipLines: Option<int32>) returns (r: CsvConfig)
      modifies this
      ensures r == this
      ensures Snapshot() == old(Snapshot()).(skipLines := skipLines)
    {
      this.skipLines := skipLines;
      r := this;
    }

    method VerifyReader(isVerifyReader: bool) returns (r: CsvConfig)
      modifies this
      ensures r == this
      ensures Snapshot() == old(Snapshot()).(verifyReader := isVerifyReader)
    {
      this.verifyReader := isVerifyReader;
      r := this;
    }

    method QuoteChar(quoteChar: Option<char>) returns (r: CsvConfig)
      modifies this
      ensures r == this
      ensures Snapshot() == old(Snapshot()).(quoteChar := quoteChar)
    {
      this.quoteChar := quoteChar;
      r := this;
    }

    method EscapeChar(escapeChar: Option<char>) returns (r: CsvConfig)
      modifies this
      ensures r == this
      ensures Snapshot() == old(Snapshot()).(escapeChar := escapeChar)
    {
      this.escapeChar := escapeChar;
      r := this;
    }

    method StrictQuotes(isStrictQuotes: bool) returns (r: CsvConfig)
      modifies this
      ensures r == this
      ensures Snapshot() == old(Snapshot()).(strictQuotes := isStrictQuotes)
    {
      this.strictQuotes := isStrictQuotes;
      r := this;
    }

    method IgnoreLeadingWhiteSpace(isIgnoreLeadingWhiteSpace: bool) returns (r: CsvConfig)
      modifies this
      ensures r == this
      ensures Snapshot() == old(Snapshot()).(ignoreLeadingWhiteSpace := isIgnoreLeadingWhiteSpace)
    {
      this.ignoreLeadingWhiteSpace := isIgnoreLeadingWhiteSpace;
      r := this;
    }

    method IgnoreQuotations(ignoreQuotations: bool) returns (r: CsvConfig)
      modifies this
      ensures r == this
      ensures Snapshot() == old(Snapshot()).(ignoreQuotations := ignoreQuotations)
    {
      this.ignoreQuotations := ignoreQuotations;
      r := this;
    }

    method ThrowsExceptions(isThrowsExceptions: bool) returns (r: CsvConfig)
      modifies this
      ensures r == this
      ensures Snapshot() == old(Snapshot()).(throwsExceptions := isThrowsExceptions)
    {
      this.throwsExceptions := isThrowsExceptions;
      r := this;
    }

    method MultilineLimit(multilineLimit: Option<int32>) returns (r: CsvConfig)
      modifies this
      ensures r == this
      ensures Snapshot() == old(Snapshot()).(multilineLimit := multilineLimit)
    {
      this.multilineLimit := multilineLimit;
      r := this;
    }

    method OrderedResults(orderedResults: bool) returns (r: CsvConfig)
      modifies this
      ensures r == this
      ensures Snapshot() == old(Snapshot()).(orderedResults := orderedResults)
    {
      this.orderedResults := orderedResults;
      r := this;
    }

    method IgnoreEmptyLines(isIgnoreEmptyLines: bool) returns (r: CsvConfig)
      modifies this
      ensures r == this
      ensures Snapshot() == old(Snapshot()).(ignoreEmptyLines := isIgnoreEmptyLines)
    {
      this.ignoreEmptyLines := isIgnoreEmptyLines;
      r := this;
    }

    method LineEnd(lineEnd: Option<string>) returns (r: CsvConfig)
      modifies this
      ensures r == this
      ensures Snapshot() == old(Snapshot()).(lineEnd := lineEnd)
    {
      this.lineEnd := lineEnd;
      r := this;
    }

    method HasHeader(hasHeader: bool) returns (r: CsvConfig)
      modifies this
      ensures r == this
      ensures Snapshot() == old(Snapshot()).(hasHeader := hasHeader)
    {
      this.hasHeader := hasHeader;
      r := this;
    }
  }

  /**
   * A chain of fluent calls, as in c.skipLines(1).hasHeader(false): every
   * call lands on the same object, and of two writes to one field the later
   * one is what remains.
   */
  method SkipHeaderThenDisableHeader(c: CsvConfig, firstSkip: Option<int32>, secondSkip: Option<int32>)
    returns (r: CsvConfig)
    modifies c
    ensures r == c
    ensures c.skipLines == secondSkip && !c.hasHeader
    ensures c.Snapshot() == old(c.Snapshot()).(skipLines := secondSkip, hasHeader := false)
  {
    var a := c.SkipLines(firstSkip);
    var b := a.HasHeader(false);
    r := b.SkipLines(secondSkip);
  }
}
