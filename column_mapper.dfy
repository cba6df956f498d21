/** DefaultColumnMapper: the column names of a bean class, from its OpenCSV annotations. */
module ColumnMapping {
  import opened Reflection

  /**
   * The column one field maps to: the column of @CsvBindByName, else that of
   * @CsvCustomBindByName, else the field's own name (whatever other
   * annotations it carries).
   */
  function ColumnName(f: Field): string
  {
    if f.bindByName.Some? then f.bindByName.value
    else if f.customBindByName.Some? then f.customBindByName.value
    else f.name
  }

  /** getColumnNames: the declared fields without @CsvIgnore, each mapped to its column name. */
  function GetColumnNames(fields: seq<Field>): seq<string>
  {
    if fields == [] then []
    else (if fields[0].ignored then [] else [ColumnName(fields[0])]) + GetColumnNames(fields[1..])
  }

  /** How many of the fields are not marked @CsvIgnore. */
  function VisibleCount(fields: seq<Field>): nat
  {
    if fields == [] then 0 else (if fields[0].ignored then 0 else 1) + VisibleCount(fields[1..])
  }

  /** Filtering and mapping distribute over a split of the declared fields. */
  lemma {:induction false} ColumnNamesAppend(a: seq<Field>, b: seq<Field>)
    ensures GetColumnNames(a + b) == GetColumnNames(a) + GetColumnNames(b)
    ensures VisibleCount(a + b) == VisibleCount(a) + VisibleCount(b)
  {
    if a == [] {
      assert a + b == b;
    } else {
      assert (a + b)[0] == a[0];
      assert (a + b)[1..] == a[1..] + b;
      ColumnNamesAppend(a[1..], b);
    }
  }

  /** One column name per field that is not ignored. */
  lemma {:induction false} ColumnNamesLength(fields: seq<Field>)
    ensures |GetColumnNames(fields)| == VisibleCount(fields)
  {
    if fields != [] {
      ColumnNamesLength(fields[1..]);
    }
  }

  /**
   * Declaration order: a field that is not ignored contributes its column
   * name at the position given by the number of non-ignored fields declared
   * before it.
   */
  lemma ColumnNameAtDeclarationRank(fields: seq<Field>, i: nat)
    requires i < |fields| && !fields[i].ignored
    ensures VisibleCount(fields[..i]) < |GetColumnNames(fields)|
    ensures GetColumnNames(fields)[VisibleCount(fields[..i])] == ColumnName(fields[i])
  {
    var before, after := fields[..i], fields[i + 1..];
    assert fields == before + ([fields[i]] + after);
    ColumnNamesAppend(before, [fields[i]] + after);
    ColumnNamesAppend([fields[i]], after);
    assert [fields[i]][1..] == [];
    ColumnNamesLength(before);
  }

  /** Of two fields that are not ignored, the one declared first comes first among the columns. */
  lemma DeclarationRankIncreases(fields: seq<Field>, i: nat, j: nat)
    requires i < j < |fields| && !fields[i].ignored
    ensures VisibleCount(fields[..i]) < VisibleCount(fields[..j])
  {
    assert fields[..j] == fields[..i] + fields[i..j];
    ColumnNamesAppend(fields[..i], fields[i..j]);
    assert fields[i..j] == [fields[i]] + fields[i + 1..j];
    ColumnNamesAppend([fields[i]], fields[i + 1..j]);
    assert [fields[i]][1..] == [];
  }

  /** Every column name comes from a field that is not ignored. */
  lemma {:induction false} EveryColumnFromAField(fields: seq<Field>, k: nat)
    requires k < |GetColumnNames(fields)|
    ensures exists i :: (0 <= i < |fields| && !fields[i].ignored && VisibleCount(fields[..i]) == k
                         && GetColumnNames(fields)[k] == ColumnName(fields[i]))
  {
    ColumnNamesLength(fields);
    if fields[0].ignored || k > 0 {
      var rest := fields[1..];
      var k' := if fields[0].ignored then k else k - 1;
      EveryColumnFromAField(rest, k');
      var i :| 0 <= i < |rest| && !rest[i].ignored && VisibleCount(rest[..i]) == k'
        && GetColumnNames(rest)[k'] == ColumnName(rest[i]);
      assert GetColumnNames(fields)[k] == GetColumnNames(rest)[k'];
      assert fields[..i + 1] == [fields[0]] + rest[..i];
      ColumnNamesAppend([fields[0]], rest[..i]);
      assert [fields[0]][1..] == [];
      assert VisibleCount(fields[..i + 1]) == k;
      assert fields[i + 1] == rest[i];
    } else {
      assert fields[..0] == [];
    }
  }
}
