/**
 * The `toString` renderers of the object model, written as the source
 * writes them: each appends to a string buffer step by step, and the list
 * renderers loop over their lists with a `first` flag. Each is proved to
 * produce exactly the text its specification function in `SqliteText`
 * describes.
 */
module SqliteRender {
  import opened SqliteTypes
  import opened Strings
  import opened SqliteText
  import Wrappers

  /** `SQLiteForeignKeyAction::toString`. */
  method ForeignKeyActionToString(a: ForeignKeyAction) returns (s: string)
    ensures s == ActionText(a)
  {
    match a.action {
      case OnDelete => s := " ON DELETE";
      case OnUpdate => s := " ON UPDATE";
      case Match => s := " MATCH";
    }
    if a.action == OnDelete || a.action == OnUpdate {
      match a.doOnAction {
        case NoAction => s := s + " NO ACTION";
        case SetNull => s := s + " SET NULL";
        case SetDefault => s := s + " SET DEFAULT";
        case Cascade => s := s + " CASCADE";
        case Restrict => s := s + " RESTRICT";
      }
    }
  }

  /** `SQLiteColumnConstraint::toString`, the base-class rendering. */
  method BaseColumnConstraintToString(c: ColumnConstraint) returns (s: string)
    ensures s == BaseConstraintText(c)
  {
    match c.kind {
      case PrimaryKey =>
        s := " PRIMARY KEY";
        if c.isAutoincrement {
          s := s + " AUTOINCREMENT";
        }
      case NotNull => s := " NOT NULL";
      case Unique => s := " UNIQUE";
      case Check => s := " CHECK";
      case Default => s := " DEFAULT";
      case Collate => s := " COLLATE";
      case ForeignKey => s := " FOREIGN KEY";
    }
    assert s == ConstraintHead(c);
    if c.onConflict != None {
      AppendAssociative(s, " ON CONFLICT ", ConflictToString(c.onConflict));
      s := s + " ON CONFLICT " + ConflictToString(c.onConflict);
    }
  }

  /** `SQLiteDefaultColumnConstraint::toString`. */
  method DefaultColumnConstraintToString(c: ColumnConstraint) returns (s: string)
    requires c.DefaultValue?
    ensures s == ColumnConstraintText(c)
  {
    s := BaseColumnConstraintToString(c);
    s := s + " ";
    if c.defaultValue.kind == String {
      s := s + "'";
    }
    s := s + c.defaultValue.value;
    if c.defaultValue.kind == String {
      s := s + "'";
    }
  }

  /** `SQLiteForeignKeyColumnConstraint::toString`. */
  method ForeignKeyColumnConstraintToString(c: ColumnConstraint) returns (s: string)
    requires c.ForeignKeyReference?
    ensures s == ColumnConstraintText(c)
  {
    s := BaseColumnConstraintToString(c);
    if c.foreignData.Some? {
      var fd := ForeignDataToString(c.foreignData.value);
      s := s + fd;
    }
  }

  /** The virtual call `c->toString()` on a column constraint. */
  method ColumnConstraintToString(c: ColumnConstraint) returns (s: string)
    ensures s == ColumnConstraintText(c)
  {
    match c {
      case Base(_, _, _) => s := BaseColumnConstraintToString(c);
      case DefaultValue(_, _, _, _) => s := DefaultColumnConstraintToString(c);
      case ForeignKeyReference(_, _, _, _) => s := ForeignKeyColumnConstraintToString(c);
    }
  }

  /** `SQLiteColumn::toString`. */
  method ColumnToString(col: Column) returns (s: string)
    ensures s == ColumnText(col)
  {
    s := "name: " + col.name;
    s := s + " type: " + col.typeName;
    s := s + " constraints:";
    for i := 0 to |col.constraints|
      invariant s == ColumnHeader(col) + MapConcat(col.constraints[..i], ConstraintPiece)
    {
      var c := ColumnConstraintToString(col.constraints[i]);
      MapConcatStep(ColumnHeader(col), col.constraints, i, ConstraintPiece, s);
      AppendAssociative(s, " ", c);
      s := s + " " + c;
    }
    assert col.constraints[..|col.constraints|] == col.constraints;
  }

  /**
   * `SQLiteForeignData::toString`. The flag `first` is set back to true
   * where the other list renderers clear it, so it never lets a separator
   * through.
   */
  method ForeignDataToString(fd: ForeignData) returns (s: string)
    ensures s == ForeignDataText(fd)
  {
    s := "REFERENCES " + fd.foreignTableName;
    s := s + " (";
    ghost var head := s;
    var first := true;
    var cols := fd.foreignColumnNames;
    for i := 0 to |cols|
      invariant first
      invariant s == head + Concat(cols[..i])
    {
      if !first {
        s := s + ", ";
      } else {
        first := true;
      }
      ConcatStep(head, cols, i, s);
      s := s + cols[i];
    }
    assert cols[..|cols|] == cols;
    s := s + ") ";
    ghost var middle := s;
    var acts := fd.actions;
    for i := 0 to |acts|
      invariant s == middle + MapConcat(acts[..i], ActionText)
    {
      var a := ForeignKeyActionToString(acts[i]);
      MapConcatStep(middle, acts, i, ActionText, s);
      s := s + a;
    }
    assert acts[..|acts|] == acts;
  }

  /**
   * The column-list loop of the three table-constraint renderers: appends
   * the names to `prefix`, a separator before every name but the first.
   */
  method AppendColumnList(prefix: string, cols: seq<string>) returns (s: string)
    ensures s == prefix + Join(cols)
  {
    s := prefix;
    var first := true;
    for i := 0 to |cols|
      invariant first <==> i == 0
      invariant s == prefix + Join(cols[..i])
    {
      if !first {
        s := s + ", ";
      } else {
        first := false;
      }
      s := s + cols[i];
      if i > 0 {
        JoinAppend(cols[..i], cols[i]);
      }
      assert cols[..i + 1] == cols[..i] + [cols[i]];
    }
    assert cols[..|cols|] == cols;
  }

  /** `SQLiteTableForeignKeyConstraint::toString`. */
  method TableForeignKeyConstraintToString(tc: TableConstraint) returns (s: string)
    requires tc.TableForeignKey?
    ensures s == TableConstraintText(tc)
  {
    s := AppendColumnList(" FOREIGN KEY (", tc.columnNames);
    s := s + ") ";
    if tc.foreignData.Some? {
      var fd := ForeignDataToString(tc.foreignData.value);
      s := s + fd;
    }
  }

  /** `SQLiteTablePrimaryKeyConstraint::toString`. */
  method TablePrimaryKeyConstraintToString(tc: TableConstraint) returns (s: string)
    requires tc.TablePrimaryKey?
    ensures s == TableConstraintText(tc)
  {
    s := AppendColumnList(" PRIMARY KEY (", tc.indexedColumnNames);
    s := s + ") ";
    if tc.conflict != None {
      s := s + " ON CONFLICT " + ConflictToString(tc.conflict);
    }
  }

  /** `SQLiteTableUniqueConstraint::toString`. */
  method TableUniqueConstraintToString(tc: TableConstraint) returns (s: string)
    requires tc.TableUnique?
    ensures s == TableConstraintText(tc)
  {
    s := AppendColumnList(" UNIQUE (", tc.indexedColumnNames);
    s := s + ") ";
    if tc.conflict != None {
      s := s + " ON CONFLICT " + ConflictToString(tc.conflict);
    }
  }

  /** The virtual call `c->toString()` on a table constraint. */
  method TableConstraintToString(tc: TableConstraint) returns (s: string)
    ensures s == TableConstraintText(tc)
  {
    match tc {
      case TableForeignKey(_, _) => s := TableForeignKeyConstraintToString(tc);
      case TablePrimaryKey(_, _) => s := TablePrimaryKeyConstraintToString(tc);
      case TableUnique(_, _) => s := TableUniqueConstraintToString(tc);
    }
  }

  /** The column loop of `SQLiteTable::toString`: one line per column, appended to `prefix`. */
  method AppendColumnLines(prefix: string, columns: seq<Column>) returns (s: string)
    ensures s == prefix + MapConcat(columns, ColumnLine)
  {
    s := prefix;
    for i := 0 to |columns|
      invariant s == prefix + MapConcat(columns[..i], ColumnLine)
    {
      var col := ColumnToString(columns[i]);
      MapConcatStep(prefix, columns, i, ColumnLine, s);
      AppendLine(s, col);
      s := s + "\t\t" + col + "\n";
    }
    assert columns[..|columns|] == columns;
  }

  /** The constraint loop of `SQLiteTable::toString`: one line per table constraint, appended to `prefix`. */
  method AppendConstraintLines(prefix: string, constraints: seq<TableConstraint>) returns (s: string)
    ensures s == prefix + MapConcat(constraints, ConstraintLine)
  {
    s := prefix;
    for i := 0 to |constraints|
      invariant s == prefix + MapConcat(constraints[..i], ConstraintLine)
    {
      var c := TableConstraintToString(constraints[i]);
      MapConcatStep(prefix, constraints, i, ConstraintLine, s);
      AppendLine(s, c);
      s := s + "\t\t" + c + "\n";
    }
    assert constraints[..|constraints|] == constraints;
  }

  /** `SQLiteTable::toString`. */
  method TableToString(t: Table) returns (s: string)
    ensures s == TableText(t)
  {
    s := "TABLE\n";
    if t.temp {
      s := s + "TEMP:\n";
    }
    s := s + "\tname:" + t.name + "\n";
    s := s + "\tCOLUMNS:\n";
    assert s == TableHead(t);
    s := AppendColumnLines(s, t.columns);
    s := s + "\tCONSTRAINTS:\n";
    s := AppendConstraintLines(s, t.constraints);
    if t.withoutRowId {
      s := s + "WITHOUT ROWID\n";
    }
  }
}
