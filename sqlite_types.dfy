/**
 * The object model behind SQLite `CREATE TABLE` statements: conflict
 * dispositions, foreign-key actions and clauses, column constraints, columns,
 * table constraints and tables.
 *
 * The polymorphic constraint classes become one datatype each, with one
 * constructor per concrete class, so that the constructor records which
 * `toString` override applies. Owned `shared_ptr`s become embedded values and
 * a possibly-null pointer becomes a `Wrappers.Option`.
 */
module SqliteTypes {
  import Wrappers

  /** Conflict-resolution disposition; `None` means no clause is written. */
  datatype DoOnConflict = None | Rollback | Abort | Fail | Ignore | Replace

  /** The event a foreign-key action responds to, or the MATCH clause. */
  datatype Action = OnDelete | OnUpdate | Match

  /** What a foreign-key action does on delete or update. */
  datatype DoOnAction = NoAction | SetNull | SetDefault | Cascade | Restrict

  datatype ForeignKeyAction = ForeignKeyAction(action: Action, doOnAction: DoOnAction)

  /** The clause `REFERENCES table (columns) actions` shared by column and table constraints. */
  datatype ForeignData = ForeignData(
    foreignTableName: string,
    foreignColumnNames: seq<string>,
    actions: seq<ForeignKeyAction>)

  datatype LiteralValueType =
    Null | Integer | Real | String | Blob | CurrentTime | CurrentDate | CurrentTimestamp

  /** A literal: its kind and its text, without delimiting quotes. */
  datatype LiteralValue = LiteralValue(kind: LiteralValueType, value: string)

  datatype ColumnConstraintType = PrimaryKey | NotNull | Unique | Check | Default | Collate | ForeignKey

  /**
   * A column constraint. `Base` is an object of the base class (any type
   * tag), `DefaultValue` the default-literal subclass and
   * `ForeignKeyReference` the foreign-key subclass; all three share the base
   * class's type tag, autoincrement flag and conflict disposition.
   */
  datatype ColumnConstraint =
    | Base(kind: ColumnConstraintType, isAutoincrement: bool, onConflict: DoOnConflict)
    | DefaultValue(kind: ColumnConstraintType, isAutoincrement: bool, onConflict: DoOnConflict,
                   defaultValue: LiteralValue)
    | ForeignKeyReference(kind: ColumnConstraintType, isAutoincrement: bool, onConflict: DoOnConflict,
                          foreignData: Wrappers.Option<ForeignData>)

  datatype Column = Column(name: string, typeName: string, constraints: seq<ColumnConstraint>)

  /** The three table-level constraint classes. */
  datatype TableConstraint =
    | TableForeignKey(columnNames: seq<string>, foreignData: Wrappers.Option<ForeignData>)
    | TablePrimaryKey(indexedColumnNames: seq<string>, conflict: DoOnConflict)
    | TableUnique(indexedColumnNames: seq<string>, conflict: DoOnConflict)

  datatype Table = Table(
    name: string,
    temp: bool,
    columns: seq<Column>,
    constraints: seq<TableConstraint>,
    withoutRowId: bool)

  /** The SQL keyword of a disposition; the empty string for `None`. */
  function ConflictToString(conflict: DoOnConflict): (r: string)
    ensures r == "" <==> conflict == None
    ensures forall i :: 0 <= i < |r| ==> 'A' <= r[i] <= 'Z'
  {
    match conflict
    case None => ""
    case Rollback => "ROLLBACK"
    case Abort => "ABORT"
    case Fail => "FAIL"
    case Ignore => "IGNORE"
    case Replace => "REPLACE"
  }

  /** A base-class column constraint as its constructor leaves it. */
  function NewColumnConstraint(kind: ColumnConstraintType): (c: ColumnConstraint)
    ensures c.Base? && c.kind == kind
    ensures !c.isAutoincrement && c.onConflict == None
  {
    Base(kind, false, None)
  }

  /**
   * A default-literal constraint as its constructor leaves it; `initial` is
   * the value-initialised literal, whose contents the header defines.
   */
  function NewDefaultColumnConstraint(initial: LiteralValue): (c: ColumnConstraint)
    ensures c.DefaultValue? && c.kind == Default && c.defaultValue == initial
    ensures !c.isAutoincrement && c.onConflict == None
  {
    DefaultValue(Default, false, None, initial)
  }

  /** A foreign-key column constraint as its constructor leaves it: no foreign data yet. */
  function NewForeignKeyColumnConstraint(): (c: ColumnConstraint)
    ensures c.ForeignKeyReference? && c.kind == ForeignKey && c.foreignData.None?
    ensures !c.isAutoincrement && c.onConflict == None
  {
    ForeignKeyReference(ForeignKey, false, None, Wrappers.None)
  }

  function NewTableForeignKeyConstraint(): (tc: TableConstraint)
    ensures tc.TableForeignKey? && tc.columnNames == [] && tc.foreignData.None?
  {
    TableForeignKey([], Wrappers.None)
  }

  function NewTablePrimaryKeyConstraint(): (tc: TableConstraint)
    ensures tc.TablePrimaryKey? && tc.indexedColumnNames == [] && tc.conflict == None
  {
    TablePrimaryKey([], None)
  }

  function NewTableUniqueConstraint(): (tc: TableConstraint)
    ensures tc.TableUnique? && tc.indexedColumnNames == [] && tc.conflict == None
  {
    TableUnique([], None)
  }
}
