/**
 * What each `toString` of the object model produces, as pure functions.
 * These are the specifications that the renderer methods are proved
 * against; the properties of the output are lemmas about them.
 */
module SqliteText {
  import opened SqliteTypes
  import opened Strings
  import Wrappers

  function TriggerPhrase(action: Action): string
  {
    match action
    case OnDelete => " ON DELETE"
    case OnUpdate => " ON UPDATE"
    case Match => " MATCH"
  }

  function DispositionPhrase(d: DoOnAction): string
  {
    match d
    case NoAction => " NO ACTION"
    case SetNull => " SET NULL"
    case SetDefault => " SET DEFAULT"
    case Cascade => " CASCADE"
    case Restrict => " RESTRICT"
  }

  /** What follows the trigger phrase: the disposition, except after MATCH. */
  function DispositionPart(a: ForeignKeyAction): string
  {
    if a.action == Match then "" else DispositionPhrase(a.doOnAction)
  }

  /** A foreign-key action: the trigger phrase, and a disposition unless it is MATCH. */
  function ActionText(a: ForeignKeyAction): string
  {
    TriggerPhrase(a.action) + DispositionPart(a)
  }

  /**
   * The REFERENCES clause. The referenced columns run together with no
   * separator and the parentheses are written even when there are none.
   */
  function ForeignDataText(fd: ForeignData): string
  {
    "REFERENCES " + fd.foreignTableName + " (" + Concat(fd.foreignColumnNames) + ") "
    + MapConcat(fd.actions, ActionText)
  }

  function KindPhrase(kind: ColumnConstraintType): string
  {
    match kind
    case PrimaryKey => " PRIMARY KEY"
    case NotNull => " NOT NULL"
    case Unique => " UNIQUE"
    case Check => " CHECK"
    case Default => " DEFAULT"
    case Collate => " COLLATE"
    case ForeignKey => " FOREIGN KEY"
  }

  /** The ON CONFLICT clause written after a constraint; nothing for `None`. */
  function ConflictClause(conflict: DoOnConflict): string
  {
    if conflict == None then "" else " ON CONFLICT " + ConflictToString(conflict)
  }

  /** AUTOINCREMENT, written only for a primary key that has the flag. */
  function AutoincrementPart(c: ColumnConstraint): string
  {
    if c.kind == PrimaryKey && c.isAutoincrement then " AUTOINCREMENT" else ""
  }

  /** The type's keyword phrase, with AUTOINCREMENT where it applies. */
  function ConstraintHead(c: ColumnConstraint): string
  {
    KindPhrase(c.kind) + AutoincrementPart(c)
  }

  /** The base-class rendering shared by every column constraint. */
  function BaseConstraintText(c: ColumnConstraint): string
  {
    ConstraintHead(c) + ConflictClause(c.onConflict)
  }

  /** A literal as written after DEFAULT: strings in single quotes, nothing escaped. */
  function LiteralText(v: LiteralValue): string
  {
    if v.kind == String then "'" + v.value + "'" else v.value
  }

  /** The REFERENCES clause of a foreign key, or nothing when there is no foreign data. */
  function ReferencesPart(fd: Wrappers.Option<ForeignData>): string
  {
    if fd.Some? then ForeignDataText(fd.value) else ""
  }

  /** A column constraint, rendered by the `toString` of its own class. */
  function ColumnConstraintText(c: ColumnConstraint): string
  {
    match c
    case Base(_, _, _) => BaseConstraintText(c)
    case DefaultValue(_, _, _, v) => BaseConstraintText(c) + " " + LiteralText(v)
    case ForeignKeyReference(_, _, _, fd) =>
      BaseConstraintText(c) + ReferencesPart(fd)
  }

  /** How a column dump writes one of its constraints. */
  function ConstraintPiece(c: ColumnConstraint): string
  {
    " " + ColumnConstraintText(c)
  }

  function ColumnHeader(col: Column): string
  {
    "name: " + col.name + " type: " + col.typeName + " constraints:"
  }

  /** The one-line debug dump of a column. */
  function ColumnText(col: Column): string
  {
    ColumnHeader(col) + MapConcat(col.constraints, ConstraintPiece)
  }

  /** The keyword phrase and the parenthesised column list every table constraint starts with. */
  function ColumnListHead(tc: TableConstraint): string
  {
    match tc
    case TableForeignKey(cols, _) => " FOREIGN KEY (" + Join(cols) + ") "
    case TablePrimaryKey(cols, _) => " PRIMARY KEY (" + Join(cols) + ") "
    case TableUnique(cols, _) => " UNIQUE (" + Join(cols) + ") "
  }

  /** A table constraint, rendered by the `toString` of its own class. */
  function TableConstraintText(tc: TableConstraint): string
  {
    match tc
    case TableForeignKey(_, fd) => ColumnListHead(tc) + ReferencesPart(fd)
    case TablePrimaryKey(_, conflict) => ColumnListHead(tc) + ConflictClause(conflict)
    case TableUnique(_, conflict) => ColumnListHead(tc) + ConflictClause(conflict)
  }

  function ColumnLine(col: Column): string
  {
    "\t\t" + ColumnText(col) + "\n"
  }

  function ConstraintLine(tc: TableConstraint): string
  {
    "\t\t" + TableConstraintText(tc) + "\n"
  }

  /** The TEMP line, written only for a temporary table. */
  function TempLine(t: Table): string
  {
    if t.temp then "TEMP:\n" else ""
  }

  /** The WITHOUT ROWID line, written only for a table declared without a rowid. */
  function RowIdLine(t: Table): string
  {
    if t.withoutRowId then "WITHOUT ROWID\n" else ""
  }

  /** Everything in a table dump before its first column line. */
  function TableHead(t: Table): string
  {
    "TABLE\n" + TempLine(t) + "\tname:" + t.name + "\n" + "\tCOLUMNS:\n"
  }

  /** Everything in a table dump before its first constraint line. */
  function BeforeConstraints(t: Table): string
  {
    TableHead(t) + MapConcat(t.columns, ColumnLine) + "\tCONSTRAINTS:\n"
  }

  /** The multi-line debug dump of a table. */
  function TableText(t: Table): string
  {
    BeforeConstraints(t) + MapConcat(t.constraints, ConstraintLine) + RowIdLine(t)
  }
}
