/**
 * Properties of the renderings in `SqliteText`: the keyword mappings, the
 * layout of each constraint's text, where the optional clauses go and when
 * they appear, and the order in which list elements are written.
 */
module SqliteProperties {
  import opened SqliteTypes
  import opened Strings
  import opened SqliteText
  import Wrappers

  // ---------------------------------------------------------------------------
  // Conflict dispositions and foreign-key actions

  /** Distinct dispositions have distinct keywords; only `None` has the empty one. */
  lemma ConflictToStringInjective(c1: DoOnConflict, c2: DoOnConflict)
    ensures ConflictToString(c1) == ConflictToString(c2) <==> c1 == c2
  {
  }

  /**
   * An action's text starts with a space; MATCH is exactly " MATCH" whatever
   * its disposition holds; ON DELETE and ON UPDATE are followed by exactly one
   * disposition phrase.
   */
  lemma ActionTextShape(a: ForeignKeyAction)
    ensures |ActionText(a)| > 0 && ActionText(a)[0] == ' '
    ensures a.action == Match ==> ActionText(a) == " MATCH"
    ensures a.action == OnDelete ==>
      StartsWith(ActionText(a), " ON DELETE") && ActionText(a)[10..] == DispositionPhrase(a.doOnAction)
    ensures a.action == OnUpdate ==>
      StartsWith(ActionText(a), " ON UPDATE") && ActionText(a)[10..] == DispositionPhrase(a.doOnAction)
  {
  }

  /** Reads the trigger back from an action's text (its fifth character). */
  function TriggerOfText(s: string): Action
  {
    if |s| > 4 && s[4] == 'D' then OnDelete
    else if |s| > 4 && s[4] == 'U' then OnUpdate
    else Match
  }

  /** Reads the disposition back from the text of an ON DELETE or ON UPDATE action. */
  function DispositionOfText(s: string): DoOnAction
  {
    if |s| > 11 && s[11] == 'C' then Cascade
    else if |s| > 11 && s[11] == 'R' then Restrict
    else if |s| > 15 && s[11] == 'S' && s[15] == 'D' then SetDefault
    else if |s| > 11 && s[11] == 'S' then SetNull
    else NoAction
  }

  /** The trigger, and the disposition unless the trigger is MATCH, can be read back from the text. */
  lemma ActionTextDecodes(a: ForeignKeyAction)
    ensures TriggerOfText(ActionText(a)) == a.action
    ensures a.action != Match ==> DispositionOfText(ActionText(a)) == a.doOnAction
  {
    match a.action
    case Match =>
    case OnDelete =>
    case OnUpdate =>
  }

  /**
   * Two actions render alike exactly when they have the same trigger and,
   * unless that trigger is MATCH, the same disposition.
   */
  lemma ActionTextInjective(a: ForeignKeyAction, b: ForeignKeyAction)
    ensures ActionText(a) == ActionText(b) <==>
      a.action == b.action && (a.action != Match ==> a.doOnAction == b.doOnAction)
  {
    ActionTextDecodes(a);
    ActionTextDecodes(b);
  }

  // ---------------------------------------------------------------------------
  // Column constraints

  /**
   * The base rendering starts with the type's keyword phrase, and
   * AUTOINCREMENT follows it exactly for a primary key with the flag set.
   */
  lemma BaseConstraintTextKeyword(c: ColumnConstraint)
    ensures StartsWith(BaseConstraintText(c), KindPhrase(c.kind))
    ensures StartsWith(BaseConstraintText(c)[|KindPhrase(c.kind)|..], " AUTOINCREMENT") <==>
      c.kind == PrimaryKey && c.isAutoincrement
  {
    OptionalAfter(KindPhrase(c.kind), AutoincrementPart(c), ConflictClause(c.onConflict), " AUTOINCREMENT", 1);
  }

  /** A keyword phrase ends with a letter, whether or not AUTOINCREMENT follows it. */
  lemma ConstraintHeadLastChar(c: ColumnConstraint)
    ensures |ConstraintHead(c)| > 0 && ConstraintHead(c)[|ConstraintHead(c)| - 1] != ' '
  {
    match c.kind
    case PrimaryKey =>
    case NotNull =>
    case Unique =>
    case Check =>
    case Default =>
    case Collate =>
    case ForeignKey =>
  }

  /**
   * ON CONFLICT comes last, after the keyword phrase; without a disposition
   * nothing follows the keyword phrase, and the text ends with the
   * disposition's clause exactly when the disposition is not `None`.
   */
  lemma BaseConstraintTextConflict(c: ColumnConstraint)
    ensures StartsWith(BaseConstraintText(c), ConstraintHead(c))
    ensures c.onConflict == None ==> BaseConstraintText(c) == ConstraintHead(c)
    ensures EndsWith(BaseConstraintText(c), " ON CONFLICT " + ConflictToString(c.onConflict)) <==>
      c.onConflict != None
  {
    var head := ConstraintHead(c);
    var clause := ConflictClause(c.onConflict);
    AppendParts(head, clause);
    if c.onConflict == None {
      ConstraintHeadLastChar(c);
      assert " ON CONFLICT " + ConflictToString(c.onConflict) == " ON CONFLICT ";
      NotEndsWith(head, " ON CONFLICT ", 12);
    }
  }

  /** Every column constraint's rendering extends its base rendering, so it starts with a space. */
  lemma ColumnConstraintTextExtendsBase(c: ColumnConstraint)
    ensures StartsWith(ColumnConstraintText(c), BaseConstraintText(c))
    ensures StartsWith(ColumnConstraintText(c), KindPhrase(c.kind))
    ensures ColumnConstraintText(c)[0] == ' '
  {
    var base := BaseConstraintText(c);
    var k := KindPhrase(c.kind);
    AppendParts(k, AutoincrementPart(c));
    StartsWithExtend(ConstraintHead(c), k, ConflictClause(c.onConflict));
    match c {
      case Base(_, _, _) =>
        StartsWithSelf(base);
      case DefaultValue(_, _, _, v) =>
        AppendParts(base, " ");
        StartsWithExtend(base + " ", base, LiteralText(v));
      case ForeignKeyReference(_, _, _, fd) =>
        AppendParts(base, ReferencesPart(fd));
    }
    StartsWithTrans(ColumnConstraintText(c), base, k);
    StartsWithChar(ColumnConstraintText(c), k, 0);
  }

  /** The literal is wrapped in single quotes, with nothing escaped. */
  predicate IsQuoted(lit: string, value: string)
  {
    |lit| == |value| + 2 && lit[0] == '\'' && lit[|lit| - 1] == '\'' && lit[1..|lit| - 1] == value
  }

  /**
   * A default constraint is its base rendering, a space, then the literal:
   * quoted exactly when it is a string, and otherwise the value verbatim.
   */
  lemma DefaultConstraintText(c: ColumnConstraint)
    requires c.DefaultValue?
    ensures StartsWith(ColumnConstraintText(c), BaseConstraintText(c) + " ")
    ensures var lit := ColumnConstraintText(c)[|BaseConstraintText(c)| + 1..];
      && (IsQuoted(lit, c.defaultValue.value) <==> c.defaultValue.kind == String)
      && (c.defaultValue.kind != String ==> lit == c.defaultValue.value)
  {
    var base := BaseConstraintText(c);
    var lit := LiteralText(c.defaultValue);
    AppendParts(base + " ", lit);
    if c.defaultValue.kind == String {
      assert lit[1..|lit| - 1] == c.defaultValue.value;
    }
  }

  /** Embedded quotes in a string default are written as they are. */
  lemma DefaultStringNotEscaped()
    ensures ColumnConstraintText(DefaultValue(Default, false, None, LiteralValue(String, "it's")))
      == " DEFAULT 'it's'"
  {
  }

  /**
   * A foreign-key column constraint is its base rendering followed by the
   * REFERENCES clause when there is foreign data, and exactly the base
   * rendering when there is none.
   */
  lemma ForeignKeyConstraintText(c: ColumnConstraint)
    requires c.ForeignKeyReference?
    ensures ColumnConstraintText(c) == BaseConstraintText(c) <==> c.foreignData.None?
    ensures c.foreignData.Some? ==>
      ColumnConstraintText(c) == BaseConstraintText(c) + ForeignDataText(c.foreignData.value)
  {
    if c.foreignData.Some? {
      ForeignDataTextStart(c.foreignData.value);
    }
  }

  /** No space is written between FOREIGN KEY and REFERENCES. */
  lemma ForeignKeyRunsIntoReferences(c: ColumnConstraint)
    requires c.ForeignKeyReference? && c.kind == ForeignKey && c.onConflict == None
    requires c.foreignData.Some?
    ensures StartsWith(ColumnConstraintText(c),
      " FOREIGN KEY" + ("REFERENCES " + c.foreignData.value.foreignTableName + " ("))
  {
    var fd := c.foreignData.value;
    assert BaseConstraintText(c) == " FOREIGN KEY";
    ForeignDataTextStart(fd);
    StartsWithPrepend(" FOREIGN KEY", ForeignDataText(fd), "REFERENCES " + fd.foreignTableName + " (");
  }

  // ---------------------------------------------------------------------------
  // The REFERENCES clause

  lemma ForeignDataTextStart(fd: ForeignData)
    ensures StartsWith(ForeignDataText(fd), "REFERENCES " + fd.foreignTableName + " (")
  {
    var refs := "REFERENCES " + fd.foreignTableName + " (";
    var cols := Concat(fd.foreignColumnNames);
    AppendParts(refs, cols);
    StartsWithExtend(refs + cols, refs, ") ");
    StartsWithExtend(refs + cols + ") ", refs, MapConcat(fd.actions, ActionText));
  }

  /** Two referenced columns are written with nothing between them. */
  lemma ForeignDataColumnsRunTogether(table: string, a: string, b: string, actions: seq<ForeignKeyAction>)
    ensures ForeignDataText(ForeignData(table, [a, b], actions))
      == "REFERENCES " + table + " (" + a + b + ") " + MapConcat(actions, ActionText)
  {
    assert [a, b][..1] == [a];
    assert [a][..0] == [];
    assert Concat([a]) == a;
    assert Concat([a, b]) == Concat([a]) + b;
    AppendAssociative("REFERENCES " + table + " (", a, b);
  }

  /** With no referenced columns the parentheses are still written. */
  lemma ForeignDataEmptyColumns(table: string, actions: seq<ForeignKeyAction>)
    ensures ForeignDataText(ForeignData(table, [], actions))
      == "REFERENCES " + table + " () " + MapConcat(actions, ActionText)
  {
  }

  /**
   * The actions are written in stored order, each one in full: splitting the
   * list splits the text.
   */
  lemma ForeignDataActionsInOrder(fd: ForeignData, xs: seq<ForeignKeyAction>, ys: seq<ForeignKeyAction>)
    requires fd.actions == xs + ys
    ensures ForeignDataText(fd) == ForeignDataText(fd.(actions := xs)) + MapConcat(ys, ActionText)
  {
    MapConcatSplit(xs, ys, ActionText);
  }

  // ---------------------------------------------------------------------------
  // Table constraints

  function TableConstraintKeyword(tc: TableConstraint): string
  {
    match tc
    case TableForeignKey(_, _) => " FOREIGN KEY"
    case TablePrimaryKey(_, _) => " PRIMARY KEY"
    case TableUnique(_, _) => " UNIQUE"
  }

  function TableConstraintColumns(tc: TableConstraint): seq<string>
  {
    if tc.TableForeignKey? then tc.columnNames else tc.indexedColumnNames
  }

  /**
   * Every table constraint writes its keyword, then its column list in
   * parentheses followed by a space; the list starts with the first column,
   * with no separator before it, and every later column follows ", ".
   */
  lemma TableConstraintColumnList(tc: TableConstraint)
    ensures StartsWith(TableConstraintText(tc), ColumnListHead(tc))
    ensures var cols := TableConstraintColumns(tc);
      |cols| > 0 ==> Join(cols) == cols[0] + MapConcat(cols[1..], Separated)
    ensures TableConstraintColumns(tc) == [] ==>
      ColumnListHead(tc) == TableConstraintKeyword(tc) + " () "
  {
    var cols := TableConstraintColumns(tc);
    ColumnListHeadFirst(tc);
    if |cols| > 0 {
      JoinFront(cols);
    } else {
      EmptyColumnListHead(tc);
    }
  }

  lemma ColumnListHeadFirst(tc: TableConstraint)
    ensures StartsWith(TableConstraintText(tc), ColumnListHead(tc))
  {
    match tc {
      case TableForeignKey(_, fd) =>
        AppendParts(ColumnListHead(tc), ReferencesPart(fd));
      case TablePrimaryKey(_, conflict) =>
        AppendParts(ColumnListHead(tc), ConflictClause(conflict));
      case TableUnique(_, conflict) =>
        AppendParts(ColumnListHead(tc), ConflictClause(conflict));
    }
  }

  lemma EmptyColumnListHead(tc: TableConstraint)
    requires TableConstraintColumns(tc) == []
    ensures ColumnListHead(tc) == TableConstraintKeyword(tc) + " () "
  {
  }

  /** A column list closed by ") " and followed by an ON CONFLICT clause, whatever precedes it. */
  lemma ConflictAfterList(a: string, list: string, conflict: DoOnConflict)
    ensures EndsWith(a + list + ") " + ConflictClause(conflict), " ON CONFLICT " + ConflictToString(conflict)) <==>
      conflict != None
    ensures conflict == None ==> EndsWith(a + list + ") " + ConflictClause(conflict), ") ")
  {
    var head := a + list + ") ";
    var clause := ConflictClause(conflict);
    if conflict == None {
      assert head + clause == head;
      AppendParts(a + list, ") ");
      EndsWithChar(head, ") ", 0);
      assert " ON CONFLICT " + ConflictToString(conflict) == " ON CONFLICT ";
      NotEndsWith(head, " ON CONFLICT ", 11);
    } else {
      AppendParts(head, clause);
    }
  }

  /**
   * A table primary key or unique constraint ends with its ON CONFLICT
   * clause exactly when its disposition is not `None`, and otherwise ends
   * with the closing ") ".
   */
  lemma TableConstraintConflict(tc: TableConstraint)
    requires tc.TablePrimaryKey? || tc.TableUnique?
    ensures EndsWith(TableConstraintText(tc), " ON CONFLICT " + ConflictToString(tc.conflict)) <==>
      tc.conflict != None
    ensures tc.conflict == None ==> EndsWith(TableConstraintText(tc), ") ")
  {
    if tc.TablePrimaryKey? {
      ConflictAfterList(" PRIMARY KEY (", Join(tc.indexedColumnNames), tc.conflict);
    } else {
      ConflictAfterList(" UNIQUE (", Join(tc.indexedColumnNames), tc.conflict);
    }
  }

  /**
   * A table foreign key is its column list alone exactly when it has no
   * foreign data; otherwise the REFERENCES clause closes it.
   */
  lemma TableForeignKeyText(tc: TableConstraint)
    requires tc.TableForeignKey?
    ensures TableConstraintText(tc) == ColumnListHead(tc) <==> tc.foreignData.None?
    ensures tc.foreignData.Some? ==> EndsWith(TableConstraintText(tc), ForeignDataText(tc.foreignData.value))
  {
    if tc.foreignData.Some? {
      ForeignDataTextStart(tc.foreignData.value);
      AppendParts(ColumnListHead(tc), ForeignDataText(tc.foreignData.value));
    }
  }

  // ---------------------------------------------------------------------------
  // Column and table dumps

  /** A column dump names the column and its type before listing its constraints. */
  lemma ColumnTextHeader(col: Column)
    ensures StartsWith(ColumnText(col), "name: " + col.name + " type: " + col.typeName + " constraints:")
  {
  }

  /**
   * Constraint `i` of a column is written right after the header and the
   * constraints before it.
   */
  lemma ColumnTextConstraintAt(col: Column, i: nat)
    requires i < |col.constraints|
    ensures SlotAt(ColumnText(col), |ColumnHeader(col)| + |MapConcat(col.constraints[..i], ConstraintPiece)|,
      ConstraintPiece(col.constraints[i]))
  {
    MapConcatSlotAtEnd(ColumnHeader(col), col.constraints, ConstraintPiece, i);
  }

  /** Each constraint is written behind a space of its own, and its text starts with another. */
  lemma ConstraintPieceStart(c: ColumnConstraint)
    ensures |ConstraintPiece(c)| >= 2 && ConstraintPiece(c)[0] == ' ' && ConstraintPiece(c)[1] == ' '
  {
    ColumnConstraintTextExtendsBase(c);
  }

  /** The dump starts with its head: the TABLE line, the optional TEMP line and the name. */
  lemma TableTextStartsWithHead(t: Table)
    ensures StartsWith(TableText(t), "TABLE\n" + TempLine(t) + "\tname:")
  {
    var p := "TABLE\n" + TempLine(t) + "\tname:";
    var h := TableHead(t);
    AppendParts(p, t.name);
    StartsWithExtend(p + t.name, p, "\n");
    StartsWithExtend(p + t.name + "\n", p, "\tCOLUMNS:\n");
    var m1 := MapConcat(t.columns, ColumnLine);
    var m2 := MapConcat(t.constraints, ConstraintLine);
    StartsWithExtend(h, p, m1);
    StartsWithExtend(h + m1, p, "\tCONSTRAINTS:\n");
    StartsWithExtend(h + m1 + "\tCONSTRAINTS:\n", p, m2);
    StartsWithExtend(h + m1 + "\tCONSTRAINTS:\n" + m2, p, RowIdLine(t));
  }

  /** "TEMP:" is the line right after "TABLE" exactly when the table is temporary. */
  lemma TableTextTemp(t: Table)
    ensures StartsWith(TableText(t)[6..], "TEMP:\n") <==> t.temp
  {
    if t.temp {
      TableTextTempLine(t);
    } else {
      TableTextNoTempLine(t);
    }
  }

  lemma TableTextTempLine(t: Table)
    requires t.temp
    ensures StartsWith(TableText(t)[6..], "TEMP:\n")
  {
    var p := "TABLE\n" + TempLine(t) + "\tname:";
    TableTextStartsWithHead(t);
    assert StartsWith(p, "TABLE\n" + "TEMP:\n");
    StartsWithTrans(TableText(t), p, "TABLE\n" + "TEMP:\n");
    StartsWithRest(TableText(t), "TABLE\n", "TEMP:\n");
  }

  lemma TableTextNoTempLine(t: Table)
    requires !t.temp
    ensures !StartsWith(TableText(t)[6..], "TEMP:\n")
  {
    var p := "TABLE\n" + TempLine(t) + "\tname:";
    TableTextStartsWithHead(t);
    StartsWithChar(TableText(t), p, 6);
    NotStartsWith(TableText(t)[6..], "TEMP:\n", 0);
  }

  lemma TableTextAroundColumns(t: Table)
    ensures TableText(t) == TableHead(t) + MapConcat(t.columns, ColumnLine)
      + ("\tCONSTRAINTS:\n" + MapConcat(t.constraints, ConstraintLine) + RowIdLine(t))
  {
    var h := TableHead(t) + MapConcat(t.columns, ColumnLine);
    var k := MapConcat(t.constraints, ConstraintLine);
    AppendAssociative(h, "\tCONSTRAINTS:\n", k);
    AppendAssociative(h, "\tCONSTRAINTS:\n" + k, RowIdLine(t));
  }

  /** Column line `i` follows the table head and the lines of the columns before it. */
  lemma TableTextColumnLine(t: Table, i: nat)
    requires i < |t.columns|
    ensures SlotAt(TableText(t), |TableHead(t)| + |MapConcat(t.columns[..i], ColumnLine)|, ColumnLine(t.columns[i]))
  {
    TableTextAroundColumns(t);
    MapConcatSlot(TableHead(t), t.columns, ColumnLine,
      "\tCONSTRAINTS:\n" + MapConcat(t.constraints, ConstraintLine) + RowIdLine(t), i);
  }

  /**
   * Constraint line `i` follows all the column lines, the CONSTRAINTS
   * heading and the lines of the constraints before it.
   */
  lemma TableTextConstraintLine(t: Table, i: nat)
    requires i < |t.constraints|
    ensures SlotAt(TableText(t), |BeforeConstraints(t)| + |MapConcat(t.constraints[..i], ConstraintLine)|,
      ConstraintLine(t.constraints[i]))
  {
    MapConcatSlot(BeforeConstraints(t), t.constraints, ConstraintLine, RowIdLine(t), i);
  }

  /** The dump ends with "WITHOUT ROWID" exactly when the table is declared without a rowid. */
  lemma TableTextWithoutRowId(t: Table)
    ensures EndsWith(TableText(t), "WITHOUT ROWID\n") <==> t.withoutRowId
  {
    var body := TableHead(t) + MapConcat(t.columns, ColumnLine) + "\tCONSTRAINTS:\n"
      + MapConcat(t.constraints, ConstraintLine);
    if t.withoutRowId {
      AppendParts(body, "WITHOUT ROWID\n");
    } else {
      assert TableText(t) == body;
      var cs := t.constraints;
      if cs == [] {
        assert body[|body| - 2] == ':';
      } else {
        var last := cs[|cs| - 1];
        var text := TableConstraintText(last);
        TableConstraintTextLastChar(last);
        var line := ConstraintLine(last);
        assert line[|line| - 2] == text[|text| - 1];
        var prev := TableHead(t) + MapConcat(t.columns, ColumnLine) + "\tCONSTRAINTS:\n"
          + MapConcat(cs[..|cs| - 1], ConstraintLine);
        AppendAssociative(TableHead(t) + MapConcat(t.columns, ColumnLine) + "\tCONSTRAINTS:\n",
          MapConcat(cs[..|cs| - 1], ConstraintLine), line);
        assert body == prev + line;
        assert body[|body| - 2] == line[|line| - 2];
      }
    }
  }

  // ---------------------------------------------------------------------------
  // Helpers: how the renderings end

  lemma ActionTextLastChar(a: ForeignKeyAction)
    ensures |ActionText(a)| > 0 && ActionText(a)[|ActionText(a)| - 1] != 'D'
  {
  }

  lemma ForeignDataTextLastChar(fd: ForeignData)
    ensures |ForeignDataText(fd)| > 0 && ForeignDataText(fd)[|ForeignDataText(fd)| - 1] != 'D'
  {
    var acts := fd.actions;
    if acts != [] {
      ActionTextLastChar(acts[|acts| - 1]);
    }
  }

  lemma TableConstraintTextLastChar(tc: TableConstraint)
    ensures |TableConstraintText(tc)| > 0 && TableConstraintText(tc)[|TableConstraintText(tc)| - 1] != 'D'
  {
    if tc.TableForeignKey? && tc.foreignData.Some? {
      ForeignDataTextLastChar(tc.foreignData.value);
    }
  }
}
