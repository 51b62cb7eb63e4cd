# SQLite table model of meow-sql, in Dafny

meow-sql parses SQLite `CREATE TABLE` statements into an object model. The model holds:
- tables, with their columns and table-level constraints;
- column constraints: the base class, and subclasses for a default literal and for a foreign-key reference;
- table primary-key, unique and foreign-key constraints;
- the shared `REFERENCES` clause;
- foreign-key actions and conflict dispositions.

The foreign-key action, the REFERENCES clause, the column, the table, the three column-constraint classes and the three table-constraint subclasses each have a `toString`. It writes a debug dump of the object into a `std::stringstream`. The literal value and the table-constraint base class have none.
This project models that object model and those renderers, from
`utils/sql_parser/sqlite/sqlite_types.cpp`. It proves what the renderers write.

The project has five modules:

- `SqliteTypes` (`sqlite_types.dfy`) holds the object model as datatypes.
  - Each polymorphic hierarchy becomes one datatype per base class, with one constructor per concrete class.
  - Owned `shared_ptr`s become embedded values. A possibly-null `foreignData` becomes `Wrappers.Option`.
  - It also holds `conflictToString` and the constructors, as functions.
- `SqliteText` (`sqlite_text.dfy`) states in pure functions what each `toString` writes. These are the specifications.
- `SqliteRender` (`sqlite_render.dfy`) holds the renderers as the source writes them. Each is a method that appends to a string buffer step by step. The list renderers loop over their lists with the `first` flag. Each method is proved to return exactly the text of its specification function.
- `SqliteProperties` (`sqlite_properties.dfy`) proves lemmas about those specification functions. They cover:
  - the keyword mappings and that they can be read back;
  - where each optional clause goes, and exactly when it appears;
  - the layout of the column and table dumps;
  - the order in which list elements are written.
- `Strings` (`strings.dfy`) holds the string vocabulary: prefix and suffix tests, plain concatenation, the `", "` join, and one rendered piece per list element. `Wrappers` (`wrappers.dfy`) holds `Option`.

The model follows the code as written, including these behaviours of the source:

- `SQLiteForeignData::toString` resets its `first` flag to `true` (line 195), where the other three list loops clear it. So the referenced columns of a `REFERENCES` clause are written one after another with no separator.
- The parentheses around the referenced columns and the `") "` after them are always written, even for an empty list.
- A foreign-key column constraint writes ` FOREIGN KEY` and then `REFERENCES …` with no space in between.
- A string default value is written between single quotes verbatim. Embedded quotes are not escaped.

## Model

| member | source | states |
|---|---|---|
| `SqliteTypes.ConflictToString` | utils/sql_parser/sqlite/sqlite_types.cpp:8-26 | The keyword is empty exactly for `None`; every other keyword consists of upper-case letters only |
| `SqliteProperties.ConflictToStringInjective` | utils/sql_parser/sqlite/sqlite_types.cpp:8-26 | Two dispositions get the same keyword exactly when they are equal |
| `SqliteRender.ForeignKeyActionToString` | utils/sql_parser/sqlite/sqlite_types.cpp:28-65 | The two switches produce exactly `ActionText`: the trigger phrase, then the disposition phrase unless the trigger is MATCH |
| `SqliteProperties.ActionTextShape` | utils/sql_parser/sqlite/sqlite_types.cpp:28-65 | Every action text starts with a space. MATCH is exactly `" MATCH"`, whatever disposition is stored. After `" ON DELETE"` or `" ON UPDATE"` comes exactly one disposition phrase and nothing else |
| `SqliteProperties.ActionTextDecodes` | utils/sql_parser/sqlite/sqlite_types.cpp:28-65 | The trigger can be read back from the text, and so can the disposition of an ON DELETE or ON UPDATE action |
| `SqliteProperties.ActionTextInjective` | utils/sql_parser/sqlite/sqlite_types.cpp:28-65 | Two actions render alike exactly when they have the same trigger and, unless it is MATCH, the same disposition |
| `SqliteTypes.NewColumnConstraint` | utils/sql_parser/sqlite/sqlite_types.cpp:69-75 | A fresh column constraint has the given type, autoincrement off and disposition `None` |
| `SqliteRender.BaseColumnConstraintToString` | utils/sql_parser/sqlite/sqlite_types.cpp:77-113 | The switch on the type and the conflict branch produce exactly `BaseConstraintText` |
| `SqliteProperties.BaseConstraintTextKeyword` | utils/sql_parser/sqlite/sqlite_types.cpp:81-106 | The base rendering starts with the type's keyword phrase. `" AUTOINCREMENT"` follows that phrase exactly when the type is `PrimaryKey` and the flag is set |
| `SqliteProperties.BaseConstraintTextConflict` | utils/sql_parser/sqlite/sqlite_types.cpp:108-110 | The base rendering starts with the keyword part. With disposition `None` it is exactly the keyword part. It ends with `" ON CONFLICT " + conflictToString(c)` exactly when the disposition is not `None` |
| `SqliteProperties.ColumnConstraintTextExtendsBase` | utils/sql_parser/sqlite/sqlite_types.cpp:124-162 | Every column constraint's rendering starts with its base rendering, hence with its keyword phrase and a space |
| `SqliteTypes.NewDefaultColumnConstraint` | utils/sql_parser/sqlite/sqlite_types.cpp:117-122 | A fresh default constraint has type `Default`, autoincrement off, disposition `None` and the value-initialised literal |
| `SqliteRender.DefaultColumnConstraintToString` | utils/sql_parser/sqlite/sqlite_types.cpp:124-143 | The base rendering, the space, the optional quotes and the value produce exactly the constraint's text |
| `SqliteProperties.DefaultConstraintText` | utils/sql_parser/sqlite/sqlite_types.cpp:124-143 | The text is the base rendering, then `" "`, then the literal. The literal is the value in single quotes exactly when its type is `String`, and the value itself otherwise |
| `SqliteProperties.DefaultStringNotEscaped` | utils/sql_parser/sqlite/sqlite_types.cpp:132-140 | A quote inside a string default is written unescaped: the value `it's` renders as `" DEFAULT 'it's'"` |
| `SqliteTypes.NewForeignKeyColumnConstraint` | utils/sql_parser/sqlite/sqlite_types.cpp:145-149 | A fresh foreign-key column constraint has type `ForeignKey`, no foreign data, autoincrement off and disposition `None` |
| `SqliteRender.ForeignKeyColumnConstraintToString` | utils/sql_parser/sqlite/sqlite_types.cpp:151-162 | The base rendering, plus the foreign data's rendering when present, produce exactly the constraint's text |
| `SqliteProperties.ForeignKeyConstraintText` | utils/sql_parser/sqlite/sqlite_types.cpp:151-162 | The text equals the base rendering exactly when there is no foreign data. Otherwise it is the base rendering followed by the REFERENCES clause |
| `SqliteProperties.ForeignKeyRunsIntoReferences` | utils/sql_parser/sqlite/sqlite_types.cpp:151-162 | With foreign data and no disposition, the text starts with `" FOREIGN KEYREFERENCES <table> ("`: no space is written before REFERENCES |
| `SqliteRender.ColumnConstraintToString` | utils/sql_parser/sqlite/sqlite_types.cpp:176 | The virtual call reaches the override of the constraint's own class and returns its text |
| `SqliteRender.ColumnToString` | utils/sql_parser/sqlite/sqlite_types.cpp:168-180 | The header writes and the constraint loop produce exactly `ColumnText` |
| `SqliteProperties.ColumnTextHeader` | utils/sql_parser/sqlite/sqlite_types.cpp:172-174 | A column dump starts with `"name: <name> type: <type> constraints:"` |
| `SqliteProperties.ColumnTextConstraintAt` | utils/sql_parser/sqlite/sqlite_types.cpp:175-177 | Constraint `i` is written, behind its own space, immediately after the header and the constraints before it, in stored order |
| `SqliteProperties.ConstraintPieceStart` | utils/sql_parser/sqlite/sqlite_types.cpp:176 | Each written constraint starts with two spaces: the loop's own and the one its rendering begins with |
| `SqliteRender.ForeignDataToString` | utils/sql_parser/sqlite/sqlite_types.cpp:184-207 | The table name, the column loop with its never-cleared `first` flag, `") "` and the action loop produce exactly `ForeignDataText` |
| `SqliteProperties.ForeignDataTextStart` | utils/sql_parser/sqlite/sqlite_types.cpp:188-189 | The clause always starts with `"REFERENCES <table> ("` |
| `SqliteProperties.ForeignDataColumnsRunTogether` | utils/sql_parser/sqlite/sqlite_types.cpp:190-198 | Two referenced columns `a`, `b` are written as `ab`, with no separator, then `") "` and the actions |
| `SqliteProperties.ForeignDataEmptyColumns` | utils/sql_parser/sqlite/sqlite_types.cpp:189-200 | With no referenced columns the clause still contains `" () "` |
| `SqliteProperties.ForeignDataActionsInOrder` | utils/sql_parser/sqlite/sqlite_types.cpp:202-204 | The actions are written in stored order, each in full: splitting the action list splits the text at the same place |
| `SqliteRender.AppendColumnList` | utils/sql_parser/sqlite/sqlite_types.cpp:223-231 | The `first`-flag loop appends exactly `Join(cols)` to what was written before |
| `Strings.JoinFront` | utils/sql_parser/sqlite/sqlite_types.cpp:223-231 | A non-empty join is the first column, then every later column behind exactly one `", "` |
| `SqliteTypes.NewTableForeignKeyConstraint` | utils/sql_parser/sqlite/sqlite_types.cpp:215-216 | A fresh table foreign key has no columns and no foreign data |
| `SqliteRender.TableForeignKeyConstraintToString` | utils/sql_parser/sqlite/sqlite_types.cpp:218-239 | The keyword, the column list, `") "` and the optional foreign data produce exactly the constraint's text |
| `SqliteProperties.TableForeignKeyText` | utils/sql_parser/sqlite/sqlite_types.cpp:218-239 | A table foreign key's text is exactly its keyword and column list when, and only when, it has no foreign data. With foreign data the text ends with the full REFERENCES clause |
| `SqliteTypes.NewTablePrimaryKeyConstraint` | utils/sql_parser/sqlite/sqlite_types.cpp:241-243 | A fresh table primary key has no columns and disposition `None` |
| `SqliteRender.TablePrimaryKeyConstraintToString` | utils/sql_parser/sqlite/sqlite_types.cpp:245-266 | The keyword, the column list, `") "` and the optional ON CONFLICT clause produce exactly the constraint's text |
| `SqliteTypes.NewTableUniqueConstraint` | utils/sql_parser/sqlite/sqlite_types.cpp:268-270 | A fresh table unique constraint has no columns and disposition `None` |
| `SqliteRender.TableUniqueConstraintToString` | utils/sql_parser/sqlite/sqlite_types.cpp:272-293 | The keyword, the column list, `") "` and the optional ON CONFLICT clause produce exactly the constraint's text |
| `SqliteProperties.TableConstraintColumnList` | utils/sql_parser/sqlite/sqlite_types.cpp:218-293 | Every table constraint starts with its keyword, `" ("`, its columns joined by `", "` and `") "`. The join has no leading separator. An empty list gives `" () "` |
| `SqliteProperties.TableConstraintConflict` | utils/sql_parser/sqlite/sqlite_types.cpp:245-293 | A primary key or unique constraint ends with `" ON CONFLICT <KW>"` exactly when its disposition is not `None`. Otherwise it ends with `") "` |
| `SqliteRender.TableConstraintToString` | utils/sql_parser/sqlite/sqlite_types.cpp:316 | The virtual call reaches the override of the constraint's own class and returns its text |
| `SqliteRender.AppendColumnLines` | utils/sql_parser/sqlite/sqlite_types.cpp:310-312 | The column loop appends one `"\t\t" + column + "\n"` line per column, in order |
| `SqliteRender.AppendConstraintLines` | utils/sql_parser/sqlite/sqlite_types.cpp:315-317 | The constraint loop appends one `"\t\t" + constraint + "\n"` line per table constraint, in order |
| `SqliteRender.TableToString` | utils/sql_parser/sqlite/sqlite_types.cpp:299-324 | The heading writes, the two loops and the optional WITHOUT ROWID line produce exactly `TableText` |
| `SqliteProperties.TableTextStartsWithHead` | utils/sql_parser/sqlite/sqlite_types.cpp:303-307 | The dump starts with `"TABLE\n"`, the TEMP line when there is one, and `"\tname:"` |
| `SqliteProperties.TableTextTemp` | utils/sql_parser/sqlite/sqlite_types.cpp:303-306 | `"TEMP:\n"` is the line right after `"TABLE\n"` exactly when the table is temporary |
| `SqliteProperties.TableTextColumnLine` | utils/sql_parser/sqlite/sqlite_types.cpp:309-312 | Column line `i` sits right after the table head and the lines of the columns before it |
| `SqliteProperties.TableTextConstraintLine` | utils/sql_parser/sqlite/sqlite_types.cpp:314-317 | Constraint line `i` sits right after all the column lines, `"\tCONSTRAINTS:\n"` and the lines of the constraints before it |
| `SqliteProperties.TableTextWithoutRowId` | utils/sql_parser/sqlite/sqlite_types.cpp:319-321 | The dump ends with `"WITHOUT ROWID\n"` exactly when the table is declared without a rowid |

## Left out

- The tokenizer, the parser and any round trip between parsing and rendering. That code is not among the modelled files.
- `sqlite_types.h` is not part of this model.
  - The fields are inferred from their uses in the `.cpp`.
  - The list of literal kinds (`Null`, `Integer`, `Real`, `String`, `Blob` and the three `CURRENT_*` keywords) is an assumption, because the enumeration is declared in the header. It need not match the header, and it has no TRUE/FALSE kind. Only `String` affects rendering, so no property depends on the other kinds.
  - The value-initialised literal of a fresh default constraint is a parameter of `NewDefaultColumnConstraint`, because its contents are defined in the header.
- The constructors `SQLiteColumn::SQLiteColumn` (line 166) and `SQLiteTable::SQLiteTable` (line 297), and the destructors. Their bodies are empty and their field defaults are in the header.
- The constructor `SQLiteTableConstraint::SQLiteTableConstraint` (line 211) stores its argument in the `type` field. The model has no such field: the datatype variant stands for the type, and each subclass constructor picks its own variant.
- The base class `SQLiteTableConstraint` has no `toString` in the source. Only its three subclasses are table-constraint variants, and there is no table-level CHECK constraint.
- The type tag and flags of a column constraint can take any value in every variant, because the header that would restrict them is not part of this model.
- The fallback `return {}` of `conflictToString` (line 25) is left out. It is reachable only for values outside the enumeration, and the datatype has no such values.
- `std::stringstream` becomes a string that is appended to. `shared_ptr` ownership becomes values. Virtual dispatch becomes a match on the datatype constructor. Strings are sequences of characters; byte encoding is not modelled.
- `ui/main_window/central_right/host/cr_host_variables_tab.cpp` and `ui/main_window/central_right/data/central_right_data_tab.h` are left out: they are Qt widget plumbing with no stateable logic.
- `app/app.cpp` is left out: it holds a process-wide singleton and loads settings, which is I/O.
