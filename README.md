# WebSQL data provider of The M-Project, modelled in Dafny

`M.WebSqlProvider` (`modules/core/datastore/web_sql.js`) stores M model
records in the browser's WebSQL database. This project models its two
deterministic parts:

- **The SQL statement builders.** These are the `typeMapping` table,
  `buildDbAttrFromProp`, the `CREATE TABLE IF NOT EXISTS` text of
  `createTable`, the INSERT text of `save`, the DELETE text of `del`, and the
  SELECT text of `find` with its constraint rule. They are pure functions
  over metadata fields `(name, type, isRequired)` and records, which are
  ordered `(property, value)` pairs. The `sql +=` loops of `createTable` and
  `save` are methods that are proved equal to those functions.
- **The lazy-initialisation state machine.** This is the class
  `WebSql.WebSqlProvider` with the source's fields `isInitialized`,
  `dbHandler`, `internalCallback`, `onSuccess` and `onError`.
  - An operation on an uninitialised provider stores itself as the pending
    operation and calls `init` with its argument object. `init` opens the
    handle and issues the CREATE TABLE statement, whose success callback is
    bound to that argument object.
  - The success completion of a CREATE transaction, `handleDbReturn`, sets
    the flag. It then calls the pending operation on the argument object
    that CREATE was bound to. The pending operation is the one deferred
    last, so with several deferred calls the operation and the arguments
    can come from different calls.
  - The WebSQL engine is not modelled. Every statement handed to it is
    appended to the log `issued`, and every callback invocation is appended
    to `delivered`. The engine's asynchronous completions are methods the
    host calls.

The modules are:

| module | file | contents |
|---|---|---|
| `Wrappers` | `wrappers.dfy` | `Option`, `Result` |
| `SqlText` | `sql_text.dfy` | JavaScript string operations the builders use |
| `Schema` | `schema.dfy` | `typeMapping`, `buildDbAttrFromProp`, `createTable` text |
| `Statements` | `statements.dfy` | INSERT, DELETE and SELECT text, constraint rule, row loop |
| `WebSql` | `web_sql.dfy` | `WebSqlProvider` and its completions |

The JavaScript string operations are `join`, `split`, `lastIndexOf`,
`substring`, ASCII `toUpperCase` and the decimal rendering of an id.

JavaScript semantics carried into the model:

- `split` always yields at least one piece.
- `lastIndexOf` gives -1 when the character is absent, and `substring(0, -1)`
  is the empty string. So the INSERT for an empty record is modelled as the
  source computes it.
- An empty array is truthy. So `columns: []` gives `SELECT  FROM name`, and
  `parameters: []` takes the parameters branch.
- A lookup of an unmapped type or an undeclared property is `undefined`, and
  reading `.toUpperCase` or `.type` from it throws. Both are modelled as a
  `BuildError`.

## Model

| member | source | states |
|---|---|---|
| Schema.TypeMapping | modules/core/datastore/web_sql.js:34-41 | the mapping is defined exactly for the six declared type names |
| Schema.ColumnTypes | modules/core/datastore/web_sql.js:34-41 | the upper-cased mapping gives VARCHAR(255), TEXT, FLOAT, INTEGER, DATE and BOOLEAN |
| Schema.KeywordFacts | modules/core/datastore/web_sql.js:286 | each upper-cased keyword identifies its type name, contains no comma and does not end in ` NOT NULL` |
| Schema.BuildDbAttrFromProp | modules/core/datastore/web_sql.js:285-291 | fails exactly when the field's type is unmapped, naming the field and type |
| Schema.ColumnClauseRoundTrip | modules/core/datastore/web_sql.js:285-291 | for a mapped type and a blank-free property name, the clause parses back to name, type and required flag, so ` NOT NULL` is present iff the field is required |
| Schema.FirstUnmapped | modules/core/datastore/web_sql.js:243-245 | the first field whose clause throws: every earlier field is mapped |
| Schema.CreateTableText | modules/core/datastore/web_sql.js:240-247 | the CREATE statement fails exactly when some field's type is unmapped |
| Schema.CreateTableColumns | modules/core/datastore/web_sql.js:240-247 | the statement is the fixed head, `, ` followed by the joined clauses, then `);`, and split at commas each piece after the ID column is one field's clause, in order |
| Schema.BuildCreateTable | modules/core/datastore/web_sql.js:238-247 | the accumulating loop yields exactly the CREATE statement, or the first unmapped field's error |
| SqlText.SplitCount | modules/core/datastore/web_sql.js:163 | `split("?").length - 1` equals the number of `?` in the fragment |
| SqlText.JoinSplit | modules/core/datastore/web_sql.js:163 | joining the pieces of a split with the separator gives back the string |
| SqlText.JoinCommaSplit | modules/core/datastore/web_sql.js:148 | a `, `-joined list of comma-free items splits at commas back into one piece per item, in order |
| SqlText.LastIndexOfIsLast | modules/core/datastore/web_sql.js:90 | `lastIndexOf` finds the last occurrence, and -1 means there is none |
| SqlText.CutTrailingSeparator | modules/core/datastore/web_sql.js:98 | cutting at the last comma removes exactly a trailing `, ` |
| SqlText.DecimalRoundTrip | modules/core/datastore/web_sql.js:124 | the decimal rendering of an id reads back as that id |
| Statements.LookupTypeFirst | modules/core/datastore/web_sql.js:95 | the metadata lookup finds a property exactly when it is declared, and gives the first declaration's type |
| Statements.FirstUnknown | modules/core/datastore/web_sql.js:93-97 | the first record property with no metadata: every earlier one is declared |
| Statements.QuoteRule | modules/core/datastore/web_sql.js:95-96 | a value is wrapped in double quotes iff its type is String or Text, and is left bare otherwise; the value reads back from between the quotes |
| Statements.InsertLists | modules/core/datastore/web_sql.js:85-98 | for a non-empty record, the INSERT is `INSERT INTO name (c1, …, cn) VALUES (v1, …, vn); `; each list splits into exactly one piece per property, with no stray separator, and vi is quoted iff its type is String or Text |
| Statements.EmptyInsertCollapses | modules/core/datastore/web_sql.js:90 | for an empty record both cuts find no comma, and the text collapses to `); ` |
| Statements.CutList | modules/core/datastore/web_sql.js:90 | cutting the accumulated list at its last comma leaves the joined list, or the cut head when the list is empty |
| Statements.BuildInsert | modules/core/datastore/web_sql.js:85-98 | the two accumulating loops and two cuts give exactly the INSERT text, or the undeclared property's error |
| Statements.AppendColumns | modules/core/datastore/web_sql.js:86-88 | the column loop appends each property followed by `, ` |
| Statements.AppendValues | modules/core/datastore/web_sql.js:93-97 | the value loop appends each quoted value followed by `, `, and fails exactly when some property is undeclared, naming the first one |
| Statements.DeleteContactSeven | modules/core/datastore/web_sql.js:124 | the DELETE of id 7 in table Contact is `DELETE FROM Contact WHERE ID=7;` |
| Statements.DeleteTextInjective | modules/core/datastore/web_sql.js:124 | different ids give different DELETE statements |
| Statements.SelectHeadForms | modules/core/datastore/web_sql.js:144-156 | the SELECT head is `* ` when no columns are given, the single column plus a space, or the columns joined by `, ` with one piece per column; ` FROM name` follows |
| Statements.ApplyConstraint | modules/core/datastore/web_sql.js:161-183 | with parameters: the fragment is appended and they are bound iff the `?` count equals their number, else the call is rejected; without parameters: the fragment is appended iff it has no `?`, else dropped |
| Statements.CollectRows | modules/core/datastore/web_sql.js:193-198 | one record per row, in row order, each in state VALID |
| WebSql.Execute | modules/core/datastore/web_sql.js:82-125 | an initialised provider issues at most one statement per call, never a CREATE, and issues one exactly when the outcome is Executing |
| WebSql.FindParameterRule | modules/core/datastore/web_sql.js:166-174 | a find with parameters is rejected, with no statement issued, iff the `?` count differs from the number of parameters; otherwise its SELECT binds exactly those parameters |
| WebSql.WebSqlProvider.constructor | modules/core/datastore/web_sql.js:271-277 | a configured provider starts uninitialised, with no handle, no pending operation and nothing issued |
| WebSql.WebSqlProvider.OpenDb | modules/core/datastore/web_sql.js:227-231 | the handle is the configured database, version 2.0, with the fixed description and size |
| WebSql.WebSqlProvider.CreateTable | modules/core/datastore/web_sql.js:238-265 | the CREATE statement is issued only when a handle exists; otherwise, or when a builder throws, nothing is issued |
| WebSql.WebSqlProvider.Init | modules/core/datastore/web_sql.js:50-56 | opens the handle, then creates the table |
| WebSql.WebSqlProvider.Defer | modules/core/datastore/web_sql.js:75-79 | an uninitialised provider stores the operation as the pending one and runs init on the argument object; it issues nothing but the CREATE, puts that CREATE in flight bound to the argument object, and leaves the flag unset |
| WebSql.WebSqlProvider.Save | modules/core/datastore/web_sql.js:66-108 | stores the callbacks. Uninitialised: stores itself as pending, runs init, issues nothing but the CREATE and leaves the flag unset. Initialised: issues exactly the INSERT of a new record; a record that is not new issues nothing |
| WebSql.WebSqlProvider.Del | modules/core/datastore/web_sql.js:115-126 | uninitialised: defers as save does. Initialised: the DELETE is the only statement issued |
| WebSql.WebSqlProvider.Find | modules/core/datastore/web_sql.js:132-189 | stores the callbacks. Uninitialised: defers. Initialised: issues the SELECT and opens a read, or is rejected with nothing issued |
| WebSql.WebSqlProvider.HandleDbReturn | modules/core/datastore/web_sql.js:301-307 | completing the k-th CREATE in flight sets the flag, which no operation ever clears, and runs the pending operation once on the argument object that CREATE was bound to |
| WebSql.WebSqlProvider.CreateTableFailed | modules/core/datastore/web_sql.js:255-257 | the CREATE transaction has a null error callback: a failed CREATE leaves the flag unset, retries nothing and changes nothing else |
| WebSql.WebSqlProvider.CompleteRead | modules/core/datastore/web_sql.js:192-219 | closes the read and makes the rows VALID records in order; a target-and-action success callback receives the whole sequence once, as its one argument |
| WebSql.WebSqlProvider.FailRead | modules/core/datastore/web_sql.js:200-207 | closes the read, and invokes a target-and-action error callback; any other is not invoked |
| WebSql.DeleteTwice | modules/core/datastore/web_sql.js:115-125 | two deletes on a fresh provider issue one CREATE and then the DELETE twice, nothing else |
| WebSql.DeleteTwoDeferred | modules/core/datastore/web_sql.js:115-121 | deletes of two records before initialisation issue two CREATEs, and each completion deletes the record of its own call, once |
| WebSql.SaveThenDeleteDeferred | modules/core/datastore/web_sql.js:75-79 | with the line-77 correction (init receives the argument object), a save and then a delete before initialisation: the completion of the save's CREATE runs the pending `del` on the save's arguments, so the new record is deleted rather than inserted |
| WebSql.FindOnFreshProvider | modules/core/datastore/web_sql.js:132-219 | a deferred find, once initialised and its read completes, calls the success callback exactly once with all rows as VALID records |

The class invariant `WebSqlProvider.Valid` holds across every method. It says:

- a handle is the configured one;
- the flag and every CREATE in flight imply a handle;
- before the flag is set the engine has received only CREATE statements, no
  read is open and no callback has been invoked.

## Left out

- The WebSQL engine (`openDatabase`, `transaction`, `readTransaction`,
  `executeSql`) is foreign and asynchronous. Whether `openDatabase` gives a
  handle is a constructor parameter. Statements go to a log. Completions are
  methods the host calls, and their order is the host's choice. Exceptions
  thrown by `openDatabase` or `transaction` are not modelled.
- Concurrent first calls are modelled as the source handles them. Every
  operation that arrives before initialisation completes starts its own
  `init` and its own CREATE. The pending slot keeps only the operation
  deferred last. The host may complete the CREATE transactions in any
  order, by index. True parallelism is not modelled, because JavaScript
  runs callbacks one at a time.
- `bindToCaller` and the `target[action]` lookup are framework helpers. A
  callback is either a plain function or a `(target, action)` pair. The
  target is taken to be truthy and `target[action]` to be a function.
- `configure` derives a new object with `this.extend`. The model has a
  constructor that takes the configuration instead.
- Logging and `console.log` are left out. `createRecord`, with its
  `$.extend` of the row with `STATE_VALID`, is modelled as a record pairing
  the row with its state.
- `queryDbForId` (lines 293-299) is unused and left out.
- Record values are kept as the strings JavaScript concatenation renders them
  to, and the id is a natural number rendered in decimal.
- `toUpperCase` is modelled for ASCII only, which covers the six keywords.
- Record properties are an ordered sequence standing for `for…in` order.
  Metadata lookup takes the first declaration of a name.
- WebSql.WebSqlProvider.Save: at line 82 the source reads the undeclared
  `model` where `obj.model` is meant. The model tests `obj.model.state`.
- WebSql.WebSqlProvider.Save: at line 77 the source passes `obj.model` to
  `init`, where `createTable` expects the `obj` wrapper. The model passes
  the argument object, as `del` and `find` do.
- WebSql.WebSqlProvider.Save: at line 102 the source invokes `onSuccess(YES)`
  and `onError(NO)` eagerly instead of passing them as transaction
  callbacks. The model states no callback invocation for a write
  transaction, and the completion of write transactions is left out.
- WebSql.WebSqlProvider.Save: the UPDATE branch (lines 104-107) only logs.
  The model returns `UpdateUnimplemented` and issues nothing.
- WebSql.WebSqlProvider.Find: lines 190-191 overwrite the built SQL and
  parameters with a fixed junk statement before executing them. This is a
  debug leftover. The model issues the statement built at lines 144-183.
- WebSql.WebSqlProvider.HandleDbReturn: the second argument the CREATE
  transaction is bound to is `callback`, a rebound copy of `del` or `find`.
  It is passed on to the pending operation, which ignores it because
  `save`, `del` and `find` take one parameter. The model leaves it out.
  When no operation is pending, as after a direct call of `init`, line
  306 calls a null `internalCallback` and throws a TypeError after setting
  the flag. The outcome `NoPendingOperation` stands for that throw.
- WebSql.WebSqlProvider.CompleteRead: argument objects are modelled as
  values, not shared mutable objects. Line 217 overwrites the caller's
  `obj.onSuccess` with the rebound closure, so an argument object passed to
  a second `find` no longer passes the target-and-action test at line 210,
  and its later completion invokes nothing. The model keeps the original
  callback and delivers to it again.
- WebSql.WebSqlProvider.FailRead: argument objects are modelled as values.
  Line 203 overwrites the caller's `obj.onError` the same way, so a reused
  argument object's later error completion invokes nothing. The model
  delivers to the original callback again.
- WebSql.WebSqlProvider.Del: argument objects are modelled as values. Line
  124 reads `obj.model.name` and `obj.model.id` when the engine runs the
  transaction body, not when `del` is called. The model fixes them at the
  call. Likewise, line 170 binds the caller's own `parameters` array by
  reference, while the model passes it to `find` as a value.
- WebSql.WebSqlProvider.FailRead: line 203 calls `this.bindToCaller` inside
  the engine's error callback. There `this` is not the provider, which
  line 188 saved as `that` for this purpose. As written, a target-and-action
  error callback would throw before it is invoked. The model uses `that`,
  as the success path at line 217 does.
