/**
 * The WebSQL provider object: lazy, one-way initialisation of the database
 * handle and table, the pending operation replayed once initialisation
 * completes, and the statements each data operation hands to the engine.
 * The engine itself is not modelled: what it is given is recorded in
 * `issued`, and its asynchronous completions are methods the host calls.
 */
module WebSql {
  import opened Wrappers
  import opened SqlText
  import opened Schema
  import opened Statements

  /** The provider's `config`: database name and size estimate. */
  datatype Config = Config(dbName: string, size: nat)

  /** A database handle, as `openDatabase(name, version, description, size)` returns it. */
  datatype DbHandle = DbHandle(dbName: string, version: string, description: string, size: nat)

  /** The handle `openDb` asks the engine for. */
  function OpenDatabase(config: Config): DbHandle
  {
    DbHandle(config.dbName, "2.0", "Database for M app", config.size)
  }

  /** A caller's callback: a plain function, or a target object and the name of its action. */
  datatype Callback = Plain(fn: nat) | Bound(target: nat, action: string)

  /** `cb && cb.target && cb.action`: the read completions invoke only callbacks of this form. */
  predicate Invocable(cb: Option<Callback>)
  {
    cb.Some? && cb.value.Bound? && cb.value.action != ""
  }

  /**
   * The argument object a caller passes to `save`, `del` or `find`: the
   * model, find's column list and constraint, and the two callbacks. An
   * operation reads only the members it uses.
   */
  datatype Args = Args(model: Model, columns: Option<seq<string>>, constraint: Option<Constraint>,
                       onSuccess: Option<Callback>, onError: Option<Callback>)

  /** A data operation of the provider, as stored in `internalCallback`. */
  datatype Operation = SaveOp | DelOp | FindOp

  datatype StatementKind = CreateKind | InsertKind | DeleteKind | SelectKind

  /** A statement handed to the engine, with its bound parameters. */
  datatype Statement = Statement(kind: StatementKind, sql: string, params: seq<string>)

  /** An invocation of a caller's callback. */
  datatype Delivery =
    | SuccessDelivered(callback: Callback, records: seq<LoadedRecord>)
    | ErrorDelivered(callback: Callback)

  /** How a call of a provider operation ends. */
  datatype Outcome =
    | Executing                 // the statement was handed to the engine
    | Deferred                  // the provider was uninitialised: init ran, the request is pending
    | Rejected                  // find returned NO: placeholder and parameter counts differ
    | UpdateUnimplemented       // save of a record that is not new: the UPDATE branch only logs
    | Thrown(error: BuildError) // a statement builder threw
    | NoPendingOperation        // handleDbReturn called a null internalCallback: the TypeError it throws

  /** What an initialised provider does with one call. */
  datatype Step = Step(outcome: Outcome, statements: seq<Statement>)

  /**
   * The statement an initialised provider issues for one operation on its
   * argument object: the INSERT of a new record, the DELETE by identity, or
   * the SELECT with its constraint; nothing when a builder throws, when the
   * record is not new, or when the constraint is rejected.
   */
  function Execute(op: Operation, args: Args): (s: Step)
    ensures |s.statements| <= 1
    ensures s.outcome == Executing <==> |s.statements| == 1
    ensures forall k :: 0 <= k < |s.statements| ==> s.statements[k].kind != CreateKind
  {
    var m := args.model;
    match op
    case SaveOp =>
      if m.state != StateNew then Step(UpdateUnimplemented, [])
      else (match InsertText(m.name, m.meta, m.record)
            case Failure(e) => Step(Thrown(e), [])
            case Success(sql) => Step(Executing, [Statement(InsertKind, sql, [])]))
    case DelOp =>
      Step(Executing, [Statement(DeleteKind, DeleteText(m.name, m.id), [])])
    case FindOp =>
      match SelectStatement(m.name, args.columns, args.constraint)
      case None => Step(Rejected, [])
      case Some(q) => Step(Executing, [Statement(SelectKind, q.sql, q.params)])
  }

  /**
   * A find whose constraint carries parameters is rejected, with no
   * statement for the engine, exactly when the number of `?` in the
   * fragment differs from the number of parameters; otherwise its SELECT
   * binds exactly those parameters.
   */
  lemma FindParameterRule(m: Model, columns: Option<seq<string>>, statement: string, ps: seq<string>,
                          onSuccess: Option<Callback>, onError: Option<Callback>)
    ensures var s := Execute(FindOp, Args(m, columns, Some(Constraint(statement, Some(ps))), onSuccess, onError));
      && (s.outcome == Rejected <==> CountChar(statement, '?') != |ps|)
      && (s.outcome == Rejected ==> s.statements == [])
      && (s.outcome != Rejected ==>
            s.statements == [Statement(SelectKind, SelectHead(columns, m.name) + statement, ps)])
  {
  }

  /** The error `init` throws for a model: the CREATE builder's, if any. */
  function InitError(m: Model): Option<BuildError>
  {
    match CreateTableText(m.name, m.meta)
    case Failure(e) => Some(e)
    case Success(_) => None
  }

  /** The CREATE TABLE statement `createTable` issues: only when it builds and a handle exists. */
  function CreateStatements(m: Model, hasHandle: bool): seq<Statement>
  {
    match CreateTableText(m.name, m.meta)
    case Success(sql) => if hasHandle then [Statement(CreateKind, sql, [])] else []
    case Failure(_) => []
  }

  /**
   * The CREATE transactions `createTable` starts for an argument object:
   * one, bound to that object, exactly when it issues its statement.
   */
  function CreatesFor(args: Args, hasHandle: bool): seq<Args>
  {
    if CreateStatements(args.model, hasHandle) == [] then [] else [args]
  }

  /** What the deferral path returns: the error `init` throws, or normal return. */
  function DeferOutcome(m: Model): Outcome
  {
    match InitError(m)
    case Some(e) => Thrown(e)
    case None => Deferred
  }

  class WebSqlProvider {
    const config: Config
    /** Whether the host's `openDatabase` gives a handle. */
    const engineAvailable: bool

    var isInitialized: bool
    var dbHandler: Option<DbHandle>
    /** The operation to replay once a CREATE transaction completes: the last one deferred. */
    var internalCallback: Option<Operation>
    var onSuccess: Option<Callback>
    var onError: Option<Callback>

    /**
     * The CREATE transactions whose completion has not fired yet, each with
     * the argument object its success callback is bound to.
     */
    var creates: seq<Args>
    /** Every statement handed to the engine, in order. */
    var issued: seq<Statement>
    /** The argument objects of the finds whose read transaction has not completed. */
    var openReads: seq<Args>
    /** Every invocation of a caller's callback, in order. */
    var delivered: seq<Delivery>

    /**
     * The provider's invariant: a handle is the configured one; the flag
     * and every CREATE in flight imply a handle; before the flag is set the
     * engine has been given nothing but CREATE statements, and no read is
     * open and no callback invoked.
     */
    ghost predicate Valid()
      reads this
    {
      && (dbHandler.Some? ==> engineAvailable && dbHandler.value == OpenDatabase(config))
      && (isInitialized || |creates| > 0 ==> dbHandler.Some?)
      && (!isInitialized ==>
            && (forall k :: 0 <= k < |issued| ==> issued[k].kind == CreateKind)
            && openReads == [] && delivered == [])
    }

    /** A provider carrying a configuration, as `configure` returns it: uninitialised, no handle. */
    constructor (config: Config, engineAvailable: bool)
      ensures Valid()
      ensures this.config == config && this.engineAvailable == engineAvailable
      ensures !isInitialized && dbHandler == None && internalCallback == None
      ensures onSuccess == None && onError == None
      ensures creates == [] && issued == [] && openReads == [] && delivered == []
    {
      this.config := config;
      this.engineAvailable := engineAvailable;
      isInitialized := false;
      dbHandler := None;
      internalCallback := None;
      onSuccess := None;
      onError := None;
      creates := [];
      issued := [];
      openReads := [];
      delivered := [];
    }

    /** `openDb`: the handle for the configured database, if the engine gives one. */
    method OpenDb()
      requires Valid()
      modifies this`dbHandler
      ensures Valid()
      ensures dbHandler == if engineAvailable then Some(OpenDatabase(config)) else None
    {
      dbHandler := if engineAvailable then Some(OpenDatabase(config)) else None;
    }

    /**
     * `createTable`: builds the CREATE statement (throwing on an unmapped
     * type) and hands it to the engine when a handle exists, with a success
     * callback bound to the argument object; without a handle it only logs.
     */
    method CreateTable(args: Args) returns (err: Option<BuildError>)
      requires Valid()
      modifies this`issued, this`creates
      ensures Valid()
      ensures err == InitError(args.model)
      ensures issued == old(issued) + CreateStatements(args.model, dbHandler.Some?)
      ensures creates == old(creates) + CreatesFor(args, dbHandler.Some?)
    {
      var text := BuildCreateTable(args.model.name, args.model.meta);
      if text.Failure? {
        return Some(text.error);
      }
      if dbHandler.Some? {
        issued := issued + [Statement(CreateKind, text.value, [])];
        creates := creates + [args];
      }
      return None;
    }

    /** `init`: opens the handle, then creates the model's table. */
    method Init(args: Args) returns (err: Option<BuildError>)
      requires Valid()
      modifies this`dbHandler, this`issued, this`creates
      ensures Valid()
      ensures err == InitError(args.model)
      ensures dbHandler == if engineAvailable then Some(OpenDatabase(config)) else None
      ensures issued == old(issued) + CreateStatements(args.model, engineAvailable)
      ensures creates == old(creates) + CreatesFor(args, engineAvailable)
    {
      OpenDb();
      err := CreateTable(args);
    }

    /** The callback fields after a call: save and find store the argument's, del leaves them. */
    twostate predicate CallbacksStored(op: Operation, args: Args)
      reads this
    {
      if op == DelOp then onSuccess == old(onSuccess) && onError == old(onError)
      else onSuccess == args.onSuccess && onError == args.onError
    }

    /**
     * The deferral path of a data operation on an uninitialised provider:
     * the operation becomes the pending callback, `init` opens the handle and
     * issues the CREATE statement bound to the argument object, and nothing
     * else reaches the engine.
     */
    twostate predicate DeferredTo(op: Operation, args: Args, o: Outcome)
      reads this
    {
      && !old(isInitialized) && !isInitialized
      && internalCallback == Some(op)
      && dbHandler == (if engineAvailable then Some(OpenDatabase(config)) else None)
      && issued == old(issued) + CreateStatements(args.model, engineAvailable)
      && creates == old(creates) + CreatesFor(args, engineAvailable)
      && openReads == old(openReads) && delivered == old(delivered)
      && o == DeferOutcome(args.model)
    }

    /**
     * The run of a data operation on an initialised provider: exactly the
     * statement `Execute` gives, a find with an issued SELECT becomes an open
     * read, and the pending callback and handle stay as they were.
     */
    twostate predicate RanTo(op: Operation, args: Args, o: Outcome)
      reads this
    {
      && isInitialized
      && internalCallback == old(internalCallback) && dbHandler == old(dbHandler)
      && o == Execute(op, args).outcome
      && issued == old(issued) + Execute(op, args).statements
      && openReads == old(openReads) + (if op == FindOp && o == Executing then [args] else [])
      && delivered == old(delivered)
    }

    /**
     * The deferral shared by `save`, `del` and `find` on an uninitialised
     * provider: the operation becomes the pending one and `init` runs on the
     * argument object.
     */
    method Defer(op: Operation, args: Args) returns (o: Outcome)
      requires Valid() && !isInitialized
      modifies this
      ensures Valid()
      ensures DeferredTo(op, args, o)
      ensures onSuccess == old(onSuccess) && onError == old(onError)
    {
      internalCallback := Some(op);
      var err := Init(args);
      o := if err.Some? then Thrown(err.value) else Deferred;
    }

    /** `save`: the INSERT of a new record, once the provider is initialised. */
    method Save(args: Args) returns (o: Outcome)
      requires Valid()
      modifies this
      ensures Valid()
      ensures CallbacksStored(SaveOp, args)
      ensures old(isInitialized) ==> creates == old(creates) && RanTo(SaveOp, args, o)
      ensures !old(isInitialized) ==> DeferredTo(SaveOp, args, o)
    {
      onSuccess := args.onSuccess;
      onError := args.onError;
      if !isInitialized {
        o := Defer(SaveOp, args);
        return;
      }
      var model := args.model;
      if model.state == StateNew {
        var sql := BuildInsert(model.name, model.meta, model.record);
        if sql.Failure? {
          return Thrown(sql.error);
        }
        issued := issued + [Statement(InsertKind, sql.value, [])];
        o := Executing;
      } else {
        o := UpdateUnimplemented;
      }
    }

    /** `del`: the DELETE by identity, once the provider is initialised. */
    method Del(args: Args) returns (o: Outcome)
      requires Valid()
      modifies this
      ensures Valid()
      ensures CallbacksStored(DelOp, args)
      ensures old(isInitialized) ==> creates == old(creates) && RanTo(DelOp, args, o)
      ensures !old(isInitialized) ==> DeferredTo(DelOp, args, o)
    {
      if !isInitialized {
        o := Defer(DelOp, args);
        return;
      }
      issued := issued + [Statement(DeleteKind, DeleteText(args.model.name, args.model.id), [])];
      o := Executing;
    }

    /**
     * `find`: the SELECT with its constraint in a read transaction, once the
     * provider is initialised; a rejected constraint returns NO and reaches
     * no engine.
     */
    method Find(args: Args) returns (o: Outcome)
      requires Valid()
      modifies this
      ensures Valid()
      ensures CallbacksStored(FindOp, args)
      ensures old(isInitialized) ==> creates == old(creates) && RanTo(FindOp, args, o)
      ensures !old(isInitialized) ==> DeferredTo(FindOp, args, o)
    {
      onSuccess := args.onSuccess;
      onError := args.onError;
      if !isInitialized {
        o := Defer(FindOp, args);
        return;
      }
      var q := SelectStatement(args.model.name, args.columns, args.constraint);
      if q.None? {
        return Rejected;
      }
      issued := issued + [Statement(SelectKind, q.value.sql, q.value.params)];
      openReads := openReads + [args];
      o := Executing;
    }

    /**
     * `handleDbReturn`, the success completion of the `k`-th CREATE
     * transaction in flight: sets the flag for good and calls the pending
     * operation, the one deferred last, on the argument object that CREATE
     * was bound to; the operation now runs, and the pending slot keeps its
     * value.
     */
    method HandleDbReturn(k: nat) returns (o: Outcome)
      requires Valid() && k < |creates|
      modifies this
      ensures Valid()
      ensures isInitialized && creates == old(creates[..k] + creates[k + 1..])
      ensures old(internalCallback).None? ==>
        && o == NoPendingOperation && internalCallback == None && dbHandler == old(dbHandler)
        && issued == old(issued) && openReads == old(openReads) && delivered == old(delivered)
        && onSuccess == old(onSuccess) && onError == old(onError)
      ensures old(internalCallback).Some? ==>
        RanTo(old(internalCallback).value, old(creates[k]), o)
        && CallbacksStored(old(internalCallback).value, old(creates[k]))
    {
      var args := creates[k];
      isInitialized := true;
      creates := creates[..k] + creates[k + 1..];
      match internalCallback
      case None =>
        o := NoPendingOperation;
      case Some(op) =>
        match op
        case SaveOp =>
          o := Save(args);
        case DelOp =>
          o := Del(args);
        case FindOp =>
          o := Find(args);
    }

    /**
     * The error completion of the `k`-th CREATE transaction: its error
     * callback is null, so nothing is retried and nothing else changes.
     */
    method CreateTableFailed(k: nat)
      requires Valid() && k < |creates|
      modifies this`creates
      ensures Valid()
      ensures creates == old(creates[..k] + creates[k + 1..])
    {
      creates := creates[..k] + creates[k + 1..];
    }

    /**
     * The success completion of the `k`-th open read: the rows become VALID
     * records in row order, and a success callback given as target and
     * action is invoked once with the whole sequence as its one argument.
     */
    method CompleteRead(k: nat, rows: seq<Row>) returns (records: seq<LoadedRecord>)
      requires Valid() && k < |openReads|
      modifies this`openReads, this`delivered
      ensures Valid()
      ensures openReads == old(openReads[..k] + openReads[k + 1..])
      ensures |records| == |rows|
      ensures forall i :: 0 <= i < |rows| ==> records[i] == LoadedRecord(rows[i], StateValid)
      ensures delivered == old(delivered) +
        (if Invocable(old(openReads[k]).onSuccess) then [SuccessDelivered(old(openReads[k]).onSuccess.value, records)] else [])
    {
      var args := openReads[k];
      openReads := openReads[..k] + openReads[k + 1..];
      records := CollectRows(rows);
      if Invocable(args.onSuccess) {
        delivered := delivered + [SuccessDelivered(args.onSuccess.value, records)];
      }
    }

    /**
     * The error completion of the `k`-th open read: an error callback given
     * as target and action is invoked; any other is only logged.
     */
    method FailRead(k: nat)
      requires Valid() && k < |openReads|
      modifies this`openReads, this`delivered
      ensures Valid()
      ensures openReads == old(openReads[..k] + openReads[k + 1..])
      ensures delivered == old(delivered) +
        (if Invocable(old(openReads[k]).onError) then [ErrorDelivered(old(openReads[k]).onError.value)] else [])
    {
      var args := openReads[k];
      openReads := openReads[..k] + openReads[k + 1..];
      if Invocable(args.onError) {
        delivered := delivered + [ErrorDelivered(args.onError.value)];
      }
    }
  }

  /** The argument object a caller passes to `del`: only the model matters. */
  function DelArgs(m: Model): Args
  {
    Args(m, None, None, None, None)
  }

  /**
   * Two deletes of one record on a fresh provider: the first is deferred,
   * the CREATE completes and replays it, the second runs at once. The
   * engine is given one CREATE TABLE and then the DELETE twice.
   */
  method DeleteTwice(config: Config, m: Model) returns (log: seq<Statement>)
    requires CreateTableText(m.name, m.meta).Success?
    ensures log == [Statement(CreateKind, CreateTableText(m.name, m.meta).value, []),
                    Statement(DeleteKind, DeleteText(m.name, m.id), []),
                    Statement(DeleteKind, DeleteText(m.name, m.id), [])]
  {
    var p := new WebSqlProvider(config, true);
    var o := p.Del(DelArgs(m));
    o := p.HandleDbReturn(0);
    o := p.Del(DelArgs(m));
    log := p.issued;
  }

  /** A fresh provider after deletes of `m1` and `m2`, both deferred: two CREATEs in flight. */
  method DeferTwoDeletes(config: Config, m1: Model, m2: Model) returns (p: WebSqlProvider)
    requires CreateTableText(m1.name, m1.meta).Success? && CreateTableText(m2.name, m2.meta).Success?
    ensures fresh(p) && p.Valid() && !p.isInitialized && p.internalCallback == Some(DelOp)
    ensures p.creates == [DelArgs(m1), DelArgs(m2)]
    ensures p.issued == [Statement(CreateKind, CreateTableText(m1.name, m1.meta).value, []),
                         Statement(CreateKind, CreateTableText(m2.name, m2.meta).value, [])]
  {
    assert CreatesFor(DelArgs(m1), true) == [DelArgs(m1)] && CreatesFor(DelArgs(m2), true) == [DelArgs(m2)];
    p := new WebSqlProvider(config, true);
    var o := p.Del(DelArgs(m1));
    o := p.Del(DelArgs(m2));
  }

  /**
   * Two deletes of different records before initialisation: each starts its
   * own CREATE, and each completion replays `del` on its own record, so each
   * record is deleted once, in completion order.
   */
  method DeleteTwoDeferred(config: Config, m1: Model, m2: Model) returns (log: seq<Statement>)
    requires CreateTableText(m1.name, m1.meta).Success? && CreateTableText(m2.name, m2.meta).Success?
    ensures log == [Statement(CreateKind, CreateTableText(m1.name, m1.meta).value, []),
                    Statement(CreateKind, CreateTableText(m2.name, m2.meta).value, []),
                    Statement(DeleteKind, DeleteText(m2.name, m2.id), []),
                    Statement(DeleteKind, DeleteText(m1.name, m1.id), [])]
  {
    var p := DeferTwoDeletes(config, m1, m2);
    var o := p.HandleDbReturn(1);
    assert p.creates == [DelArgs(m1)] && p.internalCallback == Some(DelOp);
    o := p.HandleDbReturn(0);
    log := p.issued;
  }

  /**
   * A save and then a delete before initialisation: the pending slot holds
   * only the last operation, so the completion of the save's CREATE runs
   * `del` on the save's argument object, and the new record's row is
   * deleted instead of inserted.
   */
  method SaveThenDeleteDeferred(config: Config, m1: Model, m2: Model) returns (log: seq<Statement>)
    requires CreateTableText(m1.name, m1.meta).Success? && CreateTableText(m2.name, m2.meta).Success?
    ensures log == [Statement(CreateKind, CreateTableText(m1.name, m1.meta).value, []),
                    Statement(CreateKind, CreateTableText(m2.name, m2.meta).value, []),
                    Statement(DeleteKind, DeleteText(m1.name, m1.id), [])]
  {
    var p := new WebSqlProvider(config, true);
    var o := p.Save(Args(m1, None, None, None, None));
    o := p.Del(DelArgs(m2));
    o := p.HandleDbReturn(0);
    log := p.issued;
  }

  /**
   * A find on a fresh provider whose read returns `rows`: the success
   * callback is invoked exactly once, with one argument holding every row
   * as a VALID record, in row order.
   */
  method FindOnFreshProvider(config: Config, m: Model, rows: seq<Row>, cb: Callback) returns (d: seq<Delivery>)
    requires CreateTableText(m.name, m.meta).Success?
    requires cb.Bound? && cb.action != ""
    ensures |d| == 1 && d[0].SuccessDelivered? && d[0].callback == cb
    ensures |d[0].records| == |rows|
    ensures forall i :: 0 <= i < |rows| ==> d[0].records[i] == LoadedRecord(rows[i], StateValid)
  {
    var p := new WebSqlProvider(config, true);
    var o := p.Find(Args(m, None, None, Some(cb), None));
    o := p.HandleDbReturn(0);
    var records := p.CompleteRead(0, rows);
    d := p.delivered;
  }
}
