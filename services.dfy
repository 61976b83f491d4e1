/**
  The cache-aware dispatcher. Every public operation first turns its
  statement source into statement text and a command type, then either runs
  the statement against the backend or asks the cache store for the value
  under a key, running the statement only on a miss.

  Each operation family comes in six overloads (string, Enum, file path,
  Enum-labelled file path, stored procedure by name, stored procedure by
  Enum); they are the six constructors of `Statement`, and `Resolve` says
  what text and command type each one runs.
*/
module Services {
  import opened Wrappers
  import opened Extensions
  import opened Providers

  /** `System.Data.CommandType`: how the backend interprets the statement text. */
  datatype CommandType = Text | StoredProcedure | TableDirect

  /** The `cacheTime` of every cached operation when the caller gives none, in minutes. */
  const DefaultCacheTime := 360

  /** The statement source of one overload, with the command type that overload takes from its caller. */
  datatype Statement =
    | Sql(sql: string, commandType: Option<CommandType>)                  // X(string sql, …)
    | SqlEnum(item: Option<EnumValue>, commandType: Option<CommandType>) // X(Enum sql, …)
    | File(path: string, commandType: Option<CommandType>)                // XFile(string path, …)
    | FileEnum(item: Option<EnumValue>, commandType: Option<CommandType>) // XFile(Enum path, …)
    | SProc(sql: string)                                                  // XSProc(string sql, …)
    | SProcEnum(item: Option<EnumValue>)                                 // XSProc(Enum sql, …)

  /** Statement text and command type, as handed to the backend. */
  datatype Command = Command(text: string, commandType: Option<CommandType>)

  /** The file an overload reads, if it reads one: an Enum-labelled path is the item's description. */
  function FilePath(stmt: Statement): Option<string> {
    match stmt
    case File(path, _) => Some(path)
    case FileEnum(item, _) => Some(GetDescription(item))
    case _ => None
  }

  /** The files read, in order, while resolving `stmt`. */
  function FileReads(stmt: Statement): seq<string> {
    if FilePath(stmt).Some? then [FilePath(stmt).value] else []
  }

  /** True for the `*SProc` overloads. */
  predicate IsSProc(stmt: Statement) {
    stmt.SProc? || stmt.SProcEnum?
  }

  /**
    Statement resolution: the text and command type an overload passes to the
    general string overload, or the exception that stops it first.
  */
  function Resolve(stmt: Statement, files: map<string, string>): (r: Result<Command, Error>)
    // only a file that cannot be opened makes resolution fail: the empty path, or one with no file
    ensures r.Failure? <==> FilePath(stmt).Some? && (FilePath(stmt).value == "" || FilePath(stmt).value !in files)
    ensures r.Failure? ==>
              r.error == (if FilePath(stmt).value == "" then InvalidArgument("path") else FileNotFound(FilePath(stmt).value))
    // a file overload runs the file's contents, a literal overload its text, an Enum overload the description
    ensures r.Success? && FilePath(stmt).Some? ==> r.value.text == files[FilePath(stmt).value]
    ensures r.Success? && (stmt.Sql? || stmt.SProc?) ==> r.value.text == stmt.sql
    ensures r.Success? && (stmt.SqlEnum? || stmt.SProcEnum?) ==> r.value.text == GetDescription(stmt.item)
    // the stored-procedure overloads fix the command type, the others pass the caller's through
    ensures r.Success? ==>
              r.value.commandType == (if IsSProc(stmt) then Some(StoredProcedure) else stmt.commandType)
  {
    match stmt
    case Sql(sql, commandType) => Success(Command(sql, commandType))
    case SqlEnum(item, commandType) => Success(Command(GetDescription(item), commandType))
    case File(path, commandType) =>
      var text :- ReadFileContents(files, path);
      Success(Command(text, commandType))
    case FileEnum(item, commandType) =>
      var text :- ReadFileContents(files, GetDescription(item));
      Success(Command(text, commandType))
    case SProc(sql) => Success(Command(sql, Some(StoredProcedure)))
    case SProcEnum(item) => Success(Command(GetDescription(item), Some(StoredProcedure)))
  }

  /** Every Enum overload is the matching string overload applied to the item's description. */
  lemma EnumOverloadsUseDescription(item: Option<EnumValue>, commandType: Option<CommandType>,
                                    files: map<string, string>)
    ensures Resolve(SqlEnum(item, commandType), files) == Resolve(Sql(GetDescription(item), commandType), files)
    ensures Resolve(FileEnum(item, commandType), files) == Resolve(File(GetDescription(item), commandType), files)
    ensures FileReads(FileEnum(item, commandType)) == FileReads(File(GetDescription(item), commandType))
    ensures Resolve(SProcEnum(item), files) == Resolve(SProc(GetDescription(item)), files)
  {
  }

  /** A null Enum names the empty path, which `File.OpenText` refuses whatever files exist. */
  lemma NullEnumPathIsRefused(commandType: Option<CommandType>, files: map<string, string>)
    ensures Resolve(FileEnum(None, commandType), files) == Failure(InvalidArgument("path"))
  {
  }

  /** Every stored-procedure overload is the general overload with `CommandType.StoredProcedure`. */
  lemma SProcOverloadsUseStoredProcedure(sql: string, files: map<string, string>)
    ensures Resolve(SProc(sql), files) == Resolve(Sql(sql, Some(StoredProcedure)), files)
  {
  }

  /** The three sources of one statement text resolve alike, whichever is used. */
  lemma SourcesAgree(text: string, item: EnumValue, path: string, commandType: Option<CommandType>,
                     files: map<string, string>)
    requires GetDescription(Some(item)) == text
    requires path != "" && path in files && files[path] == text
    ensures Resolve(Sql(text, commandType), files) == Resolve(SqlEnum(Some(item), commandType), files)
    ensures Resolve(Sql(text, commandType), files) == Resolve(File(path, commandType), files)
    ensures Resolve(Sql(text, commandType), files) == Success(Command(text, commandType))
  {
  }

  /** An opaque reference passed through to the backend (a parameter object, a transaction). */
  datatype Handle = Handle(id: nat)

  /** The arguments every overload passes through unchanged. */
  datatype Args = Args(param: Option<Handle>, transaction: Option<Handle>, commandTimeout: Option<int>)

  /** What the backend is asked to return. */
  datatype Shape = Rows(rowType: TypeTag) | Scalar(valueType: TypeTag) | Multiple | AffectedCount

  /** One backend call: one connection opened, one statement run. */
  datatype Request = Request(command: Command, args: Args, buffered: bool, shape: Shape)

  /**
    How an exception thrown by the database driver leaves the dispatcher: the
    driver reports an error code, which surfaces as a `BackendFailure`.
  */
  function FromDriver<T>(outcome: Result<T, int>): (r: Result<T, Error>)
    ensures r.Success? <==> outcome.Success?
    ensures r.Success? ==> r.value == outcome.value
    ensures r.Failure? ==> r.error.BackendFailure? && r.error.code == outcome.error
  {
    match outcome
    case Success(v) => Success(v)
    case Failure(code) => Failure(BackendFailure(code))
  }

  /**
    A failed dispatcher call tells its cause: resolving a statement fails
    only with a file error, and running it only with a driver error.
  */
  lemma FailuresAreDistinct<T>(stmt: Statement, files: map<string, string>, outcome: Result<T, int>)
    ensures Resolve(stmt, files).Failure? ==>
              Resolve(stmt, files).error.FileNotFound? || Resolve(stmt, files).error.InvalidArgument?
    ensures FromDriver(outcome).Failure? ==> FromDriver(outcome).error.BackendFailure?
  {
  }

  /** The `T` of the `GetWithRefresh<T>` call that caches a result of this shape. */
  function ResultType(shape: Shape): (r: TypeTag)
    // a row set is cached as a sequence of its row type, a scalar as its own type, a grid reader as itself
    ensures shape.Rows? ==> r.EnumerableOf? && r.element == shape.rowType
    ensures shape.Scalar? ==> r == shape.valueType
    ensures shape.Multiple? ==> r == GridReader
  {
    match shape
    case Rows(rowType) => EnumerableOf(rowType)
    case Scalar(valueType) => valueType
    case Multiple => GridReader
    // no cached family caches an affected-row count; this value is never used as a cache type
    case AffectedCount => Named("Int32")
  }

  /**
    Two cached families that share a key only hit each other's entries when
    they cast to the same type: a row query misses on a cached grid reader and
    on rows of another type.
  */
  lemma SharedKeyNeedsSameType(entries: Table, now: int, key: string, rowType: TypeTag, other: Shape)
    requires Lookup(entries, now, key).Some? && Lookup(entries, now, key).value.tag == ResultType(other)
    requires other.Multiple? || (other.Rows? && other.rowType != rowType)
    ensures Cast(entries, now, key, ResultType(Rows(rowType))).None?
  {
  }

  /**
    `DapperService`. The database driver is the pair of functions `backend`
    (query, scalar and multi-result calls) and `rowsAffected` (execute calls);
    the file system is `files`. `requests` logs every backend call and
    `fileReads` every file opened.
  */
  class DapperService {
    const connectionString: string
    const cacheProvider: DefaultCacheProvider
    const files: map<string, string>
    const backend: Request -> Result<Option<Payload>, int>
    const rowsAffected: Request -> Result<int, int>
    ghost var requests: seq<Request>
    ghost var fileReads: seq<string>

    constructor (connectionString: string, cacheProvider: DefaultCacheProvider, files: map<string, string>,
                 backend: Request -> Result<Option<Payload>, int>, rowsAffected: Request -> Result<int, int>)
      ensures this.connectionString == connectionString && this.cacheProvider == cacheProvider
      ensures this.files == files && this.backend == backend && this.rowsAffected == rowsAffected
      ensures requests == [] && fileReads == []
    {
      this.connectionString := connectionString;
      this.cacheProvider := cacheProvider;
      this.files := files;
      this.backend := backend;
      this.rowsAffected := rowsAffected;
      requests := [];
      fileReads := [];
    }

    /**
      The outcome of an uncached query, scalar or multi-result call: the
      statement is resolved, and unless that fails it is run exactly once.
    */
    twostate predicate Dispatched(stmt: Statement, args: Args, buffered: bool, shape: Shape,
                                  new r: Result<Option<Payload>, Error>)
      reads this
    {
      && fileReads == old(fileReads) + FileReads(stmt)
      && match Resolve(stmt, files)
         case Failure(e) => r == Failure(e) && requests == old(requests)
         case Success(cmd) =>
           var req := Request(cmd, args, buffered, shape);
           r == FromDriver(backend(req)) && requests == old(requests) + [req]
    }

    /**
      The outcome of a cached call: the statement is resolved first (a file
      is read even when the key is cached), then the cache store serves the
      key, and the statement is run only when the producer runs.
    */
    twostate predicate DispatchedThroughCache(key: string, stmt: Statement, args: Args, buffered: bool,
                                              shape: Shape, cacheTime: int, new r: Result<Option<Payload>, Error>)
      reads this, cacheProvider
    {
      && fileReads == old(fileReads) + FileReads(stmt)
      && match Resolve(stmt, files)
         case Failure(e) =>
           && r == Failure(e) && requests == old(requests)
           && cacheProvider.entries == old(cacheProvider.entries)
           && cacheProvider.producerCalls == old(cacheProvider.producerCalls)
         case Success(cmd) =>
           var req := Request(cmd, args, buffered, shape);
           var s := Serve(old(cacheProvider.entries), cacheProvider.now, key, ResultType(shape), FromDriver(backend(req)), cacheTime);
           && r == s.result
           && cacheProvider.entries == s.entries
           && requests == old(requests) + (if s.produced then [req] else [])
           && cacheProvider.producerCalls == old(cacheProvider.producerCalls) + (if s.produced then 1 else 0)
    }

    /** The outcome of an execute call: resolved, then run exactly once for its affected-row count. */
    twostate predicate Executed(stmt: Statement, args: Args, new r: Result<int, Error>)
      reads this
    {
      && fileReads == old(fileReads) + FileReads(stmt)
      && match Resolve(stmt, files)
         case Failure(e) => r == Failure(e) && requests == old(requests)
         case Success(cmd) =>
           var req := Request(cmd, args, true, AffectedCount);
           r == FromDriver(rowsAffected(req)) && requests == old(requests) + [req]
    }

    /** The overload's own work: `GetDescription`, `ReadFileContents(Async)`, the fixed command type. */
    method ReadStatement(stmt: Statement) returns (r: Result<Command, Error>)
      modifies this`fileReads
      ensures r == Resolve(stmt, files)
      ensures fileReads == old(fileReads) + FileReads(stmt)
    {
      var path := FilePath(stmt);
      if path.Some? {
        fileReads := fileReads + [path.value];
      }
      r := Resolve(stmt, files);
    }

    /** The general string overload: open a connection and run the request. */
    method Run(req: Request) returns (r: Result<Option<Payload>, Error>)
      modifies this`requests
      ensures r == FromDriver(backend(req)) && requests == old(requests) + [req]
    {
      requests := requests + [req];
      r := FromDriver(backend(req));
    }

    /** `CacheProvider.GetWithRefresh(key, () => <general overload>, cacheTime)`. */
    method RunThroughCache(key: string, req: Request, cacheTime: int) returns (r: Result<Option<Payload>, Error>)
      modifies this`requests, cacheProvider`entries, cacheProvider`producerCalls
      ensures var s := Serve(old(cacheProvider.entries), cacheProvider.now, key, ResultType(req.shape), FromDriver(backend(req)), cacheTime);
              && r == s.result && cacheProvider.entries == s.entries
              && requests == old(requests) + (if s.produced then [req] else [])
              && cacheProvider.producerCalls == old(cacheProvider.producerCalls) + (if s.produced then 1 else 0)
    {
      ghost var before := cacheProvider.producerCalls;
      var run := backend;
      r := cacheProvider.GetWithRefresh(key, ResultType(req.shape), () => FromDriver(run(req)), cacheTime);
      if cacheProvider.producerCalls != before {
        requests := requests + [req];
      }
    }

    /** `CacheProvider.GetWithRefreshAsync(key, async () => await <general overload>, cacheTime)`. */
    method RunThroughCacheAsync(key: string, req: Request, cacheTime: int) returns (r: Result<Option<Payload>, Error>)
      modifies this`requests, cacheProvider`entries, cacheProvider`producerCalls
      ensures var s := Serve(old(cacheProvider.entries), cacheProvider.now, key, ResultType(req.shape), FromDriver(backend(req)), cacheTime);
              && r == s.result && cacheProvider.entries == s.entries
              && requests == old(requests) + (if s.produced then [req] else [])
              && cacheProvider.producerCalls == old(cacheProvider.producerCalls) + (if s.produced then 1 else 0)
    {
      ghost var before := cacheProvider.producerCalls;
      var run := backend;
      r := cacheProvider.GetWithRefreshAsync(key, ResultType(req.shape), () => FromDriver(run(req)), cacheTime);
      if cacheProvider.producerCalls != before {
        requests := requests + [req];
      }
    }

    // ---- blocking operations ----

    /** `Query<T>` and its overloads. */
    method Query(stmt: Statement, args: Args, rowType: TypeTag, buffered: bool := true)
      returns (r: Result<Option<Payload>, Error>)
      modifies this`fileReads, this`requests
      ensures Dispatched(stmt, args, buffered, Rows(rowType), r)
    {
      var cmd :- ReadStatement(stmt);
      r := Run(Request(cmd, args, buffered, Rows(rowType)));
    }

    /** `CacheOrQuery<T>` and its overloads. */
    method CacheOrQuery(key: string, stmt: Statement, args: Args, rowType: TypeTag, buffered: bool := true,
                        cacheTime: int := DefaultCacheTime)
      returns (r: Result<Option<Payload>, Error>)
      modifies this`fileReads, this`requests, cacheProvider`entries, cacheProvider`producerCalls
      ensures DispatchedThroughCache(key, stmt, args, buffered, Rows(rowType), cacheTime, r)
    {
      var cmd :- ReadStatement(stmt);
      r := RunThroughCache(key, Request(cmd, args, buffered, Rows(rowType)), cacheTime);
    }

    /** `Execute` and its overloads; there is no cached variant. */
    method Execute(stmt: Statement, args: Args) returns (r: Result<int, Error>)
      modifies this`fileReads, this`requests
      ensures Executed(stmt, args, r)
    {
      var cmd :- ReadStatement(stmt);
      var req := Request(cmd, args, true, AffectedCount);
      requests := requests + [req];
      r := FromDriver(rowsAffected(req));
    }

    /** `ExecuteScalar<T>` and its overloads. */
    method ExecuteScalar(stmt: Statement, args: Args, valueType: TypeTag) returns (r: Result<Option<Payload>, Error>)
      modifies this`fileReads, this`requests
      ensures Dispatched(stmt, args, true, Scalar(valueType), r)
    {
      var cmd :- ReadStatement(stmt);
      r := Run(Request(cmd, args, true, Scalar(valueType)));
    }

    /** `CacheOrExecuteScalar<T>` and its overloads. */
    method CacheOrExecuteScalar(key: string, stmt: Statement, args: Args, valueType: TypeTag,
                                cacheTime: int := DefaultCacheTime)
      returns (r: Result<Option<Payload>, Error>)
      modifies this`fileReads, this`requests, cacheProvider`entries, cacheProvider`producerCalls
      ensures DispatchedThroughCache(key, stmt, args, true, Scalar(valueType), cacheTime, r)
    {
      var cmd :- ReadStatement(stmt);
      r := RunThroughCache(key, Request(cmd, args, true, Scalar(valueType)), cacheTime);
    }

    /** `QueryMultiple` and its overloads. */
    method QueryMultiple(stmt: Statement, args: Args) returns (r: Result<Option<Payload>, Error>)
      modifies this`fileReads, this`requests
      ensures Dispatched(stmt, args, true, Multiple, r)
    {
      var cmd :- ReadStatement(stmt);
      r := Run(Request(cmd, args, true, Multiple));
    }

    /** `CacheOrQueryMultiple` and its overloads. */
    method CacheOrQueryMultiple(key: string, stmt: Statement, args: Args, cacheTime: int := DefaultCacheTime)
      returns (r: Result<Option<Payload>, Error>)
      modifies this`fileReads, this`requests, cacheProvider`entries, cacheProvider`producerCalls
      ensures DispatchedThroughCache(key, stmt, args, true, Multiple, cacheTime, r)
    {
      var cmd :- ReadStatement(stmt);
      r := RunThroughCache(key, Request(cmd, args, true, Multiple), cacheTime);
    }

    // ---- non-blocking operations: the awaited result, computed in sequence ----

    /** `QueryAsync<T>` and its overloads; the driver's async query always buffers. */
    method QueryAsync(stmt: Statement, args: Args, rowType: TypeTag) returns (r: Result<Option<Payload>, Error>)
      modifies this`fileReads, this`requests
      ensures Dispatched(stmt, args, true, Rows(rowType), r)
    {
      var cmd :- ReadStatement(stmt);
      r := Run(Request(cmd, args, true, Rows(rowType)));
    }

    /** `CacheOrQueryAsync<T>` and its overloads. */
    method CacheOrQueryAsync(key: string, stmt: Statement, args: Args, rowType: TypeTag,
                             cacheTime: int := DefaultCacheTime)
      returns (r: Result<Option<Payload>, Error>)
      modifies this`fileReads, this`requests, cacheProvider`entries, cacheProvider`producerCalls
      ensures DispatchedThroughCache(key, stmt, args, true, Rows(rowType), cacheTime, r)
    {
      var cmd :- ReadStatement(stmt);
      r := RunThroughCacheAsync(key, Request(cmd, args, true, Rows(rowType)), cacheTime);
    }

    /** `ExecuteAsync` and its overloads. */
    method ExecuteAsync(stmt: Statement, args: Args) returns (r: Result<int, Error>)
      modifies this`fileReads, this`requests
      ensures Executed(stmt, args, r)
    {
      var cmd :- ReadStatement(stmt);
      var req := Request(cmd, args, true, AffectedCount);
      requests := requests + [req];
      r := FromDriver(rowsAffected(req));
    }

    /** `ExecuteScalarAsync<T>` and its overloads. */
    method ExecuteScalarAsync(stmt: Statement, args: Args, valueType: TypeTag) returns (r: Result<Option<Payload>, Error>)
      modifies this`fileReads, this`requests
      ensures Dispatched(stmt, args, true, Scalar(valueType), r)
    {
      var cmd :- ReadStatement(stmt);
      r := Run(Request(cmd, args, true, Scalar(valueType)));
    }

    /** `CacheOrExecuteScalarAsync<T>` and its overloads. */
    method CacheOrExecuteScalarAsync(key: string, stmt: Statement, args: Args, valueType: TypeTag,
                                     cacheTime: int := DefaultCacheTime)
      returns (r: Result<Option<Payload>, Error>)
      modifies this`fileReads, this`requests, cacheProvider`entries, cacheProvider`producerCalls
      ensures DispatchedThroughCache(key, stmt, args, true, Scalar(valueType), cacheTime, r)
    {
      var cmd :- ReadStatement(stmt);
      r := RunThroughCacheAsync(key, Request(cmd, args, true, Scalar(valueType)), cacheTime);
    }

    /** `QueryMultipleAsync` and its overloads. */
    method QueryMultipleAsync(stmt: Statement, args: Args) returns (r: Result<Option<Payload>, Error>)
      modifies this`fileReads, this`requests
      ensures Dispatched(stmt, args, true, Multiple, r)
    {
      var cmd :- ReadStatement(stmt);
      r := Run(Request(cmd, args, true, Multiple));
    }

    /** `CacheOrQueryMultipleAsync` and its overloads. */
    method CacheOrQueryMultipleAsync(key: string, stmt: Statement, args: Args, cacheTime: int := DefaultCacheTime)
      returns (r: Result<Option<Payload>, Error>)
      modifies this`fileReads, this`requests, cacheProvider`entries, cacheProvider`producerCalls
      ensures DispatchedThroughCache(key, stmt, args, true, Multiple, cacheTime, r)
    {
      var cmd :- ReadStatement(stmt);
      r := RunThroughCacheAsync(key, Request(cmd, args, true, Multiple), cacheTime);
    }
  }
}
