/**
  `GenericDapperService<T>`: the query families of the dispatcher with the
  row type fixed, so that callers need not name it. It keeps no state of its
  own; every operation hands its arguments unchanged to the dispatcher with
  `T` as the row type.
*/
module GenericServices {
  import opened Wrappers
  import opened Providers
  import opened Services

  class GenericDapperService {
    /** The dispatcher this facade specialises (the base class in the source). */
    const service: DapperService
    /** The `T` every query deserialises to. */
    const rowType: TypeTag

    /** Forwards `connectionString` to the dispatcher and nothing more. */
    constructor (connectionString: string, cacheProvider: DefaultCacheProvider, files: map<string, string>,
                 backend: Request -> Result<Option<Payload>, int>, rowsAffected: Request -> Result<int, int>,
                 rowType: TypeTag)
      ensures fresh(service) && this.rowType == rowType
      ensures service.connectionString == connectionString && service.cacheProvider == cacheProvider
      ensures service.files == files && service.backend == backend && service.rowsAffected == rowsAffected
      ensures service.requests == [] && service.fileReads == []
    {
      service := new DapperService(connectionString, cacheProvider, files, backend, rowsAffected);
      this.rowType := rowType;
    }

    /** `Query`, `QueryFile` and `QuerySProc`, each by string and by Enum. */
    method Query(stmt: Statement, args: Args, buffered: bool := true) returns (r: Result<Option<Payload>, Error>)
      modifies service`fileReads, service`requests
      ensures service.Dispatched(stmt, args, buffered, Rows(rowType), r)
    {
      r := service.Query(stmt, args, rowType, buffered);
    }

    /** `CacheOrQuery`, `CacheOrQueryFile` and `CacheOrQuerySProc`, each by string and by Enum. */
    method CacheOrQuery(key: string, stmt: Statement, args: Args, buffered: bool := true,
                        cacheTime: int := DefaultCacheTime)
      returns (r: Result<Option<Payload>, Error>)
      modifies service`fileReads, service`requests, service.cacheProvider`entries, service.cacheProvider`producerCalls
      ensures service.DispatchedThroughCache(key, stmt, args, buffered, Rows(rowType), cacheTime, r)
    {
      r := service.CacheOrQuery(key, stmt, args, rowType, buffered, cacheTime);
    }

    /** `QueryAsync`, `QueryFileAsync` and `QuerySProcAsync`, each by string and by Enum. */
    method QueryAsync(stmt: Statement, args: Args) returns (r: Result<Option<Payload>, Error>)
      modifies service`fileReads, service`requests
      ensures service.Dispatched(stmt, args, true, Rows(rowType), r)
    {
      r := service.QueryAsync(stmt, args, rowType);
    }

    /**
      `CacheOrQueryAsync`, `CacheOrQueryFileAsync` and `CacheOrQuerySProcAsync`,
      each by string and by Enum. The Enum stored-procedure overload alone
      refuses a null transaction before touching the cache or the backend.
    */
    method CacheOrQueryAsync(key: string, stmt: Statement, args: Args, cacheTime: int := DefaultCacheTime)
      returns (r: Result<Option<Payload>, Error>)
      modifies service`fileReads, service`requests, service.cacheProvider`entries, service.cacheProvider`producerCalls
      ensures stmt.SProcEnum? && args.transaction.None? ==>
                r == Failure(ArgumentNull("transaction")) && unchanged(service, service.cacheProvider)
      ensures !(stmt.SProcEnum? && args.transaction.None?) ==>
                service.DispatchedThroughCache(key, stmt, args, true, Rows(rowType), cacheTime, r)
    {
      if stmt.SProcEnum? && args.transaction.None? {
        return Failure(ArgumentNull("transaction"));
      }
      r := service.CacheOrQueryAsync(key, stmt, args, rowType, cacheTime);
    }
  }
}
