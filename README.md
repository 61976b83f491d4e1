# DapperFactory dispatch core in Dafny

This project models the data-access core of DapperFactory. That core is a
read-through cache in front of a dispatcher for parameterised SQL. It has four parts:

- **The cache store** (`DefaultCacheProvider`) is a key/value table with absolute-time expiry. It offers `Get`, `Set`, `IsSet`
  and `Invalidate`, plus the read-through primitive `GetWithRefresh` and its async form.
  A non-null cached value of the requested type is returned without running the producer.
  On a miss the producer runs once. Its result is stored only when it is non-null, and the store goes through `Cache.Add`, which never replaces a live entry.
- **The dispatcher** (`DapperService`) offers seven operation families: `Query`, `CacheOrQuery`, `Execute`,
  `ExecuteScalar`, `CacheOrExecuteScalar`, `QueryMultiple` and `CacheOrQueryMultiple`.
  Each family has six overloads and a sync and an async form.
  An overload turns its statement source into text: a literal string, an Enum label, a file, or a file named by an Enum label.
  It then fixes the command type (stored procedure for the `*SProc` overloads).
  Finally it either calls the backend or wraps that call in `GetWithRefresh`.
- **The typed facade** (`GenericDapperService<T>`) covers the query families with the row type fixed.
- **Enum labels** (`EnumExtensions.GetDescription`) gives the first `[Description]` of the enum member.
  Without one it falls back to the value's name, and a null item gives the empty string.

How the model is laid out:

- `wrappers.dfy` defines nullable values (`Option`), thrown exceptions (`Result`, `Error`).
- `extensions.dfy` holds `GetDescription` over an enum value given as data. It also holds file reading over a file system given as a map.
- `providers.dfy` holds the cache store. The pure functions `Lookup`, `Cast`, `Add`, `Remove` and `Serve` state what each step does to the table. The class `DefaultCacheProvider` holds the table, an explicit clock `now` (seconds) and a ghost count of producer runs, and its methods are proved against those functions. `Replay` and the lemmas after it follow the table through a series of calls.
- `services.dfy` holds the dispatcher.
  - The six overloads of a family are the six constructors of `Statement`, and `Resolve` gives the text and command type each one runs.
  - The backend is two function-valued fields, `backend` and `rowsAffected`. The ghost log `requests` records every backend call, and `fileReads` records every file the overload tries to open, including the empty path and missing files.
  - Each family is one method per scheduling form. Each method is proved against one of three two-state predicates: `Dispatched`, `DispatchedThroughCache` or `Executed`.
  - The sync and async form of a family meet the same predicate. The async query carries `buffered = true`, the driver's default.
  - The cached operations default `cacheTime` to `DefaultCacheTime` (360 minutes). `GetWithRefresh` uses the same literal default.
- `generic_services.dfy` holds the facade. It holds its dispatcher and its row type and forwards every call unchanged. The one exception is the null-transaction guard of the Enum overload of `CacheOrQuerySProcAsync`.

Two behaviours of the code that are easy to miss:

- **Setting a key.** `DefaultCacheProvider.Set` goes through `Cache.Add`, which keeps a live entry, so storing is not last-write-wins. A value produced while an object that `as T` rejects is cached under the key is returned but never cached (`ForeignEntryIsNeverReplaced`).
- **Missing catalog labels.** `GetDescription` never fails. A value without a `[Description]` gives its name, and null gives `""`. A file overload given a null Enum therefore asks for the empty path, which `File.OpenText` refuses (`NullEnumPathIsRefused`).

## Model

| member | source | states |
|---|---|---|
| `Extensions.GetDescription` | DapperFactory/Extensions/EnumExtensions.cs:14-33 | null gives `""`; a member with a `[Description]` gives its first one; otherwise the value's name |
| `Extensions.UnmatchedValueUsesName` | DapperFactory/Extensions/EnumExtensions.cs:20-30 | a value no member matches (a flags combination) is described by `ToString()` |
| `Extensions.FirstAttributeWins` | DapperFactory/Extensions/EnumExtensions.cs:23-28 | only the first attribute of the first matching member is used; further attributes or members do not matter |
| `Extensions.ReadFileContents` | DapperFactory/Extensions/StringExtensions.cs:8-22 | an existing file yields its contents; the empty path fails with an argument error; any other missing file fails with a file error naming the path |
| `Providers.Expiry` | DapperFactory/Providers/DefaultCacheProvider.cs:47 | the expiry lies after now exactly when `cacheTime` is positive; the lifetime is whole minutes and grows with `cacheTime` |
| `Providers.Lookup` | DapperFactory/Providers/DefaultCacheProvider.cs:11-14 | `Cache[key]` is non-null exactly when the key holds an entry whose expiry is still ahead, and then it is that entry's object |
| `Providers.VisibilityOnlyEnds` | DapperFactory/Providers/DefaultCacheProvider.cs:47 | expiry is absolute: an entry visible later was visible, unchanged, at every earlier instant, and one that has expired never reappears |
| `Providers.Cast` | DapperFactory/Providers/DefaultCacheProvider.cs:18 | `Get(key) as T` is non-null exactly when a visible object tagged with exactly type `T` (the `T` of the call that stored it) is stored, and then it is that object |
| `Providers.Add` | DapperFactory/Providers/DefaultCacheProvider.cs:45-49 | a live entry under the key is kept; otherwise the new value is visible exactly until its expiry; other keys are unaffected |
| `Providers.Remove` | DapperFactory/Providers/DefaultCacheProvider.cs:56-59 | afterwards nothing is visible under the key at any time; other keys are unaffected |
| `Providers.Serve` | DapperFactory/Providers/DefaultCacheProvider.cs:16-28 | a hit returns the cached value without running the producer and leaves the table alone; a miss runs the producer and returns its result or exception; null and exceptions are not stored; a live entry is never replaced; a value produced for an empty key stays visible for `cacheTime` minutes; other keys are unaffected |
| `Providers.Replay` | DapperFactory/Providers/DefaultCacheProvider.cs:16-28 | over a series of calls the producer runs at most once per call, and at least once when the first call misses; the count is what the four lemmas below pin down |
| `Providers.LiveEntryServesAll` | DapperFactory/Providers/DefaultCacheProvider.cs:18-19 | while a value of the requested type is visible, no call runs the producer |
| `Providers.FirstCallPopulates` | DapperFactory/Providers/DefaultCacheProvider.cs:16-28 | from an empty key, with a non-null producer, every call made before the expiry shares exactly one producer run |
| `Providers.NullIsNeverCached` | DapperFactory/Providers/DefaultCacheProvider.cs:19-25 | a producer that returns null or throws is run again on every call |
| `Providers.ForeignEntryIsNeverReplaced` | DapperFactory/Providers/DefaultCacheProvider.cs:16-49 | while an object of a type other than exactly `T` is live under the key, every call runs the producer and nothing is stored |
| `Providers.ExpiryForcesRefresh` | DapperFactory/Providers/DefaultCacheProvider.cs:45-49 | with one minute to live, calls at 0 s and 30 s share one run and a call at 61 s runs the producer again |
| `Providers.DefaultCacheProvider.constructor` | DapperFactory/Providers/DefaultCacheProvider.cs:9 | the store starts empty at the given clock reading |
| `Providers.DefaultCacheProvider.Advance` | DapperFactory/Providers/DefaultCacheProvider.cs:47 | the clock that `DateTime.Now` reads moves forward; the table is untouched |
| `Providers.DefaultCacheProvider.Get` | DapperFactory/Providers/DefaultCacheProvider.cs:11-14 | returns the entry visible under the key now, or null |
| `Providers.DefaultCacheProvider.GetWithRefresh` | DapperFactory/Providers/DefaultCacheProvider.cs:16-28 | result and new table are those of `Serve`; the producer count grows by one exactly on a miss |
| `Providers.DefaultCacheProvider.GetWithRefreshAsync` | DapperFactory/Providers/DefaultCacheProvider.cs:30-42 | the same contract as `GetWithRefresh` for the awaited producer |
| `Providers.DefaultCacheProvider.Set` | DapperFactory/Providers/DefaultCacheProvider.cs:45-49 | the table becomes `Add` of the value with expiry `now + cacheTime` minutes |
| `Providers.DefaultCacheProvider.IsSet` | DapperFactory/Providers/DefaultCacheProvider.cs:51-54 | true exactly when `Get` would return non-null |
| `Providers.DefaultCacheProvider.Invalidate` | DapperFactory/Providers/DefaultCacheProvider.cs:56-59 | the table becomes `Remove` of the key, so `IsSet` is false and `Get` null afterwards, other keys untouched |
| `Services.Resolve` | DapperFactory/Services/DapperService.cs:48-71 | only a file that cannot be opened fails: the empty path with an argument error, any other missing file with a file error naming it; file overloads run the file's contents, literal overloads their text, Enum overloads the description; `*SProc` overloads run as stored procedures, the others with the caller's command type |
| `Services.EnumOverloadsUseDescription` | DapperFactory/Services/DapperService.cs:48-61 | each Enum overload equals its string overload applied to `GetDescription`, including the path of the file read |
| `Services.NullEnumPathIsRefused` | DapperFactory/Services/DapperService.cs:58-61 | a file overload given a null Enum fails with an argument error, whatever files exist |
| `Services.SProcOverloadsUseStoredProcedure` | DapperFactory/Services/DapperService.cs:63-66 | each `*SProc` overload equals the general overload with `CommandType.StoredProcedure` |
| `Services.SourcesAgree` | DapperFactory/Services/DapperService.cs:48-56 | a literal, an Enum described by the same text and a file containing it run the same statement |
| `Services.FromDriver` | DapperFactory/Services/DapperService.cs:40-46 | the driver's answer passes through unchanged, and anything it throws surfaces as a backend failure carrying its code |
| `Services.FailuresAreDistinct` | DapperFactory/Services/DapperService.cs:40-61 | resolving a statement fails only with a file or argument error, running it only with a backend failure |
| `Services.ResultType` | DapperFactory/Services/DapperService.cs:77 | the `T` each cached family hands to `GetWithRefresh`: `IEnumerable<T>` for row queries, `T` for scalars, `GridReader` for multi-result queries |
| `Services.SharedKeyNeedsSameType` | DapperFactory/Services/DapperService.cs:243-246 | a row query under a key that holds a grid reader, or rows of a type other than exactly its row type, is a miss |
| `Services.DapperService.constructor` | DapperFactory/Services/DapperService.cs:26-30 | keeps the connection string and the injected cache store; no request and no file read yet |
| `Services.DapperService.ReadStatement` | DapperFactory/Services/DapperService.cs:53-61 | resolves as `Resolve` and logs the file read, if any |
| `Services.DapperService.Run` | DapperFactory/Services/DapperService.cs:40-46 | exactly one backend request, whose result is returned |
| `Services.DapperService.RunThroughCache` | DapperFactory/Services/DapperService.cs:75-78 | the result and table are those of `Serve` on the backend's answer; the request is issued only when the producer runs |
| `Services.DapperService.RunThroughCacheAsync` | DapperFactory/Services/DapperService.cs:315-318 | the same as `RunThroughCache` through `GetWithRefreshAsync` |
| `Services.DapperService.Query` | DapperFactory/Services/DapperService.cs:39-72 | resolves the statement; a file error issues no request; otherwise exactly one row-set request with the caller's arguments |
| `Services.DapperService.CacheOrQuery` | DapperFactory/Services/DapperService.cs:74-104 | reads the file even on a cache hit; a file error leaves the cache and backend untouched; otherwise `Serve` on the key with type `IEnumerable<T>`, and a backend request only on a miss |
| `Services.DapperService.Execute` | DapperFactory/Services/DapperService.cs:106-139 | exactly one affected-count request per resolved call, whose count is returned |
| `Services.DapperService.ExecuteScalar` | DapperFactory/Services/DapperService.cs:141-174 | as `Query`, with a scalar request |
| `Services.DapperService.CacheOrExecuteScalar` | DapperFactory/Services/DapperService.cs:176-206 | as `CacheOrQuery`, cached under type `T` |
| `Services.DapperService.QueryMultiple` | DapperFactory/Services/DapperService.cs:208-241 | as `Query`, with a multi-result request |
| `Services.DapperService.CacheOrQueryMultiple` | DapperFactory/Services/DapperService.cs:243-273 | as `CacheOrQuery`, cached under type `GridReader` |
| `Services.DapperService.QueryAsync` | DapperFactory/Services/DapperService.cs:279-312 | the same contract as `Query` with buffering on |
| `Services.DapperService.CacheOrQueryAsync` | DapperFactory/Services/DapperService.cs:314-344 | the same contract as `CacheOrQuery` with buffering on |
| `Services.DapperService.ExecuteAsync` | DapperFactory/Services/DapperService.cs:346-379 | the same contract as `Execute` |
| `Services.DapperService.ExecuteScalarAsync` | DapperFactory/Services/DapperService.cs:381-414 | the same contract as `ExecuteScalar` |
| `Services.DapperService.CacheOrExecuteScalarAsync` | DapperFactory/Services/DapperService.cs:416-446 | the same contract as `CacheOrExecuteScalar` |
| `Services.DapperService.QueryMultipleAsync` | DapperFactory/Services/DapperService.cs:448-481 | the same contract as `QueryMultiple` |
| `Services.DapperService.CacheOrQueryMultipleAsync` | DapperFactory/Services/DapperService.cs:483-513 | the same contract as `CacheOrQueryMultiple` |
| `GenericServices.GenericDapperService.constructor` | DapperFactory/Services/GenericDapperService.cs:14-17 | forwards its arguments (the connection string and the stand-ins for the injected store, files and driver) to a fresh dispatcher and keeps only the row type |
| `GenericServices.GenericDapperService.Query` | DapperFactory/Services/GenericDapperService.cs:22-50 | the dispatcher's `Query` contract with `T` as the row type and the caller's arguments |
| `GenericServices.GenericDapperService.CacheOrQuery` | DapperFactory/Services/GenericDapperService.cs:54-82 | the dispatcher's `CacheOrQuery` contract with the same key and `cacheTime` (default 360) |
| `GenericServices.GenericDapperService.QueryAsync` | DapperFactory/Services/GenericDapperService.cs:90-118 | the dispatcher's `QueryAsync` contract with `T` as the row type |
| `GenericServices.GenericDapperService.CacheOrQueryAsync` | DapperFactory/Services/GenericDapperService.cs:122-151 | the Enum stored-procedure overload with a null transaction fails with `ArgumentNullException("transaction")`, touching neither cache nor backend; every other overload has the dispatcher's `CacheOrQueryAsync` contract |

## Left out

- The database driver is out of scope. This covers `SqlConnection`, Dapper's mapping, `buffered` streaming, connection disposal and the lifetime of a `GridReader` after its connection closes. It is the pair of functions `backend` and `rowsAffected`, which answer with a value or an error code; every code surfaces as a `BackendFailure`, so timeouts, constraint violations and type mismatches are told apart only by their code.
- The database and the files stay fixed while a service lives: `backend`, `rowsAffected` and `files` are constants, so an `Execute` never changes a later answer, and a cache hit is never staler than the database. The one effect a read-through cache has on results, serving data older than the database, is therefore not shown.
- File I/O is a map from path to contents. The empty path is refused with an argument error, as `File.OpenText` refuses it. The map `files` is taken to hold only paths that `File.OpenText` can open: whitespace-only paths, paths with invalid characters, encoding and permission errors are represented only as paths absent from it, and nothing in the model keeps such a path out of the map.
- Async scheduling and concurrency are out of scope. An awaited call is modelled as its result computed in sequence, so duplicate producer runs under concurrent misses are not represented.
- Providers.DefaultCacheProvider.GetWithRefresh: `as T` is modelled as an exact type match; a cached object of a subtype of `T` reads as a miss here, though C# would return it. A stored object is tagged with the `T` of the call that cached it, not its runtime type, so a call with another `T` misses even when `as T` would accept the object (a `string` cached by `CacheOrExecuteScalar<object>` is a miss for `CacheOrExecuteScalar<string>`).
- Providers.Cast: `as T` is modelled as an exact type match. C# also accepts an object of a subtype of `T`, and for `IEnumerable<T>` rows of a derived row type through covariance; here both read as null. The tag compared is the `T` of the call that stored the object, not the object's runtime type, so an object cached under `object` reads as null for its own runtime type as well.
- Providers.ForeignEntryIsNeverReplaced: "another type" means a type other than exactly `T`. In C# a live object of a subtype of `T` (any object when `T` is `object`) is a hit that runs no producer, so the lemma covers only types `as T` rejects.
- Services.SharedKeyNeedsSameType: rows of another row type are a miss here, but in C# rows of a derived row type are a hit through `IEnumerable<out T>` covariance; the grid-reader case holds in C# as well.
- Providers.DefaultCacheProvider.GetWithRefreshAsync: the same exact-type `Cast`, so a cached subtype reads as a miss; this holds for every `CacheOr*` method of `DapperService` and `GenericDapperService` too.
- Providers.DefaultCacheProvider.GetWithRefresh: the clock does not move while the producer runs. The expiry of a stored value is counted from the call's start, not from when `Set` reads `DateTime.Now`. The clock is one seconds count, so the gap between local `DateTime.Now` and the UTC instant `MemoryCache` compares against is not shown: a lifetime spanning a daylight-saving change lasts an hour more or less than `cacheTime` in the source, never here.
- Providers.DefaultCacheProvider.Set: the value is never null, because every caller passes a non-null value; `MemoryCache.Add` would throw on null.
- Providers.Expiry: `DateTime` range overflow is not modelled. A `cacheTime` far enough out of range that `DateTime.Now + TimeSpan.FromMinutes(cacheTime)` throws is not represented.
- Null keys, statement texts and paths are not modelled: keys, texts and paths are strings. `MemoryCache` rejects a null key, `File.OpenText(null)` throws `ArgumentNullException`, and a null text would reach the driver.
- Memory-pressure eviction and the process-wide `MemoryCache.Default` singleton are out of scope. The store is an injected instance, and it can be shared by handing the same object to several dispatchers.
- Reflection is out of scope. An enum value is its name plus the description attributes of the members `GetMember` finds, in the order reflection returns them. A `[Description(null)]` attribute is not represented.
- Dependency injection is out of scope (`Injection.Get<ICacheProvider>()`, the Ninject kernel and `GenericServiceProvider`). The cache store is a constructor argument instead.
- The Visual Studio package, menu commands, error handler and COM interop are host integration and are not part of this model. This covers `DapperFactoryPackage.cs`, `ProPackage.cs`, `PackageExtensions.cs`, `ProCommandService.cs`, `ProErrorHandler.cs` and `Guids.cs`.
