/** The definitions every cache backend shares: the stored entry, the sentinel
    errors, the backend kinds and the options that select one of them. */
module Cache {

  /** The two sentinel errors of the package. */
  datatype CacheError = ErrNotFound | ErrDatabaseClosed

  /** A stored entry: its text, the instant it was written and its time to live,
      both in nanoseconds. */
  datatype Item = Item(value: string, createdAt: int, ttl: int)

  /** `type SourceType int`: any int is a SourceType, four of them are named. */
  type SourceType = int

  const SourceTypeMemory: SourceType := 0
  const SourceTypeMySQL: SourceType := 1
  const SourceTypeSQLite: SourceType := 2
  const SourceTypeMemcache: SourceType := 3

  /** Options of the cache: which backend, and a backend-specific setting. */
  datatype Options = Options(source: SourceType, sourceConfig: string)

  /** Options of one Set call. */
  datatype SetOptions = SetOptions(ttl: int)

  /** The store a backend constructor builds. The memory store ignores its options;
      the others are configured by the source setting (a DSN, or a list of memcached
      endpoints separated by ';'). */
  datatype Backend =
    | MemoryBackend
    | MySQLBackend(config: string)
    | SQLiteBackend(config: string)
    | MemcacheBackend(config: string)

  /** The source type whose constructor builds `b`. */
  function SourceOf(b: Backend): SourceType {
    match b
    case MemoryBackend => SourceTypeMemory
    case MySQLBackend(_) => SourceTypeMySQL
    case SQLiteBackend(_) => SourceTypeSQLite
    case MemcacheBackend(_) => SourceTypeMemcache
  }

  datatype Option<T> = None | Some(value: T)

  /** The options New uses: the memory source when none are given, else the first. */
  function Effective(options: seq<Options>): (o: Options)
    ensures options == [] ==> o.source == SourceTypeMemory
    ensures options != [] ==> o == options[0]
  {
    if |options| != 0 then options[0] else Options(SourceTypeMemory, "")
  }

  /** The store New hands to the framework: one constructor per named source type,
      and no store at all (a nil Store, with no error) for any other value. */
  function New(options: seq<Options>): (s: Option<Backend>)
    ensures s.None? <==> Effective(options).source !in {0, 1, 2, 3}
    ensures s.Some? ==> SourceOf(s.value) == Effective(options).source
    ensures s.Some? && !s.value.MemoryBackend? ==> s.value.config == Effective(options).sourceConfig
  {
    var o := Effective(options);
    if o.source == SourceTypeMemory then Some(MemoryBackend)
    else if o.source == SourceTypeMySQL then Some(MySQLBackend(o.sourceConfig))
    else if o.source == SourceTypeSQLite then Some(SQLiteBackend(o.sourceConfig))
    else if o.source == SourceTypeMemcache then Some(MemcacheBackend(o.sourceConfig))
    else None
  }

  /** Only the first Options value is consulted. */
  lemma NewReadsOnlyFirst(o: Options, rest: seq<Options>, other: seq<Options>)
    ensures New([o] + rest) == New([o] + other)
  {
  }
}
