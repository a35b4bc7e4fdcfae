# go-mego/cache: the memory backend, modelled in Dafny

The package `cache` offers one key-value Store interface (Set, Get, Has, Delete,
DeleteAll, Increase, Decrease, TTL) over several backends. This project models the
process-local memory backend (`memory.go`) and the shared definitions it relies on
(`cache.go`): the stored entry, the sentinel errors, the source types and the
selection of a backend by `New`.

- `strconv.dfy`, module `Strconv`: Go's `strconv.Atoi` and `strconv.Itoa` on a
  64-bit `int`, written out as base-10 functions (optional sign, ASCII digits,
  int64 range), and `Wrap64`, the two's-complement wrap-around of Go's `int`
  arithmetic. `AtoiItoa` proves that parsing a formatted int gives it back.
- `cache.dfy`, module `Cache`: `Item` (value, createdAt, ttl, the last two in
  nanoseconds), `CacheError` with exactly the two sentinels `ErrNotFound` and
  `ErrDatabaseClosed`, `SourceType` as an int with the four named constants 0
  (memory), 1 (MySQL), 2 (SQLite) and 3 (memcache), `Options`, `SetOptions`, and `New` as a function from the options to the backend it
  constructs. `New` has no default case: any other source type yields no store
  (`None`, Go's nil Store) and no error.
- `memory.dfy`, module `Memory`: the liveness rule `Live` of memory.go (cache.go
  defines no liveness test), each Store operation as a pure step from the map
  before the call to the map after it and the caller's result (`GetStep`,
  `HasStep`, ...), and the class `MemoryStore`, whose single field `db` is updated
  in place by methods proved to take exactly those steps. Lemmas about the steps
  state what the store promises.

The clock is an explicit argument `now` (nanoseconds): the source's `time.Now()` is
`now` and `time.Since(x)` is `now - x`.

### Expiration as written

An entry is live iff `now - createdAt <= ttl`, with no value of ttl meaning
"never expires". The default ttl of `Set` without options is `-1`, so such an entry
is already expired when it is first read (`SetWithoutOptionsNeverReadable`). The
doc comment of `SetOptions.TTL` (cache.go:65-66) says a blank TTL keeps the value
until the cache is cleared; the code does not do that, and the model follows the
code. The same holds for `Increase` and `Decrease`, which rewrite the entry through
`Set` without options: they reset createdAt to `now` and the ttl to `-1`, so the
updated counter cannot be read back (`AdjustedValueUnreadable`, and concretely
`CounterExample`: a counter set to "10" and increased by 5 holds "15" but `Get`
reports NotFound). A design that keeps the entry's metadata on arithmetic is not
what the code does, and the model follows the code there as well.

## Model

| member | source | states |
|---|---|---|
| `Strconv.Itoa` | memory.go:91 | the decimal text has a leading '-' exactly when the number is negative, digits otherwise, and no leading zero except in "0" itself |
| `Strconv.Atoi` | memory.go:87 | a syntax error exactly when the text is not an optional sign followed by one or more ASCII digits; well-formed text spelling a value outside int64 is a range error; otherwise the value it spells, '+' and leading zeros allowed |
| `Strconv.Wrap64` | memory.go:91 | the result is an int64 congruent to the unbounded sum modulo 2^64, and equal to it when it fits |
| `Strconv.DigitsValueOfDigits` | memory.go:87-91 | the digit string of a natural number has that number as its value |
| `Strconv.AtoiItoa` | memory.go:87-91 | for every int64, Atoi of Itoa gives the number back |
| `Cache.Effective` | cache.go:16-22 | without options the memory source is used; with options, exactly the first one |
| `Cache.New` | cache.go:15-33 | a store is built iff the source type is one of 0..3; it is the one constructor of that type, configured by the source setting; any other type gives no store and no error |
| `Cache.NewReadsOnlyFirst` | cache.go:20-22 | options after the first never change the selected backend |
| `Memory.Live` | memory.go:36 | an entry with a non-negative ttl is live when written; one with a negative ttl is expired from its writing on (no "never expires" value) |
| `Memory.Holds` | memory.go:44-45 | an absent key never holds a live entry, nor does a key whose ttl is negative once written |
| `Memory.TTLOf` | memory.go:19-22 | the ttl is -1 without options and the first option's ttl otherwise |
| `Memory.SetStep` | memory.go:18-29 | the key holds the new value written at now with that ttl, every other key is unchanged, no error |
| `Memory.GetStep` | memory.go:31-41 | the value is returned iff the key is present and live, and then the map is unchanged; otherwise NotFound and the key is absent afterwards |
| `Memory.HasStep` | memory.go:43-50 | never an error; true iff the key is present and live; an expired key is removed, nothing else changes |
| `Memory.DeleteStep` | memory.go:52-62 | success iff the key was present and live, NotFound otherwise; the key is absent afterwards and no other key changes |
| `Memory.DeleteAllStep` | memory.go:64-67 | the map is empty and no error is returned |
| `Memory.AdjustStep` | memory.go:69-93 | Get's NotFound with the key purged when it is not live; Atoi's error with the map unchanged when the live value is not a decimal int; otherwise the key holds Itoa of the wrapped sum, written at now with ttl -1, and no other key changes |
| `Memory.IncreaseStep` | memory.go:82-93 | on success the key was live with a decimal value and now holds the text of that value plus count, wrapped to 64 bits |
| `Memory.DecreaseStep` | memory.go:69-80 | on success the key was live with a decimal value and now holds the text of that value minus count, wrapped to 64 bits |
| `Memory.TTLStep` | memory.go:95-105 | a remaining time iff the key is live, equal to ttl - (now - createdAt), so in [0, ttl] when the entry was not written in the future (the lower bound rests on the one clock reading, see Left out); NotFound with the key purged otherwise |
| `Memory.MemoryStore.constructor` | memory.go:8-12 | a new store holds an empty map |
| `Memory.MemoryStore.Set` | memory.go:18-29 | the map and result afterwards are those of SetStep on the map before |
| `Memory.MemoryStore.Get` | memory.go:31-41 | the map and result afterwards are those of GetStep on the map before |
| `Memory.MemoryStore.Has` | memory.go:43-50 | the map and result afterwards are those of HasStep on the map before |
| `Memory.MemoryStore.Delete` | memory.go:52-62 | the map and result afterwards are those of DeleteStep, reached through Has as in the source |
| `Memory.MemoryStore.DeleteAll` | memory.go:64-67 | the map is replaced by an empty one |
| `Memory.MemoryStore.Decrease` | memory.go:69-80 | the map and result afterwards are those of Get, Atoi, and Set of the wrapped difference without options |
| `Memory.MemoryStore.Increase` | memory.go:82-93 | the map and result afterwards are those of Get, Atoi, and Set of the wrapped sum without options |
| `Memory.MemoryStore.TTL` | memory.go:95-105 | the map and result afterwards are those of TTLStep, reached through Has as in the source |
| `Memory.NegativeTTLNeverLive` | memory.go:36 | an entry with a negative ttl, the default -1 included, is never returned by Get and makes Has false from its creation on |
| `Memory.SetThenGet` | memory.go:18-41 | Get after Set returns the value exactly while its age is within the ttl, NotFound after |
| `Memory.SetWithoutOptionsNeverReadable` | memory.go:19 | a value set without options is never readable, contrary to the "permanent" promised at cache.go:65-66 |
| `Memory.HasAgreesWithGet` | memory.go:43-50 | Has is true iff Get would succeed, and both purge the map the same way |
| `Memory.DeleteTwice` | memory.go:52-62 | a Delete right after a Delete of the same key reports NotFound |
| `Memory.DeleteAllEmpties` | memory.go:64-67 | after DeleteAll, Has is false for every key |
| `Memory.AdjustNotFound` | memory.go:83-86 | Increase and Decrease pass on Get's NotFound, with the key purged |
| `Memory.AdjustParseError` | memory.go:87-90 | a live non-numeric value gives Atoi's error and leaves the map unchanged |
| `Memory.AdjustStoresSum` | memory.go:87-92 | on success the stored text is Itoa of the wrapped sum and parses back to it, createdAt is now, the ttl is -1 and no other key changes |
| `Memory.AdjustedValueUnreadable` | memory.go:92 | the entry written by Increase or Decrease is already expired when read back |
| `Memory.CounterExample` | memory.go:82-93 | a counter "10" increased by 5 holds "15", yet Get then reports NotFound |

## Left out

- The SQLite, MySQL and memcache backends (sqlite.go, mysql.go, memcache.go): their behaviour lives in SQL executed by drivers and in a remote memcached service, neither of which is part of this model. `New` records only which constructor it calls and with which setting.
- The handler closure returned by `New`, which injects the store into the web framework's request context: framework plumbing.
- The two demo programs of the repository: HTTP servers that use the Store.
- Concurrency: the Go map is not synchronised; the model describes one caller at a time.
- The real clock: `now` is a parameter, and where an operation reads the clock twice both readings are the same `now`: Increase and Decrease (in Get and in Set), and TTL (in Has, then for the remaining time). `TTLStep`'s lower bound 0 depends on that single reading; in the source a key that expires between the two readings of TTL gets a slightly negative remaining time. Monotonic-clock details and the saturation of `time.Since` are not modelled; `now - createdAt` and `ttl - (now - createdAt)` are unbounded integers rather than int64 durations.
- A nil `*Options` or `*SetOptions` argument, which makes the source panic: options are values here.
- `Strconv.Atoi`: which of the two NumError kinds is reported for text that both overflows and contains a bad character later on is simplified (the model reports a syntax error; Go may report the range error first), and the error's Func and Num fields are not modelled.
- The error results of Has, which are always nil: Delete and TTL therefore do not model the check of that error. The `-1` TTL returns next to an error is dropped; the result carries only the error.
- Go's `int` is taken to be 64 bits wide; `Increase` and `Decrease` require a `count` in that range, and the sum or difference wraps around modulo 2^64 as Go's does.
