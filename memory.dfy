/** The process-local backend: one map from key to entry, with expiration applied
    lazily when a key is read.

    Each Store operation is specified twice: as a pure step from the map before the
    call to the map after it and the caller's result (the functions ending in Step,
    about which the lemmas below are proved), and as a method of MemoryStore, which
    updates its map in place and is proved to take exactly that step. The clock is
    the `now` argument (nanoseconds); where the source reads the clock twice within
    one call, both readings are `now`. */
module Memory {
  import opened Cache
  import Strconv

  /** Go's `error` as these methods produce it: a sentinel error of the package,
      or the *strconv.NumError returned by Atoi. */
  datatype Error = Sentinel(sentinel: CacheError) | Conversion(num: Strconv.NumError)

  datatype Result<T> = Ok(value: T) | Err(error: Error)

  const NotFound: Error := Sentinel(ErrNotFound)

  /** The ttl an entry gets when Set is called without options. */
  const DefaultTTL: int := -1

  type Db = map<string, Item>

  /** What one operation does: the map afterwards and what the caller receives. */
  datatype Step<T> = Step(db: Db, out: Result<T>)

  /** The ttl Set records: the default without options, else that of the first. */
  function TTLOf(options: seq<SetOptions>): (ttl: int)
    ensures options == [] ==> ttl == DefaultTTL
    ensures options != [] ==> ttl == options[0].ttl
  {
    if |options| > 0 then options[0].ttl else DefaultTTL
  }

  /** The expiration rule of the memory store: an entry is live as long as the time
      elapsed since it was written does not exceed its ttl. No value of ttl means
      "never expires": a non-negative ttl makes the entry live when written, a
      negative one leaves it expired from then on. */
  predicate Live(it: Item, now: int)
    ensures it.ttl >= 0 && now == it.createdAt ==> Live(it, now)
    ensures it.ttl < 0 && it.createdAt <= now ==> !Live(it, now)
  {
    now - it.createdAt <= it.ttl
  }

  /** `key` holds an entry that has not expired at `now`. An absent key never does,
      nor does one whose ttl is negative, once it has been written. */
  predicate Holds(db: Db, key: string, now: int)
    ensures key !in db ==> !Holds(db, key, now)
    ensures key in db && db[key].ttl < 0 && db[key].createdAt <= now ==> !Holds(db, key, now)
  {
    key in db && Live(db[key], now)
  }

  /** Set: replace whatever `key` held by a fresh entry; no other key changes and
      no error is ever returned. */
  function SetStep(db: Db, key: string, value: string, options: seq<SetOptions>, now: int): (r: Step<()>)
    ensures key in r.db && r.db[key] == Item(value, now, TTLOf(options))
    ensures r.db - {key} == db - {key}
    ensures r.out == Ok(())
  {
    Step(db[key := Item(value, now, TTLOf(options))], Ok(()))
  }

  /** Get: the value of a live entry, leaving the map alone; otherwise NotFound,
      with the key gone from the map afterwards whether it was absent or expired. */
  function GetStep(db: Db, key: string, now: int): (r: Step<string>)
    ensures r.out.Ok? <==> Holds(db, key, now)
    ensures r.out.Ok? ==> r.db == db && r.out.value == db[key].value
    ensures r.out.Err? ==> r.out.error == NotFound && r.db == db - {key}
  {
    if key !in db then
      Step(db, Err(NotFound))
    else if !Live(db[key], now) then
      Step(db - {key}, Err(NotFound))
    else
      Step(db, Ok(db[key].value))
  }

  /** Has: whether the key holds a live entry, never an error. An absent key reads
      as Go's zero entry, created at the zero time with a zero ttl, whose age
      exceeds its ttl, so it reports false. */
  function HasStep(db: Db, key: string, now: int): (r: Step<bool>)
    ensures r.out == Ok(Holds(db, key, now))
    ensures r.db == if Holds(db, key, now) then db else db - {key}
  {
    if key !in db then
      Step(db, Ok(false))
    else if !Live(db[key], now) then
      Step(db - {key}, Ok(false))
    else
      Step(db, Ok(true))
  }

  /** Delete: Has first; NotFound unless the key was live. Either way the key is
      absent afterwards and nothing else changes. */
  function DeleteStep(db: Db, key: string, now: int): (r: Step<()>)
    ensures r.db == db - {key}
    ensures r.out.Ok? <==> Holds(db, key, now)
    ensures r.out.Err? ==> r.out.error == NotFound
  {
    var h := HasStep(db, key, now);
    if !h.out.value then Step(h.db, Err(NotFound)) else Step(h.db - {key}, Ok(()))
  }

  /** DeleteAll: a new, empty map. */
  function DeleteAllStep(db: Db): (r: Step<()>)
    ensures r.db == map[] && r.out == Ok(())
  {
    Step(map[], Ok(()))
  }

  /** Increase and Decrease: Get, then Atoi of the value, then Set of the new sum
      without options. `delta` is `count` for Increase and `-count` for Decrease;
      the sum wraps around like Go's 64-bit int. */
  function AdjustStep(db: Db, key: string, delta: int, now: int): (r: Step<()>)
    ensures !Holds(db, key, now) ==> r == Step(db - {key}, Err(NotFound))
    ensures Holds(db, key, now) && Strconv.Atoi(db[key].value).Failure? ==>
      r == Step(db, Err(Conversion(Strconv.Atoi(db[key].value).error)))
    ensures r.out.Ok? <==> Holds(db, key, now) && Strconv.Atoi(db[key].value).Success?
    ensures r.out.Ok? ==>
      && key in r.db
      && r.db[key] == Item(Strconv.Itoa(Strconv.Wrap64(Strconv.Atoi(db[key].value).value + delta)), now, DefaultTTL)
      && r.db - {key} == db - {key}
  {
    var g := GetStep(db, key, now);
    if g.out.Err? then
      Step(g.db, Err(g.out.error))
    else
      match Strconv.Atoi(g.out.value)
      case Failure(e) => Step(g.db, Err(Conversion(e)))
      case Success(i) => SetStep(g.db, key, Strconv.Itoa(Strconv.Wrap64(i + delta)), [], now)
  }

  /** Increase: on success the key holds the text of the stored number plus `count`. */
  function IncreaseStep(db: Db, key: string, count: int, now: int): (r: Step<()>)
    ensures r.out.Ok? ==> Holds(db, key, now) && Strconv.Atoi(db[key].value).Success?
    ensures r.out.Ok? ==>
      key in r.db && r.db[key].value == Strconv.Itoa(Strconv.Wrap64(Strconv.Atoi(db[key].value).value + count))
  {
    AdjustStep(db, key, count, now)
  }

  /** Decrease: on success the key holds the text of the stored number minus `count`. */
  function DecreaseStep(db: Db, key: string, count: int, now: int): (r: Step<()>)
    ensures r.out.Ok? ==> Holds(db, key, now) && Strconv.Atoi(db[key].value).Success?
    ensures r.out.Ok? ==>
      key in r.db && r.db[key].value == Strconv.Itoa(Strconv.Wrap64(Strconv.Atoi(db[key].value).value - count))
  {
    AdjustStep(db, key, -count, now)
  }

  /** TTL: Has first; NotFound unless the key is live, else the stored ttl less the
      time elapsed since the entry was written. */
  function TTLStep(db: Db, key: string, now: int): (r: Step<int>)
    ensures r.out.Ok? <==> Holds(db, key, now)
    ensures r.out.Err? ==> r.out.error == NotFound && r.db == db - {key}
    ensures r.out.Ok? ==> r.db == db && r.out.value == db[key].ttl - (now - db[key].createdAt)
    ensures r.out.Ok? ==> 0 <= r.out.value
    ensures r.out.Ok? && db[key].createdAt <= now ==> r.out.value <= db[key].ttl
  {
    var h := HasStep(db, key, now);
    if !h.out.value then
      Step(h.db, Err(NotFound))
    else
      var it := h.db[key];
      Step(h.db, Ok(it.ttl - (now - it.createdAt)))
  }

  /** The memory store: its only state is the map. */
  class MemoryStore {
    var db: Db

    /** newMemory: an empty store. */
    constructor ()
      ensures db == map[]
    {
      db := map[];
    }

    method Set(key: string, value: string, options: seq<SetOptions>, now: int) returns (r: Result<()>)
      modifies this
      ensures Step(db, r) == SetStep(old(db), key, value, options, now)
    {
      var ttl := DefaultTTL;
      if |options| > 0 {
        ttl := options[0].ttl;
      }
      db := db[key := Item(value, now, ttl)];
      r := Ok(());
    }

    method Get(key: string, now: int) returns (r: Result<string>)
      modifies this
      ensures Step(db, r) == GetStep(old(db), key, now)
    {
      if key !in db {
        return Err(NotFound);
      }
      var v := db[key];
      if now - v.createdAt > v.ttl {
        db := db - {key};
        return Err(NotFound);
      }
      r := Ok(v.value);
    }

    method Has(key: string, now: int) returns (r: Result<bool>)
      modifies this
      ensures Step(db, r) == HasStep(old(db), key, now)
    {
      if key !in db {
        return Ok(false);
      }
      var v := db[key];
      if now - v.createdAt > v.ttl {
        db := db - {key};
        return Ok(false);
      }
      r := Ok(true);
    }

    method Delete(key: string, now: int) returns (r: Result<()>)
      modifies this
      ensures Step(db, r) == DeleteStep(old(db), key, now)
    {
      // Has never fails, so the source's check of its error is always passed.
      var has := Has(key, now);
      if !has.value {
        return Err(NotFound);
      }
      db := db - {key};
      r := Ok(());
    }

    method DeleteAll() returns (r: Result<()>)
      modifies this
      ensures Step(db, r) == DeleteAllStep(old(db))
    {
      db := map[];
      r := Ok(());
    }

    method Decrease(key: string, count: int, now: int) returns (r: Result<()>)
      requires Strconv.InInt64(count)
      modifies this
      ensures Step(db, r) == DecreaseStep(old(db), key, count, now)
    {
      var v := Get(key, now);
      if v.Err? {
        return Err(v.error);
      }
      var i := Strconv.Atoi(v.value);
      if i.Failure? {
        return Err(Conversion(i.error));
      }
      r := Set(key, Strconv.Itoa(Strconv.Wrap64(i.value - count)), [], now);
    }

    method Increase(key: string, count: int, now: int) returns (r: Result<()>)
      requires Strconv.InInt64(count)
      modifies this
      ensures Step(db, r) == IncreaseStep(old(db), key, count, now)
    {
      var v := Get(key, now);
      if v.Err? {
        return Err(v.error);
      }
      var i := Strconv.Atoi(v.value);
      if i.Failure? {
        return Err(Conversion(i.error));
      }
      r := Set(key, Strconv.Itoa(Strconv.Wrap64(i.value + count)), [], now);
    }

    method TTL(key: string, now: int) returns (r: Result<int>)
      modifies this
      ensures Step(db, r) == TTLStep(old(db), key, now)
    {
      // Has never fails, so the source's check of its error is always passed.
      var has := Has(key, now);
      if !has.value {
        return Err(NotFound);
      }
      var v := db[key];
      r := Ok(v.ttl - (now - v.createdAt));
    }
  }

  // Properties of the store, stated on the steps.

  /** Liveness has no sentinel: an entry with a negative ttl, the default included,
      is expired from the instant it is written on, so Get never returns it and
      Has reports false. */
  lemma NegativeTTLNeverLive(db: Db, key: string, now: int)
    requires key in db && db[key].ttl < 0 && db[key].createdAt <= now
    ensures GetStep(db, key, now).out == Err(NotFound)
    ensures HasStep(db, key, now).out == Ok(false)
  {
  }

  /** Reading back what Set stored gives the value exactly while the entry's age
      is within the ttl the options gave, and NotFound after. */
  lemma SetThenGet(db: Db, key: string, value: string, options: seq<SetOptions>, now: int, later: int)
    ensures GetStep(SetStep(db, key, value, options, now).db, key, later).out
         == if later - now <= TTLOf(options) then Ok(value) else Err(NotFound)
  {
  }

  /** A value set without options cannot be read back at any instant from its
      writing on: the default ttl is -1, not "permanent". */
  lemma SetWithoutOptionsNeverReadable(db: Db, key: string, value: string, now: int, later: int)
    requires now <= later
    ensures GetStep(SetStep(db, key, value, [], now).db, key, later).out == Err(NotFound)
    ensures HasStep(SetStep(db, key, value, [], now).db, key, later).out == Ok(false)
  {
  }

  /** Has answers whether Get would succeed, and both purge the same way. */
  lemma HasAgreesWithGet(db: Db, key: string, now: int)
    ensures HasStep(db, key, now).out == Ok(GetStep(db, key, now).out.Ok?)
    ensures HasStep(db, key, now).db == GetStep(db, key, now).db
  {
  }

  /** A Delete cannot succeed twice in a row on the same key. */
  lemma DeleteTwice(db: Db, key: string, now: int, later: int)
    ensures DeleteStep(DeleteStep(db, key, now).db, key, later).out == Err(NotFound)
  {
  }

  /** After DeleteAll, Has is false for every key. */
  lemma DeleteAllEmpties(db: Db, key: string, now: int)
    ensures HasStep(DeleteAllStep(db).db, key, now).out == Ok(false)
  {
  }

  /** Increase and Decrease fail with NotFound, purging the key, when it is not live. */
  lemma AdjustNotFound(db: Db, key: string, delta: int, now: int)
    requires !Holds(db, key, now)
    ensures AdjustStep(db, key, delta, now) == Step(db - {key}, Err(NotFound))
  {
  }

  /** A live value that is not a decimal int makes Increase and Decrease return the
      parse error and leave the map as it was. */
  lemma AdjustParseError(db: Db, key: string, delta: int, now: int)
    requires Holds(db, key, now) && Strconv.Atoi(db[key].value).Failure?
    ensures AdjustStep(db, key, delta, now) == Step(db, Err(Conversion(Strconv.Atoi(db[key].value).error)))
  {
  }

  /** A successful Increase or Decrease stores the formatted wrapped sum, text that
      parses back to it, written at `now` with the default ttl (the old ttl is dropped), and
      changes no other key. */
  lemma AdjustStoresSum(db: Db, key: string, delta: int, now: int)
    requires Holds(db, key, now) && Strconv.Atoi(db[key].value).Success?
    ensures var r := AdjustStep(db, key, delta, now);
      && r.out == Ok(())
      && key in r.db
      && r.db[key].value == Strconv.Itoa(Strconv.Wrap64(Strconv.Atoi(db[key].value).value + delta))
      && Strconv.Atoi(r.db[key].value) == Strconv.Success(Strconv.Wrap64(Strconv.Atoi(db[key].value).value + delta))
      && r.db[key].createdAt == now && r.db[key].ttl == DefaultTTL
      && r.db - {key} == db - {key}
  {
    var i := Strconv.Atoi(db[key].value).value;
    var text := Strconv.Itoa(Strconv.Wrap64(i + delta));
    assert GetStep(db, key, now) == Step(db, Ok(db[key].value));
    assert AdjustStep(db, key, delta, now) == SetStep(db, key, text, [], now);
    Strconv.AtoiItoa(Strconv.Wrap64(i + delta));
  }

  /** The result of Increase or Decrease is itself expired: a Get right after it
      reports NotFound. */
  lemma AdjustedValueUnreadable(db: Db, key: string, delta: int, now: int, later: int)
    requires now <= later
    requires AdjustStep(db, key, delta, now).out.Ok?
    ensures GetStep(AdjustStep(db, key, delta, now).db, key, later).out == Err(NotFound)
  {
  }

  /** A counter set to "10" with a ttl of 1000 and increased by 5 one nanosecond
      later holds "15", yet it is no longer readable. */
  lemma CounterExample()
    ensures var s := SetStep(map[], "counter", "10", [SetOptions(1000)], 0);
      var inc := IncreaseStep(s.db, "counter", 5, 1);
      && inc.out == Ok(())
      && inc.db["counter"].value == "15"
      && GetStep(inc.db, "counter", 1).out == Err(NotFound)
  {
    var s := SetStep(map[], "counter", "10", [SetOptions(1000)], 0);
    assert Strconv.SignAndBody("10") == (false, "10");
    assert Strconv.DigitsValue("10") == 10 by {
      assert "10"[..1] == "1";
    }
    assert Strconv.Itoa(15) == "15";
  }
}
