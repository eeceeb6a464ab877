/**
 * The flag cache (internal/cache): a map from flag key to flag definition,
 * empty when the cache is created, replaced whole by each successful update
 * and discarded by Close.
 */
module Cache {
  import opened Wrappers
  import opened FlagModel

  type byte = b: int | 0 <= b < 256

  /** A full set of flag definitions, as one decoding pass produces it. */
  type Snapshot = map<string, FlagData>

  /**
   * The YAML, JSON and TOML decoders, which are external libraries: they
   * map the loaded bytes and the declared format to a snapshot, or to None
   * when the bytes are malformed for that format.
   */
  type Decoder = (seq<byte>, string) -> Option<Snapshot>

  datatype CacheError = NotInitialized | FlagNotFound(key: string)

  datatype UpdateError = ParseError(format: string)

  /** GetFlag's answer for a cache holding `flags` (None: closed). */
  function Lookup(flags: Option<Snapshot>, key: string): (r: Result<FlagData, CacheError>)
    ensures r.Success? <==> flags.Some? && key in flags.value
    ensures r.Success? ==> r.value == flags.value[key]
    ensures flags.None? ==> r == Failure(NotInitialized)
    ensures flags.Some? && key !in flags.value ==> r == Failure(FlagNotFound(key))
  {
    if flags.None? then Failure(NotInitialized)
    else if key in flags.value then Success(flags.value[key])
    else Failure(FlagNotFound(key))
  }

  class FlagCache {
    /** The current snapshot; empty until the first successful update, None after Close. */
    var flags: Option<Snapshot>

    /** cache.New: a cache whose snapshot holds no flag. */
    constructor ()
      ensures flags == Some(map[])
    {
      flags := Some(map[]);
    }

    /**
     * Decodes the loaded bytes and, on success, installs the result as the
     * new snapshot in one assignment; malformed bytes give a ParseError and
     * leave the snapshot as it was.
     */
    method UpdateCache(loadedFlags: seq<byte>, fileFormat: string, decode: Decoder) returns (err: Option<UpdateError>)
      modifies this
      ensures decode(loadedFlags, fileFormat).Some? ==> err == None && flags == decode(loadedFlags, fileFormat)
      ensures decode(loadedFlags, fileFormat).None? ==> err == Some(ParseError(fileFormat)) && flags == old(flags)
    {
      var decoded := decode(loadedFlags, fileFormat);
      if decoded.None? {
        return Some(ParseError(fileFormat));
      }
      flags := decoded;
      err := None;
    }

    /** The flag stored under `key`, or why there is none. */
    method GetFlag(key: string) returns (r: Result<FlagData, CacheError>)
      ensures r == Lookup(flags, key)
      ensures r.Success? ==> flags.Some? && key in flags.value && r.value == flags.value[key]
    {
      r := Lookup(flags, key);
    }

    /** Discards the snapshot. */
    method Close()
      modifies this
      ensures flags == None
    {
      flags := None;
    }
  }

  /** A cache that was closed answers every lookup with NotInitialized. */
  method ClosedCacheHasNoFlag(key: string) returns (r: Result<FlagData, CacheError>)
    ensures r == Failure(NotInitialized)
  {
    var c := new FlagCache();
    c.Close();
    r := c.GetFlag(key);
  }

  /** A cache that was never updated holds no flag: every key is reported as not found. */
  method FreshCacheHasNoFlag(key: string) returns (r: Result<FlagData, CacheError>)
    ensures r == Failure(FlagNotFound(key))
  {
    var c := new FlagCache();
    r := c.GetFlag(key);
  }

  /** After a successful update, every decoded flag reads back exactly as decoded. */
  method UpdatedCacheReadsBack(loadedFlags: seq<byte>, fileFormat: string, decode: Decoder, key: string)
    returns (err: Option<UpdateError>, r: Result<FlagData, CacheError>)
    requires decode(loadedFlags, fileFormat).Some?
    requires key in decode(loadedFlags, fileFormat).value
    ensures err == None
    ensures r == Success(decode(loadedFlags, fileFormat).value[key])
  {
    var c := new FlagCache();
    err := c.UpdateCache(loadedFlags, fileFormat, decode);
    r := c.GetFlag(key);
  }

  /** Bytes the decoder rejects make UpdateCache fail, and the cache keeps its empty snapshot. */
  method MalformedInputIsRejected(loadedFlags: seq<byte>, fileFormat: string, decode: Decoder, key: string)
    returns (err: Option<UpdateError>, r: Result<FlagData, CacheError>)
    requires decode(loadedFlags, fileFormat).None?
    ensures err == Some(ParseError(fileFormat))
    ensures r == Failure(FlagNotFound(key))
  {
    var c := new FlagCache();
    err := c.UpdateCache(loadedFlags, fileFormat, decode);
    r := c.GetFlag(key);
  }

  /** The flag of the cache tests as the TOML document decodes it, with `disable = false` written out. */
  const TomlDecoded := FlagData(Some("key eq \"random-key\""), Some(100.0), Some(Bool(true)), Some(Bool(false)),
                                Some(Bool(false)), None, Some(false), None)

  /** The same flag as the tests expect it, with `disable` left unset. */
  const TomlExpected := TomlDecoded.(disable := None)

  /**
   * Fields left out of a document read back as the defaults of an empty
   * flag: no rule, percentage 0, tracked, not disabled; so an explicit
   * `disable = false` and a missing `disable` cannot be told apart.
   */
  lemma AbsentFieldsReadAsDefaults()
    ensures EmptyFlag.EffectiveRule() == "" && EmptyFlag.EffectivePercentage() == 0.0
    ensures EmptyFlag.TracksEvents() && !EmptyFlag.IsDisabled()
    ensures SameReading(TomlDecoded, TomlExpected)
  {
  }
}
