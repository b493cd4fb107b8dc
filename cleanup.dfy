/** The first half of `_generate_toot_from_chatgpt`: the alert dictionary is
    cleaned in place before it is shown to the text generator. Six named keys are
    deleted, then every key whose value is null, then the two timestamps are
    rewritten in South Africa Standard Time. Missing keys are not guarded, so the
    cleanup raises, and the exception escapes the bot. */
module Cleanup {
  import opened Wrappers
  import SastTime

  /** A JSON value of an alert field: null, a string, or any other value
      (number, boolean, list, object), kept as its Python `str()` text. */
  datatype Value = Null | Str(s: string) | Scalar(text: string)

  type Record = map<string, Value>

  /** The exception a cleanup step raises. */
  datatype CleanupError =
    | KeyError(key: string)      // `del alert[k]` or `alert[k]` on an absent key
    | TypeError(key: string)     // a timestamp that is not a string cannot be sliced
    | ValueError(key: string)    // a timestamp text `strptime` rejects
    | OverflowError(key: string) // a timestamp within two hours of the year 10000

  const RemovedFields := ["Id", "publish_date", "effective_date", "expiry_date", "tweet_text", "toot_text"]
  const RemovedKeys := set k | k in RemovedFields
  const StartTimestamp := "start_timestamp"
  const EndTimestamp := "forecast_end_timestamp"
  const TimestampFields := [StartTimestamp, EndTimestamp]

  /** Python's `str(v)`, as `str.format` and f-strings render a value. */
  function AsText(v: Value): string {
    match v
    case Null => "None"
    case Str(s) => s
    case Scalar(t) => t
  }

  // ---------------------------------------------------------------------------
  // The cleanup as functions on the record
  // ---------------------------------------------------------------------------

  /** Deleting `keys` in order; the first absent key raises, leaving the keys
      before it deleted. */
  function RemoveKeys(m: Record, keys: seq<string>): (Record, Option<CleanupError>) {
    if keys == [] then (m, None)
    else if keys[0] !in m then (m, Some(KeyError(keys[0])))
    else RemoveKeys(m - {keys[0]}, keys[1..])
  }

  function DropNulls(m: Record): Record {
    map k | k in m && m[k] != Null :: m[k]
  }

  /** `_convert_to_sast_str(alert[key])` on the value found under `key`. */
  function ConvertValue(key: string, v: Value): (r: Result<Value, CleanupError>)
    ensures r.Ok? ==> v.Str? && r.value.Str?
  {
    match v
    case Str(s) =>
      (match SastTime.ConvertToSast(s)
       case Ok(t) => Ok(Str(t))
       case Err(Malformed) => Err(ValueError(key))
       case Err(OutOfRange) => Err(OverflowError(key)))
    case _ => Err(TypeError(key))
  }

  /** Rewriting the timestamps `keys` in order; the first failure raises,
      leaving the earlier ones rewritten. */
  function ConvertKeys(m: Record, keys: seq<string>): (Record, Option<CleanupError>) {
    if keys == [] then (m, None)
    else if keys[0] !in m then (m, Some(KeyError(keys[0])))
    else
      match ConvertValue(keys[0], m[keys[0]])
      case Err(e) => (m, Some(e))
      case Ok(v) => ConvertKeys(m[keys[0] := v], keys[1..])
  }

  /** The dictionary after the cleanup and the exception it raised, if any. */
  function CleanupSteps(m: Record): (Record, Option<CleanupError>) {
    var removed := RemoveKeys(m, RemovedFields);
    if removed.1.Some? then removed
    else ConvertKeys(DropNulls(removed.0), TimestampFields)
  }

  // ---------------------------------------------------------------------------
  // What the cleanup promises
  // ---------------------------------------------------------------------------

  predicate HasRemovedFields(m: Record) {
    forall i :: 0 <= i < |RemovedFields| ==> RemovedFields[i] in m
  }

  /** The conversion of the timestamp under `key`, judged on the record as it
      came in: an absent or null timestamp is a KeyError, since nulls are
      deleted before the timestamps are read. */
  function TimestampOutcome(m: Record, key: string): Result<Value, CleanupError> {
    if key !in m || m[key] == Null then Err(KeyError(key)) else ConvertValue(key, m[key])
  }

  /** `r` is the cleaned form of `m`: the six removed keys and every null entry
      gone, both timestamps converted, every other entry as it was. */
  ghost predicate IsCleaned(m: Record, r: Record)
    requires TimestampOutcome(m, StartTimestamp).Ok? && TimestampOutcome(m, EndTimestamp).Ok?
  {
    IsCleanedWith(m, r, TimestampOutcome(m, StartTimestamp).value, TimestampOutcome(m, EndTimestamp).value)
  }

  ghost predicate IsCleanedWith(m: Record, r: Record, start: Value, end: Value) {
    && r.Keys == (set k | k in m && k !in RemovedKeys && m[k] != Null)
    && (forall k :: k in RemovedKeys ==> k !in r)
    && (forall k :: k in r ==> r[k] != Null)
    && StartTimestamp in r && r[StartTimestamp] == start
    && EndTimestamp in r && r[EndTimestamp] == end
    && (forall k :: k in r && k != StartTimestamp && k != EndTimestamp ==> r[k] == m[k])
  }

  lemma FieldNamesDistinct()
    ensures forall i, j :: 0 <= i < j < |RemovedFields| ==> RemovedFields[i] != RemovedFields[j]
    ensures StartTimestamp !in RemovedFields && EndTimestamp !in RemovedFields
    ensures StartTimestamp != EndTimestamp
  {
  }

  lemma {:induction false} RemoveKeysOutcome(m: Record, keys: seq<string>)
    requires forall i, j :: 0 <= i < j < |keys| ==> keys[i] != keys[j]
    ensures RemoveKeys(m, keys).1.None? <==> forall i :: 0 <= i < |keys| ==> keys[i] in m
    ensures RemoveKeys(m, keys).1.None? ==> RemoveKeys(m, keys).0 == m - (set k | k in keys)
    ensures RemoveKeys(m, keys).1.Some? ==>
      exists i :: 0 <= i < |keys| && keys[i] !in m && (forall j :: 0 <= j < i ==> keys[j] in m)
                  && RemoveKeys(m, keys).1 == Some(KeyError(keys[i]))
    decreases |keys|
  {
    if keys != [] && keys[0] in m {
      var rest := keys[1..];
      var m' := m - {keys[0]};
      RemoveKeysOutcome(m', rest);
      assert forall i :: 0 <= i < |rest| ==> rest[i] != keys[0] && rest[i] == keys[i + 1];
      assert (forall i :: 0 <= i < |rest| ==> rest[i] in m') <==> (forall i :: 0 <= i < |keys| ==> keys[i] in m) by {
        if forall i :: 0 <= i < |rest| ==> rest[i] in m' {
          forall i | 0 <= i < |keys| ensures keys[i] in m {
            if i > 0 { assert rest[i - 1] in m'; }
          }
        }
      }
      if RemoveKeys(m, keys).1.None? {
        assert m' - (set k | k in rest) == m - (set k | k in keys);
      } else {
        var i :| 0 <= i < |rest| && rest[i] !in m' && (forall j :: 0 <= j < i ==> rest[j] in m')
                 && RemoveKeys(m', rest).1 == Some(KeyError(rest[i]));
        assert keys[i + 1] !in m && forall j :: 0 <= j < i + 1 ==> keys[j] in m;
      }
    }
  }

  /** Rewriting the last remaining timestamp. */
  lemma ConvertOneKey(d: Record, b: string)
    ensures ConvertKeys(d, [b]) ==
      if b !in d then (d, Some(KeyError(b)))
      else if ConvertValue(b, d[b]).Err? then (d, Some(ConvertValue(b, d[b]).error))
      else (d[b := ConvertValue(b, d[b]).value], None)
  {
    assert [b][1..] == [];
  }

  /** Rewriting two distinct timestamps, one after the other. */
  lemma ConvertTwoKeys(d: Record, a: string, b: string)
    requires a != b
    ensures ConvertKeys(d, [a, b]) ==
      if a !in d then (d, Some(KeyError(a)))
      else if ConvertValue(a, d[a]).Err? then (d, Some(ConvertValue(a, d[a]).error))
      else ConvertKeys(d[a := ConvertValue(a, d[a]).value], [b])
  {
    assert [a, b][1..] == [b];
  }

  /** After the deletions, an entry of the record either is one of the removed
      keys, or a null that went, or is still there unchanged. */
  lemma KeptEntries(m: Record, k: string)
    ensures var d := DropNulls(m - RemovedKeys);
      k in d <==> k in m && k !in RemovedKeys && m[k] != Null
    ensures var d := DropNulls(m - RemovedKeys);
      k in d ==> d[k] == m[k]
  {
  }

  /** Whether the timestamp stage raises, and what, judged on the record as it
      came in. */
  lemma {:induction false} ConvertStageErrors(m: Record)
    ensures var run := ConvertKeys(DropNulls(m - RemovedKeys), TimestampFields);
      && (run.1.None? <==> TimestampOutcome(m, StartTimestamp).Ok? && TimestampOutcome(m, EndTimestamp).Ok?)
      && (TimestampOutcome(m, StartTimestamp).Err? ==> run.1 == Some(TimestampOutcome(m, StartTimestamp).error))
      && (TimestampOutcome(m, StartTimestamp).Ok? && TimestampOutcome(m, EndTimestamp).Err? ==>
            run.1 == Some(TimestampOutcome(m, EndTimestamp).error))
      && (run.1.None? ==>
            run.0 == DropNulls(m - RemovedKeys)
                       [StartTimestamp := TimestampOutcome(m, StartTimestamp).value]
                       [EndTimestamp := TimestampOutcome(m, EndTimestamp).value])
  {
    FieldNamesDistinct();
    var d := DropNulls(m - RemovedKeys);
    KeptEntries(m, StartTimestamp);
    KeptEntries(m, EndTimestamp);
    ConvertTwoKeys(d, StartTimestamp, EndTimestamp);
    if StartTimestamp in d && ConvertValue(StartTimestamp, d[StartTimestamp]).Ok? {
      var d1 := d[StartTimestamp := ConvertValue(StartTimestamp, d[StartTimestamp]).value];
      ConvertOneKey(d1, EndTimestamp);
      assert EndTimestamp in d1 <==> EndTimestamp in d;
      assert EndTimestamp in d ==> d1[EndTimestamp] == d[EndTimestamp];
    }
  }

  /** What the record is once the timestamp stage succeeded. */
  lemma {:induction false} ConvertStageResult(m: Record, start: Value, end: Value)
    requires StartTimestamp in m && m[StartTimestamp] != Null && start != Null
    requires EndTimestamp in m && m[EndTimestamp] != Null && end != Null
    ensures IsCleanedWith(m, DropNulls(m - RemovedKeys)[StartTimestamp := start][EndTimestamp := end], start, end)
  {
    FieldNamesDistinct();
    var d := DropNulls(m - RemovedKeys);
    KeptEntries(m, StartTimestamp);
    KeptEntries(m, EndTimestamp);
    var r := d[StartTimestamp := start][EndTimestamp := end];
    assert r.Keys == d.Keys;
    forall k | k in r
      ensures k in m && k !in RemovedKeys && m[k] != Null
      ensures k != StartTimestamp && k != EndTimestamp ==> r[k] == m[k]
      ensures r[k] != Null
    {
      KeptEntries(m, k);
    }
    forall k | k in m && k !in RemovedKeys && m[k] != Null
      ensures k in r
    {
      KeptEntries(m, k);
    }
  }

  /** The cleanup succeeds exactly when the six removed keys are present and
      both timestamps are present, non-null and convertible. It raises a
      KeyError for the first absent removed key, and otherwise the exception of
      the first timestamp that cannot be converted. On success the record is
      cleaned as `IsCleaned` states. */
  lemma {:induction false} CleanupOutcome(m: Record)
    ensures CleanupSteps(m).1.None? <==>
      && HasRemovedFields(m)
      && TimestampOutcome(m, StartTimestamp).Ok? && TimestampOutcome(m, EndTimestamp).Ok?
    ensures !HasRemovedFields(m) ==>
      exists i :: 0 <= i < |RemovedFields| && RemovedFields[i] !in m
                  && (forall j :: 0 <= j < i ==> RemovedFields[j] in m)
                  && CleanupSteps(m).1 == Some(KeyError(RemovedFields[i]))
    ensures HasRemovedFields(m) && TimestampOutcome(m, StartTimestamp).Err? ==>
      CleanupSteps(m).1 == Some(TimestampOutcome(m, StartTimestamp).error)
    ensures HasRemovedFields(m) && TimestampOutcome(m, StartTimestamp).Ok?
            && TimestampOutcome(m, EndTimestamp).Err? ==>
      CleanupSteps(m).1 == Some(TimestampOutcome(m, EndTimestamp).error)
    ensures CleanupSteps(m).1.None? ==> IsCleaned(m, CleanupSteps(m).0)
  {
    FieldNamesDistinct();
    RemoveKeysOutcome(m, RemovedFields);
    ConvertStageErrors(m);
    if CleanupSteps(m).1.None? {
      ConvertStageResult(m, TimestampOutcome(m, StartTimestamp).value, TimestampOutcome(m, EndTimestamp).value);
    }
  }

  // ---------------------------------------------------------------------------
  // The dictionary object
  // ---------------------------------------------------------------------------

  /** One alert dictionary, which the cleanup mutates in place. */
  class Alert {
    var fields: Record

    constructor (m: Record)
      ensures fields == m
    {
      fields := m;
    }

    /** Lines 84-98 of the bot: the three deletion and rewriting loops. */
    method Sanitize() returns (err: Option<CleanupError>)
      modifies this
      ensures (fields, err) == CleanupSteps(old(fields))
    {
      var i := 0;
      while i < |RemovedFields|
        invariant 0 <= i <= |RemovedFields|
        invariant RemoveKeys(old(fields), RemovedFields) == RemoveKeys(fields, RemovedFields[i..])
      {
        var key := RemovedFields[i];
        if key !in fields {
          return Some(KeyError(key));
        }
        fields := fields - {key};
        i := i + 1;
      }
      assert RemovedFields[i..] == [];

      ghost var kept := fields;
      var nullKeys := set k | k in fields && fields[k] == Null;
      while nullKeys != {}
        invariant nullKeys <= fields.Keys
        invariant forall k :: k in fields && fields[k] == Null ==> k in nullKeys
        invariant DropNulls(fields) == DropNulls(kept)
        decreases nullKeys
      {
        var key :| key in nullKeys;
        fields := fields - {key};
        nullKeys := nullKeys - {key};
      }
      assert fields == DropNulls(kept);

      i := 0;
      while i < |TimestampFields|
        invariant 0 <= i <= |TimestampFields|
        invariant ConvertKeys(DropNulls(kept), TimestampFields) == ConvertKeys(fields, TimestampFields[i..])
      {
        var key := TimestampFields[i];
        if key !in fields {
          return Some(KeyError(key));
        }
        var converted := ConvertValue(key, fields[key]);
        if converted.Err? {
          return Some(converted.error);
        }
        fields := fields[key := converted.value];
        i := i + 1;
      }
      assert TimestampFields[i..] == [];
      err := None;
    }
  }
}
