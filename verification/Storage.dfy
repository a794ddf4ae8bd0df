/** The versioned store (pkg/storage/storage.go) as JayDBStorage provides it (pkg/storage/jaydb_storage.go). */
module Storage {
  import opened Wrappers

  const MATCH_ANY_VERSION := "*"

  datatype Versioned<+D> = Versioned(version: string, data: D)

  /** A storage access may work, fail without effect, or take effect and still report an error. */
  datatype Fault = NoFault | LostRequest | LostReply

  datatype StorageError = NotFound | VersionMismatch | Unavailable

  /** Whether a write that expects a version may proceed: no expectation, create-only, or compare-and-swap. */
  predicate PutAllowed<K(==), D>(records: map<K, Versioned<D>>, key: K, expected: string) {
    if expected == "" then true
    else if expected == MATCH_ANY_VERSION then key !in records
    else key in records && records[key].version == expected
  }

  predicate DeleteAllowed<K(==), D>(records: map<K, Versioned<D>>, key: K, expected: string) {
    key in records && (expected == "" || records[key].version == expected)
  }

  class JayDBStorage<K(==), D> {
    var records: map<K, Versioned<D>>
    ghost var faults: nat        // how many accesses of the calls at hand storage has let down so far

    constructor ()
      ensures records == map[]
    {
      records, faults := map[], 0;
    }

    ghost method Count(fault: Fault)
      modifies this`faults
      ensures faults == old(faults) + if fault.NoFault? then 0 else 1
    {
      if !fault.NoFault? {
        faults := faults + 1;
      }
    }

    method Get(key: K) returns (result: Result<Versioned<D>, StorageError>, ghost fault: Fault)
      modifies this`faults
      ensures faults == old(faults) + if fault.NoFault? then 0 else 1
      ensures result == if !fault.NoFault? then Err(Unavailable) else if key in records then Ok(records[key]) else Err(NotFound)
    {
      var f: Fault := *;
      fault := f;
      Count(f);
      if !f.NoFault? {
        return Err(Unavailable), fault;
      }
      if key !in records {
        return Err(NotFound), fault;
      }
      return Ok(records[key]), fault;
    }

    /** Any conflict is reported as a version mismatch. The database picks the new version. */
    method Put(key: K, data: D, expectedVersion: string) returns (result: Result<string, StorageError>, ghost version: string, ghost fault: Fault)
      modifies this
      ensures faults == old(faults) + if fault.NoFault? then 0 else 1
      ensures var allowed := PutAllowed(old(records), key, expectedVersion);
              && records == (if allowed && !fault.LostRequest? then old(records)[key := Versioned(version, data)] else old(records))
              && result == if !fault.NoFault? then Err(Unavailable) else if allowed then Ok(version) else Err(VersionMismatch)
    {
      var f: Fault := *;
      var newVersion: string := *;
      fault, version := f, newVersion;
      Count(f);
      var allowed := true;
      if expectedVersion == MATCH_ANY_VERSION {
        allowed := key !in records;
      } else if expectedVersion != "" {
        allowed := key in records && records[key].version == expectedVersion;
      }
      if allowed && !f.LostRequest? {
        records := records[key := Versioned(newVersion, data)];
      }
      if !f.NoFault? {
        return Err(Unavailable), version, fault;
      }
      if !allowed {
        return Err(VersionMismatch), version, fault;
      }
      return Ok(newVersion), version, fault;
    }

    method Delete(key: K, expectedVersion: string) returns (error: Option<StorageError>, ghost fault: Fault)
      modifies this
      ensures faults == old(faults) + if fault.NoFault? then 0 else 1
      ensures var allowed := DeleteAllowed(old(records), key, expectedVersion);
              && records == (if allowed && !fault.LostRequest? then old(records) - {key} else old(records))
              && (error.None? <==> allowed && fault.NoFault?)
              && (fault.NoFault? ==> (error == Some(NotFound) <==> key !in old(records)))
    {
      var f: Fault := *;
      fault := f;
      Count(f);
      if key in records && (expectedVersion == "" || records[key].version == expectedVersion) {
        if !f.LostRequest? {
          records := records - {key};
        }
        return if f.NoFault? then None else Some(Unavailable), fault;
      }
      if !f.NoFault? {
        return Some(Unavailable), fault;
      }
      return Some(if key in records then VersionMismatch else NotFound), fault;
    }

    /** The listing half of List: the names under a prefix, in no particular order. */
    method Names(listed: K -> bool) returns (names: Result<set<K>, StorageError>)
      modifies this`faults
      ensures faults == old(faults) + if names.Ok? then 0 else 1
      ensures names.Ok? ==> forall k :: k in names.value <==> k in records && listed(k)
    {
      var f: Fault := *;
      Count(f);
      if !f.NoFault? {
        return Err(Unavailable);
      }
      return Ok(set k | k in records && listed(k));
    }
  }
}
