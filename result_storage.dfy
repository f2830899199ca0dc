/**
 * The result cache: outcome bodies kept in the key-value store under
 * "result:" + job id with a time to live, plain reads, explicit deletes, and a
 * read that arms a deferred delete when single-use results are on. The clock
 * is in ms; an entry past its expiry time reads as absent.
 */
module ResultStore {
  import opened Wrappers
  import opened Jobs
  import opened Settings

  /** A stored outcome and the clock time at which the store forgets it. */
  datatype Entry = Entry(value: ParseResult, expiresAt: int)

  /** A deferred delete armed by a single-use read. */
  datatype PendingDelete = PendingDelete(jobId: string, fireAt: int)

  /** The time to live, in seconds, when none is given. */
  const DefaultTtl: int := 300

  const KeyPrefix: string := "result:"

  /** The store key of a job's result. */
  function Key(jobId: string): (k: string)
    ensures |k| == |KeyPrefix| + |jobId| && k[..|KeyPrefix|] == KeyPrefix && k[|KeyPrefix|..] == jobId
  {
    KeyPrefix + jobId
  }

  /** Distinct jobs never share a key. */
  lemma KeyInjective(a: string, b: string)
    requires Key(a) == Key(b)
    ensures a == b
  {
    assert a == Key(a)[|KeyPrefix|..];
  }

  /** A read of `key` at `now`: the stored value while it is alive, None otherwise. */
  function Lookup(entries: map<string, Entry>, key: string, now: int): (r: Option<ParseResult>)
    ensures r.Some? <==> key in entries && now < entries[key].expiresAt
    ensures r.Some? ==> r.value == entries[key].value
  {
    if key in entries && now < entries[key].expiresAt then Some(entries[key].value) else None
  }

  /** The entries left once the given pending deletes have run. */
  function AfterDeletes(entries: map<string, Entry>, fired: set<PendingDelete>): map<string, Entry> {
    entries - (set p | p in fired :: Key(p.jobId))
  }

  /** A stored result reads back unchanged until its time to live lapses. */
  lemma StoredResultReadsBack(entries: map<string, Entry>, r: ParseResult, storedAt: int, ttl: int, now: int)
    requires storedAt <= now < storedAt + ttl * 1000
    ensures Lookup(entries[Key(r.jobId) := Entry(r, storedAt + ttl * 1000)], Key(r.jobId), now) == Some(r)
  {
  }

  /** Once the time to live has lapsed, the result reads as absent. */
  lemma ExpiredResultReadsAbsent(entries: map<string, Entry>, r: ParseResult, storedAt: int, ttl: int, now: int)
    requires now >= storedAt + ttl * 1000
    ensures Lookup(entries[Key(r.jobId) := Entry(r, storedAt + ttl * 1000)], Key(r.jobId), now) == None
  {
  }

  /** A second store for the same job replaces the first: last write wins. */
  lemma LastStoreWins(entries: map<string, Entry>, r1: ParseResult, r2: ParseResult, e1: int, e2: int, now: int)
    requires r1.jobId == r2.jobId && now < e2
    ensures Lookup(entries[Key(r1.jobId) := Entry(r1, e1)][Key(r2.jobId) := Entry(r2, e2)], Key(r1.jobId), now) == Some(r2)
  {
  }

  /** Deleting twice leaves the same store as deleting once. */
  lemma DeleteIsIdempotent(entries: map<string, Entry>, jobId: string)
    ensures entries - {Key(jobId)} - {Key(jobId)} == entries - {Key(jobId)}
  {
  }

  /** Deferred deletes of other jobs do not touch this job's result. */
  lemma OtherDeletesKeepResult(entries: map<string, Entry>, fired: set<PendingDelete>, jobId: string, now: int)
    requires forall p :: p in fired ==> p.jobId != jobId
    ensures Lookup(AfterDeletes(entries, fired), Key(jobId), now) == Lookup(entries, Key(jobId), now)
  {
    forall p | p in fired
      ensures Key(p.jobId) != Key(jobId)
    {
      if Key(p.jobId) == Key(jobId) {
        KeyInjective(p.jobId, jobId);
      }
    }
  }

  class ResultStorage {
    /** The store's entries as this service sees them, by key. */
    var entries: map<string, Entry>
    /** Time to live of every write, in seconds. */
    const ttl: int
    /** The deferred deletes armed and not yet fired. */
    var pending: set<PendingDelete>

    /** A storage over the store `entries`, with the given time to live or 300 s. */
    constructor (entries: map<string, Entry>, ttl: Option<int>)
      ensures this.entries == entries && pending == {}
      ensures this.ttl == ttl.GetOr(DefaultTtl)
    {
      this.entries := entries;
      this.ttl := ttl.GetOr(DefaultTtl);
      pending := {};
    }

    /**
     * Writes the result under its key with the time to live. The store refuses
     * a time to live that is not positive; then the call fails and nothing is written.
     */
    method Store(result: ParseResult, now: int) returns (ok: bool)
      modifies this`entries
      ensures ok <==> ttl > 0
      ensures ok ==> entries == old(entries)[Key(result.jobId) := Entry(result, now + ttl * 1000)]
      ensures !ok ==> entries == old(entries)
    {
      if ttl <= 0 {
        return false;
      }
      entries := entries[Key(result.jobId) := Entry(result, now + ttl * 1000)];
      ok := true;
    }

    /** Reads the job's result: present exactly while an entry under its key is alive. Changes nothing. */
    method Get(jobId: string, now: int) returns (r: Option<ParseResult>)
      ensures r.Some? <==> Key(jobId) in entries && now < entries[Key(jobId)].expiresAt
      ensures r.Some? ==> r.value == entries[Key(jobId)].value
      ensures r == Lookup(entries, Key(jobId), now)
    {
      var key := Key(jobId);
      if key in entries && now < entries[key].expiresAt {
        r := Some(entries[key].value);
      } else {
        r := None;
      }
    }

    /** Removes the job's result; an absent key is not an error. */
    method Delete(jobId: string)
      modifies this`entries
      ensures entries == old(entries) - {Key(jobId)}
    {
      entries := entries - {Key(jobId)};
    }

    /**
     * Reads like Get and, when there is a result and single-use is on, arms a
     * delete of it after the removal delay; nothing is deleted now.
     */
    method GetAndDelete(jobId: string, now: int, toggle: Option<string>, delay: Option<string>)
      returns (r: Option<ParseResult>)
      modifies this`pending
      ensures r == Lookup(entries, Key(jobId), now)
      ensures r.Some? && SingleUse(toggle) ==> pending == old(pending) + {PendingDelete(jobId, now + RemovalDelay(delay))}
      ensures !(r.Some? && SingleUse(toggle)) ==> pending == old(pending)
    {
      r := Get(jobId, now);
      if r.Some? && SingleUse(toggle) {
        pending := pending + {PendingDelete(jobId, now + RemovalDelay(delay))};
      }
    }

    /** The deferred deletes due at `now` run; each removes its job's result. */
    method FireDue(now: int)
      modifies this`entries, this`pending
      ensures entries == AfterDeletes(old(entries), set p | p in old(pending) && p.fireAt <= now)
      ensures pending == set p | p in old(pending) && p.fireAt > now
    {
      var fired := set p | p in pending && p.fireAt <= now;
      entries := AfterDeletes(entries, fired);
      pending := set p | p in pending && p.fireAt > now;
    }
  }

  /**
   * The single-use grace: after a first single-use read, a second read before
   * the delete fires returns the same result, and a read after it returns none.
   * `r` is stored at clock 0 with a one-hour time to live.
   */
  method SingleUseGrace(r: ParseResult) returns (first: Option<ParseResult>, second: Option<ParseResult>, third: Option<ParseResult>)
    ensures first == Some(r) && second == Some(r) && third == None
  {
    var storage := new ResultStorage(map[], Some(3600));
    var stored := storage.Store(r, 0);
    first := storage.GetAndDelete(r.jobId, 1000, None, None);
    DefaultRemovalDelayIsFiveMinutes(None);
    assert storage.pending == {PendingDelete(r.jobId, 301000)};
    storage.FireDue(2000);
    second := storage.Get(r.jobId, 2000);
    storage.FireDue(301000);
    third := storage.Get(r.jobId, 301000);
  }
}
