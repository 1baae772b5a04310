/** The session tracker and record list (hooks/use-sleep-storage.ts).
    The hook's two pieces of React state become the fields `records` and
    `sleepState`; the two keys it writes in the device's key-value store become
    the ghost fields `storedRecords` and `storedState` (None: key absent). Every
    write is answered by a flag the caller passes in, in place of the store's
    success or failure, and the clock's reading is passed in as `now`. */
module UseSleepStorage {
  import opened SleepTypes
  import Sequences
  import Decimal

  datatype Error =
    | NoSleepInProgress   // endSleep while awake
    | WriteFailed         // the store refused a write or removal

  datatype Outcome = Pass | Fail(error: Error)

  datatype Result<T> = Success(value: T) | Failure(error: Error)

  const MS_PER_MINUTE: int := 60 * 1000

  /** `Math.round(elapsed / 1000 / 60)`: whole minutes, rounded half up. */
  function RoundedMinutes(elapsedMs: int): (m: int)
    ensures MS_PER_MINUTE * m - MS_PER_MINUTE / 2 <= elapsedMs < MS_PER_MINUTE * m + MS_PER_MINUTE / 2
  {
    (elapsedMs + MS_PER_MINUTE / 2) / MS_PER_MINUTE
  }

  /** The record `endSleep` makes of a session that began at `start` and ends at `end`. */
  function FinishedRecord(start: int, end: int): (r: SleepRecord)
    ensures r.id == Decimal.IntToString(start)
    ensures r.startTime == start && r.endTime == end
    ensures MS_PER_MINUTE * r.durationMinutes - MS_PER_MINUTE / 2 <= end - start
    ensures end - start < MS_PER_MINUTE * r.durationMinutes + MS_PER_MINUTE / 2
    ensures start <= end ==> r.durationMinutes >= 0
  {
    SleepRecord(Decimal.IntToString(start), start, end, RoundedMinutes(end - start))
  }

  /** Two finished sessions share an id exactly when they began at the same instant. */
  lemma FinishedRecordIds(start1: int, end1: int, start2: int, end2: int)
    ensures FinishedRecord(start1, end1).id == FinishedRecord(start2, end2).id <==> start1 == start2
  {
    Decimal.IntToStringInjective(start1, start2);
  }

  /** 22:00 to 06:00 is 480 minutes. */
  lemma EightHourNight(start: int)
    ensures FinishedRecord(start, start + 8 * 60 * MS_PER_MINUTE).durationMinutes == 480
  {
  }

  /** The filter of `deleteRecord`. */
  function KeepsOtherIds(id: string): SleepRecord -> bool
  {
    (r: SleepRecord) => r.id != id
  }

  /** `records.filter(record => record.id !== id)`. */
  function DeleteById(records: seq<SleepRecord>, id: string): (r: seq<SleepRecord>)
    ensures forall i :: 0 <= i < |r| ==> r[i].id != id
    ensures forall x: SleepRecord :: x.id != id ==> multiset(r)[x] == multiset(records)[x]
    ensures Sequences.IsSubsequence(r, records)
  {
    Sequences.Filter(records, KeepsOtherIds(id))
  }

  /** Deleting an id no record carries leaves the list unchanged. */
  lemma DeleteUnknownId(records: seq<SleepRecord>, id: string)
    requires forall i :: 0 <= i < |records| ==> records[i].id != id
    ensures DeleteById(records, id) == records
  {
    Sequences.FilterAllPass(records, KeepsOtherIds(id));
  }

  /** Deleting an id a second time changes nothing. */
  lemma DeleteIdempotent(records: seq<SleepRecord>, id: string)
    ensures DeleteById(DeleteById(records, id), id) == DeleteById(records, id)
  {
    DeleteUnknownId(DeleteById(records, id), id);
  }

  /** Deleting the id of a record just put in front, when no older record has
      that id, gives back the list as it was before. */
  lemma DeleteUndoesAdd(r: SleepRecord, records: seq<SleepRecord>)
    requires forall i :: 0 <= i < |records| ==> records[i].id != r.id
    ensures DeleteById([r] + records, r.id) == records
  {
    assert ([r] + records)[1..] == records;
    Sequences.FilterAllPass(records, KeepsOtherIds(r.id));
  }

  /** The per-record step of `updateRecord`. */
  function UpdateIfId(id: string, u: RecordUpdate): SleepRecord -> SleepRecord
  {
    (r: SleepRecord) => if r.id == id then Merge(r, u) else r
  }

  /** `records.map(record => record.id === id ? { ...record, ...updates } : record)`. */
  function UpdateById(records: seq<SleepRecord>, id: string, u: RecordUpdate): (r: seq<SleepRecord>)
    ensures |r| == |records|
    ensures forall i :: 0 <= i < |records| ==>
              r[i] == if records[i].id == id then Merge(records[i], u) else records[i]
    ensures (forall i :: 0 <= i < |records| ==> records[i].id != id) ==> r == records
  {
    Sequences.Map(records, UpdateIfId(id, u))
  }

  /** Applying the same edit to the same id twice is applying it once: the
      records it matched either keep the id (and the merge is idempotent) or
      now carry another id and are no longer matched. */
  lemma UpdateIdempotent(records: seq<SleepRecord>, id: string, u: RecordUpdate)
    ensures UpdateById(UpdateById(records, id, u), id, u) == UpdateById(records, id, u)
  {
  }

  /** What `loadData` puts in memory when it reads the records key: its contents,
      or the initial empty list when the key is absent. */
  function LoadedRecords(stored: Option<seq<SleepRecord>>): (r: seq<SleepRecord>)
    ensures stored == Some(r) || (stored == None && r == [])
  {
    if stored.Some? then stored.value else []
  }

  /** What `loadData` puts in memory when it reads the state key. */
  function LoadedState(stored: Option<SleepState>): (st: SleepState)
    ensures stored == Some(st) || (stored == None && st == Awake)
  {
    if stored.Some? then stored.value else Awake
  }

  class SleepStorage {
    var records: seq<SleepRecord>
    var sleepState: SleepState
    ghost var storedRecords: Option<seq<SleepRecord>>
    ghost var storedState: Option<SleepState>

    /** Memory holds exactly what a reload from the store would give: the point
        of writing first and committing to memory only after the write. */
    ghost predicate Committed()
      reads this
      ensures Committed() ==>
                (storedRecords.Some? ==> records == storedRecords.value) &&
                (storedRecords.None? ==> records == []) &&
                (storedState.Some? ==> sleepState == storedState.value) &&
                (storedState.None? ==> sleepState == Awake)
    {
      records == LoadedRecords(storedRecords) && sleepState == LoadedState(storedState)
    }

    /** The hook on first launch: empty store, no records, awake. */
    constructor ()
      ensures records == [] && sleepState == Awake
      ensures storedRecords == None && storedState == None
      ensures Committed() && sleepState.Consistent()
    {
      records := [];
      sleepState := Awake;
      storedRecords := None;
      storedState := None;
    }

    /** The hook after `loadData` has read both keys of an existing store. */
    constructor Load(savedRecords: Option<seq<SleepRecord>>, savedState: Option<SleepState>)
      ensures storedRecords == savedRecords && storedState == savedState
      ensures records == LoadedRecords(savedRecords) && sleepState == LoadedState(savedState)
      ensures Committed()
    {
      records := LoadedRecords(savedRecords);
      sleepState := LoadedState(savedState);
      storedRecords := savedRecords;
      storedState := savedState;
    }

    /** `saveRecords`: write the list, then commit it to memory; a failed write
        commits nothing and is reported. */
    method SaveRecords(newRecords: seq<SleepRecord>, writeOk: bool) returns (o: Outcome)
      modifies this
      ensures o == (if writeOk then Pass else Fail(WriteFailed))
      ensures writeOk ==> records == newRecords && storedRecords == Some(newRecords)
      ensures !writeOk ==> unchanged(this)
      ensures sleepState == old(sleepState) && storedState == old(storedState)
      ensures old(Committed()) ==> Committed()
    {
      if !writeOk {
        return Fail(WriteFailed);
      }
      storedRecords := Some(newRecords);
      records := newRecords;
      o := Pass;
    }

    /** `saveState`: the same discipline for the session state. */
    method SaveState(newState: SleepState, writeOk: bool) returns (o: Outcome)
      modifies this
      ensures o == (if writeOk then Pass else Fail(WriteFailed))
      ensures writeOk ==> sleepState == newState && storedState == Some(newState)
      ensures !writeOk ==> unchanged(this)
      ensures records == old(records) && storedRecords == old(storedRecords)
      ensures old(Committed()) ==> Committed()
    {
      if !writeOk {
        return Fail(WriteFailed);
      }
      storedState := Some(newState);
      sleepState := newState;
      o := Pass;
    }

    /** `startSleep`: begin timing at `now`. There is no guard, so starting while
        already asleep moves the start to `now`. */
    method StartSleep(now: int, writeOk: bool) returns (o: Outcome)
      modifies this
      ensures o == (if writeOk then Pass else Fail(WriteFailed))
      ensures writeOk ==> sleepState == Sleeping(now) && storedState == Some(Sleeping(now))
      ensures !writeOk ==> sleepState == old(sleepState) && storedState == old(storedState)
      ensures records == old(records) && storedRecords == old(storedRecords)
      ensures old(Committed()) ==> Committed()
      ensures old(sleepState.Consistent()) ==> sleepState.Consistent()
    {
      o := SaveState(Sleeping(now), writeOk);
    }

    /** `endSleep`: turn the running session into a record at the front of the
        list, then go back to awake. The two writes are separate: when the first
        succeeds and the second fails, the record is kept and the session is
        still running. */
    method EndSleep(now: int, recordsWriteOk: bool, stateWriteOk: bool) returns (result: Result<SleepRecord>)
      modifies this
      ensures !old(sleepState.isSleeping) || old(sleepState.currentSleepStart).None? ==>
                result == Failure(NoSleepInProgress) && unchanged(this)
      ensures old(sleepState.isSleeping) && old(sleepState.currentSleepStart).Some? ==>
                var r := FinishedRecord(old(sleepState.currentSleepStart).value, now);
                && (!recordsWriteOk ==> result == Failure(WriteFailed) && unchanged(this))
                && (recordsWriteOk ==> records == [r] + old(records) && storedRecords == Some(records))
                && (recordsWriteOk && !stateWriteOk ==>
                      result == Failure(WriteFailed) &&
                      sleepState == old(sleepState) && storedState == old(storedState))
                && (recordsWriteOk && stateWriteOk ==>
                      result == Success(r) && sleepState == Awake && storedState == Some(Awake))
      ensures old(Committed()) ==> Committed()
      ensures old(sleepState.Consistent()) ==> sleepState.Consistent()
    {
      if !sleepState.isSleeping || sleepState.currentSleepStart.None? {
        return Failure(NoSleepInProgress);
      }
      var r := FinishedRecord(sleepState.currentSleepStart.value, now);
      var o := SaveRecords([r] + records, recordsWriteOk);
      if o.Fail? {
        return Failure(o.error);
      }
      o := SaveState(Awake, stateWriteOk);
      if o.Fail? {
        return Failure(o.error);
      }
      result := Success(r);
    }

    /** `addRecord`: put a caller-made record in front, unchecked. */
    method AddRecord(r: SleepRecord, writeOk: bool) returns (o: Outcome)
      modifies this
      ensures o == (if writeOk then Pass else Fail(WriteFailed))
      ensures writeOk ==> records == [r] + old(records) && storedRecords == Some(records)
      ensures !writeOk ==> records == old(records) && storedRecords == old(storedRecords)
      ensures sleepState == old(sleepState) && storedState == old(storedState)
      ensures old(Committed()) ==> Committed()
    {
      o := SaveRecords([r] + records, writeOk);
    }

    /** `updateRecord`: merge the edit into every record with the id. */
    method UpdateRecord(id: string, u: RecordUpdate, writeOk: bool) returns (o: Outcome)
      modifies this
      ensures o == (if writeOk then Pass else Fail(WriteFailed))
      ensures writeOk ==> records == UpdateById(old(records), id, u) && storedRecords == Some(records)
      ensures !writeOk ==> records == old(records) && storedRecords == old(storedRecords)
      ensures sleepState == old(sleepState) && storedState == old(storedState)
      ensures old(Committed()) ==> Committed()
    {
      o := SaveRecords(UpdateById(records, id, u), writeOk);
    }

    /** `deleteRecord`: drop every record with the id. */
    method DeleteRecord(id: string, writeOk: bool) returns (o: Outcome)
      modifies this
      ensures o == (if writeOk then Pass else Fail(WriteFailed))
      ensures writeOk ==> records == DeleteById(old(records), id) && storedRecords == Some(records)
      ensures !writeOk ==> records == old(records) && storedRecords == old(storedRecords)
      ensures sleepState == old(sleepState) && storedState == old(storedState)
      ensures old(Committed()) ==> Committed()
    {
      o := SaveRecords(DeleteById(records, id), writeOk);
    }

    /** `clearAll`: remove both keys, then forget every record and any running
        session; a failed removal changes nothing and is reported. */
    method ClearAll(removeOk: bool) returns (o: Outcome)
      modifies this
      ensures o == (if removeOk then Pass else Fail(WriteFailed))
      ensures removeOk ==> records == [] && sleepState == Awake && storedRecords == None && storedState == None
      ensures !removeOk ==> unchanged(this)
      ensures old(Committed()) ==> Committed()
      ensures old(sleepState.Consistent()) ==> sleepState.Consistent()
    {
      if !removeOk {
        return Fail(WriteFailed);
      }
      storedRecords, storedState := None, None;
      records, sleepState := [], Awake;
      o := Pass;
    }
  }

  /** A session started at `start` and ended at `end`, with every write
      succeeding, leaves one new record in front whose duration is the rounded
      elapsed minutes, and the tracker awake. */
  method StartThenEnd(s: SleepStorage, start: int, end: int) returns (r: Result<SleepRecord>)
    modifies s
    ensures r == Success(FinishedRecord(start, end))
    ensures s.records == [FinishedRecord(start, end)] + old(s.records)
    ensures s.sleepState == Awake
  {
    var o := s.StartSleep(start, true);
    r := s.EndSleep(end, true, true);
  }

  /** When `endSleep` stores its record but cannot store the awake state, the
      session is still running, so trying again stores a second record with the
      same id. */
  method EndSleepRetriedAfterStateWriteFailure(s: SleepStorage, start: int, end1: int, end2: int)
    returns (first: Result<SleepRecord>, second: Result<SleepRecord>)
    requires s.sleepState == Sleeping(start)
    modifies s
    ensures first == Failure(WriteFailed)
    ensures second == Success(FinishedRecord(start, end2))
    ensures s.records == [FinishedRecord(start, end2), FinishedRecord(start, end1)] + old(s.records)
    ensures s.records[0].id == s.records[1].id
  {
    first := s.EndSleep(end1, true, false);
    second := s.EndSleep(end2, true, true);
  }
}
