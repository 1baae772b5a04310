/** The records and states of the sleep tracker (types/sleep.ts).
    Instants are integer milliseconds since the epoch; the ISO 8601 strings the
    app stores are not modelled. */
module SleepTypes {

  datatype Option<+T> = None | Some(value: T)

  /** One finished sleep session. */
  datatype SleepRecord = SleepRecord(
    id: string,            // the start instant rendered in decimal, for records made by endSleep
    startTime: int,        // instant, ms
    endTime: int,          // instant, ms
    durationMinutes: int)

  /** The session tracker's state. The source keeps the flag and the start side by
      side; `Consistent` is the invariant its type comment promises. */
  datatype SleepState = SleepState(isSleeping: bool, currentSleepStart: Option<int>)
  {
    predicate Consistent() {
      isSleeping <==> currentSleepStart.Some?
    }
  }

  /** The state of a tracker that is not timing a session. */
  const Awake := SleepState(false, None)

  /** The state of a tracker timing a session that began at `start`. */
  function Sleeping(start: int): (s: SleepState)
    ensures s.Consistent() && s.isSleeping && s.currentSleepStart == Some(start)
  {
    SleepState(true, Some(start))
  }

  /** The five period selectors of the statistics screen. */
  datatype StatsPeriod = Last24h | Last3d | Last7d | Last30d | Custom

  /** A caller-chosen range, both ends inclusive. */
  datatype CustomPeriod = CustomPeriod(startDate: int, endDate: int)

  /** Aggregates over a period. The two hour figures are kept in tenths of an hour,
      which is exactly what rounding to one decimal leaves of them. */
  datatype SleepStats = SleepStats(
    totalTenths: int,
    averageTenths: int,
    recordCount: nat,
    maxDuration: int,
    minDuration: int)

  const ZeroStats := SleepStats(0, 0, 0, 0, 0)

  /** A `Partial<SleepRecord>`: the fields an edit supplies. */
  datatype RecordUpdate = RecordUpdate(
    id: Option<string>,
    startTime: Option<int>,
    endTime: Option<int>,
    durationMinutes: Option<int>)

  const NoChange := RecordUpdate(None, None, None, None)

  /** `{ ...record, ...updates }`: every supplied field wins, the others are kept. */
  function Merge(r: SleepRecord, u: RecordUpdate): (m: SleepRecord)
    ensures m.id == (if u.id.Some? then u.id.value else r.id)
    ensures m.startTime == (if u.startTime.Some? then u.startTime.value else r.startTime)
    ensures m.endTime == (if u.endTime.Some? then u.endTime.value else r.endTime)
    ensures m.durationMinutes == (if u.durationMinutes.Some? then u.durationMinutes.value else r.durationMinutes)
  {
    SleepRecord(
      match u.id case Some(v) => v case None => r.id,
      match u.startTime case Some(v) => v case None => r.startTime,
      match u.endTime case Some(v) => v case None => r.endTime,
      match u.durationMinutes case Some(v) => v case None => r.durationMinutes)
  }

  /** Merging the same edit twice changes nothing more, and the empty edit changes nothing. */
  lemma MergeIdempotent(r: SleepRecord, u: RecordUpdate)
    ensures Merge(Merge(r, u), u) == Merge(r, u)
    ensures Merge(r, NoChange) == r
  {
  }
}
