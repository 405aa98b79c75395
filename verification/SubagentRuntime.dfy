/** The subagent runtime: run records, the bounded background scheduler, the
    exactly-once finish and the append-only state log with its recovery.

    `Runtime` is the value-level state; the class `SubagentRuntime` updates the
    same fields in place and is proved against the functions on it.
 */
module Subagents {

  const MAX_BACKGROUND_CONCURRENCY: nat := 4

  datatype Option<T> = None | Some(value: T)

  /** The path of a team agent, as its segments below /root; /root itself is []. */
  type Path = seq<string>

  datatype Terminal = Completed | Failed | Cancelled

  /** One run of a child session. A record is finished when it has a terminal status. */
  datatype Record = Record(path: Path, terminal: Option<Terminal>, cancelRequested: bool)

  datatype LogStatus = RunningStatus | Done(terminal: Terminal)
  datatype LogLine = LogLine(id: nat, status: LogStatus)

  /** `running` are the records that hold a background slot: a finished run keeps
      its slot until its promise has settled. `inflight` are the finished records
      whose finish handler has been called and is waiting for its first flush. */
  datatype Runtime = Runtime(
    records: map<nat, Record>,
    queue: seq<nat>,
    running: set<nat>,
    runningCount: int,
    nextId: nat,
    handlers: set<nat>,
    inflight: set<nat>,
    log: seq<LogLine>,
    emitted: seq<(nat, Terminal)>)

  // ---------------------------------------------------------------- specification

  function InitRuntime(): Runtime {
    Runtime(map[], [], {}, 0, 0, {}, {}, [], [])
  }

  predicate Unfinished(rt: Runtime, id: nat) {
    id in rt.records && rt.records[id].terminal.None?
  }

  /** A new record, logged as running, whose finish handler is registered. */
  function CreateRecord(rt: Runtime, path: Path): Runtime {
    rt.(records := rt.records[rt.nextId := Record(path, None, false)],
        nextId := rt.nextId + 1,
        handlers := rt.handlers + {rt.nextId},
        log := rt.log + [LogLine(rt.nextId, RunningStatus)])
  }

  function Finish(rt: Runtime, id: nat, t: Terminal): Runtime {
    if !Unfinished(rt, id) then rt
    else rt.(records := rt.records[id := rt.records[id].(terminal := Some(t))],
             log := rt.log + [LogLine(id, Done(t))],
             emitted := rt.emitted + [(id, t)],
             handlers := rt.handlers - {id},
             inflight := if id in rt.handlers then rt.inflight + {id} else rt.inflight)
  }

  function RequestCancel(rt: Runtime, id: nat): Runtime {
    if !Unfinished(rt, id) then rt
    else rt.(records := rt.records[id := rt.records[id].(cancelRequested := true)])
  }

  function Schedule(rt: Runtime, id: nat): Runtime {
    if !Unfinished(rt, id) then rt
    else if rt.records[id].cancelRequested then Finish(rt, id, Cancelled)
    else if rt.runningCount >= MAX_BACKGROUND_CONCURRENCY then rt.(queue := rt.queue + [id])
    else rt.(running := rt.running + {id}, runningCount := rt.runningCount + 1)
  }

  /** Start the first queued record that is neither cancelled nor finished;
      the ones skipped on the way leave the queue for good. */
  function StartNext(rt: Runtime): Runtime
    decreases |rt.queue|
  {
    if rt.queue == [] then rt
    else
      var id := rt.queue[0];
      var rest := rt.(queue := rt.queue[1..]);
      if Unfinished(rt, id) && !rt.records[id].cancelRequested then Schedule(rest, id) else StartNext(rest)
  }

  /** The promise of a run settles: its slot is handed on. */
  function ReleaseSlot(rt: Runtime, id: nat): Runtime {
    StartNext(rt.(running := rt.running - {id}, runningCount := rt.runningCount - 1))
  }

  function IndexOf(q: seq<nat>, id: nat): (k: nat)
    ensures k <= |q|
    ensures k < |q| ==> q[k] == id && id !in q[..k]
    ensures k == |q| ==> id !in q
  {
    if q == [] then 0 else if q[0] == id then 0 else 1 + IndexOf(q[1..], id)
  }

  function Removed(q: seq<nat>, id: nat): seq<nat> {
    var k := IndexOf(q, id);
    if k == |q| then q else q[..k] + q[k + 1..]
  }

  /** Move a queued record to the front. */
  function Prioritize(rt: Runtime, id: nat): Runtime {
    if id in rt.queue then rt.(queue := [id] + Removed(rt.queue, id)) else rt
  }

  function Cancel(rt: Runtime, id: nat): Runtime {
    if !Unfinished(rt, id) then rt
    else
      var asked := RequestCancel(rt, id);
      if id in rt.queue then Finish(asked.(queue := Removed(rt.queue, id)), id, Cancelled) else asked
  }

  /** Finish a record as cancelled without telling its handler. */
  function Discard(rt: Runtime, id: nat): Runtime {
    if !Unfinished(rt, id) then rt
    else Finish(RequestCancel(rt.(handlers := rt.handlers - {id}), id), id, Cancelled)
  }

  /** The status with which a run ends: a requested cancel overrides its outcome. */
  function RunStatus(rt: Runtime, id: nat, ok: bool): Terminal {
    if id in rt.records && rt.records[id].cancelRequested then Cancelled else if ok then Completed else Failed
  }

  // ---------------------------------------------------------------- scheduler invariant

  ghost predicate Distinct<T(!new)>(q: seq<T>) {
    forall i, j :: 0 <= i < j < |q| ==> q[i] != q[j]
  }

  ghost predicate SlotsOk(rt: Runtime) {
    && rt.runningCount == |rt.running| <= MAX_BACKGROUND_CONCURRENCY
    && (rt.queue != [] ==> rt.runningCount == MAX_BACKGROUND_CONCURRENCY)
    && rt.running <= rt.records.Keys
    && (forall id :: id in rt.records ==> id < rt.nextId)
  }

  ghost predicate QueueOk(rt: Runtime) {
    && Distinct(rt.queue)
    && (forall id :: id in rt.queue ==> id in rt.records && id !in rt.running)
  }

  ghost predicate HandlersOk(rt: Runtime) {
    && (forall id :: id in rt.handlers ==> Unfinished(rt, id))
    && (forall id :: id in rt.inflight ==> id in rt.records && !Unfinished(rt, id))
  }

  ghost predicate SchedulerOk(rt: Runtime) {
    SlotsOk(rt) && QueueOk(rt) && HandlersOk(rt)
  }

  // ---------------------------------------------------------------- the log

  /** Last entry wins. */
  function Latest(log: seq<LogLine>): map<nat, LogStatus> {
    if log == [] then map[]
    else Latest(log[..|log| - 1])[log[|log| - 1].id := log[|log| - 1].status]
  }

  function Label(r: Record): LogStatus {
    if r.terminal.None? then RunningStatus else Done(r.terminal.value)
  }

  /** Replaying the log gives exactly the live status of every record. */
  ghost predicate LogAgrees(records: map<nat, Record>, log: seq<LogLine>) {
    Latest(log) == map id | id in records :: Label(records[id])
  }

  /** One "finished" notice per finished record, and it carries the record's status. */
  ghost predicate FinishedOnce(records: map<nat, Record>, emitted: seq<(nat, Terminal)>) {
    && (forall i, j :: 0 <= i < j < |emitted| ==> emitted[i].0 != emitted[j].0)
    && (forall id, t :: (id, t) in emitted <==> id in records && records[id].terminal == Some(t))
  }

  ghost predicate RuntimeOk(rt: Runtime) {
    SchedulerOk(rt) && LogAgrees(rt.records, rt.log) && FinishedOnce(rt.records, rt.emitted)
  }

  lemma LatestAppend(log: seq<LogLine>, line: LogLine)
    ensures Latest(log + [line]) == Latest(log)[line.id := line.status]
  {
    assert (log + [line])[..|log|] == log;
  }

  // ---------------------------------------------------------------- every operation keeps the invariant

  /** Giving record `id` a value is logged by a line with that value's status. */
  lemma LogFollows(records: map<nat, Record>, log: seq<LogLine>, id: nat, r: Record)
    requires LogAgrees(records, log)
    ensures LogAgrees(records[id := r], log + [LogLine(id, Label(r))])
    ensures id in records && Label(records[id]) == Label(r) ==> LogAgrees(records[id := r], log)
  {
    LatestAppend(log, LogLine(id, Label(r)));
  }

  lemma NoticeFollows(records: map<nat, Record>, emitted: seq<(nat, Terminal)>, id: nat, r: Record)
    requires FinishedOnce(records, emitted) && (id in records ==> records[id].terminal.None?)
    ensures r.terminal.None? ==> FinishedOnce(records[id := r], emitted)
    ensures r.terminal.Some? ==> FinishedOnce(records[id := r], emitted + [(id, r.terminal.value)])
  {
    forall i | 0 <= i < |emitted| ensures emitted[i].0 != id {
      assert (emitted[i].0, emitted[i].1) in emitted;
    }
    var more := if r.terminal.None? then emitted else emitted + [(id, r.terminal.value)];
    forall x, u ensures (x, u) in more <==> x in records[id := r] && records[id := r][x].terminal == Some(u) {
      assert x != id ==> ((x, u) in emitted <==> x in records && records[x].terminal == Some(u));
      assert x == id ==> (x, u) !in emitted;
    }
  }

  lemma CreateScheduler(rt: Runtime, path: Path)
    requires SchedulerOk(rt)
    ensures SchedulerOk(CreateRecord(rt, path)) && rt.nextId !in rt.records
  {
  }

  lemma CreateKeeps(rt: Runtime, path: Path)
    requires RuntimeOk(rt)
    ensures RuntimeOk(CreateRecord(rt, path))
  {
    CreateScheduler(rt, path);
    LogFollows(rt.records, rt.log, rt.nextId, Record(path, None, false));
    NoticeFollows(rt.records, rt.emitted, rt.nextId, Record(path, None, false));
  }

  lemma FinishScheduler(rt: Runtime, id: nat, t: Terminal)
    requires SchedulerOk(rt)
    ensures SchedulerOk(Finish(rt, id, t))
  {
  }

  lemma FinishKeeps(rt: Runtime, id: nat, t: Terminal)
    requires RuntimeOk(rt)
    ensures RuntimeOk(Finish(rt, id, t))
  {
    if Unfinished(rt, id) {
      FinishScheduler(rt, id, t);
      LogFollows(rt.records, rt.log, id, rt.records[id].(terminal := Some(t)));
      NoticeFollows(rt.records, rt.emitted, id, rt.records[id].(terminal := Some(t)));
    }
  }

  lemma RequestCancelScheduler(rt: Runtime, id: nat)
    requires SchedulerOk(rt)
    ensures SchedulerOk(RequestCancel(rt, id))
  {
  }

  lemma RequestCancelKeeps(rt: Runtime, id: nat)
    requires RuntimeOk(rt)
    ensures RuntimeOk(RequestCancel(rt, id))
  {
    if Unfinished(rt, id) {
      RequestCancelScheduler(rt, id);
      LogFollows(rt.records, rt.log, id, rt.records[id].(cancelRequested := true));
      NoticeFollows(rt.records, rt.emitted, id, rt.records[id].(cancelRequested := true));
    }
  }

  lemma ScheduleScheduler(rt: Runtime, id: nat)
    requires SchedulerOk(rt) && id !in rt.running && id !in rt.queue
    ensures SchedulerOk(Schedule(rt, id))
  {
    FinishScheduler(rt, id, Cancelled);
  }

  lemma ScheduleKeeps(rt: Runtime, id: nat)
    requires RuntimeOk(rt) && id !in rt.running && id !in rt.queue
    ensures RuntimeOk(Schedule(rt, id))
  {
    ScheduleScheduler(rt, id);
    FinishKeeps(rt, id, Cancelled);
  }

  /** A settled run hands its slot to the first queued record still wanted, so
      the queue is never left with a free slot beside it. */
  lemma ReleaseKeeps(rt: Runtime, id: nat)
    requires RuntimeOk(rt) && id in rt.running
    ensures RuntimeOk(ReleaseSlot(rt, id))
  {
    var freed := rt.(running := rt.running - {id}, runningCount := rt.runningCount - 1);
    assert |freed.running| == |rt.running| - 1;
    StartNextKeeps(freed);
  }

  lemma {:induction false} StartNextKeeps(rt: Runtime)
    requires QueueOk(rt) && HandlersOk(rt)
    requires rt.runningCount == |rt.running| < MAX_BACKGROUND_CONCURRENCY
    requires rt.queue != [] ==> rt.runningCount == MAX_BACKGROUND_CONCURRENCY - 1
    requires rt.running <= rt.records.Keys
    requires forall id :: id in rt.records ==> id < rt.nextId
    ensures SchedulerOk(StartNext(rt))
    ensures StartNext(rt).records == rt.records && StartNext(rt).log == rt.log && StartNext(rt).emitted == rt.emitted
    decreases |rt.queue|
  {
    if rt.queue != [] {
      var id := rt.queue[0];
      var rest := rt.(queue := rt.queue[1..]);
      if Unfinished(rt, id) && !rt.records[id].cancelRequested {
        assert Distinct(rest.queue);
        assert id !in rest.queue;
      } else {
        StartNextKeeps(rest);
      }
    }
  }

  lemma RemovedMembers(q: seq<nat>, id: nat)
    requires Distinct(q)
    ensures Distinct(Removed(q, id))
    ensures forall x :: x in Removed(q, id) <==> x in q && x != id
  {
    var k := IndexOf(q, id);
    if k < |q| {
      assert q == q[..k] + [q[k]] + q[k + 1..];
      forall x ensures x in q[..k] + q[k + 1..] <==> x in q && x != id {
        if x in q && x != id {
          var i :| 0 <= i < |q| && q[i] == x;
          assert if i < k then q[..k][i] == x else q[k + 1..][i - k - 1] == x;
        }
      }
    }
  }

  lemma PrioritizeScheduler(rt: Runtime, id: nat)
    requires SchedulerOk(rt)
    ensures SchedulerOk(Prioritize(rt, id))
    ensures forall x :: x in Prioritize(rt, id).queue <==> x in rt.queue
  {
    RemovedMembers(rt.queue, id);
  }

  lemma PrioritizeKeeps(rt: Runtime, id: nat)
    requires RuntimeOk(rt)
    ensures RuntimeOk(Prioritize(rt, id))
  {
    PrioritizeScheduler(rt, id);
  }

  /** Promotion puts the record first and leaves the others in their order;
      nothing is lost or duplicated. */
  lemma PromotionOrder(rt: Runtime, id: nat) returns (ahead: seq<nat>, behind: seq<nat>)
    requires id in rt.queue
    ensures rt.queue == ahead + [id] + behind
    ensures Prioritize(rt, id).queue == [id] + ahead + behind
  {
    var k := IndexOf(rt.queue, id);
    ahead, behind := rt.queue[..k], rt.queue[k + 1..];
  }

  lemma UnqueueScheduler(rt: Runtime, id: nat)
    requires SchedulerOk(rt)
    ensures SchedulerOk(rt.(queue := Removed(rt.queue, id)))
  {
    RemovedMembers(rt.queue, id);
  }

  lemma CancelKeeps(rt: Runtime, id: nat)
    requires RuntimeOk(rt)
    ensures RuntimeOk(Cancel(rt, id))
  {
    RequestCancelKeeps(rt, id);
    if Unfinished(rt, id) && id in rt.queue {
      UnqueueScheduler(RequestCancel(rt, id), id);
      FinishKeeps(RequestCancel(rt, id).(queue := Removed(rt.queue, id)), id, Cancelled);
    }
  }

  lemma DiscardKeeps(rt: Runtime, id: nat)
    requires RuntimeOk(rt)
    ensures RuntimeOk(Discard(rt, id))
  {
    var quiet := rt.(handlers := rt.handlers - {id});
    RequestCancelKeeps(quiet, id);
    FinishKeeps(RequestCancel(quiet, id), id, Cancelled);
  }

  // ---------------------------------------------------------------- recovery after a crash

  /** The ids of a log in the order in which they first appear. */
  function Ids(log: seq<LogLine>): seq<nat> {
    if log == [] then []
    else
      var before := Ids(log[..|log| - 1]);
      var id := log[|log| - 1].id;
      if id in before then before else before + [id]
  }

  lemma {:induction false} IdsAreKeys(log: seq<LogLine>)
    ensures Distinct(Ids(log))
    ensures forall id :: id in Ids(log) <==> id in Latest(log)
  {
    if log != [] {
      IdsAreKeys(log[..|log| - 1]);
    }
  }

  /** Close every listed record that the log leaves running. */
  function CloseOrphans(log: seq<LogLine>, latest: map<nat, LogStatus>, ids: seq<nat>): seq<LogLine>
    decreases |ids|
  {
    if ids == [] then log
    else if ids[0] in latest && latest[ids[0]].RunningStatus?
    then CloseOrphans(log + [LogLine(ids[0], Done(Cancelled))], latest, ids[1..])
    else CloseOrphans(log, latest, ids[1..])
  }

  /** The records of a log, each once, in some order. */
  ghost predicate Lists(order: seq<nat>, log: seq<LogLine>) {
    Distinct(order) && forall id :: id in order <==> id in Latest(log)
  }

  function Recovered(log: seq<LogLine>, order: seq<nat>): seq<LogLine> {
    CloseOrphans(log, Latest(log), order)
  }

  lemma {:induction false} CloseOrphansLatest(log: seq<LogLine>, latest: map<nat, LogStatus>, ids: seq<nat>)
    requires forall id :: id in ids ==> id in latest
    ensures Latest(CloseOrphans(log, latest, ids)).Keys == Latest(log).Keys + set id | id in ids && latest[id].RunningStatus?
    ensures forall id :: id in Latest(CloseOrphans(log, latest, ids)) ==>
      Latest(CloseOrphans(log, latest, ids))[id]
        == if id in ids && latest[id].RunningStatus? then Done(Cancelled) else Latest(log)[id]
    decreases |ids|
  {
    if ids != [] {
      if latest[ids[0]].RunningStatus? {
        LatestAppend(log, LogLine(ids[0], Done(Cancelled)));
        CloseOrphansLatest(log + [LogLine(ids[0], Done(Cancelled))], latest, ids[1..]);
      } else {
        CloseOrphansLatest(log, latest, ids[1..]);
      }
    }
  }

  /** Recovery, in whatever order, cancels exactly the records that were left
      running and touches no other. */
  lemma RecoveryCancelsOrphans(log: seq<LogLine>, order: seq<nat>)
    requires Lists(order, log)
    ensures Latest(Recovered(log, order)) ==
      map id | id in Latest(log) :: if Latest(log)[id].RunningStatus? then Done(Cancelled) else Latest(log)[id]
  {
    CloseOrphansLatest(log, Latest(log), order);
  }

  lemma {:induction false} NothingToClose(log: seq<LogLine>, latest: map<nat, LogStatus>, ids: seq<nat>)
    requires forall id :: id in latest ==> latest[id].Done?
    ensures CloseOrphans(log, latest, ids) == log
  {
    if ids != [] {
      NothingToClose(log, latest, ids[1..]);
    }
  }

  /** A second recovery appends nothing. */
  lemma RecoveryIsIdempotent(log: seq<LogLine>, order: seq<nat>, again: seq<nat>)
    requires Lists(order, log)
    ensures Recovered(Recovered(log, order), again) == Recovered(log, order)
  {
    RecoveryCancelsOrphans(log, order);
    NothingToClose(Recovered(log, order), Latest(Recovered(log, order)), again);
  }

  /** A crash at any point of a run, followed by recovery, keeps every status
      that was reached and turns every other record into a cancelled one. */
  lemma CrashRecovery(rt: Runtime, order: seq<nat>)
    requires RuntimeOk(rt) && Lists(order, rt.log)
    ensures Latest(Recovered(rt.log, order)) ==
      map id | id in rt.records :: if Unfinished(rt, id) then Done(Cancelled) else Done(rt.records[id].terminal.value)
  {
    RecoveryCancelsOrphans(rt.log, order);
  }

  // ---------------------------------------------------------------- the state file

  /** A line of the file: the parent session it belongs to, when its record
      started, and the status it logs. */
  datatype FileLine = FileLine(session: string, startedAt: int, line: LogLine)

  /** The log of one session. */
  function OwnLog(file: seq<FileLine>, session: string): seq<LogLine> {
    if file == [] then []
    else
      var rest := OwnLog(file[..|file| - 1], session);
      if file[|file| - 1].session == session then rest + [file[|file| - 1].line] else rest
  }

  /** When the records of a session started, by their last lines. */
  function Starts(file: seq<FileLine>, session: string): map<nat, int> {
    if file == [] then map[]
    else
      var rest := Starts(file[..|file| - 1], session);
      var l := file[|file| - 1];
      if l.session == session then rest[l.line.id := l.startedAt] else rest
  }

  lemma {:induction false} StartsOfLog(file: seq<FileLine>, session: string)
    ensures Starts(file, session).Keys == Latest(OwnLog(file, session)).Keys
  {
    if file != [] {
      StartsOfLog(file[..|file| - 1], session);
      if file[|file| - 1].session == session {
        LatestAppend(OwnLog(file[..|file| - 1], session), file[|file| - 1].line);
      }
    }
  }

  function StartAt(starts: map<nat, int>, id: nat): int {
    if id in starts then starts[id] else 0
  }

  /** Put a record behind every one that started no later. */
  function InsertByStart(ids: seq<nat>, starts: map<nat, int>, id: nat): seq<nat> {
    if ids != [] && StartAt(starts, ids[|ids| - 1]) > StartAt(starts, id)
    then InsertByStart(ids[..|ids| - 1], starts, id) + [ids[|ids| - 1]]
    else ids + [id]
  }

  function SortByStart(ids: seq<nat>, starts: map<nat, int>): seq<nat> {
    if ids == [] then [] else InsertByStart(SortByStart(ids[..|ids| - 1], starts), starts, ids[|ids| - 1])
  }

  predicate SortedByStart(ids: seq<nat>, starts: map<nat, int>) {
    forall i, j :: 0 <= i < j < |ids| ==> StartAt(starts, ids[i]) <= StartAt(starts, ids[j])
  }

  lemma {:induction false} InsertMembers(ids: seq<nat>, starts: map<nat, int>, id: nat)
    ensures forall x :: x in InsertByStart(ids, starts, id) <==> x in ids || x == id
  {
    if ids != [] && StartAt(starts, ids[|ids| - 1]) > StartAt(starts, id) {
      InsertMembers(ids[..|ids| - 1], starts, id);
      assert ids == ids[..|ids| - 1] + [ids[|ids| - 1]];
    }
  }

  lemma {:induction false} InsertCounts(ids: seq<nat>, starts: map<nat, int>, id: nat)
    ensures multiset(InsertByStart(ids, starts, id)) == multiset(ids) + multiset{id}
  {
    if ids != [] && StartAt(starts, ids[|ids| - 1]) > StartAt(starts, id) {
      InsertCounts(ids[..|ids| - 1], starts, id);
      assert ids == ids[..|ids| - 1] + [ids[|ids| - 1]];
    }
  }

  lemma {:induction false} InsertSorts(ids: seq<nat>, starts: map<nat, int>, id: nat)
    requires SortedByStart(ids, starts)
    ensures SortedByStart(InsertByStart(ids, starts, id), starts)
  {
    if ids != [] && StartAt(starts, ids[|ids| - 1]) > StartAt(starts, id) {
      var init, last := ids[..|ids| - 1], ids[|ids| - 1];
      InsertSorts(init, starts, id);
      InsertMembers(init, starts, id);
      var r := InsertByStart(init, starts, id);
      forall i | 0 <= i < |r| ensures StartAt(starts, r[i]) <= StartAt(starts, last) {
        assert r[i] in r;
      }
    }
  }

  /** Sorting by start is a sorted permutation. */
  lemma {:induction false} SortKeeps(ids: seq<nat>, starts: map<nat, int>)
    ensures SortedByStart(SortByStart(ids, starts), starts) && multiset(SortByStart(ids, starts)) == multiset(ids)
  {
    if ids != [] {
      var init, last := ids[..|ids| - 1], ids[|ids| - 1];
      SortKeeps(init, starts);
      InsertSorts(SortByStart(init, starts), starts, last);
      InsertCounts(SortByStart(init, starts), starts, last);
      assert ids == init + [last];
    }
  }

  lemma {:induction false} DistinctIsOnce(ids: seq<nat>)
    ensures Distinct(ids) <==> forall x :: multiset(ids)[x] <= 1
  {
    if ids != [] {
      var init, last := ids[..|ids| - 1], ids[|ids| - 1];
      DistinctIsOnce(init);
      assert ids == init + [last];
      assert multiset(ids) == multiset(init) + multiset{last};
      if Distinct(ids) {
        assert last !in init;
      } else if Distinct(init) {
        assert last in init;
        assert multiset(ids)[last] == 2;
      } else {
        var x :| multiset(init)[x] > 1;
        assert multiset(ids)[x] > 1;
      }
    }
  }

  /** The order in which the records of a session are replayed. */
  function ReplayOrder(file: seq<FileLine>, session: string): seq<nat> {
    SortByStart(Ids(OwnLog(file, session)), Starts(file, session))
  }

  lemma ReplayOrderLists(file: seq<FileLine>, session: string)
    ensures Lists(ReplayOrder(file, session), OwnLog(file, session))
    ensures SortedByStart(ReplayOrder(file, session), Starts(file, session))
  {
    var ids, order := Ids(OwnLog(file, session)), ReplayOrder(file, session);
    IdsAreKeys(OwnLog(file, session));
    SortKeeps(ids, Starts(file, session));
    DistinctIsOnce(ids);
    DistinctIsOnce(order);
    assert forall x :: x in order <==> x in multiset(order);
    assert forall x :: x in ids <==> x in multiset(ids);
  }

  /** Reading the file back: fold the lines of the session into maps, then order
      the records by when they started. */
  method LatestPersistedRecords(file: seq<FileLine>, session: string)
    returns (latest: map<nat, LogStatus>, starts: map<nat, int>, order: seq<nat>)
    ensures latest == Latest(OwnLog(file, session)) && starts == Starts(file, session) && order == ReplayOrder(file, session)
  {
    latest, starts := map[], map[];
    var ids: seq<nat> := [];
    for i := 0 to |file|
      invariant latest == Latest(OwnLog(file[..i], session)) && starts == Starts(file[..i], session) && ids == Ids(OwnLog(file[..i], session))
    {
      assert file[..i + 1][..i] == file[..i];
      var l := file[i];
      if l.session == session {
        FoldOne(OwnLog(file[..i], session), l.line);
        if l.line.id !in latest {
          ids := ids + [l.line.id];
        }
        latest := latest[l.line.id := l.line.status];
        starts := starts[l.line.id := l.startedAt];
      }
    }
    assert file[..|file|] == file;
    order := SortByStart(ids, starts);
  }

  lemma FoldOne(log: seq<LogLine>, l: LogLine)
    ensures Latest(log + [l]) == Latest(log)[l.id := l.status]
    ensures Ids(log + [l]) == if l.id in Latest(log) then Ids(log) else Ids(log) + [l.id]
  {
    LatestAppend(log, l);
    IdsAreKeys(log);
    assert (log + [l])[..|log|] == log;
  }

  /** A line changes the log of its own session only. */
  method AppendPersisted(file: seq<FileLine>, session: string, startedAt: int, id: nat) returns (after: seq<FileLine>)
    ensures OwnLog(after, session) == OwnLog(file, session) + [LogLine(id, Done(Cancelled))]
    ensures forall other :: other != session ==> OwnLog(after, other) == OwnLog(file, other)
  {
    var l := FileLine(session, startedAt, LogLine(id, Done(Cancelled)));
    after := file + [l];
    assert after[..|file|] == file;
  }

  /** Recovery as the program does it: append one cancellation per record of the
      session left running, in replay order; other sessions keep their logs. */
  method ReplayForRecovery(file: seq<FileLine>, session: string) returns (after: seq<FileLine>)
    ensures OwnLog(after, session) == Recovered(OwnLog(file, session), ReplayOrder(file, session))
    ensures forall other :: other != session ==> OwnLog(after, other) == OwnLog(file, other)
  {
    var latest, starts, order := LatestPersistedRecords(file, session);
    ReplayOrderLists(file, session);
    StartsOfLog(file, session);
    after := file;
    for i := 0 to |order|
      invariant CloseOrphans(OwnLog(after, session), latest, order[i..]) == Recovered(OwnLog(file, session), order)
      invariant forall other :: other != session ==> OwnLog(after, other) == OwnLog(file, other)
    {
      var id := order[i];
      assert order[i..][1..] == order[i + 1..];
      assert id in order;
      if latest[id].RunningStatus? {
        after := AppendPersisted(after, session, starts[id], id);
      }
    }
    assert order[|order|..] == [];
  }

  /** What scheduling a record comes to. */
  datatype Placement = NowRunning | NowQueued | Skipped

  // ---------------------------------------------------------------- the runtime itself

  class SubagentRuntime {
    var records: map<nat, Record>
    var queuedBackground: seq<nat>
    var runningBackgroundIds: set<nat>
    var runningBackground: int
    var nextId: nat
    var finishHandlers: set<nat>
    var inflight: set<nat>
    var log: seq<LogLine>
    var emitted: seq<(nat, Terminal)>

    function View(): Runtime
      reads this
    {
      Runtime(records, queuedBackground, runningBackgroundIds, runningBackground, nextId, finishHandlers, inflight, log, emitted)
    }

    constructor ()
      ensures View() == InitRuntime() && RuntimeOk(View())
    {
      records, queuedBackground, runningBackgroundIds, runningBackground := map[], [], {}, 0;
      nextId, finishHandlers, inflight, log, emitted := 0, {}, {}, [], [];
    }

    method AddRecord(path: Path) returns (id: nat)
      modifies this
      ensures id == old(nextId)
      ensures View() == CreateRecord(old(View()), path)
    {
      id := nextId;
      nextId := nextId + 1;
      records := records[id := Record(path, None, false)];
      finishHandlers := finishHandlers + {id};
      log := log + [LogLine(id, RunningStatus)];
    }

    method FinishRecord(id: nat, status: Terminal)
      modifies this
      ensures View() == Finish(old(View()), id, status)
    {
      if id !in records || records[id].terminal.Some? {
        return;
      }
      records := records[id := records[id].(terminal := Some(status))];
      log := log + [LogLine(id, Done(status))];
      emitted := emitted + [(id, status)];
      if id in finishHandlers {
        finishHandlers := finishHandlers - {id};
        inflight := inflight + {id};
      }
    }

    method AskCancel(id: nat)
      modifies this`records
      ensures View() == RequestCancel(old(View()), id)
    {
      if id in records && records[id].terminal.None? {
        records := records[id := records[id].(cancelRequested := true)];
      }
    }

    method ScheduleBackgroundTask(id: nat) returns (place: Placement)
      modifies this
      ensures View() == Schedule(old(View()), id)
      ensures place.Skipped? <==> !Unfinished(old(View()), id) || old(records)[id].cancelRequested
      ensures place.NowQueued? <==> queuedBackground == old(queuedBackground) + [id]
      ensures place.NowRunning? <==> runningBackground == old(runningBackground) + 1
    {
      if id !in records || records[id].terminal.Some? {
        return Skipped;
      }
      if records[id].cancelRequested {
        FinishRecord(id, Cancelled);
        return Skipped;
      }
      if runningBackground >= MAX_BACKGROUND_CONCURRENCY {
        queuedBackground := queuedBackground + [id];
        return NowQueued;
      }
      runningBackground := runningBackground + 1;
      runningBackgroundIds := runningBackgroundIds + {id};
      return NowRunning;
    }

    /** The run's promise has settled. */
    method RunSettled(id: nat)
      modifies this
      ensures View() == ReleaseSlot(old(View()), id)
    {
      runningBackgroundIds := runningBackgroundIds - {id};
      runningBackground := runningBackground - 1;
      while |queuedBackground| > 0
        invariant StartNext(View()) == ReleaseSlot(old(View()), id)
        decreases |queuedBackground|
      {
        var head := queuedBackground[0];
        queuedBackground := queuedBackground[1..];
        if head in records && records[head].terminal.None? && !records[head].cancelRequested {
          var _ := ScheduleBackgroundTask(head);
          return;
        }
      }
    }

    method PrioritizeBackground(id: nat) returns (promoted: bool)
      modifies this`queuedBackground
      ensures View() == Prioritize(old(View()), id)
      ensures promoted == (id in old(queuedBackground))
    {
      var index := IndexOf(queuedBackground, id);
      if index == |queuedBackground| {
        return false;
      }
      if index > 0 {
        queuedBackground := [id] + (queuedBackground[..index] + queuedBackground[index + 1..]);
      } else {
        assert queuedBackground == [id] + queuedBackground[1..];
      }
      return true;
    }

    method CancelRun(id: nat)
      modifies this
      ensures View() == Cancel(old(View()), id)
    {
      if id !in records || records[id].terminal.Some? {
        return;
      }
      var index := IndexOf(queuedBackground, id);
      AskCancel(id);
      if index < |queuedBackground| {
        queuedBackground := queuedBackground[..index] + queuedBackground[index + 1..];
        FinishRecord(id, Cancelled);
      }
    }

    method DiscardRun(id: nat)
      modifies this
      ensures View() == Discard(old(View()), id)
    {
      if id !in records || records[id].terminal.Some? {
        return;
      }
      finishHandlers := finishHandlers - {id};
      AskCancel(id);
      FinishRecord(id, Cancelled);
    }
  }
}
