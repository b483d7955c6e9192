/**
 * Study tasks and their sessions. A task is created `pending`; starting it
 * opens a fresh session and makes it `in_progress`; pausing appends a manual
 * pause to the current session's interruption log; completing ends the
 * session and marks the task `completed`. A completed task may be started
 * again: only a task already in progress is refused.
 *
 * The two document collections are maps held by one object; fresh document
 * ids come from a counter and the current time is a parameter.
 */
module Tasks {
  import opened Wrappers
  import opened Readings
  import opened SessionMetrics

  type Id = nat

  datatype TaskStatus = Pending | InProgress | Completed

  datatype Task = Task(
    userId: string,
    title: string,
    status: TaskStatus,
    currentSessionId: Option<Id>,
    createdAt: Time,
    updatedAt: Time,
    completedAt: Option<Time>)

  datatype SessionStatus = Active | Paused | Finished

  datatype Interruption = Interruption(time: Time, kind: string, reason: Option<string>)

  const ManualPause: string := "manual_pause"

  datatype StudySession = StudySession(
    taskId: Id,
    userId: string,
    startTime: Time,
    endTime: Option<Time>,
    status: SessionStatus,
    focusScore: int,
    interruptions: seq<Interruption>,
    updatedAt: Option<Time>)

  /** An error the HTTP layer reports with its status code and message. */
  datatype ApiError = ApiError(status: nat, message: string)

  const TaskNotFound := ApiError(404, "Task not found")
  const AlreadyInProgress := ApiError(400, "Task is already in progress")
  const NoActiveSession := ApiError(400, "No active session found")
  const SessionNotFound := ApiError(404, "Session not found")

  /** What the session statistics endpoint reports. */
  datatype SessionStats = SessionStats(
    duration: Option<real>,
    interruptions: nat,
    focusScore: int,
    status: SessionStatus)

  /** A task has a current session exactly while it is in progress, and a completion time once completed. */
  predicate TaskConsistent(t: Task)
  {
    && (t.currentSessionId.Some? <==> t.status == InProgress)
    && (t.status == Completed ==> t.completedAt.Some?)
  }

  /** A session has an end time exactly when it is finished. */
  predicate SessionConsistent(s: StudySession)
  {
    s.endTime.Some? <==> s.status == Finished
  }

  /** The session a new start opens: active, no end time, score 0, no interruptions. */
  function NewSession(taskId: Id, t: Task, now: Time): (s: StudySession)
    ensures s.status == Active && s.endTime.None? && s.interruptions == [] && s.focusScore == 0
    ensures s.taskId == taskId && s.userId == t.userId && s.startTime == now
    ensures SessionConsistent(s)
  {
    StudySession(taskId, t.userId, now, None, Active, 0, [], None)
  }

  class TaskBoard {
    var tasks: map<Id, Task>
    var sessions: map<Id, StudySession>
    var nextId: nat

    /**
     * Every id was handed out by the counter; every task and session is
     * consistent; a task's current session exists, belongs to it and is
     * active; and an active session is the current session of its task.
     */
    ghost predicate Valid()
      reads this
    {
      && (forall id :: id in tasks ==> id < nextId)
      && (forall id :: id in sessions ==> id < nextId)
      && (forall id :: id in tasks ==> TaskConsistent(tasks[id]))
      && (forall id :: id in sessions ==> SessionConsistent(sessions[id]))
      && (forall id :: id in tasks && tasks[id].currentSessionId.Some? ==>
            var sid := tasks[id].currentSessionId.value;
            sid in sessions && sessions[sid].taskId == id && sessions[sid].status == Active)
      && (forall sid :: sid in sessions && sessions[sid].status == Active ==>
            sessions[sid].taskId in tasks && tasks[sessions[sid].taskId].currentSessionId == Some(sid))
    }

    /** A task has at most one active session at any time. */
    lemma AtMostOneActive(a: Id, b: Id)
      requires Valid()
      requires a in sessions && b in sessions
      requires sessions[a].status == Active && sessions[b].status == Active
      requires sessions[a].taskId == sessions[b].taskId
      ensures a == b
    {
    }

    constructor ()
      ensures Valid()
      ensures tasks == map[] && sessions == map[]
    {
      tasks := map[];
      sessions := map[];
      nextId := 0;
    }

    /** A new task is pending, with no session and no completion time. */
    method CreateTask(userId: string, title: string, now: Time) returns (id: Id)
      requires Valid()
      modifies this
      ensures Valid()
      ensures id !in old(tasks) && id !in old(sessions)
      ensures tasks == old(tasks)[id := Task(userId, title, Pending, None, now, now, None)]
      ensures sessions == old(sessions)
    {
      id := nextId;
      nextId := nextId + 1;
      tasks := tasks[id := Task(userId, title, Pending, None, now, now, None)];
    }

    method StartSession(taskId: Id, now: Time) returns (r: Result<Id, ApiError>)
      requires Valid()
      modifies this
      ensures Valid()
      ensures taskId !in old(tasks) ==> r == Failure(TaskNotFound) && unchanged(this)
      ensures taskId in old(tasks) && old(tasks)[taskId].status == InProgress ==>
        r == Failure(AlreadyInProgress) && unchanged(this)
      ensures taskId in old(tasks) && old(tasks)[taskId].status != InProgress ==>
        && r.Success?
        && r.value !in old(sessions) && r.value !in old(tasks)
        && sessions == old(sessions)[r.value := NewSession(taskId, old(tasks)[taskId], now)]
        && tasks == old(tasks)[taskId := old(tasks)[taskId].(
             status := InProgress, currentSessionId := Some(r.value), updatedAt := now)]
    {
      if taskId !in tasks {
        return Failure(TaskNotFound);
      }
      var task := tasks[taskId];
      if task.status == InProgress {
        return Failure(AlreadyInProgress);
      }
      var sid := nextId;
      nextId := nextId + 1;
      sessions := sessions[sid := NewSession(taskId, task, now)];
      tasks := tasks[taskId := task.(status := InProgress, currentSessionId := Some(sid), updatedAt := now)];
      r := Success(sid);
    }

    method PauseSession(taskId: Id, now: Time) returns (r: Result<(), ApiError>)
      requires Valid()
      modifies this
      ensures Valid()
      ensures taskId !in old(tasks) ==> r == Failure(TaskNotFound) && unchanged(this)
      ensures taskId in old(tasks) && old(tasks)[taskId].currentSessionId.None? ==>
        r == Failure(NoActiveSession) && unchanged(this)
      ensures taskId in old(tasks) && old(tasks)[taskId].currentSessionId.Some? ==>
        var sid := old(tasks)[taskId].currentSessionId.value;
        var s := old(sessions)[sid];
        && r == Success(())
        && sessions == old(sessions)[sid := s.(
             interruptions := s.interruptions + [Interruption(now, ManualPause, None)],
             updatedAt := Some(now))]
        && tasks == old(tasks)
        && nextId == old(nextId)
    {
      if taskId !in tasks {
        return Failure(TaskNotFound);
      }
      var task := tasks[taskId];
      if task.currentSessionId.None? {
        return Failure(NoActiveSession);
      }
      var sid := task.currentSessionId.value;
      var s := sessions[sid];
      sessions := sessions[sid := s.(
        interruptions := s.interruptions + [Interruption(now, ManualPause, None)],
        updatedAt := Some(now))];
      r := Success(());
    }

    method CompleteSession(taskId: Id, now: Time) returns (r: Result<(), ApiError>)
      requires Valid()
      modifies this
      ensures Valid()
      ensures taskId !in old(tasks) ==> r == Failure(TaskNotFound) && unchanged(this)
      ensures taskId in old(tasks) && old(tasks)[taskId].currentSessionId.None? ==>
        r == Failure(NoActiveSession) && unchanged(this)
      ensures taskId in old(tasks) && old(tasks)[taskId].currentSessionId.Some? ==>
        var t := old(tasks)[taskId];
        var sid := t.currentSessionId.value;
        && r == Success(())
        && sessions == old(sessions)[sid := old(sessions)[sid].(endTime := Some(now), status := Finished)]
        && tasks == old(tasks)[taskId := t.(
             status := Completed, completedAt := Some(now), updatedAt := now, currentSessionId := None)]
        && nextId == old(nextId)
    {
      if taskId !in tasks {
        return Failure(TaskNotFound);
      }
      var task := tasks[taskId];
      if task.currentSessionId.None? {
        return Failure(NoActiveSession);
      }
      var sid := task.currentSessionId.value;
      sessions := sessions[sid := sessions[sid].(endTime := Some(now), status := Finished)];
      tasks := tasks[taskId := task.(
        status := Completed, completedAt := Some(now), updatedAt := now, currentSessionId := None)];
      r := Success(());
    }

    /** Duration (null while running), number of interruptions, focus score and status of a session. */
    method GetSessionStats(sessionId: Id) returns (r: Result<SessionStats, ApiError>)
      ensures sessionId !in sessions ==> r == Failure(SessionNotFound)
      ensures sessionId in sessions ==>
        var s := sessions[sessionId];
        r == Success(SessionStats(
          DurationSeconds(s.startTime, s.endTime), |s.interruptions|, s.focusScore, s.status))
      ensures r.Success? ==> (r.value.duration.None? <==> sessions[sessionId].endTime.None?)
    {
      if sessionId !in sessions {
        return Failure(SessionNotFound);
      }
      var s := sessions[sessionId];
      r := Success(SessionStats(
        DurationSeconds(s.startTime, s.endTime), |s.interruptions|, s.focusScore, s.status));
    }
  }

  /**
   * Start, pause twice and complete one task: the session holds exactly two
   * manual pauses and a duration, and the task is completed with no current
   * session.
   */
  method StartPausePauseComplete() returns (stats: Result<SessionStats, ApiError>, task: Task)
    ensures stats == Success(SessionStats(Some(60.0), 2, 0, Finished))
    ensures task.status == Completed && task.currentSessionId.None? && task.completedAt == Some(61000)
  {
    var board := new TaskBoard();
    var id := board.CreateTask("student", "algebra", 0);
    var started := board.StartSession(id, 1000);
    var sid := started.value;
    var _ := board.PauseSession(id, 2000);
    var _ := board.PauseSession(id, 3000);
    assert board.sessions[sid].interruptions ==
      [Interruption(2000, ManualPause, None), Interruption(3000, ManualPause, None)];
    var _ := board.CompleteSession(id, 61000);
    stats := board.GetSessionStats(sid);
    task := board.tasks[id];
  }

  /** Once a task's session is completed, a further pause or completion is refused with 400. */
  method CompletedTaskRefusesPause() returns (laterPause: Result<(), ApiError>, laterComplete: Result<(), ApiError>)
    ensures laterPause == Failure(NoActiveSession) && laterComplete == Failure(NoActiveSession)
    ensures laterPause.error.status == 400
  {
    var board := new TaskBoard();
    var id := board.CreateTask("student", "algebra", 0);
    var _ := board.StartSession(id, 1000);
    var _ := board.CompleteSession(id, 61000);
    laterPause := board.PauseSession(id, 62000);
    laterComplete := board.CompleteSession(id, 63000);
  }

  /**
   * A second start while the first session runs is refused; after completion
   * the task can be started again, which opens a different session and leaves
   * the finished one as it was.
   */
  method StartTwiceAndRestart() returns (
    second: Result<Id, ApiError>, first: Id, restart: Result<Id, ApiError>, firstAfter: StudySession)
    ensures second == Failure(AlreadyInProgress)
    ensures restart.Success? && restart.value != first
    ensures firstAfter.status == Finished && firstAfter.endTime == Some(20)
  {
    var board := new TaskBoard();
    var id := board.CreateTask("student", "physics", 0);
    var started := board.StartSession(id, 10);
    first := started.value;
    second := board.StartSession(id, 15);
    var _ := board.CompleteSession(id, 20);
    restart := board.StartSession(id, 30);
    firstAfter := board.sessions[first];
  }

  /** Every operation on a task that does not exist fails with 404 and changes nothing. */
  method MissingTask() returns (
    start: Result<Id, ApiError>, pause: Result<(), ApiError>, complete: Result<(), ApiError>,
    stats: Result<SessionStats, ApiError>)
    ensures start == Failure(TaskNotFound) && pause == Failure(TaskNotFound) && complete == Failure(TaskNotFound)
    ensures stats == Failure(SessionNotFound)
    ensures start.error.status == 404 && stats.error.status == 404
  {
    var board := new TaskBoard();
    start := board.StartSession(7, 0);
    pause := board.PauseSession(7, 0);
    complete := board.CompleteSession(7, 0);
    stats := board.GetSessionStats(7);
  }
}
