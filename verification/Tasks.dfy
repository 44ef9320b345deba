/** backend/internal/app/app.go: task admission, cancel and resume. */
module Tasks {
  import opened Wrappers
  import opened Tables

  const TEAM_QUOTA: nat := 200

  function ActiveTasks(tasks: map<Id, Task>, team: string): set<Id> {
    set id | id in tasks && tasks[id].inv.team == team && tasks[id].inv.status in {Queued, Running}
  }

  function NewInvestigation(s: Service, service: string, u: string, idem: string, hash: string,
      symptom: string): Investigation {
    Investigation(s.team, service, u, idem, hash, symptom, Queued, None, None, s.watermark, 0)
  }

  function NewJob(now: int): Job {
    Job(JobQueued, None, 0, 0, None, now, "", None, None)
  }

  function NewTask(now: int, s: Service, service: string, u: string, idem: string, hash: string,
      symptom: string): Task {
    Task(NewInvestigation(s, service, u, idem, hash, symptom), NewJob(now), map[], None, []).WithEvent(QueuedEvent)
  }

  /** createTask; the returned id is the earlier one when the key was used before. */
  function CreateTx(db: Db, now: int, u: string, idem: string, hash: string, service: string, symptom: string,
      id: Id): (r: Outcome<Id>)
    requires db.Valid() && id !in db.tasks
    ensures r.db.Valid()
  {
    if (u, idem) in db.idems then
      var prior := db.idems[(u, idem)];
      if db.tasks[prior].inv.requestHash != hash
      then Outcome(db, Err(IdempotencyPayloadConflict))
      else Outcome(db, Ok(prior))
    else if service !in db.services || !db.services[service].enabled then Outcome(db, Err(NoRows))
    else if !db.Member(u, db.services[service].team, false) then Outcome(db, Err(TeamForbidden))
    else if |ActiveTasks(db.tasks, db.services[service].team)| >= TEAM_QUOTA then Outcome(db, Err(TeamQuotaExhausted))
    else
      var t := NewTask(now, db.services[service], service, u, idem, hash, symptom);
      Outcome(db.(idems := db.idems[(u, idem) := id], tasks := db.tasks[id := t]), Ok(id))
  }

  /** An action still under human control is withdrawn. */
  function Withdrawn(a: Option<Action>): Option<Action> {
    if a.Some? && a.value.state.Pending() then Some(a.value.(state := Invalidated)) else a
  }

  /** Cancelling touches whatever state the task is in; dispatched actions are left alone. */
  function CancelledTask(t: Task): Task {
    t.(inv := t.inv.(status := Cancelled),
       job := t.job.(state := JobCancelled, leaseUntil := None),
       action := Withdrawn(t.action)).WithEvent(CancelledEvent)
  }

  function CancelTx(db: Db, id: Id): (r: Outcome<()>)
    requires db.Valid()
    ensures r.db.Valid()
  {
    if id !in db.tasks then Outcome(db, Err(NoRows))
    else Outcome(db.WithTask(id, CancelledTask(db.tasks[id])), Ok(()))
  }

  predicate Resumable(s: Status) {
    s in {WaitingInformation, Failed, Partial, Completed}
  }

  function ResumedTask(t: Task, now: int, information: string, watermark: nat): Task {
    t.(inv := t.inv.(status := Queued, symptom := t.inv.symptom + "\n" + information, sourceVersion := watermark),
       job := t.job.(state := JobQueued, availableAt := now, attempts := 0, lastCallback := None, resultHash := None),
       action := if t.action.Some? && !t.action.value.state.Dispatched()
                 then Some(t.action.value.(state := Invalidated)) else t.action).WithEvent(ResumedEvent)
  }

  function ResumeTx(db: Db, now: int, id: Id, information: string): (r: Outcome<()>)
    requires db.Valid()
    ensures r.db.Valid()
  {
    if |information| > 4000 then Outcome(db, Err(InformationTooLarge))
    else if id !in db.tasks || !Resumable(db.tasks[id].inv.status) then Outcome(db, Err(NotResumable))
    else Outcome(db.WithTask(id, ResumedTask(db.tasks[id], now, information, db.ServiceOf(id).watermark)), Ok(()))
  }

  // ---- the handlers over the store ---------------------------------------------------

  method Create(st: Store, now: int, u: string, idem: string, hash: string, service: string, symptom: string, id: Id)
    returns (reply: Result<Id, Error>)
    requires st.Snapshot().Valid() && id !in st.tasks
    modifies st
    ensures Outcome(st.Snapshot(), reply) == CreateTx(old(st.Snapshot()), now, u, idem, hash, service, symptom, id)
  {
    if (u, idem) in st.idems {
      var prior := st.idems[(u, idem)];
      if st.tasks[prior].inv.requestHash != hash {
        return Err(IdempotencyPayloadConflict);
      }
      return Ok(prior);
    }
    if service !in st.services || !st.services[service].enabled {
      return Err(NoRows);
    }
    var s := st.services[service];
    if !st.Member(u, s.team, false) {
      return Err(TeamForbidden);
    }
    if |ActiveTasks(st.tasks, s.team)| >= TEAM_QUOTA {
      return Err(TeamQuotaExhausted);
    }
    var row := NewInvestigation(s, service, u, idem, hash, symptom);
    st.idems := st.idems[(u, idem) := id];
    var t := Task(row, NewJob(now), map[], None, []);
    t := t.WithEvent(QueuedEvent);
    st.Commit(id, t);
    reply := Ok(id);
  }

  method Cancel(st: Store, id: Id) returns (reply: Result<(), Error>)
    requires st.Snapshot().Valid()
    modifies st
    ensures Outcome(st.Snapshot(), reply) == CancelTx(old(st.Snapshot()), id)
  {
    if id !in st.tasks {
      return Err(NoRows);
    }
    var t := st.tasks[id];
    t := t.(inv := t.inv.(status := Cancelled));
    t := t.(job := t.job.(state := JobCancelled, leaseUntil := None));
    if t.action.Some? && t.action.value.state in {Draft, Approved, Rejected} {
      t := t.(action := Some(t.action.value.(state := Invalidated)));
    }
    st.Commit(id, t.WithEvent(CancelledEvent));
    reply := Ok(());
  }

  method Resume(st: Store, now: int, id: Id, information: string) returns (reply: Result<(), Error>)
    requires st.Snapshot().Valid()
    modifies st
    ensures Outcome(st.Snapshot(), reply) == ResumeTx(old(st.Snapshot()), now, id, information)
  {
    if |information| > 4000 {
      return Err(InformationTooLarge);
    }
    if id !in st.tasks || !Resumable(st.tasks[id].inv.status) {
      return Err(NotResumable);
    }
    var t := st.tasks[id];
    t := t.(inv := t.inv.(status := Queued, symptom := t.inv.symptom + "\n" + information,
                          sourceVersion := st.services[t.inv.service].watermark));
    t := t.(job :=
        t.job.(state := JobQueued, availableAt := now, attempts := 0, lastCallback := None, resultHash := None));
    if t.action.Some? && t.action.value.state !in {Succeeded, Unknown, Executing} {
      t := t.(action := Some(t.action.value.(state := Invalidated)));
    }
    st.Commit(id, t.WithEvent(ResumedEvent));
    reply := Ok(());
  }
}
