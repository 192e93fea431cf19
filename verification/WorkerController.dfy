/** server/src/controllers/worker.controller.ts and the suspension and verification handlers of
    server/src/controllers/admin-worker.controller.ts. */
module WorkerController {
  import opened Schema
  import opened DispatchController

  function Register(s: State): State {
    s.(workers := s.workers + [Worker(OffDuty, None, false, false, 0.0, 0)])
  }

  function Verify(s: State, w: WorkerId, approved: bool): (State, Reply) {
    if w >= |s.workers| then (s, NotFound)
    else (s.(workers := s.workers[w := s.workers[w].(approved := approved)]), Ok)
  }

  /** The body schema admits only AVAILABLE and OFF_DUTY. */
  function SetAvailability(s: State, w: WorkerId, availability: Availability): (State, Reply) {
    if availability != Available && availability != OffDuty then (s, ValidationError)
    else if w >= |s.workers| then (s, NotFound)
    else if s.workers[w].suspended && availability == Available then (s, AccountSuspended)
    else (s.(workers := s.workers[w := s.workers[w].(availability := availability)]), Ok)
  }

  function SetSuspension(s: State, w: WorkerId, suspended: bool): (State, Reply) {
    if w >= |s.workers| then (s, NotFound)
    else
      var worker := s.workers[w].(suspended := suspended);
      (s.(workers := s.workers[w := if suspended then worker.(availability := OffDuty) else worker]), Ok)
  }

  method UpdateAvailability(db: Database, w: WorkerId, availability: Availability) returns (reply: Reply)
    modifies db`workers
    ensures (db.Snapshot(), reply) == SetAvailability(old(db.Snapshot()), w, availability)
  {
    if availability != Available && availability != OffDuty {
      return ValidationError;
    }
    if w >= |db.workers| {
      return NotFound;
    }
    if db.workers[w].suspended && availability == Available {
      return AccountSuspended;
    }
    db.workers := db.workers[w := db.workers[w].(availability := availability)];
    return Ok;
  }

  method SetWorkerSuspension(db: Database, w: WorkerId, suspended: bool) returns (reply: Reply)
    modifies db`workers
    ensures (db.Snapshot(), reply) == SetSuspension(old(db.Snapshot()), w, suspended)
  {
    if w >= |db.workers| {
      return NotFound;
    }
    var worker := db.workers[w].(suspended := suspended);
    if suspended {
      worker := worker.(availability := OffDuty);
    }
    db.workers := db.workers[w := worker];
    return Ok;
  }
}
