/** The Next.js server's state as one object: the PrintJob table and the
    two directories, updated in place by the upload and print routes.
    Each handler is a method whose new state and reply are those of the
    route's function over the old state. */
module Server {
  import opened Wrappers
  import opened Records
  import opened Store
  import UploadRoute
  import PrintRoute

  class Server {
    var jobs: seq<PrintJob>
    var nextId: nat
    var uploads: set<string>
    var staged: set<string>

    function State(): Store
      reads this
    {
      Store(jobs, nextId, uploads, staged)
    }

    ghost predicate Valid()
      reads this
    {
      WellFormed(State())
    }

    /** An empty database and empty directories. */
    constructor ()
      ensures Valid() && State() == Store([], 0, {}, {})
    {
      jobs, nextId, uploads, staged := [], 0, {}, {};
    }

    /** `POST /api/upload`. */
    method Upload(session: Option<string>, form: UploadForm, env: UploadRoute.UploadEnv) returns (reply: Reply)
      requires Valid()
      modifies this
      ensures Valid()
      ensures UploadRoute.Outcome(State(), reply) == UploadRoute.Upload(old(State()), session, form, env)
    {
      if session.None? {
        return Unauthorized;
      }
      if form.UnreadableForm? || form.settings.SettingsMalformed? {
        return InternalError;
      }
      var file := form.file;
      if file.None? {
        return NoFile;
      }
      var fileName := UploadRoute.StoredName(env.timestamp, file.value.name);
      if !env.diskOk {
        return InternalError;
      }
      uploads := uploads + {fileName};
      if form.settings.SettingsNull? || !env.dbOk {
        return InternalError;
      }
      var job := UploadRoute.NewJob(nextId, session.value, fileName, file.value, form.settings.settings, env.createdAt);
      jobs := jobs + [job];
      nextId := nextId + 1;
      reply := Reply(200, UploadAccepted(job.id, fileName));
    }

    /** `POST /api/print`; `command` is what is posted to the print
      service, if the handler gets that far. */
    method Dispatch(session: Option<string>, body: Option<PrintBody>, upstream: PrintRoute.Upstream)
      returns (reply: Reply, command: Option<PrintCommand>)
      requires Valid()
      modifies this
      ensures Valid()
      ensures PrintRoute.DispatchOutcome(State(), reply, command) == PrintRoute.Dispatch(old(State()), session, body, upstream)
    {
      command := None;
      if session.None? {
        return Unauthorized, None;
      }
      if body.None? {
        return InternalError, None;
      }
      var fileName := body.value.fileName;
      var userId := session.value;
      if fileName !in uploads {
        return InternalError, None;
      }
      staged := staged + {fileName};
      jobs := SetStatus(jobs, fileName, userId, Printing);
      command := Some(PrintCommand(fileName, PrintPath(fileName), body.value.settings, userId));
      if upstream == PrintRoute.UpstreamUnreachable {
        return InternalError, command;
      }
      if upstream == PrintRoute.UpstreamNotOk {
        jobs := SetStatus(jobs, fileName, userId, Failed);
        return InternalError, command;
      }
      reply := Reply(200, PrintAccepted);
    }
  }
}
