/** `POST /api/print` (src/app/api/print/route.ts) as a function from the
    store and the request to the new store, the reply and the command
    posted to the print service. The session is the signed-in user's id,
    if any; the answer of the print service is an input. */
module PrintRoute {
  import opened Wrappers
  import opened Records
  import opened Store

  /** How the `fetch` to the print service ended: an OK response, a
      response that is not OK, or a rejected promise (service
      unreachable). */
  datatype Upstream = UpstreamOk | UpstreamNotOk | UpstreamUnreachable

  datatype DispatchOutcome = DispatchOutcome(store: Store, reply: Reply, command: Option<PrintCommand>)

  /** The status the matching rows end with when the command was sent:
      only a response that is not OK marks them failed. A rejected
      `fetch` jumps straight to the `catch` and leaves them printing. */
  function FinalStatus(upstream: Upstream): (status: JobStatus)
    ensures status == Failed <==> upstream == UpstreamNotOk
    ensures status != Failed ==> status == Printing
  {
    if upstream == UpstreamNotOk then Failed else Printing
  }

  /** The dispatch handler. `body` is None when `request.json()` does not
      yield a file name and settings. In its order: 401 without a
      session; copy `public/uploads/<fileName>` to `public/print/`, and
      500 with nothing else done when the source file is missing; mark the
      matching rows `printing`; post the command; mark the same rows
      `failed` and answer 500 if the response is not OK. */
  function Dispatch(st: Store, session: Option<string>, body: Option<PrintBody>, upstream: Upstream): (o: DispatchOutcome)
    ensures session.None? ==> o == DispatchOutcome(st, Unauthorized, None)
    ensures o.command.Some? <==> session.Some? && body.Some? && body.value.fileName in st.uploads
    ensures o.command.Some? ==>
              o.command.value == PrintCommand(body.value.fileName, PrintPath(body.value.fileName), body.value.settings, session.value)
    ensures o.command.None? ==> o.store == st
    ensures o.store.uploads == st.uploads && o.store.nextId == st.nextId
    ensures o.store.staged == st.staged || (body.Some? && o.store.staged == st.staged + {body.value.fileName})
    ensures |o.store.jobs| == |st.jobs|
    ensures o.command.Some? ==> forall i :: 0 <= i < |st.jobs| ==>
              if Matches(st.jobs[i], body.value.fileName, session.value)
              then o.store.jobs[i] == st.jobs[i].(status := FinalStatus(upstream))
              else o.store.jobs[i] == st.jobs[i]
    ensures o.reply == Reply(200, PrintAccepted) <==> o.command.Some? && upstream == UpstreamOk
    ensures session.Some? && o.reply.status != 200 ==> o.reply == InternalError
    ensures WellFormed(st) ==> WellFormed(o.store)
  {
    if session.None? then DispatchOutcome(st, Unauthorized, None)
    else if body.None? then DispatchOutcome(st, InternalError, None)
    else
      var fileName := body.value.fileName;
      var userId := session.value;
      if fileName !in st.uploads then DispatchOutcome(st, InternalError, None)
      else
        var copied := st.(staged := st.staged + {fileName});
        var printing := copied.(jobs := SetStatus(st.jobs, fileName, userId, Printing));
        SetStatusWellFormed(copied, fileName, userId, Printing);
        var command := PrintCommand(fileName, PrintPath(fileName), body.value.settings, userId);
        match upstream
        case UpstreamOk => DispatchOutcome(printing, Reply(200, PrintAccepted), Some(command))
        case UpstreamUnreachable => DispatchOutcome(printing, InternalError, Some(command))
        case UpstreamNotOk =>
          SetStatusWellFormed(printing, fileName, userId, Failed);
          SetStatusTwice(st.jobs, fileName, userId, Printing, Failed);
          DispatchOutcome(printing.(jobs := SetStatus(printing.jobs, fileName, userId, Failed)), InternalError, Some(command))
  }

  /** After a dispatch no row of another file or another user has
      changed, and every row of this file and user has the same fields
      as before except the status. */
  lemma DispatchFrame(st: Store, userId: string, body: PrintBody, upstream: Upstream, i: nat)
    requires i < |st.jobs|
    ensures var o := Dispatch(st, Some(userId), Some(body), upstream);
      && i < |o.store.jobs|
      && (!Matches(st.jobs[i], body.fileName, userId) ==> o.store.jobs[i] == st.jobs[i])
      && o.store.jobs[i] == st.jobs[i].(status := o.store.jobs[i].status)
  {
  }

  /** A dispatch whose file and user match no row leaves the table as it
      was and still posts the command when the file exists. */
  lemma DispatchNoMatch(st: Store, userId: string, body: PrintBody, upstream: Upstream)
    requires forall j :: j in st.jobs ==> !Matches(j, body.fileName, userId)
    ensures var o := Dispatch(st, Some(userId), Some(body), upstream);
      o.store.jobs == st.jobs && (o.command.Some? <==> body.fileName in st.uploads)
  {
    var o := Dispatch(st, Some(userId), Some(body), upstream);
    forall i | 0 <= i < |st.jobs|
      ensures o.store.jobs[i] == st.jobs[i]
    {
      assert st.jobs[i] in st.jobs;
    }
  }
}
