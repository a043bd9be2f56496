/** The dialog's Print button runs the upload route and then the print
    route. The upload stores the job under `${timestamp}_${file.name}`,
    but the dialog's print request names `file.name`, and the print
    route looks rows up by that name. These lemmas state what a print
    request after a successful upload does to the uploaded row, for the
    request as the dialog builds it and for a request built from the
    upload reply. */
module EndToEnd {
  import opened Wrappers
  import opened Records
  import opened Store
  import opened UploadRoute
  import opened PrintRoute
  import opened PrintUpload

  /** As written: the print request that follows a successful upload
      never touches the uploaded row, which stays `pending`; and unless a
      file with the bare original name was already in `public/uploads`,
      the copy fails and the route answers 500 having done nothing. */
  lemma {:induction false} DialogPrintMissesUploadedRow(
    st: Store, userId: string, file: FileMeta, settings: PrintSettings, env: UploadEnv, upstream: Upstream)
    requires WellFormed(st)
    requires env.diskOk && env.dbOk
    ensures var up := Upload(st, Some(userId), UploadForm(Some(file), SettingsJson(settings)), env);
      var pr := Dispatch(up.store, Some(userId), Some(PrintRequestBody(file, settings)), upstream);
      && up.reply.status == 200
      && |pr.store.jobs| == |up.store.jobs| == |st.jobs| + 1
      && pr.store.jobs[|st.jobs|] == up.store.jobs[|st.jobs|]
      && pr.store.jobs[|st.jobs|].status == Pending
      && (file.name !in st.uploads ==> pr.command.None? && pr.reply == InternalError && pr.store == up.store)
  {
    var form := UploadForm(Some(file), SettingsJson(settings));
    var up := Upload(st, Some(userId), form, env);
    var stored := StoredName(env.timestamp, file.name);
    assert Accepted(Some(userId), form, env);
    var row := up.store.jobs[|st.jobs|];
    assert row == NewJob(st.nextId, userId, stored, file, settings, env.createdAt);
    assert stored != file.name;
    assert !Matches(row, file.name, userId);
    assert up.store.uploads == st.uploads + {stored};
  }

  /** Corrected: a print request that names the stored name from the
      upload reply reaches the uploaded row, which ends `printing`, or
      `failed` if the print service answers with an error, and the
      print service receives that file's staged path. */
  lemma {:induction false} StoredNamePrintReachesUploadedRow(
    st: Store, userId: string, file: FileMeta, settings: PrintSettings, env: UploadEnv, upstream: Upstream)
    requires WellFormed(st)
    requires env.diskOk && env.dbOk
    ensures var up := Upload(st, Some(userId), UploadForm(Some(file), SettingsJson(settings)), env);
      var body := StoredPrintRequestBody(up.reply.body, settings);
      && body.Some?
      && var pr := Dispatch(up.store, Some(userId), body, upstream);
      && |pr.store.jobs| == |st.jobs| + 1
      && pr.store.jobs[|st.jobs|] == up.store.jobs[|st.jobs|].(status := FinalStatus(upstream))
      && pr.command == Some(PrintCommand(StoredName(env.timestamp, file.name),
                                          PrintPath(StoredName(env.timestamp, file.name)), settings, userId))
      && (pr.reply.status == 200 <==> upstream == UpstreamOk)
  {
    var form := UploadForm(Some(file), SettingsJson(settings));
    var up := Upload(st, Some(userId), form, env);
    var stored := StoredName(env.timestamp, file.name);
    assert Accepted(Some(userId), form, env);
    assert up.reply.body == UploadAccepted(st.nextId, stored);
    var row := up.store.jobs[|st.jobs|];
    assert row == NewJob(st.nextId, userId, stored, file, settings, env.createdAt);
    assert Matches(row, stored, userId);
    assert stored in up.store.uploads;
  }
}
