/** `POST /api/upload` (src/app/api/upload/route.ts) as a function from
    the store and the request to the new store and the reply. The
    session is the signed-in user's id, if any; `Date.now()`, the
    database's `createdAt` and the success of the file write and of the
    insert are inputs. */
module UploadRoute {
  import opened Wrappers
  import opened Text
  import opened Records
  import opened Store

  /** What the handler gets from outside the request. */
  datatype UploadEnv = UploadEnv(timestamp: nat, createdAt: int, diskOk: bool, dbOk: bool)

  datatype Outcome = Outcome(store: Store, reply: Reply)

  /** `${timestamp}_${file.name}`: the decimal timestamp, an underscore,
      then the original name. */
  function StoredName(timestamp: nat, name: string): (stored: string)
    ensures EndsWith(stored, name) && |stored| > |name|
  {
    var r := NatToString(timestamp) + "_" + name;
    assert r[|r| - |name|..] == name;
    r
  }

  /** The position of the first `c` in `s`, if any. */
  function IndexOf(s: string, c: char): (k: Option<nat>)
    ensures k.Some? ==> k.value < |s| && s[k.value] == c && c !in s[..k.value]
    ensures k.None? ==> c !in s
    decreases |s|
  {
    if s == [] then None
    else if s[0] == c then Some(0)
    else match IndexOf(s[1..], c)
      case None => None
      case Some(k) =>
        assert s[..k + 1] == [s[0]] + s[1..][..k];
        Some(k + 1)
  }

  /** Splits a stored name at its first underscore into the timestamp and
      the original name. */
  function ParseStoredName(stored: string): Option<(nat, string)> {
    match IndexOf(stored, '_')
    case None => None
    case Some(k) =>
      match ParseNat(stored[..k])
      case None => None
      case Some(ts) => Some((ts, stored[k + 1..]))
  }

  /** The stored name keeps both parts: the timestamp and the original
      name can be read back from it, whatever the name contains. */
  lemma StoredNameRoundTrip(timestamp: nat, name: string)
    ensures ParseStoredName(StoredName(timestamp, name)) == Some((timestamp, name))
  {
    var digits := NatToString(timestamp);
    var stored := StoredName(timestamp, name);
    assert stored == digits + "_" + name;
    assert '_' !in digits;
    assert stored[..|digits| + 1] == digits + "_";
    assert stored[|digits|] == '_';
    assert stored[..|digits|] == digits;
    assert IndexOf(stored, '_') == Some(|digits|);
    assert stored[|digits| + 1..] == name;
    ParseNatToString(timestamp);
  }

  /** The row `prisma.printJob.create` inserts. */
  function NewJob(id: nat, userId: string, stored: string, file: FileMeta, s: PrintSettings, createdAt: int): (j: PrintJob)
    ensures j.status == Pending && j.fileName == stored && j.filePath == UploadPath(j.fileName)
    ensures j.pages.None? <==> s.pages == "all"
    ensures j.pages.Some? ==> j.pages.value == s.pages
  {
    PrintJob(
      id := id,
      userId := userId,
      fileName := stored,
      originalName := file.name,
      filePath := UploadPath(stored),
      fileSize := file.size,
      fileType := file.mimeType,
      copies := s.copies,
      isDraft := s.isDraft,
      isColor := s.isColor,
      orientation := s.orientation,
      pages := if s.pages == "all" then None else Some(s.pages),
      printerName := s.printerId,
      status := Pending,
      createdAt := createdAt)
  }

  /** The inserted row: pending, owned by the uploader, stored under the
      timestamped name with the original name beside it, `printerName`
      taken from `printerId`, `pages` of "all" stored as null and any
      other value verbatim, the other settings copied unchanged. */
  lemma NewJobFields(id: nat, userId: string, timestamp: nat, file: FileMeta, s: PrintSettings, createdAt: int)
    ensures var j := NewJob(id, userId, StoredName(timestamp, file.name), file, s, createdAt);
      && j.status == Pending && j.userId == userId && j.id == id
      && j.originalName == file.name && EndsWith(j.fileName, file.name) && j.fileName != file.name
      && ParseStoredName(j.fileName) == Some((timestamp, file.name))
      && j.printerName == s.printerId
      && (j.pages.None? <==> s.pages == "all")
      && (j.pages.Some? ==> j.pages.value == s.pages)
      && j.copies == s.copies && j.isDraft == s.isDraft && j.isColor == s.isColor
      && j.orientation == s.orientation
      && j.fileSize == file.size && j.fileType == file.mimeType
  {
    StoredNameRoundTrip(timestamp, file.name);
  }

  /** The request is one the handler turns into a row. */
  predicate Accepted(session: Option<string>, form: UploadForm, env: UploadEnv) {
    session.Some? && form.UploadForm? && form.file.Some? && form.settings.SettingsJson? && env.diskOk && env.dbOk
  }

  /** The upload handler. In its order: 401 without a session; 500 for a
      body that is not form data or a `settings` field that is not JSON;
      400 without a file; 500 if the write fails; the file is then on
      disk, and a null `settings` (field absent) or a failed insert still
      yields 500 without a row; otherwise one row is appended. */
  function Upload(st: Store, session: Option<string>, form: UploadForm, env: UploadEnv): (o: Outcome)
    ensures session.None? ==> o == Outcome(st, Unauthorized)
    ensures o.reply.status == 200 <==> Accepted(session, form, env)
    ensures o.reply.status == 400 <==> session.Some? && form.UploadForm? && !form.settings.SettingsMalformed? && form.file.None?
    ensures o.reply.status !in {200, 400, 401} ==> o.reply == InternalError
    ensures o.reply.status in {400, 401} ==> o.store == st
    ensures !Accepted(session, form, env) ==> o.store.jobs == st.jobs && o.store.nextId == st.nextId
    ensures Accepted(session, form, env) ==>
              var stored := StoredName(env.timestamp, form.file.value.name);
              && o.store.jobs == st.jobs + [NewJob(st.nextId, session.value, stored, form.file.value, form.settings.settings, env.createdAt)]
              && o.reply == Reply(200, UploadAccepted(st.nextId, stored))
    ensures o.store.staged == st.staged
    ensures o.store.uploads == st.uploads
         || (form.UploadForm? && form.file.Some? && o.store.uploads == st.uploads + {StoredName(env.timestamp, form.file.value.name)})
    ensures WellFormed(st) ==> WellFormed(o.store)
  {
    if session.None? then Outcome(st, Unauthorized)
    else if form.UnreadableForm? || form.settings.SettingsMalformed? then Outcome(st, InternalError)
    else if form.file.None? then Outcome(st, NoFile)
    else if !env.diskOk then Outcome(st, InternalError)
    else
      var file := form.file.value;
      var stored := StoredName(env.timestamp, file.name);
      var written := st.(uploads := st.uploads + {stored});
      if form.settings.SettingsNull? || !env.dbOk then Outcome(written, InternalError)
      else
        var job := NewJob(st.nextId, session.value, stored, file, form.settings.settings, env.createdAt);
        Outcome(written.(jobs := st.jobs + [job], nextId := st.nextId + 1), Reply(200, UploadAccepted(job.id, stored)))
  }
}
