/** The server-side state the two API routes touch: the PrintJob table,
    the id the database hands out next, and the file names present in
    `public/uploads` and `public/print`. The table operation shared by
    both updates of the print route, Prisma's `updateMany` on
    `(fileName, userId)`, is defined here. */
module Store {
  import opened Records

  datatype Store = Store(jobs: seq<PrintJob>, nextId: nat, uploads: set<string>, staged: set<string>)

  const UploadsDir := "public/uploads/"
  const PrintDir := "public/print/"

  /** `join(process.cwd(), 'public/uploads', name)`, relative to the
      working directory. */
  function UploadPath(name: string): string {
    UploadsDir + name
  }

  /** `join(process.cwd(), 'public/print', name)`, relative to the
      working directory. */
  function PrintPath(name: string): string {
    PrintDir + name
  }

  /** The `where` clause of both updates of the print route. */
  predicate Matches(j: PrintJob, fileName: string, userId: string) {
    j.fileName == fileName && j.userId == userId
  }

  /** `updateMany({ where: { fileName, userId }, data: { status } })`:
      every matching row gets the new status, and nothing else changes. */
  function SetStatus(jobs: seq<PrintJob>, fileName: string, userId: string, status: JobStatus): (r: seq<PrintJob>)
    ensures |r| == |jobs|
    ensures forall i :: 0 <= i < |jobs| && Matches(jobs[i], fileName, userId) ==> r[i] == jobs[i].(status := status)
    ensures forall i :: 0 <= i < |jobs| && !Matches(jobs[i], fileName, userId) ==> r[i] == jobs[i]
    decreases |jobs|
  {
    if jobs == [] then []
    else
      var head := if Matches(jobs[0], fileName, userId) then jobs[0].(status := status) else jobs[0];
      [head] + SetStatus(jobs[1..], fileName, userId, status)
  }

  /** A second update of the same rows overrides the first. */
  lemma SetStatusTwice(jobs: seq<PrintJob>, fileName: string, userId: string, first: JobStatus, second: JobStatus)
    ensures SetStatus(SetStatus(jobs, fileName, userId, first), fileName, userId, second)
         == SetStatus(jobs, fileName, userId, second)
  {
  }

  /** An update that matches no row leaves the table as it was. */
  lemma SetStatusNoMatch(jobs: seq<PrintJob>, fileName: string, userId: string, status: JobStatus)
    requires forall j :: j in jobs ==> !Matches(j, fileName, userId)
    ensures SetStatus(jobs, fileName, userId, status) == jobs
  {
  }

  /** The consistency the routes keep: ids are below the next id and
      distinct, and every row names a file that was written to
      `public/uploads` and records its path there. */
  ghost predicate WellFormed(st: Store) {
    && (forall i :: 0 <= i < |st.jobs| ==> st.jobs[i].id < st.nextId)
    && (forall i, j :: 0 <= i < j < |st.jobs| ==> st.jobs[i].id != st.jobs[j].id)
    && (forall i :: 0 <= i < |st.jobs| ==> st.jobs[i].fileName in st.uploads)
    && (forall i :: 0 <= i < |st.jobs| ==> st.jobs[i].filePath == UploadPath(st.jobs[i].fileName))
  }

  /** A status update keeps the table consistent. */
  lemma SetStatusWellFormed(st: Store, fileName: string, userId: string, status: JobStatus)
    ensures WellFormed(st) ==> WellFormed(st.(jobs := SetStatus(st.jobs, fileName, userId, status)))
  {
  }
}
