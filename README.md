# sc-printer: a verified model of the print pipeline

sc-printer is a school printing web application. A signed-in user uploads a
document in a browser dialog and chooses print settings. The Next.js server
stores the file and a `PrintJob` row. It then copies the file to a staging
directory and posts a print command to a small Python print service. That
service turns the command into an `lpr` (or PowerShell) invocation and
lists the printers of its machine.

This project models the core logic of that pipeline in Dafny and proves
properties of it:

- `LprCommand`, `PrinterList`, `PrintApi`: the Python print service.
  - The rules that turn print settings into an `lpr` argument vector, plus a decoder for that vector and a round trip.
  - The `lpstat -p` line parser and the Windows `Get-Printer` JSON mapping.
  - The error mapping of `POST /print` and the per-OS dispatch of `GET /printers`.
- `Store`: the `PrintJob` table and the two upload directories as one value.
  - Also the `updateMany` status update both print-route updates use.
- `UploadRoute`, `PrintRoute`: the two API routes.
  - Each is a function from the old store and the request to the new store and the reply.
- `Server`: a class holding that state.
  - Its `Upload` and `Dispatch` methods change the state in place and are proved equal to the route functions.
- `Sorting`, `Dashboard`: the dashboard queries.
  - The user's newest 50 jobs, and all printers by name.
- `PrintUpload`: the upload dialog of the browser.
  - A class with the dialog's state.
  - The accepted MIME types, the initial settings and the copies bounds.
  - The online-printer filter, the guards of its handlers, and the requests it sends.
- `Auth`: the school-domain sign-in predicate and the session callback.
- `EndToEnd`: what a print request after an upload does to the uploaded row (see Findings).
- `Text`, `Wrappers`, `Records`: shared helpers and records.
  - Python's `split('\n')` and `split()`, decimal digits, `Option`.
  - The records that cross the wire.

Subprocess results, file existence, the session, `Date.now()`, the outcome of
database and network calls and the answer of the print service are all
parameters of the model.

When the print service is unreachable, the `fetch` at
`src/app/api/print/route.ts:39-45` rejects and control jumps to the `catch`
at line 61. The rows therefore stay `printing` and the reply is 500. Only a
response that is not OK (lines 47-58) marks them `failed`
(`PrintRoute.FinalStatus`).

## Model

| member | source | states |
|---|---|---|
| Text.SplitOn | python-api/main.py:71 | `str.split('\n')`: at least one part, and no part contains the separator |
| Text.JoinSplitOn | python-api/main.py:71 | joining the parts of a split with the separator gives back the original text, so no character of the output is lost or reordered |
| Text.Words | python-api/main.py:73 | `str.split()`: every word is non-empty and holds no whitespace; a line that starts with a non-space character has a first word starting with that character |
| Text.WordsOfRun | python-api/main.py:73 | a non-empty run without whitespace splits into exactly one word, itself |
| Text.WordsAtSpace | python-api/main.py:73 | a whitespace character separates the words before it from those after it; with `WordsOfRun` this makes the words exactly the maximal non-whitespace runs, in order |
| Text.TwoRunsThenRest | python-api/main.py:73-75 | two space-separated runs at the start of a line are its first and second words |
| Text.NatToString | src/app/api/upload/route.ts:26-27 | the decimal rendering of the timestamp is at least one character long, made of digits only, and has no leading zero unless the number is 0 |
| Text.ParseNatToString | src/app/api/upload/route.ts:26-27 | reading back the decimal rendering of a number gives that number |
| LprCommand.LprOptions | python-api/main.py:198-219 | the options the six conditions of the builder call for, in its order; what each condition adds is stated by `LprOptionsPresence` and the order by `LprOptionsOrder` |
| LprCommand.LprOptionsPresence | python-api/main.py:198-219 | `-P id` present iff `printerId` is non-empty; `-# n` iff `copies > 1`, with n = copies; `-o landscape` iff orientation is `landscape`; `-o ColorModel=Gray` iff not colour; `-o print-quality=3` iff draft; `-o page-ranges=p` iff pages are non-empty and not `all`, with p the pages verbatim |
| LprCommand.LprOptionsOrder | python-api/main.py:198-219 | the options appear in the fixed order printer, copies, orientation, colour, draft, pages, each at most once |
| LprCommand.LprArgs | python-api/main.py:195-221 | the command has two tokens per option plus two, starts with `lpr` and ends with the file path |
| LprCommand.RenderAppend | python-api/main.py:195-221 | rendering options one `extend` at a time is the same as rendering them all at once |
| LprCommand.BuildLprCommand | python-api/main.py:193-221 | the `extend`/`append` steps of the builder compute exactly `LprArgs` of the job's settings and path |
| LprCommand.DecodeRender | python-api/main.py:198-219 | the rendered option tokens decode back to the same option list |
| LprCommand.LprRoundTrip | python-api/main.py:195-221 | decoding the built command gives back the option list and the file path, so every option sits between `lpr` and the path |
| LprCommand.WindowsArgs | python-api/main.py:150-153 | the Windows command is `powershell -Command <script>` and the script contains the file path |
| PrinterList.DescribesPrinter | python-api/main.py:72-74 | the filter of the parser: the line starts with `printer` and has at least two whitespace-separated words |
| PrinterList.LpstatRecord | python-api/main.py:72-82 | a printer line yields id = name = its second word, which is non-empty; online iff the line contains neither `disabled` nor `offline`; no driver name |
| PrinterList.LpstatNamedLine | python-api/main.py:72-75 | a line `printer <name> <rest>` is a printer line, and its record's id is `<name>` |
| PrinterList.LpstatPrinters | python-api/main.py:71-82 | at most one record per line, each with id = name, a non-empty id and no driver name |
| PrinterList.LpstatPrintersOfLine | python-api/main.py:72-82 | a single line yields exactly one record if it starts with `printer` and has at least two words, and none otherwise |
| PrinterList.LpstatPrintersAppend | python-api/main.py:71-82 | the records of concatenated lines are the records of each part in order, so records keep the input line order |
| PrinterList.GetPrintersLpstat | python-api/main.py:65-86 | a failed `lpstat` run gives the empty list; otherwise the loop over the lines of its output returns `LpstatPrinters` of those lines |
| PrinterList.WinRecord | python-api/main.py:54-59 | `Name` is id and name; online iff `PrinterStatus` is `Normal`; the driver name is "" for a missing `DriverName` key and None exactly for a JSON null |
| PrinterList.WindowsPrinters | python-api/main.py:40-63 | all or nothing: if the JSON parsed and every entry is an object with `Name` and `PrinterStatus`, one record per entry in order; any failure gives the empty list |
| PrinterList.WindowsOnline | python-api/main.py:57 | a Windows printer is online iff its `PrinterStatus` is the string `Normal` |
| PrinterList.GetPrintersWindows | python-api/main.py:40-63 | the loop over the JSON entries returns exactly `WindowsPrinters` of the run, the empty list on the first unmappable entry |
| PrintApi.PrintWindows | python-api/main.py:148-157 | runs the PowerShell command for the file; succeeds iff the process exits with 0; a non-zero exit fails with `Windows print failed: ` and the stderr, and an exception of `subprocess.run` passes through with its own message |
| PrintApi.PrintMacos | python-api/main.py:159-191 | runs the `lpr` command of the job; succeeds iff the process exits with 0; a non-zero exit fails with `macOS print failed: ` and the stderr, and an exception of `subprocess.run` passes through |
| PrintApi.PrintUnix | python-api/main.py:193-225 | runs the same `lpr` command as on macOS; succeeds iff the process exits with 0; a non-zero exit fails with `Unix print failed: ` and the stderr, and an exception of `subprocess.run` passes through |
| PrintApi.PrintDocument | python-api/main.py:125-146 | a command is attempted iff the file exists; success iff it exists and the process exits with 0; every failure (the missing file, a non-zero exit, an exception of `subprocess.run`) is a 500 whose detail is `Print failed: ` followed by the exception's message |
| PrintApi.GetPrinters | python-api/main.py:111-123 | Windows uses the `Get-Printer` mapping; macOS and other systems use the `lpstat` parser, with the empty list when the run fails |
| Store.Matches | src/app/api/print/route.ts:22-26 | the `where` clause of both updates: same `fileName` and same `userId` |
| Store.SetStatus | src/app/api/print/route.ts:22-30 | `updateMany` on `(fileName, userId)`: same length; every matching row gets the new status with its other fields kept; every other row is unchanged |
| Store.SetStatusTwice | src/app/api/print/route.ts:47-56 | the second update of the same rows overrides the first, so a not-OK response leaves the rows `failed`, never `printing` |
| Store.SetStatusNoMatch | src/app/api/print/route.ts:22-30 | an update that matches no row leaves the table unchanged |
| Store.SetStatusWellFormed | src/app/api/print/route.ts:22-30 | a status update keeps ids distinct and below the next id, and keeps every row's file in the uploads directory |
| UploadRoute.StoredName | src/app/api/upload/route.ts:26-27 | the stored name ends with the original name and is strictly longer than it |
| UploadRoute.IndexOf | src/app/api/upload/route.ts:27 | finds the first underscore of a stored name, or reports that there is none |
| UploadRoute.StoredNameRoundTrip | src/app/api/upload/route.ts:26-27 | a stored name splits at its first underscore back into the timestamp and the original name, whatever the name contains |
| UploadRoute.NewJob | src/app/api/upload/route.ts:32-48 | the inserted row is `pending`, stored under the given name at its `public/uploads/` path, with pages `all` as null and other pages verbatim |
| UploadRoute.NewJobFields | src/app/api/upload/route.ts:32-48 | the new row is `pending` and owned by the user; `originalName` is the file's name and `fileName` the stored name; `printerName` is `printerId`; pages `all` is stored as null and other pages verbatim; copies, draft, colour, orientation, size and type are copied |
| UploadRoute.Upload | src/app/api/upload/route.ts:8-62 | 401 with nothing changed without a session; 400 with nothing changed without a file; 200 iff the request is accepted, in which case one row is appended with the reply carrying its id and stored name; every other outcome is the generic 500 with no row; consistency of the store is kept |
| PrintRoute.FinalStatus | src/app/api/print/route.ts:39-61 | the rows end `failed` iff the print service answered with a response that is not OK, and `printing` otherwise, an unreachable service included |
| PrintRoute.Dispatch | src/app/api/print/route.ts:8-68 | 401 and nothing done without a session; the command is sent iff there is a session and a body and the upload exists, and it carries the file name, the `public/print/` path, the settings unchanged and the user id; matching rows end `printing` or, on a not-OK response, `failed`, and all other rows are unchanged; 200 iff sent and the response is OK; otherwise 500 |
| PrintRoute.DispatchFrame | src/app/api/print/route.ts:22-56 | a row of another file or another user is never modified, and a matching row changes only in its status |
| PrintRoute.DispatchNoMatch | src/app/api/print/route.ts:22-45 | when no row matches, the table is unchanged and the command is still sent if the uploaded file exists |
| Server.Server.Upload | src/app/api/upload/route.ts:8-62 | updating the server's fields in place yields exactly the new store and reply of `UploadRoute.Upload`, and keeps the store consistent |
| Server.Server.Dispatch | src/app/api/print/route.ts:8-68 | updating the server's fields in place yields exactly the new store, reply and command of `PrintRoute.Dispatch`, and keeps the store consistent |
| Sorting.Insert | src/app/dashboard/page.tsx:18-20 | inserting adds exactly the one element |
| Sorting.InsertSorted | src/app/dashboard/page.tsx:18-20 | inserting into a sorted list keeps it sorted under any total preorder |
| Sorting.SortBy | src/app/dashboard/page.tsx:18-20 | the result is sorted by the given order and is a permutation of the input |
| Dashboard.OwnedBy | src/app/dashboard/page.tsx:14-16 | exactly the jobs of the user are kept, with nothing added |
| Dashboard.NewestFirstIsTotalPreorder | src/app/dashboard/page.tsx:18-20 | `createdAt` descending is a total preorder |
| Dashboard.Take | src/app/dashboard/page.tsx:21 | `take: 50` keeps the first min(n, length) elements |
| Dashboard.History | src/app/dashboard/page.tsx:14-22 | at most 50 jobs, all the user's, in non-increasing `createdAt`, drawn from the user's jobs; fewer than 50 only if the user has fewer; no omitted job of the user is newer than a returned one |
| Dashboard.HistoryProperties | src/app/dashboard/page.tsx:14-22 | a prefix of the user's jobs sorted newest first is a sub-multiset of them, in order, and newer than everything it omits |
| Dashboard.NameLeTotal | src/app/dashboard/page.tsx:24-28 | any two printer names are comparable in code-point order |
| Dashboard.NameLeTransitive | src/app/dashboard/page.tsx:24-28 | code-point order on names is transitive |
| Dashboard.ByNameIsTotalPreorder | src/app/dashboard/page.tsx:24-28 | ordering printers by name is a total preorder |
| Dashboard.DashboardPage | src/app/dashboard/page.tsx:7-28 | a redirect to `/login` iff there is no session; otherwise the user's history and all printers, sorted by name and as a permutation |
| PrintUpload.IsAllowedType | src/components/print-upload.tsx:47-48 | the allow-list check: the MIME type is PDF, Word (.doc or .docx) or plain text |
| PrintUpload.AvailablePrinters | src/components/print-upload.tsx:130 | a printer is offered iff it is in the list and online |
| PrintUpload.OfferedIsOnline | src/components/print-upload.tsx:204 | every id the printer select offers belongs to an online printer |
| PrintUpload.PrintRequestBody | src/components/print-upload.tsx:115-118 | the print request carries the original `file.name` and the current settings |
| PrintUpload.StoredPrintRequestBody | src/app/api/upload/route.ts:50-54 | corrected request: present iff the upload was accepted, and then it carries the stored name of the upload reply and the settings |
| PrintUpload.PrintUploadDialog.constructor | src/components/print-upload.tsx:34-41 | initial settings are copies 1, not draft, not colour, portrait, pages `all`, no printer; no file; not uploading |
| PrintUpload.PrintUploadDialog.PrintDisabled | src/components/print-upload.tsx:324 | the Print button is disabled iff there is no file, no printer, or an upload in progress |
| PrintUpload.PrintUploadDialog.HandleFileSelect | src/components/print-upload.tsx:44-54 | a selected file is kept iff its MIME type is one of the four allowed; otherwise the alert is shown and the current file is unchanged |
| PrintUpload.PrintUploadDialog.HandleDrop | src/components/print-upload.tsx:60-71 | a dropped file is kept iff its MIME type is one of the four allowed; otherwise the alert is shown and the current file is unchanged |
| PrintUpload.PrintUploadDialog.SelectPrinter | src/components/print-upload.tsx:198-209 | only an offered printer can be chosen, and only `printerId` changes |
| PrintUpload.PrintUploadDialog.SetCopies | src/components/print-upload.tsx:217-222 | copies stay between 1 and 10, and only `copies` changes |
| PrintUpload.PrintUploadDialog.SetDraft | src/components/print-upload.tsx:235-237 | only `isDraft` changes |
| PrintUpload.PrintUploadDialog.SetColor | src/components/print-upload.tsx:246-248 | only `isColor` changes |
| PrintUpload.PrintUploadDialog.SetOrientation | src/components/print-upload.tsx:261-280 | orientation is `portrait` or `landscape`, and only it changes |
| PrintUpload.PrintUploadDialog.SetPages | src/components/print-upload.tsx:288-291 | pages take any text verbatim, and only `pages` changes |
| PrintUpload.PrintUploadDialog.HandleUpload | src/components/print-upload.tsx:73-104 | nothing sent and nothing changed without a file or a printer; otherwise the file and settings are posted, progress is 100 on an OK response, and any failure alerts; `isUploading` is false afterwards either way |
| PrintUpload.PrintUploadDialog.HandlePrint | src/components/print-upload.tsx:106-128 | a print request is sent iff the Print button is enabled (a file, a printer, no upload running, line 324); the request follows the upload whatever its outcome; progress is 100 after an OK upload and 0 otherwise, `isUploading` is false again, and there is one alert per failed request |
| Auth.SignIn | src/lib/auth.ts:15-24 | any non-Google provider is allowed; a Google sign-in without an e-mail is rejected |
| Auth.SignInGoogle | src/lib/auth.ts:16-20 | a Google sign-in is allowed iff the e-mail is some local part followed by `@mwit.ac.th` |
| Auth.UpperCaseDomainRejected | src/lib/auth.ts:18 | the suffix test is case-sensitive: `student@MWIT.AC.TH` is rejected |
| Auth.SessionCallback | src/lib/auth.ts:25-30 | sets `session.user.id` to the database id in place when there is a user, leaves the other user fields alone, and returns the same session object |
| EndToEnd.DialogPrintMissesUploadedRow | src/components/print-upload.tsx:116 | as written: after a successful upload, the dialog's print request leaves the uploaded row `pending`; unless a file with the bare name already existed, it answers 500 and changes nothing |
| EndToEnd.StoredNamePrintReachesUploadedRow | src/app/api/print/route.ts:15-45 | corrected: a print request with the stored name from the upload reply moves the uploaded row to `printing` (or `failed` on a not-OK response) and posts that file's staging path |

## Left out

- Subprocess execution and `platform.system()`: `lpr`, `lpstat` and PowerShell are not run. The command vector, the exit code, the stderr, an exception of `subprocess.run` with its message, and the parsed output are values. The three platforms are reduced to Windows, Darwin and the rest.
- PrintApi.PrintDocument: the request body is taken as already validated. The pydantic models of python-api/main.py:20-32 are not modelled: their defaults for missing settings fields (copies 1, portrait, pages `all`, ...) and the 422 reply for a body without `printerId`, `fileName`, `filePath` or `userId`, which comes before `print_document` runs. The print route forwards the browser's `settings` unchanged, so which of these applies depends on what the browser sent.
- JSON parsing of the `Get-Printer` output: the model starts from the parsed value. `Name` is taken to be a string, and `PrinterStatus` is a scalar.
- `str()` of the 404 `HTTPException`: it is modelled as the constant `404: File not found`, the Starlette rendering.
- `get_printers_macos`, `print_macos`: their code is the same as the Unix versions, so one parser (`PrinterList.GetPrintersLpstat`) and one builder (`LprCommand.BuildLprCommand`) serve both. `PrintMacos` and `PrintUnix` differ only in the failure message.
- `GET /health`, the FastAPI/CORS/uvicorn setup and `python-api/run.py`: no logic to model.
- File system, database and network: `writeFile`, `copyFile`, Prisma, `getServerSession`, `request.formData()`/`json()`, `fetch`.
  - These become an in-memory store, an optional session user id, a datatype for the decoded request, and an upstream outcome.
  - A failed file write and a failed insert are flags.
  - `copyFile` fails exactly when the name is not in the uploads set.
  - Path joining with `process.cwd()` is not modelled, and neither is `..` in names.
- Database failures inside the print route: a failing `updateMany` is not modelled.
- `Date.now()` and `createdAt`: they are inputs. Stored names are not proved unique, because two uploads in the same millisecond can collide.
- Ordering of the dashboard queries:
  - `Dashboard.History`: the order among jobs with equal `createdAt` is the sort's, not the database's. Only ordering and membership are stated.
  - `Dashboard.DashboardPage`: printer names are compared by code point, whereas the database's collation may differ.
- The printer list route `src/app/api/printers/route.ts` is not part of this model; it is a network call with an empty-list fallback.
- Presentation:
  - React rendering and Radix widgets, `setTimeout` and `window.location.reload`;
  - the progress bar's intermediate values, `print-history.tsx`, `dashboard-client.tsx`, `theme-toggle.tsx`, the login and auth error pages, `next.config.mjs`.
- Concurrency: overlapping requests, and the interleaving of `handleUpload` with other clicks. Handlers are modelled as running to completion one at a time.
- `PrintUpload.PrintUploadDialog.HandlePrint`: models the dialog as written, so it sends the original name. The corrected request is `PrintUpload.StoredPrintRequestBody`, and its effect is proved in `EndToEnd.StoredNamePrintReachesUploadedRow`.

## Findings

| source | as written | input that shows it | evidently intended | confidence | as-written member | corrected member |
|---|---|---|---|---|---|---|
| src/components/print-upload.tsx:116 | the print request names `file.name`, while the upload route stored the row under `${timestamp}_${file.name}` and the print route matches rows by `fileName` | upload `report.pdf` at timestamp 1700000000000: the row is `1700000000000_report.pdf`, and the print request for `report.pdf` matches no row; unless `public/uploads/report.pdf` exists, `copyFile` fails and the route answers 500 | the print request should name the stored `fileName` that the upload reply returns, so that the uploaded row moves to `printing` | not executed; follows from the three cited lines | EndToEnd.DialogPrintMissesUploadedRow | EndToEnd.StoredNamePrintReachesUploadedRow |
