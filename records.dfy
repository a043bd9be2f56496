/** The records the application passes between its parts: the print
    settings chosen in the browser, printer descriptions, uploaded file
    metadata, the PrintJob table row and the bodies of the HTTP requests
    and replies of the two API routes. */
module Records {
  import opened Wrappers

  /** The settings object of the upload dialog, sent as JSON to both API
      routes and read by the print service's `PrintSettings` model. */
  datatype PrintSettings = PrintSettings(
    copies: int,
    isDraft: bool,
    isColor: bool,
    orientation: string,
    pages: string,
    printerId: string)

  /** A printer as the print service lists it and as the `Printer` table
      stores it; `driverName` is nullable. */
  datatype Printer = Printer(id: string, name: string, isOnline: bool, driverName: Option<string>)

  /** What the handlers read of a browser `File`: name, size and MIME type. */
  datatype FileMeta = FileMeta(name: string, size: nat, mimeType: string)

  /** The lifecycle of a print job. `Completed` is never written by this
      application. */
  datatype JobStatus = Pending | Printing | Completed | Failed

  /** One row of the PrintJob table. `pages` is null (None) for "all
      pages"; `id` is assigned by the database. */
  datatype PrintJob = PrintJob(
    id: nat,
    userId: string,
    fileName: string,
    originalName: string,
    filePath: string,
    fileSize: nat,
    fileType: string,
    copies: int,
    isDraft: bool,
    isColor: bool,
    orientation: string,
    pages: Option<string>,
    printerName: string,
    status: JobStatus,
    createdAt: int)

  /** The command the web application posts to the print service; the
      print service's `PrintJob` model reads the same four fields. */
  datatype PrintCommand = PrintCommand(fileName: string, filePath: string, settings: PrintSettings, userId: string)

  // ----- request bodies -----

  /** The `settings` form field of an upload: absent (so `JSON.parse`
      yields null), not valid JSON, or a settings object. */
  datatype SettingsField = SettingsNull | SettingsMalformed | SettingsJson(settings: PrintSettings)

  /** The multipart body of an upload; `UnreadableForm` is a body
      `formData()` cannot parse. */
  datatype UploadForm = UnreadableForm | UploadForm(file: Option<FileMeta>, settings: SettingsField)

  /** The JSON body of a print request. */
  datatype PrintBody = PrintBody(fileName: string, settings: PrintSettings)

  // ----- replies -----

  datatype ReplyBody =
    | ErrorBody(error: string)
    | UploadAccepted(jobId: nat, fileName: string)
    | PrintAccepted

  /** An HTTP reply of one of the two API routes. */
  datatype Reply = Reply(status: nat, body: ReplyBody)

  const Unauthorized := Reply(401, ErrorBody("Unauthorized"))
  const NoFile := Reply(400, ErrorBody("No file received"))
  const InternalError := Reply(500, ErrorBody("Internal server error"))
}
