/** The upload dialog of the browser (src/components/print-upload.tsx):
    its state (`file`, `settings`, `isUploading`, `uploadProgress`), the
    handlers that change it, the printers it offers and the requests it
    sends. Responses of the two API routes are inputs; rendering,
    `setTimeout` and the page reload are not modelled. */
module PrintUpload {
  import opened Wrappers
  import opened Records

  /** The MIME types `handleFileSelect` and `handleDrop` accept: PDF,
      Word (.doc and .docx) and plain text. */
  const AllowedTypes: seq<string> := [
    "application/pdf",
    "application/msword",
    "application/vnd.openxmlformats-officedocument.wordprocessingml.document",
    "text/plain"]

  predicate IsAllowedType(mimeType: string) {
    mimeType in AllowedTypes
  }

  const FileTypeAlert := "Please select a PDF, Word document, or text file."
  const UploadAlert := "Upload failed. Please try again."
  const PrintAlert := "Print failed. Please try again."

  /** The state the dialog opens with. */
  const InitialSettings := PrintSettings(
    copies := 1, isDraft := false, isColor := false, orientation := "portrait", pages := "all", printerId := "")

  /** The bounds of the copies slider. */
  const MinCopies := 1
  const MaxCopies := 10

  /** `availablePrinters`: the printers that are online, in the order
      given. */
  function AvailablePrinters(printers: seq<Printer>): (r: seq<Printer>)
    ensures forall p :: p in r <==> p in printers && p.isOnline
    ensures |r| <= |printers|
    decreases |printers|
  {
    if printers == [] then []
    else
      assert printers == [printers[0]] + printers[1..];
      var rest := AvailablePrinters(printers[1..]);
      if printers[0].isOnline then [printers[0]] + rest else rest
  }

  /** The printer select offers exactly the ids of online printers. */
  predicate Offered(printers: seq<Printer>, id: string) {
    exists p :: p in AvailablePrinters(printers) && p.id == id
  }

  /** An id the select offers belongs to a printer that is online. */
  lemma OfferedIsOnline(printers: seq<Printer>, id: string)
    requires Offered(printers, id)
    ensures exists p :: p in printers && p.isOnline && p.id == id
  {
    var p :| p in AvailablePrinters(printers) && p.id == id;
    assert p in printers && p.isOnline;
  }

  /** How a `fetch` from the browser ended. */
  datatype FetchResult = FetchOk | FetchNotOk | FetchRejected

  /** The body of the print request, as the dialog builds it: the
      ORIGINAL file name, not the stored name the upload reply carries. */
  function PrintRequestBody(file: FileMeta, settings: PrintSettings): (b: PrintBody)
    ensures b.fileName == file.name && b.settings == settings
  {
    PrintBody(file.name, settings)
  }

  /** The print request built from the upload reply's stored name instead
      (see the finding on `PrintRequestBody`). */
  function StoredPrintRequestBody(reply: ReplyBody, settings: PrintSettings): (b: Option<PrintBody>)
    ensures b.Some? <==> reply.UploadAccepted?
    ensures b.Some? ==> b.value.fileName == reply.fileName && b.value.settings == settings
  {
    if reply.UploadAccepted? then Some(PrintBody(reply.fileName, settings)) else None
  }

  class PrintUploadDialog {
    const printers: seq<Printer>
    var file: Option<FileMeta>
    var settings: PrintSettings
    var isUploading: bool
    var uploadProgress: int

    /** What holds between handlers: the controls can only produce these
        values, and a file is kept only if its type was accepted. */
    ghost predicate Valid()
      reads this
    {
      && MinCopies <= settings.copies <= MaxCopies
      && (settings.orientation == "portrait" || settings.orientation == "landscape")
      && (settings.printerId == "" || Offered(printers, settings.printerId))
      && (file.Some? ==> IsAllowedType(file.value.mimeType))
      && !isUploading
      && (uploadProgress == 0 || uploadProgress == 100)
    }

    constructor (printers: seq<Printer>)
      ensures Valid() && this.printers == printers
      ensures file == None && settings == InitialSettings && !isUploading && uploadProgress == 0
    {
      this.printers := printers;
      file := None;
      settings := InitialSettings;
      isUploading := false;
      uploadProgress := 0;
    }

    /** The Print button's `disabled`. */
    predicate PrintDisabled()
      reads this
    {
      file.None? || settings.printerId == "" || isUploading
    }

    /** `handleFileSelect`: keep the chosen file if its type is allowed,
        otherwise alert and keep the current one. */
    method HandleFileSelect(selected: Option<FileMeta>) returns (alert: Option<string>)
      requires Valid()
      modifies this`file
      ensures Valid()
      ensures file == if selected.Some? && IsAllowedType(selected.value.mimeType) then selected else old(file)
      ensures alert == if selected.Some? && !IsAllowedType(selected.value.mimeType) then Some(FileTypeAlert) else None
    {
      alert := None;
      if selected.Some? {
        if selected.value.mimeType !in AllowedTypes {
          alert := Some(FileTypeAlert);
          return;
        }
        file := selected;
      }
    }

    /** `handleDrop`: the same check on the first dropped file. */
    method HandleDrop(dropped: Option<FileMeta>) returns (alert: Option<string>)
      requires Valid()
      modifies this`file
      ensures Valid()
      ensures file == if dropped.Some? && IsAllowedType(dropped.value.mimeType) then dropped else old(file)
      ensures alert == if dropped.Some? && !IsAllowedType(dropped.value.mimeType) then Some(FileTypeAlert) else None
    {
      alert := None;
      if dropped.Some? {
        if dropped.value.mimeType !in AllowedTypes {
          alert := Some(FileTypeAlert);
          return;
        }
        file := dropped;
      }
    }

    /** The printer select: only offered ids can be chosen. */
    method SelectPrinter(id: string)
      requires Valid() && Offered(printers, id)
      modifies this`settings
      ensures Valid() && settings == old(settings).(printerId := id)
    {
      settings := settings.(printerId := id);
    }

    /** The copies slider: `min={1}`, `max={10}`, `step={1}`. */
    method SetCopies(value: int)
      requires Valid() && MinCopies <= value <= MaxCopies
      modifies this`settings
      ensures Valid() && settings == old(settings).(copies := value)
    {
      settings := settings.(copies := value);
    }

    method SetDraft(checked: bool)
      requires Valid()
      modifies this`settings
      ensures Valid() && settings == old(settings).(isDraft := checked)
    {
      settings := settings.(isDraft := checked);
    }

    method SetColor(checked: bool)
      requires Valid()
      modifies this`settings
      ensures Valid() && settings == old(settings).(isColor := checked)
    {
      settings := settings.(isColor := checked);
    }

    /** The Portrait and Landscape buttons. */
    method SetOrientation(landscape: bool)
      requires Valid()
      modifies this`settings
      ensures Valid() && settings == old(settings).(orientation := if landscape then "landscape" else "portrait")
    {
      settings := settings.(orientation := if landscape then "landscape" else "portrait");
    }

    /** The pages text field: any text, unchecked. */
    method SetPages(text: string)
      requires Valid()
      modifies this`settings
      ensures Valid() && settings == old(settings).(pages := text)
    {
      settings := settings.(pages := text);
    }

    /** `handleUpload`: nothing without a file or a printer; otherwise
        post the file and the settings, show 100% on an OK response,
        alert on any failure, and clear `isUploading` in `finally`. */
    method HandleUpload(response: FetchResult) returns (sent: Option<UploadForm>, alerts: seq<string>)
      requires Valid()
      modifies this`isUploading, this`uploadProgress
      ensures Valid() && !isUploading
      ensures old(file.None? || settings.printerId == "") ==>
                sent == None && alerts == [] && uploadProgress == old(uploadProgress)
      ensures old(file.Some? && settings.printerId != "") ==>
                && sent == Some(UploadForm(file, SettingsJson(settings)))
                && uploadProgress == (if response == FetchOk then 100 else 0)
                && alerts == (if response == FetchOk then [] else [UploadAlert])
    {
      if file.None? || settings.printerId == "" {
        return None, [];
      }
      isUploading := true;
      uploadProgress := 0;
      sent := Some(UploadForm(file, SettingsJson(settings)));
      alerts := [];
      if response == FetchOk {
        uploadProgress := 100;
      } else {
        alerts := [UploadAlert];
      }
      isUploading := false;
    }

    /** `handlePrint`: the same guard; then `handleUpload`, and then the
        print request whatever the upload's outcome, since `handleUpload`
        catches its own errors. */
    method HandlePrint(uploadResponse: FetchResult, printResponse: FetchResult)
      returns (uploadSent: Option<UploadForm>, printSent: Option<PrintBody>, alerts: seq<string>)
      requires Valid()
      modifies this`isUploading, this`uploadProgress
      ensures Valid()
      ensures old(PrintDisabled()) <==> printSent.None?
      ensures old(PrintDisabled()) ==> uploadSent == None && alerts == [] && uploadProgress == old(uploadProgress)
      ensures !old(PrintDisabled()) ==>
                && uploadSent == Some(UploadForm(file, SettingsJson(settings)))
                && printSent == Some(PrintRequestBody(file.value, settings))
                && !isUploading
                && uploadProgress == (if uploadResponse == FetchOk then 100 else 0)
                && alerts == (if uploadResponse == FetchOk then [] else [UploadAlert])
                             + (if printResponse == FetchOk then [] else [PrintAlert])
    {
      if file.None? || settings.printerId == "" {
        return None, None, [];
      }
      var uploadAlerts;
      uploadSent, uploadAlerts := HandleUpload(uploadResponse);
      printSent := Some(PrintRequestBody(file.value, settings));
      alerts := uploadAlerts + (if printResponse == FetchOk then [] else [PrintAlert]);
    }
  }
}
