/** `generatePDF`: while the capture runs the download button is disabled
    and shows a spinner label; whether the capture succeeds or throws, the
    `finally` block gives the button back its label and enables it. The
    rasterizer and the PDF library are represented by the outcome they
    report. */
module Export {
  import opened Wrappers
  import opened LineItems
  import opened Render

  const FilePrefix := "ORO-MANTRA-Invoice-"
  const FileSuffix := ".pdf"
  const BusyLabel := "<i class=\"fas fa-spinner fa-spin\"></i> Generating PDF..."
  const SavedMessage := "Invoice PDF downloaded successfully!"
  const FailedMessage := "Error generating PDF. Please try again."

  /** The name the PDF is saved under; a blank invoice number gives "invoice". */
  function PdfFileName(invoiceNumber: string): (name: string)
    ensures |name| > |FilePrefix| + |FileSuffix|
    ensures name[..|FilePrefix|] == FilePrefix
    ensures name[|name| - |FileSuffix|..] == FileSuffix
  {
    FilePrefix + (if invoiceNumber == "" then "invoice" else invoiceNumber) + FileSuffix
  }

  /** The invoice number a saved file name was made from. */
  function InvoiceNumberOfFileName(name: string): Option<string> {
    if |name| >= |FilePrefix| + |FileSuffix|
       && name[..|FilePrefix|] == FilePrefix
       && name[|name| - |FileSuffix|..] == FileSuffix
    then Some(name[|FilePrefix|..|name| - |FileSuffix|])
    else None
  }

  /** The file name gives back the invoice number (or "invoice"). */
  lemma FileNameRoundTrip(invoiceNumber: string)
    ensures InvoiceNumberOfFileName(PdfFileName(invoiceNumber))
         == Some(if invoiceNumber == "" then "invoice" else invoiceNumber)
  {
  }

  /** Distinct invoice numbers are saved under distinct names. */
  lemma FileNamesDistinct(a: string, b: string)
    requires a != b && a != "" && b != ""
    ensures PdfFileName(a) != PdfFileName(b)
  {
    FileNameRoundTrip(a);
    FileNameRoundTrip(b);
  }

  /** How the asynchronous part ends: every step completes, `html2canvas`
      throws while the off-screen container is still in the page, or a later
      step (`toDataURL`, `jsPDF`, `addImage`, `save`) throws after the
      container was removed. */
  datatype Capture = Completed | CaptureThrew | AssemblyThrew

  datatype ButtonState = ButtonState(text: string, disabled: bool)

  /** The file that was saved and the page captured into it. */
  datatype Outcome = Saved(fileName: string, page: Document) | Failed

  datatype Notice = Notice(message: string, isError: bool)

  class DownloadButton {
    var text: string
    var disabled: bool

    constructor (text: string)
      ensures this.text == text && !disabled
    {
      this.text := text;
      disabled := false;
    }
  }

  /** `generatePDF` on the form's inputs `m` and rows `items` as they stand
      when the export starts; the page is built from them before the
      capture. The invoice number for the file name is read only after the
      capture returns, while the form stays editable: `numberAtSave` is that
      later reading. `busy` is the button as it stands while the capture
      runs; `strayContainer` says whether the off-screen container is left
      in the page. */
  method GeneratePdf(button: DownloadButton, m: Meta, items: seq<Item>,
                     longDate: string -> string, now: string,
                     capture: Capture, numberAtSave: string)
    returns (busy: ButtonState, outcome: Outcome, notice: Notice, strayContainer: bool)
    modifies button
    ensures busy == ButtonState(BusyLabel, true)
    ensures button.text == old(button.text) && !button.disabled
    ensures capture == Completed <==> outcome.Saved?
    ensures outcome.Saved? ==>
      outcome.fileName == PdfFileName(numberAtSave) &&
      outcome.page == RenderPdf(m, items, longDate, now)
    ensures notice == (if outcome.Saved? then Notice(SavedMessage, false) else Notice(FailedMessage, true))
    ensures strayContainer <==> capture == CaptureThrew
  {
    var originalText := button.text;
    button.text := BusyLabel;
    button.disabled := true;

    busy := ButtonState(button.text, button.disabled);
    var page := RenderPdf(m, items, longDate, now);
    strayContainer := true;
    if capture == CaptureThrew {
      outcome := Failed;
      notice := Notice(FailedMessage, true);
    } else {
      strayContainer := false;
      if capture == AssemblyThrew {
        outcome := Failed;
        notice := Notice(FailedMessage, true);
      } else {
        outcome := Saved(PdfFileName(numberAtSave), page);
        notice := Notice(SavedMessage, false);
      }
    }

    button.text := originalText;
    button.disabled := false;
  }
}
