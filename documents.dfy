/**
 * The applicant's document locker (app/profile/documents/page.tsx): the
 * checks a chosen file must pass before it is uploaded, the upload with its
 * in-flight flag, confirmed deletion, and the status styles.
 */
module Documents {
  import opened Wrappers
  import opened Platform

  /** 10 MiB, the largest file accepted. */
  const MaxFileSize: nat := 10 * 1024 * 1024

  const AllowedTypes := ["application/pdf", "image/jpeg", "image/jpg", "image/png"]

  const NoSelection := "Please select a document type"
  const TooLarge := "File size must be less than 10MB"
  const WrongType := "Only PDF, JPG, and PNG files are allowed"

  /** The first file of the input: its size in bytes and its MIME type. */
  datatype File = File(size: nat, mimeType: string)

  /** The multipart body: the file and the chosen document type. */
  datatype UploadForm = UploadForm(file: File, documentType: string)

  /** How the upload settled: rejected with the server's message, or the body's `success`. */
  datatype UploadReply = UploadFailed(message: Option<string>) | UploadReplied(success: bool)

  /** How the delete mutation settled. */
  datatype DeleteReply = DeleteFailed(message: Option<string>) | Deleted

  /** `handleFileUpload`'s checks, in order: a file and a type chosen, then the size, then the MIME type. */
  function UploadCheck(file: Option<File>, selectedType: string): (error: Option<string>)
    ensures error.None? <==>
              file.Some? && selectedType != "" && file.value.size <= MaxFileSize && file.value.mimeType in AllowedTypes
    ensures file.None? || selectedType == "" ==> error == Some(NoSelection)
    ensures file.Some? && selectedType != "" && file.value.size > MaxFileSize ==> error == Some(TooLarge)
    ensures file.Some? && selectedType != "" && file.value.size <= MaxFileSize && file.value.mimeType !in AllowedTypes ==>
              error == Some(WrongType)
  {
    if file.None? || selectedType == "" then Some(NoSelection)
    else if file.value.size > MaxFileSize then Some(TooLarge)
    else if file.value.mimeType !in AllowedTypes then Some(WrongType)
    else None
  }

  /** The limit is inclusive: a file of exactly 10 MiB passes the size check, one byte more does not. */
  lemma SizeLimitInclusive(mimeType: string, selectedType: string)
    requires mimeType in AllowedTypes && selectedType != ""
    ensures UploadCheck(Some(File(MaxFileSize, mimeType)), selectedType) == None
    ensures UploadCheck(Some(File(MaxFileSize + 1, mimeType)), selectedType) == Some(TooLarge)
  {
  }

  /** An oversized file of a wrong type is reported as oversized: size is checked first. */
  lemma SizeBeforeType(size: nat, mimeType: string, selectedType: string)
    requires size > MaxFileSize && selectedType != ""
    ensures UploadCheck(Some(File(size, mimeType)), selectedType) == Some(TooLarge)
  {
  }

  datatype Glyph = CheckCircle | CrossCircle | Clock

  /** The status icon: approved and rejected explicitly, anything else as pending. */
  function StatusIcon(status: string): (g: Glyph)
    ensures g == CheckCircle <==> status == "approved"
    ensures g == CrossCircle <==> status == "rejected"
    ensures g == Clock <==> status != "approved" && status != "rejected"
  {
    match status
    case "approved" => CheckCircle
    case "rejected" => CrossCircle
    case _ => Clock
  }

  function StatusColor(status: string): (color: string)
    ensures status == "approved" ==> color == "text-success-600 bg-success-50 border-success-200"
    ensures status == "rejected" ==> color == "text-error-600 bg-error-50 border-error-200"
    ensures color == "text-warning-600 bg-warning-50 border-warning-200" <==> status != "approved" && status != "rejected"
  {
    match status
    case "approved" => "text-success-600 bg-success-50 border-success-200"
    case "rejected" => "text-error-600 bg-error-50 border-error-200"
    case _ => "text-warning-600 bg-warning-50 border-warning-200"
  }

  /** Every status outside approved and rejected looks like `pending`. */
  lemma OtherStatusesLookPending(status: string)
    requires status != "approved" && status != "rejected"
    ensures StatusIcon(status) == StatusIcon("pending") && StatusColor(status) == StatusColor("pending")
  {
  }

  class DocumentsPage {
    var selectedType: string
    var uploading: bool
    /** The value of the file input; cleared after a successful upload. */
    var fileInput: string
    const browser: Browser

    constructor (browser: Browser)
      ensures selectedType == "" && !uploading && fileInput == "" && this.browser == browser
    {
      selectedType := "";
      uploading := false;
      fileInput := "";
      this.browser := browser;
    }

    /**
     * `handleFileUpload` up to its awaited call: a file failing a check is
     * reported and nothing else happens; otherwise `uploading` is raised and
     * the form (`sent`) is posted.
     */
    method BeginUpload(file: Option<File>) returns (sent: Option<UploadForm>)
      modifies this, browser
      ensures UploadCheck(file, old(selectedType)).Some? ==>
                && sent == None && uploading == old(uploading)
                && browser.events == old(browser.events) + [Notify(Error, UploadCheck(file, old(selectedType)).value, None)]
      ensures UploadCheck(file, old(selectedType)).None? ==>
                && sent == Some(UploadForm(file.value, old(selectedType))) && uploading
                && browser.events == old(browser.events) + [Call(Post, "/profile/documents")]
      ensures selectedType == old(selectedType) && fileInput == old(fileInput)
      ensures browser.storage == old(browser.storage)
    {
      var error := UploadCheck(file, selectedType);
      if error.Some? {
        browser.Emit(Notify(Error, error.value, None));
        return None;
      }
      uploading := true;
      browser.Emit(Call(Post, "/profile/documents"));
      sent := Some(UploadForm(file.value, selectedType));
    }

    /** The rest of `handleFileUpload`: only a successful reply clears the chosen type and the input. */
    method FinishUpload(reply: UploadReply)
      modifies this, browser
      ensures !uploading
      ensures reply.UploadReplied? && reply.success ==>
                && selectedType == "" && fileInput == ""
                && browser.events == old(browser.events) + [Notify(Success, "Document uploaded successfully", None)]
      ensures reply.UploadReplied? && !reply.success ==>
                selectedType == old(selectedType) && fileInput == old(fileInput) && browser.events == old(browser.events)
      ensures reply.UploadFailed? ==>
                && selectedType == old(selectedType) && fileInput == old(fileInput)
                && browser.events == old(browser.events) +
                     [Notify(Error, ErrorToast(reply.message, "Failed to upload document"), None)]
      ensures browser.storage == old(browser.storage)
    {
      match reply {
        case UploadReplied(success) =>
          if success {
            browser.Emit(Notify(Success, "Document uploaded successfully", None));
            selectedType := "";
            fileInput := "";
          }
        case UploadFailed(message) =>
          browser.Emit(Notify(Error, ErrorToast(message, "Failed to upload document"), None));
      }
      uploading := false;
    }

    /** `handleDelete`: the document is deleted only after the confirmation is accepted. */
    method HandleDelete(id: string, confirmed: bool, reply: DeleteReply)
      modifies browser
      ensures !confirmed ==> browser.events == old(browser.events) + [Ask("Are you sure you want to delete this document?")]
      ensures confirmed ==>
                browser.events == old(browser.events) + [Ask("Are you sure you want to delete this document?"),
                  Call(Delete, "/profile/documents/" + id),
                  if reply.Deleted? then Notify(Success, "Document deleted successfully", None)
                  else Notify(Error, ErrorToast(reply.message, "Failed to delete document"), None)]
      ensures browser.storage == old(browser.storage)
    {
      browser.Emit(Ask("Are you sure you want to delete this document?"));
      if !confirmed {
        return;
      }
      browser.Emit(Call(Delete, "/profile/documents/" + id));
      if reply.Deleted? {
        browser.Emit(Notify(Success, "Document deleted successfully", None));
      } else {
        browser.Emit(Notify(Error, ErrorToast(reply.message, "Failed to delete document"), None));
      }
    }
  }

  /** A rejected file never raises `uploading`; an accepted one raises it until the reply is in. */
  method UploadRound(page: DocumentsPage, file: Option<File>, reply: UploadReply) returns (sent: Option<UploadForm>)
    requires !page.uploading
    modifies page, page.browser
    ensures !page.uploading
    ensures sent.Some? <==> UploadCheck(file, old(page.selectedType)).None?
  {
    sent := page.BeginUpload(file);
    if sent.Some? {
      page.FinishUpload(reply);
    }
  }
}
