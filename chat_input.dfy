/**
 * The message composer (frontend/src/components/ChatInput.tsx): the
 * extension allow-list in front of `parseFile`, the staged attachment, and
 * submission, which forwards the staged file to `App.handleSubmit` and then
 * clears the text box and the staged file.
 */
module ChatInput {
  import opened Wrappers
  import opened Js
  import opened FileParser
  import ChatStore
  import FileUpload
  import FileAttachmentView

  const AllowedExtensions := ["csv", "xlsx", "xls"]
  const ExtensionAlert := "Por favor, selecciona un archivo CSV o Excel (.csv, .xlsx, .xls)"
  const ParseAlert := "Error al parsear el archivo. Por favor, verifica que el archivo esté correcto."

  /** `fileExtension && allowedExtensions.includes(fileExtension)` */
  predicate ExtensionAllowed(name: string) {
    Extension(name) in AllowedExtensions
  }

  /** The allow-list names exactly the extensions the parser has a reader for. */
  lemma AllowedMeansKnown(ext: string)
    ensures ext in AllowedExtensions <==> ext == "csv" || IsExcelExtension(ext)
  {
    if ext == "csv" { assert ext == AllowedExtensions[0]; }
    else if ext == "xlsx" { assert ext == AllowedExtensions[1]; }
    else if ext == "xls" { assert ext == AllowedExtensions[2]; }
  }

  /** A file past the allow-list never meets the parser's extension errors. */
  lemma AllowedFilesReachDecoder(file: FileInfo, csv: CsvDecode, excel: ExcelLoad, toIso: int -> string)
    requires ExtensionAllowed(file.name)
    ensures Parse(file, csv, excel, toIso) != Failure(MissingExtension)
    ensures Parse(file, csv, excel, toIso) != Failure(UnsupportedType)
  {
    AllowedMeansKnown(Extension(file.name));
    ParseOrder(file, csv, excel, toIso);
  }

  /** The send button is disabled: blank text and nothing staged. */
  predicate SubmitDisabled(input: string, staged: Option<Attachment>) {
    IsBlank(input) && staged.None?
  }

  /** The paperclip is disabled while a file is staged. */
  predicate AttachDisabled(staged: Option<Attachment>) {
    staged.Some?
  }

  /** An enabled send button never leads to the store's no-op guard, and a disabled one always would. */
  lemma SubmitEnabledMatchesStoreGuard(input: string, staged: Option<Attachment>)
    ensures SubmitDisabled(input, staged) <==> ChatStore.SubmitIgnored(input, staged)
  {
  }

  /** The composer sends without asking for a chart, so the endpoint's answer is never looked at. */
  const Unrequested: ChatStore.ChartResponse := ChatStore.FetchFailed("")

  lemma PlainSubmitIgnoresResponse(chats: seq<ChatStore.Chat>, active: string, input: string, staged: Option<Attachment>,
                                   r1: ChatStore.ChartResponse, r2: ChatStore.ChartResponse,
                                   sentAt: ChatStore.Time, repliedAt: ChatStore.Time, updatedAt: ChatStore.Time)
    requires |chats| > 0
    ensures ChatStore.SubmitChats(chats, active, input, staged, false, r1, sentAt, repliedAt, updatedAt)
         == ChatStore.SubmitChats(chats, active, input, staged, false, r2, sentAt, repliedAt, updatedAt)
  {
  }

  /** The staged attachment after `handleFileSelect(file)`. */
  function StagedAfterSelect(staged: Option<Attachment>, file: FileInfo, csv: CsvDecode, excel: ExcelLoad,
                             toIso: int -> string): (r: Option<Attachment>)
    ensures !ExtensionAllowed(file.name) ==> r == staged
    ensures ExtensionAllowed(file.name) && Parse(file, csv, excel, toIso).Success? ==> r == Some(Parse(file, csv, excel, toIso).value)
    ensures ExtensionAllowed(file.name) && Parse(file, csv, excel, toIso).Failure? ==> r == staged
  {
    if !ExtensionAllowed(file.name) then staged
    else
      match Parse(file, csv, excel, toIso)
      case Success(a) => Some(a)
      case Failure(_) => staged
  }

  /** The staged attachment after a choice in the picker, which is disabled while a file is staged. */
  function StagedAfterChoice(staged: Option<Attachment>, files: seq<FileInfo>, csv: CsvDecode, excel: ExcelLoad,
                             toIso: int -> string): (r: Option<Attachment>)
    ensures AttachDisabled(staged) ==> r == staged
    ensures FileUpload.Gate(files).None? ==> r == staged
    ensures !AttachDisabled(staged) && FileUpload.Gate(files).Some? ==>
      r == StagedAfterSelect(staged, files[0], csv, excel, toIso)
  {
    if AttachDisabled(staged) then staged
    else
      match FileUpload.Gate(files)
      case None => staged
      case Some(f) => StagedAfterSelect(staged, f, csv, excel, toIso)
  }

  /**
   * Whatever gets staged came from a non-empty file within the size limit
   * whose extension is on the allow-list, and is exactly what the parser built.
   */
  lemma StagedFilePassedEveryCheck(staged: Option<Attachment>, files: seq<FileInfo>, csv: CsvDecode, excel: ExcelLoad,
                                   toIso: int -> string)
    requires StagedAfterChoice(staged, files, csv, excel, toIso) != staged
    ensures |files| > 0 && 0 < files[0].size <= FileUpload.MaxSize && ExtensionAllowed(files[0].name)
    ensures Parse(files[0], csv, excel, toIso).Success?
    ensures StagedAfterChoice(staged, files, csv, excel, toIso) == Some(Parse(files[0], csv, excel, toIso).value)
  {
  }

  class Composer {
    var selectedFile: Option<Attachment>

    constructor ()
      ensures selectedFile == None
    {
      selectedFile := None;
    }

    /** The staged card is given a remove handler, so it offers removal whenever a file is staged. */
    function RemoveOffered(): (b: bool)
      reads this
      ensures b <==> selectedFile.Some?
    {
      FileAttachmentView.RemoveShown(selectedFile.Some?)
    }

    /**
     * `handleFileSelect`: an alert for a refused extension without parsing;
     * otherwise the parsed attachment is staged, or an alert on failure.
     */
    method HandleFileSelect(file: FileInfo, csv: CsvDecode, excel: ExcelLoad, toIso: int -> string) returns (alert: Option<string>)
      modifies this
      ensures selectedFile == StagedAfterSelect(old(selectedFile), file, csv, excel, toIso)
      ensures !ExtensionAllowed(file.name) ==> alert == Some(ExtensionAlert)
      ensures ExtensionAllowed(file.name) ==> alert == (if Parse(file, csv, excel, toIso).Success? then None else Some(ParseAlert))
    {
      if !ExtensionAllowed(file.name) {
        return Some(ExtensionAlert);
      }
      var parsed := ParseFile(file, csv, excel, toIso);
      match parsed
      case Success(a) =>
        selectedFile := Some(a);
        alert := None;
      case Failure(_) =>
        alert := Some(ParseAlert);
    }

    /**
     * The picker wired to the composer: a disabled picker ignores the
     * choice; otherwise a file past the size gate goes to `HandleFileSelect`.
     */
    method ChooseFiles(picker: FileUpload.Picker, files: seq<FileInfo>, csv: CsvDecode, excel: ExcelLoad, toIso: int -> string)
      returns (alert: Option<string>)
      modifies this, picker
      ensures selectedFile == StagedAfterChoice(old(selectedFile), files, csv, excel, toIso)
      ensures AttachDisabled(old(selectedFile)) ==> picker.value == old(picker.value) && alert == None
      ensures !AttachDisabled(old(selectedFile)) && |files| == 0 ==> picker.value == old(picker.value) && alert == None
      ensures !AttachDisabled(old(selectedFile)) && |files| > 0 ==> picker.value == ""
      ensures !AttachDisabled(old(selectedFile)) && |files| > 0 && files[0].size > FileUpload.MaxSize ==>
        alert == Some(FileUpload.SizeAlert)
      ensures !AttachDisabled(old(selectedFile)) && FileUpload.Gate(files).Some? && !ExtensionAllowed(files[0].name) ==>
        alert == Some(ExtensionAlert)
      ensures !AttachDisabled(old(selectedFile)) && FileUpload.Gate(files).Some? && ExtensionAllowed(files[0].name) ==>
        alert == (if Parse(files[0], csv, excel, toIso).Success? then None else Some(ParseAlert))
    {
      if AttachDisabled(selectedFile) {
        return None;
      }
      var chosen, sizeAlert := picker.HandleFileChange(files);
      match chosen
      case None => alert := sizeAlert;
      case Some(f) => alert := HandleFileSelect(f, csv, excel, toIso);
    }

    /** The staged card's `onRemove`. */
    method Remove()
      modifies this
      ensures selectedFile == None
    {
      selectedFile := None;
    }

    /**
     * `handleSubmit`: `onSubmit(e, selectedFile || undefined)` without a chart
     * request, then the text box and the staged file are cleared.
     */
    method HandleSubmit(app: ChatStore.App, sentAt: ChatStore.Time, repliedAt: ChatStore.Time, updatedAt: ChatStore.Time)
      requires app.Valid()
      modifies this, app
      ensures app.Valid()
      ensures app.chats == ChatStore.SubmitChats(old(app.chats), old(app.activeChat), old(app.input), old(selectedFile),
                                                 false, Unrequested, sentAt, repliedAt, updatedAt)
      ensures app.activeChat == old(app.activeChat) && app.isTyping == old(app.isTyping)
      ensures app.input == "" && selectedFile == None
    {
      app.HandleSubmit(selectedFile, false, Unrequested, sentAt, repliedAt, updatedAt);
      app.SetInput("");
      selectedFile := None;
    }
  }
}
