/**
 * The upload component: the staged selection, PDF-only validation, the
 * multipart request body, the progress percentage and the success and
 * failure paths of one upload.
 *
 * The POST is replaced by progress events and an outcome passed in by the
 * caller; every request body sent is appended to the ghost log `requests`.
 */
module Upload {
  import opened Common
  import Page

  const PdfType := "application/pdf"
  /** The multipart field every file is sent under. */
  const FilesField := "files"
  const OnlyPdfMessage := "Only PDF files are allowed."
  const NoSelectionMessage := "Please select files first"
  const UploadFailedMessage := "Error uploading files. Please try again."
  const UploadedMessage := "Files uploaded successfully!"

  /** A file from the browser's file picker, with the MIME type the browser declares for it. */
  datatype File = File(name: string, mimeType: string, size: nat)

  predicate IsPdf(f: File) {
    f.mimeType == PdfType
  }

  predicate AllPdf(s: seq<File>) {
    forall i :: 0 <= i < |s| ==> IsPdf(s[i])
  }

  // ---------------------------------------------------------------------------
  // Validation of a selection

  /**
   * The PDF files of a selection, in selection order. The result is as long
   * as the selection exactly when every file is a PDF, and then it is the
   * selection itself.
   */
  function PdfFiles(s: seq<File>): (r: seq<File>)
    ensures |r| <= |s|
    ensures AllPdf(r)
    ensures forall f :: f in r <==> f in s && IsPdf(f)
    ensures |r| == |s| <==> AllPdf(s)
    ensures AllPdf(s) ==> r == s
    decreases |s|
  {
    if s == [] then []
    else if IsPdf(s[0]) then [s[0]] + PdfFiles(s[1..])
    else PdfFiles(s[1..])
  }

  /**
   * Filtering a selection split in two gives the filtered halves one after
   * the other: the PDF files keep the order they had in the selection.
   */
  lemma {:induction false} PdfFilesOfConcat(a: seq<File>, b: seq<File>)
    ensures PdfFiles(a + b) == PdfFiles(a) + PdfFiles(b)
    decreases |a|
  {
    if a == [] {
      assert a + b == b;
    } else {
      assert (a + b)[0] == a[0] && (a + b)[1..] == a[1..] + b;
      PdfFilesOfConcat(a[1..], b);
    }
  }

  // ---------------------------------------------------------------------------
  // Progress

  type Positive = n: nat | n > 0 witness 1

  /** One transport progress event: bytes sent so far and bytes in all. */
  datatype ProgressEvent = ProgressEvent(loaded: nat, total: Positive)

  /** `Math.floor(loaded * 100 / total)`: the largest whole percentage not above the exact ratio. */
  function Percent(loaded: nat, total: Positive): (p: nat)
    ensures p * total <= loaded * 100 < (p + 1) * total
  {
    loaded * 100 / total
  }

  /** Scaling by a natural number keeps the order. */
  lemma MulMonotone(a: nat, b: nat, c: nat)
    requires a <= b
    ensures a * c <= b * c
  {
    var d: nat := b - a;
    assert b * c == a * c + d * c;
  }

  /** Progress does not decrease as more bytes are sent. */
  lemma PercentMonotone(loaded: nat, loaded': nat, total: Positive)
    requires loaded <= loaded'
    ensures Percent(loaded, total) <= Percent(loaded', total)
  {
    var p, p' := Percent(loaded, total), Percent(loaded', total);
    MulMonotone(loaded, loaded', 100);
    if p' + 1 <= p { MulMonotone(p' + 1, p, total); }
  }

  /** Progress never goes past 100 while no more than the total has been sent, and is 100 when all is sent. */
  lemma PercentBounded(loaded: nat, total: Positive)
    requires loaded <= total
    ensures Percent(loaded, total) <= 100
    ensures loaded == total ==> Percent(loaded, total) == 100
  {
    var p := Percent(total, total);
    if 101 <= p { MulMonotone(101, p, total); }
    if p + 1 <= 100 { MulMonotone(p + 1, 100, total); }
    PercentMonotone(loaded, total, total);
  }

  /** The progress value once the events of `events` have been reported, starting from `start`. */
  function ProgressAfter(start: nat, events: seq<ProgressEvent>): nat {
    if events == [] then start
    else Percent(events[|events| - 1].loaded, events[|events| - 1].total)
  }

  /**
   * For events of one transfer (a fixed total, bytes sent growing, never past
   * the total) the progress shown after each event lies in 0..100 and does
   * not decrease from one event to the next.
   */
  lemma {:induction false} ProgressOfOneTransfer(start: nat, events: seq<ProgressEvent>, i: nat, j: nat)
    requires forall k :: 0 <= k < |events| ==> events[k].total == events[0].total
    requires forall k :: 0 <= k < |events| ==> events[k].loaded <= events[k].total
    requires forall k, l :: 0 <= k < l < |events| ==> events[k].loaded <= events[l].loaded
    requires 0 < i <= j <= |events|
    ensures ProgressAfter(start, events[..i]) <= ProgressAfter(start, events[..j]) <= 100
  {
    var e, e' := events[i - 1], events[j - 1];
    assert events[..i][i - 1] == e && events[..j][j - 1] == e';
    PercentMonotone(e.loaded, e'.loaded, e.total);
    PercentBounded(e'.loaded, e'.total);
  }

  // ---------------------------------------------------------------------------
  // The request body

  /** One part of a multipart body: a field name and the file under it. */
  datatype FormEntry = FormEntry(name: string, file: File)

  /** The files stored under `name`, in order (`FormData.getAll`). */
  function GetAll(body: seq<FormEntry>, name: string): seq<File>
    decreases |body|
  {
    if body == [] then []
    else GetAll(body[..|body| - 1], name)
         + (if body[|body| - 1].name == name then [body[|body| - 1].file] else [])
  }

  /** Appends every file of the selection, in order, under the field `files`. */
  method BuildFormData(files: seq<File>) returns (body: seq<FormEntry>)
    ensures |body| == |files|
    ensures forall i :: 0 <= i < |body| ==> body[i] == FormEntry(FilesField, files[i])
    ensures GetAll(body, FilesField) == files
  {
    body := [];
    var i := 0;
    while i < |files|
      invariant 0 <= i <= |files|
      invariant |body| == i
      invariant forall k :: 0 <= k < i ==> body[k] == FormEntry(FilesField, files[k])
      invariant GetAll(body, FilesField) == files[..i]
    {
      var before := body;
      body := body + [FormEntry(FilesField, files[i])];
      assert body[..|body| - 1] == before;
      assert files[..i + 1] == files[..i] + [files[i]];
      i := i + 1;
    }
    assert files[..i] == files;
  }

  // ---------------------------------------------------------------------------
  // How an upload ends

  /** The error the POST threw: `Some(data)` when it carried a response with data. */
  datatype UploadOutcome = Uploaded | UploadFailed(responseData: Option<string>)

  /**
   * The text of the failure notification: the server's response data when
   * it is present and non-empty (JavaScript truthiness), otherwise the
   * generic message.
   */
  function FailureNotice(responseData: Option<string>): (text: string)
    ensures text != ""
    ensures text == UploadFailedMessage || responseData == Some(text)
    ensures responseData.Some? && responseData.value != "" ==> text == responseData.value
  {
    match responseData
    case Some(data) => if data != "" then data else UploadFailedMessage
    case None => UploadFailedMessage
  }

  /** The component's state fields, as a value. */
  datatype UploadState = UploadState(
    files: seq<File>,
    uploadProgress: nat,
    isUploading: bool,
    error: string,
    success: string)

  // ---------------------------------------------------------------------------
  // The component

  class FileUpload {
    /** The page whose `ReloadFiles` is this component's `reloadFiles` prop. */
    const home: Page.Home
    var files: seq<File>
    var uploadProgress: nat
    var isUploading: bool
    var error: string
    var success: string
    /** Notifications handed to the toast library, oldest first. */
    var toasts: seq<Toast>
    /** Every request body posted, oldest first. */
    ghost var requests: seq<seq<FormEntry>>

    function State(): UploadState
      reads this
    {
      UploadState(files, uploadProgress, isUploading, error, success)
    }

    /** The Upload button is disabled while uploading or with nothing selected. */
    predicate UploadDisabled()
      reads this
    {
      isUploading || |files| == 0
    }

    /** The state before the first render. */
    constructor (home: Page.Home)
      ensures this.home == home
      ensures State() == UploadState([], 0, false, "", "")
      ensures toasts == [] && requests == []
    {
      this.home := home;
      files, uploadProgress, isUploading, error, success := [], 0, false, "", "";
      toasts, requests := [], [];
    }

    /** A new selection in the file picker: accepted whole if all PDF, otherwise rejected whole. */
    method HandleFileChange(selected: seq<File>)
      modifies this
      ensures AllPdf(selected) ==> State() == old(State()).(files := selected, error := "")
      ensures !AllPdf(selected) ==> State() == old(State()).(files := [], error := OnlyPdfMessage)
      ensures toasts == old(toasts) && requests == old(requests)
    {
      var validFiles := PdfFiles(selected);
      if |validFiles| != |selected| {
        error := OnlyPdfMessage;
        files := [];
      } else {
        files := validFiles;
        error := "";
      }
    }

    /**
     * The part of the Upload handler before the POST is awaited: with nothing
     * selected it only sets an error; otherwise it marks the upload as
     * started and posts `body`, the selection under the field `files`.
     */
    method BeginUpload() returns (started: bool, body: seq<FormEntry>)
      modifies this
      ensures started <==> old(files) != []
      ensures !started ==>
        State() == old(State()).(error := NoSelectionMessage) && requests == old(requests)
      ensures started ==>
        State() == old(State()).(isUploading := true, error := "", success := "")
        && requests == old(requests) + [body]
        && GetAll(body, FilesField) == files
        && |body| == |files| && forall i :: 0 <= i < |body| ==> body[i].name == FilesField
      ensures started ==> UploadDisabled()
      ensures toasts == old(toasts)
    {
      if |files| == 0 {
        error := NoSelectionMessage;
        return false, [];
      }
      isUploading := true;
      error := "";
      success := "";
      body := BuildFormData(files);
      requests := requests + [body];
      started := true;
    }

    /** The transport's progress callback. */
    method OnUploadProgress(e: ProgressEvent)
      modifies this
      ensures State() == old(State()).(uploadProgress := Percent(e.loaded, e.total))
      ensures toasts == old(toasts) && requests == old(requests)
    {
      uploadProgress := Percent(e.loaded, e.total);
    }

    /**
     * The part of the Upload handler after the POST settles. On success the
     * selection and progress are cleared and `reloadFiles` is called once; on
     * failure the selection and progress stay, so the user can retry.
     */
    method FinishUpload(outcome: UploadOutcome)
      requires home.Valid()
      modifies this, home
      ensures home.Valid()
      ensures outcome.Uploaded? ==>
        State() == old(State()).(isUploading := false, uploadProgress := 0, success := UploadedMessage, files := [])
        && toasts == old(toasts) + [ToastSuccess(UploadedMessage)]
        && home.reload && home.history == old(home.history) + [true]
      ensures outcome.UploadFailed? ==>
        State() == old(State()).(isUploading := false, error := UploadFailedMessage)
        && toasts == old(toasts) + [ToastError(FailureNotice(outcome.responseData))]
        && unchanged(home)
      ensures requests == old(requests)
    {
      match outcome
      case Uploaded =>
        isUploading := false;
        uploadProgress := 0;
        success := UploadedMessage;
        toasts := toasts + [ToastSuccess(UploadedMessage)];
        files := [];
        home.ReloadFiles();
      case UploadFailed(responseData) =>
        isUploading := false;
        error := UploadFailedMessage;
        toasts := toasts + [ToastError(FailureNotice(responseData))];
    }

    /**
     * The whole Upload handler: the POST reports the progress events of
     * `events` and then settles with `outcome`.
     */
    method HandleUpload(events: seq<ProgressEvent>, outcome: UploadOutcome)
      requires home.Valid()
      modifies this, home
      ensures home.Valid()
      ensures old(files) == [] ==>
        State() == old(State()).(error := NoSelectionMessage)
        && requests == old(requests) && toasts == old(toasts) && unchanged(home)
      ensures old(files) != [] ==>
        |requests| == |old(requests)| + 1 && requests[..|old(requests)|] == old(requests)
        && GetAll(requests[|old(requests)|], FilesField) == old(files)
        && |requests[|old(requests)|]| == |old(files)|
        && forall i :: 0 <= i < |old(files)| ==> requests[|old(requests)|][i].name == FilesField
      ensures old(files) != [] && outcome.Uploaded? ==>
        State() == UploadState([], 0, false, "", UploadedMessage)
        && toasts == old(toasts) + [ToastSuccess(UploadedMessage)]
        && home.reload && home.history == old(home.history) + [true]
      ensures old(files) != [] && outcome.UploadFailed? ==>
        State() == UploadState(old(files), ProgressAfter(old(uploadProgress), events), false, UploadFailedMessage, "")
        && toasts == old(toasts) + [ToastError(FailureNotice(outcome.responseData))]
        && unchanged(home)
    {
      var started, body := BeginUpload();
      if !started {
        return;
      }
      ghost var posted := requests;
      var i := 0;
      while i < |events|
        invariant 0 <= i <= |events|
        invariant State() == UploadState(old(files), ProgressAfter(old(uploadProgress), events[..i]), true, "", "")
        invariant requests == posted && toasts == old(toasts)
        invariant unchanged(home)
      {
        OnUploadProgress(events[i]);
        assert events[..i + 1][i] == events[i];
        i := i + 1;
      }
      assert events[..i] == events;
      FinishUpload(outcome);
    }
  }
}
