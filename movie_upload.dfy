/** The movie upload dialog: a three-field form, a thumbnail and a video file
    picker, a preview of the thumbnail, and a mock upload that only waits and
    reports success. */
module MovieUpload {
  import opened Text

  /** A file the user picked; only its presence matters to the form. */
  datatype File = File(name: string)

  /** The named text inputs of the form. */
  datatype Field = Title | Description | Year

  datatype FormData = FormData(title: string, description: string, year: string)

  /** The value an input shows. */
  function FieldValue(form: FormData, field: Field): (value: string) {
    match field
    case Title => form.title
    case Description => form.description
    case Year => form.year
  }

  /** `{ ...prev, [name]: value }`: the form with one field replaced. */
  function WithField(form: FormData, field: Field, value: string): (r: FormData)
    ensures forall f :: FieldValue(r, f) == if f == field then value else FieldValue(form, f)
  {
    match field
    case Title => form.(title := value)
    case Description => form.(description := value)
    case Year => form.(year := value)
  }

  /** A form is determined by what its three inputs show. */
  lemma FormDeterminedByFields(a: FormData, b: FormData)
    requires forall f :: FieldValue(a, f) == FieldValue(b, f)
    ensures a == b
  {
    assert FieldValue(a, Title) == FieldValue(b, Title);
    assert FieldValue(a, Description) == FieldValue(b, Description);
    assert FieldValue(a, Year) == FieldValue(b, Year);
  }

  /** Typing the value a field already has changes nothing; typing twice into
      one field keeps the last value; edits of different fields commute. */
  lemma WithFieldLaws(form: FormData, field: Field, other: Field, a: string, b: string)
    ensures WithField(form, field, FieldValue(form, field)) == form
    ensures WithField(WithField(form, field, a), field, b) == WithField(form, field, b)
    ensures field != other ==>
      WithField(WithField(form, field, a), other, b) == WithField(WithField(form, other, b), field, a)
  {
    FormDeterminedByFields(WithField(form, field, FieldValue(form, field)), form);
    FormDeterminedByFields(WithField(WithField(form, field, a), field, b), WithField(form, field, b));
    if field != other {
      FormDeterminedByFields(WithField(WithField(form, field, a), other, b),
                             WithField(WithField(form, other, b), field, a));
    }
  }

  /** The form as it opens and as it is reset: empty title and description,
      and the year of the caller's clock. */
  function DefaultForm(currentYear: nat): (form: FormData)
    ensures FieldValue(form, Title) == "" && FieldValue(form, Description) == ""
    ensures FieldValue(form, Year) == NatToString(currentYear)
  {
    FormData("", "", NatToString(currentYear))
  }

  /** The submit handler's guard: a file is missing. */
  predicate MissingFiles(thumbnailFile: Option<File>, videoFile: Option<File>) {
    thumbnailFile.None? || videoFile.None?
  }

  /** When the submit button is disabled: while uploading, with an empty
      title, or with either file missing. */
  predicate SubmitDisabled(isUploading: bool, title: string,
                           thumbnailFile: Option<File>, videoFile: Option<File>) {
    isUploading || title == "" || thumbnailFile.None? || videoFile.None?
  }

  /** An enabled submit button always gets past the guard; the guard is
      weaker than the button, letting an empty title or a second submission
      through. */
  lemma EnabledSubmitPassesGuard(isUploading: bool, title: string,
                                 thumbnailFile: Option<File>, videoFile: Option<File>)
    ensures !SubmitDisabled(isUploading, title, thumbnailFile, videoFile) ==>
      !MissingFiles(thumbnailFile, videoFile)
    ensures MissingFiles(thumbnailFile, videoFile) ==>
      SubmitDisabled(isUploading, title, thumbnailFile, videoFile)
    ensures thumbnailFile.Some? && videoFile.Some? ==>
      (!SubmitDisabled(isUploading, title, thumbnailFile, videoFile) <==> !isUploading && title != "")
  {
  }

  // ---------------------------------------------------------------------------
  // The dialog

  /** What the submit handler did before it started waiting. */
  datatype SubmitOutcome = RejectedMissingFiles | UploadStarted

  /** A snapshot of every field of an UploadDialog. */
  datatype DialogState = DialogState(
    open: bool,
    form: FormData,
    thumbnailFile: Option<File>,
    videoFile: Option<File>,
    thumbnailPreview: Option<string>,
    isUploading: bool)

  /** The state a reset leaves: default form, no files and no preview, with
      the dialog's open flag and the upload flag untouched. */
  function AfterReset(s: DialogState, currentYear: nat): (r: DialogState)
    ensures r.open == s.open && r.isUploading == s.isUploading
    ensures r.form == DefaultForm(currentYear)
    ensures r.thumbnailFile.None? && r.videoFile.None? && r.thumbnailPreview.None?
  {
    s.(form := DefaultForm(currentYear), thumbnailFile := None, videoFile := None, thumbnailPreview := None)
  }

  class UploadDialog {
    var open: bool
    var form: FormData
    var thumbnailFile: Option<File>
    var videoFile: Option<File>
    /** The data URL of the thumbnail, once the file reader has produced it. */
    var thumbnailPreview: Option<string>
    var isUploading: bool

    function State(): (s: DialogState)
      reads this
    {
      DialogState(open, form, thumbnailFile, videoFile, thumbnailPreview, isUploading)
    }

    /** Whether the submit button is disabled right now. */
    function SubmitButtonDisabled(): bool
      reads this
    {
      SubmitDisabled(isUploading, form.title, thumbnailFile, videoFile)
    }

    /** Mounting: closed, default form for the caller's year, nothing picked. */
    constructor (currentYear: nat)
      ensures State() == DialogState(false, DefaultForm(currentYear), None, None, None, false)
    {
      open := false;
      form := DefaultForm(currentYear);
      thumbnailFile, videoFile, thumbnailPreview := None, None, None;
      isUploading := false;
    }

    /** The trigger button, the Cancel button and the dialog's own open/close
        notification. */
    method SetOpen(value: bool)
      modifies this
      ensures State() == old(State()).(open := value)
    {
      open := value;
    }

    /** Typing into the title, description or year input. */
    method HandleInputChange(field: Field, value: string)
      modifies this
      ensures State() == old(State()).(form := WithField(old(form), field, value))
    {
      form := WithField(form, field, value);
    }

    /** Picking thumbnail files: the first becomes the thumbnail (its preview
        follows when the file reader is done); picking nothing changes nothing. */
    method HandleThumbnailChange(files: seq<File>)
      modifies this
      ensures |files| == 0 ==> State() == old(State())
      ensures |files| > 0 ==> State() == old(State()).(thumbnailFile := Some(files[0]))
    {
      if |files| > 0 {
        thumbnailFile := Some(files[0]);
      }
    }

    /** The file reader's load event for a picked thumbnail. */
    method ThumbnailLoaded(dataUrl: string)
      modifies this
      ensures State() == old(State()).(thumbnailPreview := Some(dataUrl))
    {
      thumbnailPreview := Some(dataUrl);
    }

    /** Picking video files: the first becomes the video; picking nothing
        changes nothing. */
    method HandleVideoChange(files: seq<File>)
      modifies this
      ensures |files| == 0 ==> State() == old(State())
      ensures |files| > 0 ==> State() == old(State()).(videoFile := Some(files[0]))
    {
      if |files| > 0 {
        videoFile := Some(files[0]);
      }
    }

    /** The cross on the thumbnail preview drops the file and its preview
        together. */
    method RemoveThumbnail()
      modifies this
      ensures State() == old(State()).(thumbnailFile := None, thumbnailPreview := None)
    {
      thumbnailFile := None;
      thumbnailPreview := None;
    }

    /** The cross beside the video's name drops the video only. */
    method RemoveVideo()
      modifies this
      ensures State() == old(State()).(videoFile := None)
    {
      videoFile := None;
    }

    method ResetForm(currentYear: nat)
      modifies this
      ensures State() == AfterReset(old(State()), currentYear)
    {
      form := DefaultForm(currentYear);
      thumbnailFile := None;
      videoFile := None;
      thumbnailPreview := None;
    }

    /** Submitting, up to the wait: with a file missing it returns at once and
        changes nothing; otherwise it raises the upload flag. */
    method HandleSubmit() returns (outcome: SubmitOutcome)
      modifies this
      ensures outcome == RejectedMissingFiles <==> old(MissingFiles(thumbnailFile, videoFile))
      ensures outcome == RejectedMissingFiles ==> State() == old(State())
      ensures outcome == UploadStarted ==> State() == old(State()).(isUploading := true)
    {
      if MissingFiles(thumbnailFile, videoFile) {
        return RejectedMissingFiles;
      }
      isUploading := true;
      outcome := UploadStarted;
    }

    /** The end of the wait: on success the form is reset and the dialog
        closed; either way the upload flag comes down. */
    method UploadSettled(succeeded: bool, currentYear: nat)
      modifies this
      ensures succeeded ==> State() == AfterReset(old(State()), currentYear).(open := false, isUploading := false)
      ensures !succeeded ==> State() == old(State()).(isUploading := false)
    {
      if succeeded {
        ResetForm(currentYear);
        open := false;
      }
      isUploading := false;
    }
  }

  /** A complete successful upload from an enabled submit button: the dialog
      ends closed, reset and no longer uploading. */
  method SubmitAndSucceed(dialog: UploadDialog, currentYear: nat)
    requires !dialog.SubmitButtonDisabled()
    modifies dialog
    ensures dialog.State() == DialogState(false, DefaultForm(currentYear), None, None, None, false)
  {
    EnabledSubmitPassesGuard(dialog.isUploading, dialog.form.title, dialog.thumbnailFile, dialog.videoFile);
    var outcome := dialog.HandleSubmit();
    assert outcome == UploadStarted;
    dialog.UploadSettled(true, currentYear);
  }
}
