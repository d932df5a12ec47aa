/**
 * The page (`Home`): four state fields driven by one upload handler and one
 * reset button, and the conditions that decide which sections are shown. The
 * POST to `/upload` is not modelled: its outcome is a parameter.
 */
module Page {
  import opened Schema
  import opened Upload

  /** What the single POST ends with: the response body, or any failure. */
  datatype UploadOutcome = Success(data: MeetingResult) | Failure

  const FailureMessage := "Failed to process audio file. Please ensure the backend server is running."

  class Home {
    var file: Option<AudioFile>
    var isLoading: bool
    var result: Option<MeetingResult>
    var error: Option<string>

    /** Result and error never coexist, and nothing is shown while a request is in flight. */
    ghost predicate Valid()
      reads this
    {
      && !(result.Some? && error.Some?)
      && (isLoading ==> result.None? && error.None?)
    }

    constructor ()
      ensures Valid()
      ensures file == None && !isLoading && result == None && error == None
    {
      file := None;
      isLoading := false;
      result := None;
      error := None;
    }

    /** The part of `handleFileSelect` that runs before the request is sent. */
    method BeginUpload(selected: AudioFile)
      modifies this
      ensures Valid()
      ensures file == Some(selected) && error == None && result == None && isLoading
    {
      file := Some(selected);
      error := None;
      result := None;
      isLoading := true;
    }

    /**
     * The part of `handleFileSelect` that runs when the request settles,
     * including its `finally`; it only ever runs after `BeginUpload`.
     */
    method CompleteUpload(outcome: UploadOutcome)
      requires Valid() && isLoading
      modifies this
      ensures Valid()
      ensures file == old(file) && !isLoading
      ensures outcome.Success? ==> result == Some(outcome.data) && error == old(error)
      ensures outcome.Failure? ==> error == Some(FailureMessage) && result == old(result)
    {
      if outcome.Success? {
        result := Some(outcome.data);
      } else {
        error := Some(FailureMessage);
      }
      isLoading := false;
    }

    /** `handleFileSelect` from start to finish. */
    method HandleFileSelect(selected: AudioFile, outcome: UploadOutcome)
      modifies this
      ensures Valid()
      ensures file == Some(selected) && !isLoading
      ensures outcome.Success? ==> result == Some(outcome.data) && error == None
      ensures outcome.Failure? ==> error == Some(FailureMessage) && result == None
    {
      BeginUpload(selected);
      CompleteUpload(outcome);
    }

    /** The "다른 파일 처리하기" button: clears result and file only. */
    method Reset()
      requires Valid()
      modifies this
      ensures Valid()
      ensures result == None && file == None
      ensures isLoading == old(isLoading) && error == old(error)
      ensures old(ResultsSectionRendered()) ==> !isLoading && error == None
    {
      result := None;
      file := None;
    }

    /**
     * A drop on the upload control followed by the page's handler: a drop
     * with no file, or one while loading, changes no page field and keeps the
     * control's selection. The control's highlight is cleared unless loading.
     */
    method DropFiles(upload: FileUpload, files: seq<AudioFile>, outcome: UploadOutcome)
      requires Valid()
      modifies this, upload
      ensures Valid()
      ensures files == [] || old(isLoading) ==>
                file == old(file) && isLoading == old(isLoading) && result == old(result) && error == old(error)
                && upload.selectedFile == old(upload.selectedFile)
      ensures !old(isLoading) ==> !upload.dragActive
      ensures old(isLoading) ==> upload.dragActive == old(upload.dragActive)
      ensures files != [] && !old(isLoading) ==>
                && upload.selectedFile == Some(files[0]) && file == Some(files[0]) && !isLoading
                && (outcome.Success? ==> result == Some(outcome.data) && error == None)
                && (outcome.Failure? ==> error == Some(FailureMessage) && result == None)
    {
      var notified := upload.DropOnZone(files, isLoading);
      if notified.Some? {
        HandleFileSelect(notified.value, outcome);
      }
    }

    /** `className={result ? "hidden" : "block"}` on the upload section. */
    predicate UploadSectionHidden()
      reads this
    {
      result.Some?
    }

    /** `{result && ...}` around the results section. */
    predicate ResultsSectionRendered()
      reads this
    {
      result.Some?
    }

    /** `{isLoading && ...}`: the pipeline progress banner. */
    predicate ProgressShown()
      reads this
    {
      isLoading
    }

    /** `{error && ...}`: the error banner. */
    predicate ErrorShown()
      reads this
    {
      Truthy(error)
    }
  }

  /**
   * The view is always exactly one of: the upload prompt, progress, the error
   * banner (both inside the upload section), or the results.
   */
  lemma SectionsExclusive(h: Home)
    requires h.Valid()
    ensures h.UploadSectionHidden() <==> h.ResultsSectionRendered()
    ensures h.ResultsSectionRendered() ==> !h.ProgressShown() && !h.ErrorShown()
    ensures h.ProgressShown() ==> !h.ErrorShown()
  {
  }
}
