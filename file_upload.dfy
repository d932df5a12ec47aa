/**
 * The upload control (`FileUpload`): drag highlighting, first-file-only
 * selection, and the icon and texts it shows. The `onFileSelect` callback is
 * modelled as the handlers' result: the file it is called with, or None when
 * it is not called.
 */
module Upload {
  import opened Schema

  /** A file the browser hands over; only its name is shown. */
  datatype AudioFile = AudioFile(name: string)

  datatype Icon = Spinner | FileAudioIcon | UploadIcon

  const LoadingLabel := "오디오 처리 중..."
  const PromptLabel := "클릭하거나 파일을 여기로 드래그하세요"
  const LoadingHint := "잠시만 기다려 주세요"
  const FormatsHint := "지원 형식: MP3, WAV, M4A"

  class FileUpload {
    var dragActive: bool
    var selectedFile: Option<AudioFile>

    constructor ()
      ensures !dragActive && selectedFile == None
    {
      dragActive := false;
      selectedFile := None;
    }

    /** `handleDrag`: enter and over arm the highlight, leave disarms it, any other type leaves it. */
    method HandleDrag(eventType: string)
      modifies this
      ensures selectedFile == old(selectedFile)
      ensures eventType == "dragenter" || eventType == "dragover" ==> dragActive
      ensures eventType == "dragleave" ==> !dragActive
      ensures eventType != "dragenter" && eventType != "dragover" && eventType != "dragleave" ==>
                dragActive == old(dragActive)
    {
      if eventType == "dragenter" || eventType == "dragover" {
        dragActive := true;
      } else if eventType == "dragleave" {
        dragActive := false;
      }
    }

    /** `handleDrop`: always disarms; with at least one file, selects the first and reports it once. */
    method HandleDrop(files: seq<AudioFile>) returns (notified: Option<AudioFile>)
      modifies this
      ensures !dragActive
      ensures files == [] ==> notified == None && selectedFile == old(selectedFile)
      ensures files != [] ==> notified == Some(files[0]) && selectedFile == Some(files[0])
    {
      dragActive := false;
      notified := None;
      if files != [] {
        var file := files[0];
        selectedFile := Some(file);
        notified := Some(file);
      }
    }

    /** `handleChange`: the picker's first file, if any, is selected and reported once. */
    method HandleChange(files: seq<AudioFile>) returns (notified: Option<AudioFile>)
      modifies this
      ensures dragActive == old(dragActive)
      ensures files == [] ==> notified == None && selectedFile == old(selectedFile)
      ensures files != [] ==> notified == Some(files[0]) && selectedFile == Some(files[0])
    {
      notified := None;
      if files != [] {
        var file := files[0];
        selectedFile := Some(file);
        notified := Some(file);
      }
    }

    /** A drop on the zone: while loading no drop handler is attached, so nothing happens. */
    method DropOnZone(files: seq<AudioFile>, isLoading: bool) returns (notified: Option<AudioFile>)
      modifies this
      ensures isLoading ==> notified == None && dragActive == old(dragActive) && selectedFile == old(selectedFile)
      ensures !isLoading ==> !dragActive
      ensures !isLoading && files != [] ==> notified == Some(files[0]) && selectedFile == Some(files[0])
      ensures files == [] ==> notified == None && selectedFile == old(selectedFile)
    {
      notified := None;
      if !isLoading {
        notified := HandleDrop(files);
      }
    }

    /** A choice in the file picker: the input is disabled while loading, so no change event fires. */
    method PickFiles(files: seq<AudioFile>, isLoading: bool) returns (notified: Option<AudioFile>)
      modifies this
      ensures dragActive == old(dragActive)
      ensures isLoading || files == [] ==> notified == None && selectedFile == old(selectedFile)
      ensures !isLoading && files != [] ==> notified == Some(files[0]) && selectedFile == Some(files[0])
    {
      notified := None;
      if !isLoading {
        notified := HandleChange(files);
      }
    }

    /** The main text: the busy text while loading, else the chosen file's name, else the prompt. */
    function Label(isLoading: bool): (text: string)
      reads this
      ensures isLoading ==> text == LoadingLabel
      ensures !isLoading && selectedFile.Some? ==> text == selectedFile.value.name
      ensures !isLoading && selectedFile.None? ==> text == PromptLabel
    {
      if isLoading then LoadingLabel
      else if selectedFile.Some? then selectedFile.value.name
      else PromptLabel
    }

    /** The icon, chosen by the same priority as the label. */
    function CurrentIcon(isLoading: bool): (icon: Icon)
      reads this
      ensures icon == Spinner <==> isLoading
      ensures icon == FileAudioIcon <==> !isLoading && selectedFile.Some?
    {
      if isLoading then Spinner
      else if selectedFile.Some? then FileAudioIcon
      else UploadIcon
    }

    /** The secondary text. */
    function Hint(isLoading: bool): (text: string)
      ensures text == LoadingHint <==> isLoading
    {
      if isLoading then LoadingHint else FormatsHint
    }
  }
}
