/** The upload surface (components/FileUpload.tsx): a drop target and a file
    picker that hand the first chosen file to the `onFileSelect` callback. The
    callback is not modelled as code: each handler returns the file it passes
    to the callback, or `None` when it does not call it. */
module Upload {
  import opened Wrappers
  import opened Types

  /** The picker's `accept` list. Only the picker carries it; the drop path
      applies no media-type check. */
  const Accept: seq<string> := ["image/jpeg", "image/png", "image/webp", "application/pdf"]

  /** `files[0]` followed by `if (file)`: the first file of a non-empty list, none
      for an empty one. */
  function FirstFile(files: seq<File>): (picked: Option<File>)
    ensures picked.Some? <==> |files| > 0
    ensures picked.Some? ==> picked.value == files[0]
  {
    if |files| > 0 then Some(files[0]) else None
  }

  /** `e.target.files?.[0]`: as `FirstFile`, and none when the file list itself is null. */
  function PickedFile(files: Option<seq<File>>): (picked: Option<File>)
    ensures picked.Some? <==> files.Some? && |files.value| > 0
    ensures picked.Some? ==> picked.value == files.value[0]
  {
    match files
    case None => None
    case Some(list) => FirstFile(list)
  }

  /** A dropped file reaches the callback whatever its media type, the ones the
      picker would not offer included; files after the first are ignored. */
  lemma DropIgnoresMediaType(file: File, rest: seq<File>)
    requires file.mimeType !in Accept
    ensures FirstFile([file] + rest) == Some(file)
  {
  }

  /** The component's state: `isDragging`, which only drives the highlight. */
  class FileUpload {
    var isDragging: bool

    constructor ()
      ensures !isDragging
    {
      isDragging := false;
    }

    /** `handleDragOver`. */
    method HandleDragOver()
      modifies this
      ensures isDragging
    {
      isDragging := true;
    }

    /** `handleDragLeave`. */
    method HandleDragLeave()
      modifies this
      ensures !isDragging
    {
      isDragging := false;
    }

    /** `handleDrop`: always clears the highlight, then hands the first dropped
        file, if any, to the callback exactly once. */
    method HandleDrop(files: seq<File>) returns (selected: Option<File>)
      modifies this
      ensures !isDragging
      ensures selected == FirstFile(files)
    {
      isDragging := false;
      if |files| > 0 {
        selected := Some(files[0]);
      } else {
        selected := None;
      }
    }

    /** `handleInputChange`: hands the first picked file, if any, to the
        callback; the highlight is untouched. */
    method HandleInputChange(files: Option<seq<File>>) returns (selected: Option<File>)
      ensures selected == PickedFile(files)
    {
      selected := None;
      if files.Some? && |files.value| > 0 {
        selected := Some(files.value[0]);
      }
    }
  }
}
