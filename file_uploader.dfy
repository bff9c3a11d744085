/** The drag-and-drop file picker (src/components/FileUploader.tsx). It holds
    the selected file and a drag-hover flag, accepts a file only when it is
    within the size ceiling, and reports each accepted file to its owner. */
module FileUploader {
  import opened Wrappers
  import opened Types

  /** The ceiling, in megabytes, when the owner supplies none. */
  const DefaultMaxSize: nat := 50

  /** The ceiling in bytes for a ceiling of `maxSize` megabytes. */
  function SizeLimit(maxSize: nat): nat {
    maxSize * 1024 * 1024
  }

  /** The size test: a file is refused only when strictly larger than the
      ceiling. */
  predicate WithinLimit(f: DatasetFile, maxSize: nat) {
    !(f.size > SizeLimit(maxSize))
  }

  /** A file of zero bytes and a file exactly at the ceiling are accepted;
      one byte more is refused. */
  lemma AcceptanceBoundary(maxSize: nat, name: string)
    ensures WithinLimit(DatasetFile(name, 0), maxSize)
    ensures WithinLimit(DatasetFile(name, maxSize * 1048576), maxSize)
    ensures !WithinLimit(DatasetFile(name, maxSize * 1048576 + 1), maxSize)
  {
  }

  /** Acceptance is monotone: a file no larger than an accepted one is
      accepted, and a file accepted under one ceiling is accepted under any
      higher ceiling (so every file the default 50 MB picker takes, a 100 MB
      picker takes too). */
  lemma AcceptanceMonotone(f: DatasetFile, g: DatasetFile, m: nat, n: nat)
    ensures WithinLimit(f, m) && g.size <= f.size ==> WithinLimit(g, m)
    ensures WithinLimit(f, m) && m <= n ==> WithinLimit(f, n)
    ensures WithinLimit(f, DefaultMaxSize) ==> WithinLimit(f, 100)
  {
  }

  class Uploader {
    /** The ceiling in megabytes, fixed when the picker is created. */
    const maxSize: nat
    /** The selected file, or none. */
    var file: Option<DatasetFile>
    /** Whether a drag is hovering over the drop zone. */
    var isDragOver: bool
    /** The files handed to the owner's `onFileSelect` callback, in order. */
    var reported: seq<DatasetFile>

    /** The selected file is always within the ceiling and is the file most
        recently reported to the owner. */
    ghost predicate Valid()
      reads this
    {
      file.Some? ==>
        WithinLimit(file.value, maxSize) && |reported| > 0 && reported[|reported| - 1] == file.value
    }

    constructor (maxSize: Option<nat>)
      ensures Valid()
      ensures this.maxSize == maxSize.GetOr(DefaultMaxSize)
      ensures file == None && !isDragOver && reported == []
    {
      this.maxSize := maxSize.GetOr(DefaultMaxSize);
      file := None;
      isDragOver := false;
      reported := [];
    }

    /** Accept a file within the ceiling: store it and report it once.
        Refuse a larger one: nothing changes (the alert is not modelled). */
    method HandleFile(selected: DatasetFile)
      requires Valid()
      modifies this`file, this`reported
      ensures Valid()
      ensures WithinLimit(selected, maxSize) ==>
                file == Some(selected) && reported == old(reported) + [selected]
      ensures !WithinLimit(selected, maxSize) ==>
                file == old(file) && reported == old(reported)
    {
      if selected.size > SizeLimit(maxSize) {
        return;
      }
      file := Some(selected);
      reported := reported + [selected];
    }

    /** A drop ends the hover and hands the first dropped file, if any, to
        `HandleFile`. */
    method HandleDrop(files: seq<DatasetFile>)
      requires Valid()
      modifies this`file, this`reported, this`isDragOver
      ensures Valid()
      ensures !isDragOver
      ensures files == [] ==> file == old(file) && reported == old(reported)
      ensures files != [] && WithinLimit(files[0], maxSize) ==>
                file == Some(files[0]) && reported == old(reported) + [files[0]]
      ensures files != [] && !WithinLimit(files[0], maxSize) ==>
                file == old(file) && reported == old(reported)
    {
      isDragOver := false;
      if |files| > 0 {
        HandleFile(files[0]);
      }
    }

    method HandleDragOver()
      requires Valid()
      modifies this`isDragOver
      ensures Valid()
      ensures isDragOver
    {
      isDragOver := true;
    }

    method HandleDragLeave()
      requires Valid()
      modifies this`isDragOver
      ensures Valid()
      ensures !isDragOver
    {
      isDragOver := false;
    }

    /** The file dialog's change event: its file list may be absent or empty;
        otherwise only the first file is considered. */
    method HandleInputChange(files: Option<seq<DatasetFile>>)
      requires Valid()
      modifies this`file, this`reported
      ensures Valid()
      ensures (files.None? || files.value == []) ==> file == old(file) && reported == old(reported)
      ensures files.Some? && files.value != [] && WithinLimit(files.value[0], maxSize) ==>
                file == Some(files.value[0]) && reported == old(reported) + [files.value[0]]
      ensures files.Some? && files.value != [] && !WithinLimit(files.value[0], maxSize) ==>
                file == old(file) && reported == old(reported)
    {
      if files.Some? && |files.value| > 0 {
        HandleFile(files.value[0]);
      }
    }

    /** Clear the selection without telling the owner. */
    method RemoveFile()
      requires Valid()
      modifies this`file
      ensures Valid()
      ensures file == None
    {
      file := None;
    }
  }
}
