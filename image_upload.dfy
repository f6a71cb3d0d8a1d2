/** The admin image picker: files chosen or dropped are checked against a
    5 MiB limit and the acceptable ones appended; a file can be removed by
    position; the upload results replace the list of hosted image URLs. */
module ImageUpload {
  import opened Catalog

  datatype ImageFile = ImageFile(name: string, size: int)

  /** 5 MiB: a file larger than this is refused. */
  const MaxFileSize: int := 5 * 1024 * 1024

  predicate Acceptable(f: ImageFile)
  {
    f.size <= MaxFileSize
  }

  /** The limit is inclusive: a file of exactly 5 MiB is kept, one byte more is refused. */
  lemma LimitIsInclusive(name: string)
    ensures Acceptable(ImageFile(name, 5242880))
    ensures !Acceptable(ImageFile(name, 5242881))
  {
  }

  /** The files the validation loop keeps, in their original order. */
  function AcceptedFiles(files: seq<ImageFile>): (r: seq<ImageFile>)
    ensures |r| <= |files|
    ensures forall f :: f in r <==> f in files && Acceptable(f)
    decreases |files|
  {
    if files == [] then []
    else
      var last := files[|files| - 1];
      assert files == files[..|files| - 1] + [last];
      AcceptedFiles(files[..|files| - 1]) + (if Acceptable(last) then [last] else [])
  }

  /** Filtering a joined selection is joining the filtered parts: the kept
      files keep their relative order. */
  lemma {:induction false} AcceptedFilesAppend(a: seq<ImageFile>, b: seq<ImageFile>)
    ensures AcceptedFiles(a + b) == AcceptedFiles(a) + AcceptedFiles(b)
    decreases |b|
  {
    if b == [] {
      assert a + b == a;
    } else {
      var front := b[..|b| - 1];
      assert (a + b)[..|a + b| - 1] == a + front;
      assert (a + b)[|a + b| - 1] == b[|b| - 1];
      AcceptedFilesAppend(a, front);
    }
  }

  /** The `for ... of` loop of both handlers: refuse each oversized file and
      push the others onto `validFiles`. */
  method ValidFiles(files: seq<ImageFile>) returns (validFiles: seq<ImageFile>)
    ensures validFiles == AcceptedFiles(files)
  {
    validFiles := [];
    var i := 0;
    while i < |files|
      invariant 0 <= i <= |files|
      invariant validFiles == AcceptedFiles(files[..i])
    {
      var file := files[i];
      assert files[..i + 1][..i] == files[..i];
      if file.size > MaxFileSize {
        i := i + 1;
        continue;
      }
      validFiles := validFiles + [file];
      i := i + 1;
    }
    assert files[..i] == files;
  }

  /** `filter((_, j) => j !== index)`, written as the filter walks the list:
      the index counts down as the walk moves past each element. */
  function FilterPosition<T>(s: seq<T>, index: int): seq<T>
    decreases |s|
  {
    if s == [] then []
    else if index == 0 then FilterPosition(s[1..], index - 1)
    else [s[0]] + FilterPosition(s[1..], index - 1)
  }

  /** Removing position `index`: the elements before it and after it, in
      order; the list is unchanged when the index is out of range. */
  function WithoutPosition<T>(s: seq<T>, index: int): (r: seq<T>)
    ensures 0 <= index < |s| ==> r == s[..index] + s[index + 1..] && |r| == |s| - 1
    ensures !(0 <= index < |s|) ==> r == s
  {
    FilterPositionSlices(s, index);
    FilterPosition(s, index)
  }

  lemma {:induction false} FilterPositionSlices<T>(s: seq<T>, index: int)
    ensures 0 <= index < |s| ==> FilterPosition(s, index) == s[..index] + s[index + 1..]
    ensures !(0 <= index < |s|) ==> FilterPosition(s, index) == s
    decreases |s|
  {
    if s == [] {
    } else if index == 0 {
      FilterPositionSlices(s[1..], -1);
    } else if 0 < index < |s| {
      FilterPositionSlices(s[1..], index - 1);
      assert s[..index] == [s[0]] + s[1..][..index - 1];
      assert s[index + 1..] == s[1..][index..];
    } else {
      FilterPositionSlices(s[1..], index - 1);
      assert [s[0]] + s[1..] == s;
    }
  }

  /** Dropping the failed uploads (`null`) and keeping the URLs in order. */
  function DropNulls(results: seq<Option<string>>): (r: seq<string>)
    ensures |r| <= |results|
    ensures forall u :: u in r <==> Some(u) in results
    decreases |results|
  {
    if results == [] then []
    else
      assert results == [results[0]] + results[1..];
      (if results[0].Some? then [results[0].value] else []) + DropNulls(results[1..])
  }

  /** The successful URLs of two batches of results, joined, are those of the
      joined results: failures are dropped without reordering the rest. */
  lemma {:induction false} DropNullsAppend(a: seq<Option<string>>, b: seq<Option<string>>)
    ensures DropNulls(a + b) == DropNulls(a) + DropNulls(b)
    decreases |a|
  {
    if a == [] {
      assert a + b == b;
    } else {
      assert (a + b)[0] == a[0];
      assert (a + b)[1..] == a[1..] + b;
      DropNullsAppend(a[1..], b);
    }
  }

  /** The state the picker shares with the admin product pages. */
  class ImageUploadState {
    var imageFiles: seq<ImageFile>
    var uploadedImageUrls: seq<string>
    var imageLoadingState: bool

    constructor ()
      ensures imageFiles == [] && uploadedImageUrls == [] && !imageLoadingState
    {
      imageFiles := [];
      uploadedImageUrls := [];
      imageLoadingState := false;
    }

    /** The rule both handlers apply: append the acceptable files after the
        existing ones; a selection with none leaves the list as it was. */
    method AppendValidFiles(selected: Option<seq<ImageFile>>)
      modifies this`imageFiles
      ensures selected.None? ==> imageFiles == old(imageFiles)
      ensures selected.Some? ==> imageFiles == old(imageFiles) + AcceptedFiles(selected.value)
    {
      if selected.Some? {
        var validFiles := ValidFiles(selected.value);
        if |validFiles| > 0 {
          imageFiles := imageFiles + validFiles;
        } else {
          assert imageFiles + validFiles == imageFiles;
        }
      }
    }

    /** Choosing files in the file input. */
    method HandleImageFileChange(selected: Option<seq<ImageFile>>)
      modifies this`imageFiles
      ensures selected.None? ==> imageFiles == old(imageFiles)
      ensures selected.Some? ==> imageFiles == old(imageFiles) + AcceptedFiles(selected.value)
    {
      AppendValidFiles(selected);
    }

    /** Dropping files on the drop zone: the same rule as choosing them. */
    method HandleDrop(dropped: Option<seq<ImageFile>>)
      modifies this`imageFiles
      ensures dropped.None? ==> imageFiles == old(imageFiles)
      ensures dropped.Some? ==> imageFiles == old(imageFiles) + AcceptedFiles(dropped.value)
    {
      AppendValidFiles(dropped);
    }

    /** The remove button of entry `index`: the same position leaves both lists. */
    method HandleRemoveImage(index: int)
      modifies this`imageFiles, this`uploadedImageUrls
      ensures imageFiles == WithoutPosition(old(imageFiles), index)
      ensures uploadedImageUrls == WithoutPosition(old(uploadedImageUrls), index)
    {
      imageFiles := WithoutPosition(imageFiles, index);
      uploadedImageUrls := WithoutPosition(uploadedImageUrls, index);
    }

    /** The upload effect starting: with files to send, the loading flag is
        raised and every file is handed to the image host. */
    method BeginUploads() returns (uploads: seq<ImageFile>)
      modifies this`imageLoadingState
      ensures |imageFiles| > 0 ==> imageLoadingState && uploads == imageFiles
      ensures |imageFiles| == 0 ==> imageLoadingState == old(imageLoadingState) && uploads == []
    {
      if |imageFiles| > 0 {
        imageLoadingState := true;
        uploads := imageFiles;
      } else {
        uploads := [];
      }
    }

    /** All uploads settled: one result per file, None for a failed upload.
        The URL list becomes the successful URLs in order, and loading ends. */
    method FinishUploads(results: seq<Option<string>>)
      modifies this`uploadedImageUrls, this`imageLoadingState
      ensures uploadedImageUrls == DropNulls(results) && !imageLoadingState
      ensures |uploadedImageUrls| <= |results|
    {
      uploadedImageUrls := DropNulls(results);
      imageLoadingState := false;
    }
  }
}
