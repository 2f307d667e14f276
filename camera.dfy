/** The bounded list of captured or uploaded images behind the camera hook: a capture
    appends one frame, an upload appends the readable images among the files that fit,
    and the list never grows past `maxImages`. */
module Camera {
  import opened Common

  /** The errors the hook reports. */
  datatype CameraError =
    | NotReady
    | TooMany(maxImages: nat)
    | NoContext
    | Truncated(added: nat, maxImages: nat)
    | ProcessingFailed

  /** A chosen file: its MIME type and what reading it as a data URL gives, `None` when
      the read fails. */
  datatype File = File(mimeType: string, data: Option<string>)

  /** `s.startsWith(prefix)`. */
  predicate StartsWith(s: string, prefix: string)
  {
    |prefix| <= |s| && s[..|prefix|] == prefix
  }

  predicate IsImage(f: File)
  {
    StartsWith(f.mimeType, "image/")
  }

  /** Reading the files in order, skipping those that are not images: the data of every
      image, or `None` as soon as one image cannot be read. */
  function ReadAll(fs: seq<File>): (r: Option<seq<string>>)
    ensures r.Some? ==> |r.value| <= |fs|
    ensures r.None? <==> exists i :: 0 <= i < |fs| && IsImage(fs[i]) && fs[i].data.None?
  {
    if fs == [] then Some([])
    else
      var init := fs[..|fs| - 1];
      var last := fs[|fs| - 1];
      var rest := ReadAll(init);
      assert forall i :: 0 <= i < |init| ==> init[i] == fs[i];
      if rest.None? then None
      else if !IsImage(last) then rest
      else if last.data.None? then None
      else Some(rest.value + [last.data.value])
  }

  /** A file that is not an image adds nothing. */
  lemma NonImageSkipped(fs: seq<File>, f: File)
    requires !IsImage(f)
    ensures ReadAll(fs + [f]) == ReadAll(fs)
  {
    assert (fs + [f])[..|fs|] == fs;
  }

  /** Readable images are added in the order they were chosen. */
  lemma {:induction false} ImagesInOrder(a: seq<File>, b: seq<File>)
    requires ReadAll(a).Some? && ReadAll(b).Some?
    ensures ReadAll(a + b) == Some(ReadAll(a).value + ReadAll(b).value)
    decreases |b|
  {
    if b == [] {
      assert a + b == a;
      assert ReadAll(a).value + [] == ReadAll(a).value;
    } else {
      var init := b[..|b| - 1];
      assert (a + b)[..|a + b| - 1] == a + init;
      assert (a + b)[|a + b| - 1] == b[|b| - 1];
      ImagesInOrder(a, init);
      var last := b[|b| - 1];
      if IsImage(last) {
        var x := ReadAll(a).value;
        var y := ReadAll(init).value;
        assert (x + y) + [last.data.value] == x + (y + [last.data.value]);
      }
    }
  }

  /** The error updates of an upload in which every image could be read, in the order
      the hook makes them: the truncation message when files were left out, then the
      clearing at the end. The error shown afterwards is the last of them. */
  function ErrorUpdatesAsWritten(processed: nat, chosen: nat, maxImages: nat): (updates: seq<Option<CameraError>>)
    ensures updates != []
  {
    (if processed < chosen then [Some(Truncated(processed, maxImages))] else []) + [None]
  }

  /** Choosing more files than fit sets the truncation message, and the upload then
      clears it: none is left once it has finished. */
  lemma TruncationMessageLost(processed: nat, chosen: nat, maxImages: nat)
    requires processed < chosen
    ensures var updates := ErrorUpdatesAsWritten(processed, chosen, maxImages);
            Some(Truncated(processed, maxImages)) in updates && updates[|updates| - 1] == None
  {
    var updates := ErrorUpdatesAsWritten(processed, chosen, maxImages);
    assert updates[0] == Some(Truncated(processed, maxImages));
  }

  /** The error an upload should leave: the truncation message when not every chosen
      file could be taken, and none otherwise. */
  function ErrorAfterUpload(processed: nat, chosen: nat, maxImages: nat): (e: Option<CameraError>)
    ensures e.Some? <==> processed < chosen
    ensures e.Some? ==> e.value == Truncated(processed, maxImages)
  {
    if processed < chosen then Some(Truncated(processed, maxImages)) else None
  }

  function Min(a: int, b: int): int
  {
    if a <= b then a else b
  }

  /** The hook's state. */
  class ImageList {
    var images: seq<string>
    var error: Option<CameraError>
    const maxImages: nat

    /** The bound the hook keeps. */
    predicate Valid()
      reads this
    {
      |images| <= maxImages
    }

    /** An empty list with no error; without an option the bound is ten images. */
    constructor (max: Option<nat>)
      ensures Valid()
      ensures images == [] && error.None?
      ensures maxImages == (if max.Some? then max.value else 10)
    {
      images := [];
      error := None;
      maxImages := if max.Some? then max.value else 10;
    }

    /** Captures the current video frame. Refused, with the list unchanged, when the
        camera is not ready, when the list is full, or when there is no drawing context. */
    method CaptureImage(cameraReady: bool, contextReady: bool, frame: string)
      requires Valid()
      modifies this
      ensures Valid()
      ensures !cameraReady ==> images == old(images) && error == Some(NotReady)
      ensures cameraReady && |old(images)| >= maxImages ==> images == old(images) && error == Some(TooMany(maxImages))
      ensures cameraReady && |old(images)| < maxImages && !contextReady ==> images == old(images) && error == Some(NoContext)
      ensures cameraReady && |old(images)| < maxImages && contextReady ==> images == old(images) + [frame] && error.None?
    {
      if !cameraReady {
        error := Some(NotReady);
        return;
      }
      if |images| >= maxImages {
        error := Some(TooMany(maxImages));
        return;
      }
      if !contextReady {
        error := Some(NoContext);
        return;
      }
      images := images + [frame];
      error := None;
    }

    /** Adds images from chosen files: only as many files as there are free slots are
        looked at, files that are not images are skipped, and a file that cannot be read
        discards the whole batch. `files` is `None` when nothing was chosen. The
        truncation message is set first and then cleared when the batch succeeds, so a
        successful upload leaves no error. */
    method AddImagesFromFiles(files: Option<seq<File>>)
      requires Valid()
      modifies this
      ensures Valid()
      ensures files.None? ==> images == old(images) && error == old(error)
      ensures files.Some? ==>
                var toProcess := files.value[..Min(maxImages - |old(images)|, |files.value|)];
                && (ReadAll(toProcess).None? ==> images == old(images) && error == Some(ProcessingFailed))
                && (ReadAll(toProcess).Some? ==>
                      && images == old(images) + ReadAll(toProcess).value
                      && error == None)
    {
      if files.None? {
        return;
      }
      var fs := files.value;
      var remainingSlots := maxImages - |images|;
      var toProcess := fs[..Min(remainingSlots, |fs|)];
      if |toProcess| < |fs| {
        error := Some(Truncated(|toProcess|, maxImages));
      }
      var newImages: seq<string> := [];
      var i := 0;
      while i < |toProcess|
        invariant 0 <= i <= |toProcess|
        invariant ReadAll(toProcess[..i]) == Some(newImages)
      {
        var f := toProcess[i];
        assert toProcess[..i + 1][..i] == toProcess[..i];
        if IsImage(f) {
          if f.data.None? {
            assert toProcess[..i + 1][i] == f;
            ReadFailureSpoilsAll(toProcess, i + 1);
            error := Some(ProcessingFailed);
            return;
          }
          newImages := newImages + [f.data.value];
        }
        i := i + 1;
      }
      assert toProcess[..|toProcess|] == toProcess;
      images := images + newImages;
      error := None;
    }

    /** Drops the image at `index`, keeping the rest in order and clearing the error; an
        index outside the list drops nothing. */
    method RemoveImage(index: int)
      requires Valid()
      modifies this
      ensures Valid()
      ensures images == RemoveAt(old(images), index) && error.None?
    {
      images := RemoveAt(images, index);
      error := None;
    }

    method ClearAllImages()
      requires Valid()
      modifies this
      ensures Valid()
      ensures images == [] && error.None?
    {
      images := [];
      error := None;
    }
  }

  /** Once an image in a prefix cannot be read, the whole batch cannot be. */
  lemma ReadFailureSpoilsAll(fs: seq<File>, k: nat)
    requires k <= |fs|
    requires ReadAll(fs[..k]).None?
    ensures ReadAll(fs).None?
  {
    var i :| 0 <= i < k && IsImage(fs[..k][i]) && fs[..k][i].data.None?;
    assert fs[i] == fs[..k][i];
  }
}
