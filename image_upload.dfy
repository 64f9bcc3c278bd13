/**
 * The image upload widget of src/components/ImageUpload.tsx as a state machine.
 * Its React state (`preview`, `file`, `uploading`, `uploadProgress`, `error`)
 * becomes fields of a class; the callbacks it hands to its parent
 * (`onUploadingChange`, `onImageUploaded`, `onImageRemoved`) are recorded, in
 * order, in `events`; and every value given to `setUploadProgress` is appended to
 * `progressTrace`. The awaited resize and upload are parameters: how each
 * settled. `UploadResized` connects the second to the model of `uploadPlantImage`.
 */
module ImageUploadWidget {
  import opened Text
  import opened UploadImage

  /** A call the widget makes to one of its parent's callbacks. */
  datatype Event = UploadingChange(isUploading: bool) | ImageUploaded(imageUrl: string) | ImageRemoved

  /** What `resizeImage` produced: a JPEG of the given size, or a rejection with its message. */
  datatype ResizeOutcome = Resized(size: nat) | ResizeFailed(message: string)

  /** The file `resizeImage` resolves with: a JPEG under the original name. */
  function ResizedFile(f: FileInfo, size: nat): (r: FileInfo)
    ensures r.name == f.name && r.mimeType == "image/jpeg" && r.size == size
  {
    FileInfo(f.name, "image/jpeg", size)
  }

  /** The progress values of one upload before the final reset, and how it ended. */
  datatype Attempt = Attempt(trace: seq<int>, result: UploadResult)

  /** The progress values of a run that gets all the way through. */
  const FullTrace: seq<int> := [0, 10, 30, 40, 90, 100]

  /** `currentImageUrl || null`: an absent or empty URL shows no preview. */
  function InitialPreview(currentImageUrl: Option<string>): (p: Option<string>)
    ensures p.Some? <==> currentImageUrl.Some? && currentImageUrl.value != ""
    ensures p.Some? ==> p == currentImageUrl
  {
    match currentImageUrl
    case None => None
    case Some(u) => if u == "" then None else Some(u)
  }

  /** `validation.error || "Invalid file"`. */
  function SelectError(v: Validation): (e: string)
    requires v.Invalid?
    ensures e != ""
    ensures v.error != "" ==> e == v.error
  {
    if v.error == "" then "Invalid file" else v.error
  }

  /**
   * How one `handleUpload` run goes, given how the resize and then the upload of
   * the resized file settled: a run that reaches a URL checks it is not empty, and
   * a run that throws stops the progress where it was.
   */
  function AttemptUpload(resize: ResizeOutcome, upload: UploadResult): (a: Attempt)
    ensures a.trace <= FullTrace && |a.trace| >= 2
    ensures a.result.Uploaded? <==> a.trace == FullTrace
    ensures a.result.Uploaded? <==> resize.Resized? && upload.Uploaded? && upload.url != ""
    ensures a.result.Uploaded? ==> a.result == upload
  {
    match resize
    case ResizeFailed(message) => Attempt([0, 10], UploadFailed(message))
    case Resized(_) =>
      match upload
      case UploadFailed(message) => Attempt([0, 10, 30, 40], UploadFailed(message))
      case Uploaded(url) =>
        if url == "" then Attempt([0, 10, 30, 40, 90], UploadFailed("Upload returned no URL"))
        else Attempt(FullTrace, Uploaded(url))
  }

  /** The upload of the resized file, as `uploadPlantImage` would run it. */
  function UploadResized(f: FileInfo, size: nat, timestamp: nat, randomStr: string, storage: StorageOutcome): UploadResult
  {
    UploadPlantImage(ResizedFile(f, size), timestamp, randomStr, storage).result
  }

  /** The resized file is always a JPEG, so only its size can fail the upload's own checks. */
  lemma ResizedTooLarge(f: FileInfo, size: nat, timestamp: nat, randomStr: string, storage: StorageOutcome)
    requires size > MaxSize
    ensures AttemptUpload(Resized(size), UploadResized(f, size, timestamp, randomStr, storage))
      == Attempt([0, 10, 30, 40], UploadFailed("File too large. Maximum size is 5MB."))
  {
    assert "image/jpeg" in AllowedTypes;
  }

  /**
   * A resized file within the size limit succeeds exactly when storage hands back
   * a non-empty URL; `uploadPlantImage` already refuses an empty one, so the
   * widget's own "no URL" check never fires.
   */
  lemma ResizedWithinLimit(f: FileInfo, size: nat, timestamp: nat, randomStr: string, storage: StorageOutcome)
    requires size <= MaxSize
    ensures AttemptUpload(Resized(size), UploadResized(f, size, timestamp, randomStr, storage)).result.Uploaded?
      <==> storage.PublicUrl? && storage.url != ""
    ensures AttemptUpload(Resized(size), UploadResized(f, size, timestamp, randomStr, storage)).trace
      != [0, 10, 30, 40, 90]
  {
    assert "image/jpeg" in AllowedTypes;
  }

  /** The calls to `onUploadingChange` in a log of events. */
  function UploadingFlags(events: seq<Event>): (flags: seq<bool>)
    ensures |flags| <= |events|
    ensures forall i :: 0 <= i < |flags| ==> UploadingChange(flags[i]) in events
  {
    if events == [] then []
    else (if events[0].UploadingChange? then [events[0].isUploading] else []) + UploadingFlags(events[1..])
  }

  lemma {:induction false} UploadingFlagsAppend(a: seq<Event>, b: seq<Event>)
    ensures UploadingFlags(a + b) == UploadingFlags(a) + UploadingFlags(b)
  {
    if a == [] {
      assert a + b == b;
    } else {
      var c := a + b;
      assert c[0] == a[0];
      assert c[1..] == a[1..] + b;
      UploadingFlagsAppend(a[1..], b);
      var head := if a[0].UploadingChange? then [a[0].isUploading] else [];
      assert UploadingFlags(c) == head + UploadingFlags(c[1..]);
      assert UploadingFlags(a) == head + UploadingFlags(a[1..]);
    }
  }

  /** Every `true` is followed by exactly one `false` before the next `true`, and none is left open. */
  predicate Paired(flags: seq<bool>)
  {
    |flags| % 2 == 0 && forall i :: 0 <= i < |flags| ==> flags[i] == (i % 2 == 0)
  }

  /** One upload adds one `true` and then one `false`, whatever happens in between. */
  lemma UploadKeepsPaired(events: seq<Event>, middle: seq<Event>)
    requires Paired(UploadingFlags(events))
    requires UploadingFlags(middle) == []
    ensures Paired(UploadingFlags(events + [UploadingChange(true)] + middle + [UploadingChange(false)]))
  {
    UploadingFlagsAppend(events + [UploadingChange(true)] + middle, [UploadingChange(false)]);
    UploadingFlagsAppend(events + [UploadingChange(true)], middle);
    UploadingFlagsAppend(events, [UploadingChange(true)]);
    assert UploadingFlags([UploadingChange(true)]) == [true];
    assert UploadingFlags([UploadingChange(false)]) == [false];
  }

  /** Events other than `onUploadingChange` leave the pairing alone. */
  lemma OtherEventKeepsPaired(events: seq<Event>, e: Event)
    requires Paired(UploadingFlags(events))
    requires !e.UploadingChange?
    ensures Paired(UploadingFlags(events + [e]))
  {
    UploadingFlagsAppend(events, [e]);
    assert UploadingFlags([e]) == [];
  }

  /** Which of the three progress captions shows: 0 resizing, 1 uploading, 2 finishing. */
  function Stage(progress: int): (stage: nat)
    ensures stage <= 2
  {
    if progress < 30 then 0 else if progress < 90 then 1 else 2
  }

  const StageLabels: seq<string> := ["Resizing image...", "Uploading to cloud...", "Finishing up..."]

  function ProgressLabel(progress: int): string
  {
    StageLabels[Stage(progress)]
  }

  /** The caption never goes back as progress grows. */
  lemma StageMonotone(p: int, q: int)
    requires p <= q
    ensures Stage(p) <= Stage(q)
  {
  }

  /** Along a complete run the captions are two of each, in order. */
  lemma LabelsAlongFullTrace()
    ensures seq(|FullTrace|, i requires 0 <= i < |FullTrace| => ProgressLabel(FullTrace[i]))
      == [StageLabels[0], StageLabels[0], StageLabels[1], StageLabels[1], StageLabels[2], StageLabels[2]]
  {
  }

  class ImageUpload {
    /** The `currentImageUrl` prop, as the parent last rendered it. */
    var currentImageUrl: Option<string>
    var preview: Option<string>
    var file: Option<FileInfo>
    var uploading: bool
    var progress: int
    var error: Option<string>
    /** Calls made to the parent's callbacks, oldest first. */
    var events: seq<Event>
    /** Values given to `setUploadProgress`, oldest first. */
    var progressTrace: seq<int>

    /** Between handler runs no upload is in flight and every `true` has had its `false`. */
    predicate Valid()
      reads this
    {
      !uploading && Paired(UploadingFlags(events))
    }

    /** The remove button: a preview is showing, no file is waiting and no upload runs. */
    predicate RemoveButtonShown()
      reads this
    {
      preview.Some? && preview.value != "" && file.None? && !uploading
    }

    constructor(currentImageUrl: Option<string>)
      ensures this.currentImageUrl == currentImageUrl
      ensures preview == InitialPreview(currentImageUrl)
      ensures file.None? && !uploading && progress == 0 && error.None?
      ensures events == [] && progressTrace == []
      ensures Valid()
    {
      this.currentImageUrl := currentImageUrl;
      preview := InitialPreview(currentImageUrl);
      file := None;
      uploading := false;
      progress := 0;
      error := None;
      events := [];
      progressTrace := [];
    }

    /**
     * `handleFileSelect`: no file changes nothing; a file that fails validation
     * only sets the error; a valid one clears the error, becomes the selected file
     * and its data URL (read by the browser) becomes the preview.
     */
    method HandleFileSelect(selected: Option<FileInfo>, dataUrl: string)
      requires Valid()
      modifies this
      ensures currentImageUrl == old(currentImageUrl)
      ensures Valid()
      ensures selected.None? ==> unchanged(this)
      ensures selected.Some? && ValidateImageFile(selected.value).Invalid? ==>
        error == Some(SelectError(ValidateImageFile(selected.value)))
        && file == old(file) && preview == old(preview)
      ensures selected.Some? && ValidateImageFile(selected.value).Valid? ==>
        error.None? && file == selected && preview == Some(dataUrl)
      ensures uploading == old(uploading) && progress == old(progress)
      ensures events == old(events) && progressTrace == old(progressTrace)
    {
      if selected.None? {
        return;
      }
      var validation := ValidateImageFile(selected.value);
      if validation.Invalid? {
        error := Some(SelectError(validation));
        return;
      }
      error := None;
      file := selected;
      preview := Some(dataUrl);
    }

    /**
     * `handleUpload`. With no file it does nothing. Otherwise it raises the
     * uploading flag, walks the progress through the steps `AttemptUpload`
     * describes, and ends with the flag lowered and progress back at 0. A run
     * that succeeds tells the parent the URL before it shows it as the preview
     * and forgets the file; one that fails keeps the file and shows the error.
     */
    method HandleUpload(resize: ResizeOutcome, upload: UploadResult)
      requires Valid()
      modifies this
      ensures currentImageUrl == old(currentImageUrl)
      ensures Valid()
      ensures old(file).None? ==> unchanged(this)
      ensures old(file).Some? ==>
        var a := AttemptUpload(resize, upload);
        && progressTrace == old(progressTrace) + a.trace + [0]
        && progress == 0
        && events == old(events) + [UploadingChange(true)]
             + (if a.result.Uploaded? then [ImageUploaded(a.result.url)] else [])
             + [UploadingChange(false)]
        && (a.result.Uploaded? ==> preview == Some(a.result.url) && file.None? && error.None?)
        && (a.result.UploadFailed? ==>
              preview == old(preview) && file == old(file) && error == Some(a.result.message))
    {
      if file.None? {
        return;
      }
      ghost var trace0 := progressTrace;
      ghost var events0 := events;
      Begin();
      SetProgress(10);
      match resize {
        case ResizeFailed(message) =>
          Fail(message, events0);
          assert progressTrace == trace0 + [0, 10] + [0];
        case Resized(size) =>
          SetProgress(30);
          SetProgress(40);
          match upload {
            case UploadFailed(message) =>
              Fail(message, events0);
              assert progressTrace == trace0 + [0, 10, 30, 40] + [0];
            case Uploaded(url) =>
              SetProgress(90);
              if url == "" {
                Fail("Upload returned no URL", events0);
                assert progressTrace == trace0 + [0, 10, 30, 40, 90] + [0];
              } else {
                SetProgress(100);
                Succeed(url, events0);
                assert progressTrace == trace0 + FullTrace + [0];
                assert events == events0 + [UploadingChange(true)] + [ImageUploaded(url)] + [UploadingChange(false)];
              }
          }
      }
    }

    /** The start of an upload: flag raised and announced, progress at 0, error cleared. */
    method Begin()
      modifies this
      ensures currentImageUrl == old(currentImageUrl)
      ensures uploading && error.None? && progress == 0
      ensures events == old(events) + [UploadingChange(true)]
      ensures progressTrace == old(progressTrace) + [0]
      ensures preview == old(preview) && file == old(file)
    {
      uploading := true;
      events := events + [UploadingChange(true)];
      progress := 0;
      progressTrace := progressTrace + [0];
      error := None;
    }

    /** `setUploadProgress(p)`. */
    method SetProgress(p: int)
      modifies this
      ensures currentImageUrl == old(currentImageUrl)
      ensures progress == p && progressTrace == old(progressTrace) + [p]
      ensures uploading == old(uploading) && error == old(error) && events == old(events)
      ensures preview == old(preview) && file == old(file)
    {
      progress := p;
      progressTrace := progressTrace + [p];
    }

    /** The `catch` block: the error shows, the flag is lowered and announced, progress resets. */
    method Fail(message: string, ghost before: seq<Event>)
      requires events == before + [UploadingChange(true)] && Paired(UploadingFlags(before))
      modifies this
      ensures currentImageUrl == old(currentImageUrl)
      ensures Valid()
      ensures error == Some(message) && progress == 0
      ensures events == old(events) + [UploadingChange(false)]
      ensures progressTrace == old(progressTrace) + [0]
      ensures preview == old(preview) && file == old(file)
    {
      error := Some(message);
      uploading := false;
      UploadKeepsPaired(before, []);
      assert before + [UploadingChange(true)] + [] == events;
      events := events + [UploadingChange(false)];
      progress := 0;
      progressTrace := progressTrace + [0];
    }

    /**
     * A successful end: the parent hears the URL first; then the delayed callback
     * shows it, forgets the file, lowers and announces the flag and resets progress.
     */
    method Succeed(url: string, ghost before: seq<Event>)
      requires events == before + [UploadingChange(true)] && Paired(UploadingFlags(before))
      requires url != ""
      modifies this
      ensures currentImageUrl == old(currentImageUrl)
      ensures Valid() && RemoveButtonShown()
      ensures preview == Some(url) && file.None? && error == old(error) && progress == 0
      ensures events == old(events) + [ImageUploaded(url), UploadingChange(false)]
      ensures progressTrace == old(progressTrace) + [0]
    {
      events := events + [ImageUploaded(url)];
      preview := Some(url);
      file := None;
      uploading := false;
      events := events + [UploadingChange(false)];
      progress := 0;
      progressTrace := progressTrace + [0];
      assert UploadingFlags([ImageUploaded(url)]) == [];
      UploadKeepsPaired(before, [ImageUploaded(url)]);
      assert before + [UploadingChange(true)] + [ImageUploaded(url)] + [UploadingChange(false)] == events;
    }

    /** `handleRemove`: clears preview, file and error and tells the parent. */
    method HandleRemove()
      requires Valid()
      modifies this
      ensures currentImageUrl == old(currentImageUrl)
      ensures Valid()
      ensures preview.None? && file.None? && error.None?
      ensures !RemoveButtonShown()
      ensures events == old(events) + [ImageRemoved]
      ensures uploading == old(uploading) && progress == old(progress) && progressTrace == old(progressTrace)
    {
      preview := None;
      file := None;
      error := None;
      OtherEventKeepsPaired(events, ImageRemoved);
      events := events + [ImageRemoved];
    }

    /**
     * A re-render by the parent with a new `currentImageUrl`. Only the prop changes:
     * the preview state was seeded from it once and is not reset by a new value.
     */
    method SetCurrentImageUrl(url: Option<string>)
      modifies this
      ensures currentImageUrl == url
      ensures preview == old(preview) && file == old(file) && error == old(error)
      ensures uploading == old(uploading) && progress == old(progress)
      ensures events == old(events) && progressTrace == old(progressTrace)
    {
      currentImageUrl := url;
    }

    /**
     * `handleCancel`: forgets the file and the error and shows the image the parent
     * currently passes, silently.
     */
    method HandleCancel()
      requires Valid()
      modifies this
      ensures currentImageUrl == old(currentImageUrl)
      ensures Valid()
      ensures file.None? && error.None?
      ensures preview == InitialPreview(currentImageUrl)
      ensures events == old(events)
      ensures uploading == old(uploading) && progress == old(progress) && progressTrace == old(progressTrace)
    {
      file := None;
      error := None;
      preview := InitialPreview(currentImageUrl);
    }
  }

  /**
   * The create page passes its `imageUrl` state as `currentImageUrl` and sets that
   * state from `onImageUploaded`. So after an upload, a new selection that is then
   * cancelled shows the uploaded image again rather than the image the widget
   * started with.
   */
  method CancelAfterUploadShowsUploadedImage(f: FileInfo, g: FileInfo, dataUrl: string, size: nat, url: string)
    returns (w: ImageUpload)
    requires ValidateImageFile(f).Valid? && ValidateImageFile(g).Valid? && url != ""
    ensures w.preview == Some(url) && w.file.None? && w.error.None?
    ensures w.events == [UploadingChange(true), ImageUploaded(url), UploadingChange(false)]
  {
    w := new ImageUpload(None);
    w.HandleFileSelect(Some(f), dataUrl);
    w.HandleUpload(Resized(size), Uploaded(url));
    w.SetCurrentImageUrl(Some(url));
    w.HandleFileSelect(Some(g), dataUrl);
    w.HandleCancel();
  }
}
