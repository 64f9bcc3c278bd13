/**
 * Image-file checks and storage-path handling of src/lib/uploadImage.ts: the type
 * and size gate of `validateImageFile` and of the start of `uploadPlantImage`, the
 * file extension and the `plants/<timestamp>-<random>.<ext>` storage path, and the
 * extraction of that path from a public URL in `deletePlantImage`. Storage calls
 * are not modelled: their outcomes are parameters, and the model records which path
 * each call would have been given.
 */
module UploadImage {
  import opened Text

  datatype FileInfo = FileInfo(name: string, mimeType: string, size: nat)

  const AllowedTypes: seq<string> := ["image/jpeg", "image/jpg", "image/png", "image/webp"]

  /** 5 MB. */
  const MaxSize: nat := 5 * 1024 * 1024

  // ---------------------------------------------------------------------------
  // validateImageFile

  datatype Validation = Valid | Invalid(error: string)

  const TypeError: string := "Only JPEG, PNG, and WebP images are allowed"
  const SizeError: string := "Image must be less than 5MB"

  /** `validateImageFile`: the type is checked first, then the size. */
  function ValidateImageFile(f: FileInfo): (r: Validation)
    ensures r.Valid? <==> f.mimeType in AllowedTypes && f.size <= MaxSize
    ensures f.mimeType !in AllowedTypes ==> r == Invalid(TypeError)
    ensures f.mimeType in AllowedTypes && f.size > MaxSize ==> r == Invalid(SizeError)
  {
    if f.mimeType !in AllowedTypes then Invalid(TypeError)
    else if f.size > MaxSize then Invalid(SizeError)
    else Valid
  }

  /** Exactly 5 MB passes and one byte more does not. */
  lemma SizeBoundary(name: string, mimeType: string)
    requires mimeType in AllowedTypes
    ensures ValidateImageFile(FileInfo(name, mimeType, 5242880)).Valid?
    ensures ValidateImageFile(FileInfo(name, mimeType, 5242881)) == Invalid(SizeError)
  {
  }

  // ---------------------------------------------------------------------------
  // File extension and storage path

  function Last<T>(s: seq<T>): T
    requires |s| > 0
  {
    s[|s| - 1]
  }

  lemma SplitWithoutSeparator(s: string, sep: string)
    requires |sep| > 0 && !Contains(s, sep)
    ensures Split(s, sep) == [s]
  {
  }

  /** The last piece of `a + "." + b` split on "." is `b` when `b` has no ".". */
  lemma {:induction false} SplitLastAfterDot(a: string, b: string)
    requires !Contains(b, ".")
    ensures Last(Split(a + "." + b, ".")) == b
    decreases |a|
  {
    var s := a + "." + b;
    assert s[|a|..|a| + 1] == ".";
    assert OccursAt(s, ".", |a|);
    var i := IndexOf(s, ".").value;
    assert i <= |a|;
    if i == |a| {
      assert s[i + 1..] == b;
      SplitWithoutSeparator(b, ".");
    } else {
      assert s[i + 1..] == a[i + 1..] + "." + b;
      SplitLastAfterDot(a[i + 1..], b);
    }
  }

  /** `file.name.split('.').pop()?.toLowerCase() || 'jpg'`. */
  function FileExtension(name: string): (ext: string)
    ensures ext != ""
  {
    var last := ToLower(Last(Split(name, ".")));
    if last == "" then "jpg" else last
  }

  /** The extension is the lower-cased text after the last "."; an empty one becomes "jpg". */
  lemma FileExtensionAfterLastDot(base: string, ext: string)
    requires !Contains(ext, ".")
    ensures FileExtension(base + "." + ext) == if ext == "" then "jpg" else ToLower(ext)
  {
    SplitLastAfterDot(base, ext);
  }

  /** A name without "." is its own extension, lower-cased ("jpg" when the name is empty). */
  lemma FileExtensionNoDot(name: string)
    requires !Contains(name, ".")
    ensures FileExtension(name) == if name == "" then "jpg" else ToLower(name)
  {
    SplitWithoutSeparator(name, ".");
  }

  /** `plants/${timestamp}-${randomStr}.${fileExt}`; the clock and the random text are parameters. */
  function UploadPath(timestamp: nat, randomStr: string, ext: string): (path: string)
    ensures StartsWith(path, "plants/")
  {
    "plants/" + NatToString(timestamp) + "-" + randomStr + "." + ext
  }

  // ---------------------------------------------------------------------------
  // uploadPlantImage

  /** What the storage calls after validation produced: a public URL, or an error message. */
  datatype StorageOutcome = PublicUrl(url: string) | StorageFailed(message: string)

  datatype UploadResult = Uploaded(url: string) | UploadFailed(message: string)

  /** One run of `uploadPlantImage`: the path given to storage, if it was contacted, and the result. */
  datatype UploadRun = UploadRun(storagePath: Option<string>, result: UploadResult)

  /**
   * `uploadPlantImage`: the type and size checks throw before any storage call;
   * a valid file is stored under its generated path and the public URL is returned,
   * an empty URL being an error.
   */
  function UploadPlantImage(f: FileInfo, timestamp: nat, randomStr: string, storage: StorageOutcome): (r: UploadRun)
    ensures r.storagePath.Some? <==> ValidateImageFile(f).Valid?
    ensures r.storagePath.Some? ==> r.storagePath.value == UploadPath(timestamp, randomStr, FileExtension(f.name))
    ensures r.result.Uploaded? ==> ValidateImageFile(f).Valid? && r.result.url != "" && storage == PublicUrl(r.result.url)
    ensures ValidateImageFile(f).Valid? && storage.PublicUrl? && storage.url != "" ==> r.result == Uploaded(storage.url)
    ensures ValidateImageFile(f).Valid? && storage == PublicUrl("") ==> r.result == UploadFailed("Failed to get public URL")
    ensures ValidateImageFile(f).Valid? && storage.StorageFailed? ==> r.result == UploadFailed(storage.message)
  {
    if f.mimeType !in AllowedTypes then
      UploadRun(None, UploadFailed("Invalid file type. Only JPEG, PNG, and WebP are allowed."))
    else if f.size > MaxSize then
      UploadRun(None, UploadFailed("File too large. Maximum size is 5MB."))
    else
      var path := UploadPath(timestamp, randomStr, FileExtension(f.name));
      match storage
      case PublicUrl(url) =>
        if url == "" then UploadRun(Some(path), UploadFailed("Failed to get public URL"))
        else UploadRun(Some(path), Uploaded(url))
      case StorageFailed(message) => UploadRun(Some(path), UploadFailed(message))
  }

  /** The upload gate rejects exactly what `validateImageFile` rejects, for the same first reason. */
  lemma UploadGateMatchesValidation(f: FileInfo, timestamp: nat, randomStr: string, storage: StorageOutcome)
    ensures UploadPlantImage(f, timestamp, randomStr, storage).storagePath.None? <==> ValidateImageFile(f).Invalid?
    ensures ValidateImageFile(f) == Invalid(TypeError) ==>
      UploadPlantImage(f, timestamp, randomStr, storage).result == UploadFailed("Invalid file type. Only JPEG, PNG, and WebP are allowed.")
    ensures ValidateImageFile(f) == Invalid(SizeError) ==>
      UploadPlantImage(f, timestamp, randomStr, storage).result == UploadFailed("File too large. Maximum size is 5MB.")
  {
  }

  // ---------------------------------------------------------------------------
  // deletePlantImage

  const Marker: string := "/plant-images/"

  /** The text of `s` before the first `sep`, or all of it. */
  function Before(s: string, sep: string): (r: string)
    requires |sep| > 0
    ensures StartsWith(s, r)
  {
    match IndexOf(s, sep)
    case None => s
    case Some(k) => s[..k]
  }

  lemma SplitFirst(s: string, sep: string)
    requires |sep| > 0
    ensures Split(s, sep)[0] == Before(s, sep)
  {
  }

  /** Nothing of `Before(s, sep)` starts an occurrence of `sep` inside it. */
  lemma BeforeHasNoSeparator(s: string, sep: string)
    requires |sep| > 0
    ensures !Contains(Before(s, sep), sep)
  {
    var b := Before(s, sep);
    forall j | 0 <= j <= |b| ensures !OccursAt(b, sep, j) {
      if OccursAt(b, sep, j) {
        assert b[j..j + |sep|] == s[j..j + |sep|];
        assert OccursAt(s, sep, j);
      }
    }
  }

  /** The path `deletePlantImage` hands to storage: the piece after the first marker. */
  function ExtractStoragePath(url: string): (r: Option<string>)
    ensures r.None? <==> url == "" || !Contains(url, Marker)
  {
    if url == "" then None
    else
      var parts := Split(url, Marker);
      if |parts| < 2 then None else Some(parts[1])
  }

  /** The extracted path is what follows the first marker, up to the next one. */
  lemma ExtractedPathFollowsFirstMarker(url: string)
    requires ExtractStoragePath(url).Some?
    ensures var i := IndexOf(url, Marker).value;
      ExtractStoragePath(url).value == Before(url[i + |Marker|..], Marker)
    ensures !Contains(ExtractStoragePath(url).value, Marker)
  {
    var i := IndexOf(url, Marker).value;
    SplitFirst(url[i + |Marker|..], Marker);
    BeforeHasNoSeparator(url[i + |Marker|..], Marker);
  }

  /** One run of `deletePlantImage`: the path given to `remove`, if any, and the returned flag. */
  datatype DeleteRun = DeleteRun(removedPath: Option<string>, result: bool)

  function DeletePlantImage(url: string, removeSucceeded: bool): (r: DeleteRun)
    ensures r.removedPath == ExtractStoragePath(url)
    ensures r.result <==> r.removedPath.Some? && removeSucceeded
  {
    match ExtractStoragePath(url)
    case None => DeleteRun(None, false)
    case Some(path) => DeleteRun(Some(path), removeSucceeded)
  }

  /**
   * Round trip: when the marker's first occurrence is the one after `prefix`, and
   * `path` has no marker, the path comes back out of `prefix + marker + path`.
   */
  lemma ExtractStoragePathRoundTrip(prefix: string, path: string)
    requires !Contains(prefix + "/plant-images", Marker)
    requires !Contains(path, Marker)
    ensures ExtractStoragePath(prefix + Marker + path) == Some(path)
  {
    var url := prefix + Marker + path;
    var k := |prefix|;
    assert url[k..k + |Marker|] == Marker;
    assert OccursAt(url, Marker, k);
    forall j | 0 <= j < k ensures !OccursAt(url, Marker, j) {
      var p := prefix + "/plant-images";
      assert url[..|p|] == p;
      if OccursAt(url, Marker, j) {
        assert j + |Marker| <= |p| + 1;
        if j + |Marker| <= |p| {
          assert p[j..j + |Marker|] == url[j..j + |Marker|];
          assert OccursAt(p, Marker, j);
        } else {
          assert false;
        }
      }
    }
    assert IndexOf(url, Marker) == Some(k);
    assert url[k + |Marker|..] == path;
    SplitWithoutSeparator(path, Marker);
  }

  /** A string whose only slashes sit too late to start a marker holds no marker. */
  lemma NoMarkerWithoutEarlySlash(s: string)
    requires forall j :: 0 <= j <= |s| - |Marker| ==> s[j] != '/'
    ensures !Contains(s, Marker)
  {
    forall j | 0 <= j <= |s| ensures !OccursAt(s, Marker, j) {
      if j + |Marker| <= |s| {
        assert s[j..j + |Marker|][0] == s[j];
      }
    }
  }

  /**
   * Without the first hypothesis the round trip fails: a prefix ending in
   * "/plant-images" lets the marker match one segment early.
   */
  lemma ExtractStoragePathOverlap()
    ensures ExtractStoragePath("x/plant-images" + Marker + "a.jpg") == Some("plant-images/a.jpg")
  {
    OverlapUrlSplit();
    OverlapHeadHasNoMarker();
    OverlapRestHasNoMarker();
    ExtractStoragePathRoundTrip("x", "plant-images/a.jpg");
  }

  /** The counterexample URL, split where the marker really starts. */
  lemma OverlapUrlSplit()
    ensures "x/plant-images" + Marker + "a.jpg" == "x" + Marker + "plant-images/a.jpg"
  {
  }

  /** The text before that marker, extended by "/plant-images", holds no marker. */
  lemma OverlapHeadHasNoMarker()
    ensures !Contains("x" + "/plant-images", Marker)
  {
    var head := "x/plant-images";
    assert "x" + "/plant-images" == head;
    assert head[0..|Marker|][0] == 'x';
    assert !OccursAt(head, Marker, 0);
  }

  /** The text after that marker holds no marker. */
  lemma OverlapRestHasNoMarker()
    ensures !Contains("plant-images/a.jpg", Marker)
  {
    var rest := "plant-images/a.jpg";
    assert rest[0] != '/' && rest[1] != '/' && rest[2] != '/' && rest[3] != '/' && rest[4] != '/';
    NoMarkerWithoutEarlySlash(rest);
  }

  /** Storage paths this module generates hold a single "/", so they never contain the marker. */
  lemma UploadPathHasNoMarker(timestamp: nat, randomStr: string, ext: string)
    requires forall i :: 0 <= i < |randomStr| ==> randomStr[i] != '/'
    requires forall i :: 0 <= i < |ext| ==> ext[i] != '/'
    ensures !Contains(UploadPath(timestamp, randomStr, ext), Marker)
  {
    var path := UploadPath(timestamp, randomStr, ext);
    var digits := NatToString(timestamp);
    forall i | 0 <= i < |path| && path[i] == '/' ensures i == 6 {
      var tail := digits + "-" + randomStr + "." + ext;
      assert path == "plants/" + tail;

    }
    assert Marker[0] == '/' && Marker[|Marker| - 1] == '/';
    forall j | 0 <= j <= |path| ensures !OccursAt(path, Marker, j) {
      if j + |Marker| <= |path| {
        assert path[j..j + |Marker|][0] == path[j];
        assert path[j..j + |Marker|][|Marker| - 1] == path[j + |Marker| - 1];
      }

    }
  }

  /** A file uploaded under a generated path is deleted under that same path, given its public URL. */
  lemma UploadThenDeleteSamePath(base: string, timestamp: nat, randomStr: string, ext: string)
    requires !Contains(base + "/plant-images", Marker)
    requires forall i :: 0 <= i < |randomStr| ==> randomStr[i] != '/'
    requires forall i :: 0 <= i < |ext| ==> ext[i] != '/'
    ensures DeletePlantImage(base + Marker + UploadPath(timestamp, randomStr, ext), true)
      == DeleteRun(Some(UploadPath(timestamp, randomStr, ext)), true)
  {
    UploadPathHasNoMarker(timestamp, randomStr, ext);
    ExtractStoragePathRoundTrip(base, UploadPath(timestamp, randomStr, ext));
  }
}
