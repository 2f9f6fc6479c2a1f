/** Photo helpers (app/utils/photo_handler.py): the outcome of an upload,
    the deletion of every stored version, and reading the three URLs from an
    upload result. File validation and storage are oracles. */
module PhotoHandler {
  import opened Common

  /** The three stored versions of a photo; `Null` where there is none. */
  datatype PhotoUrls = PhotoUrls(display: Value, original: Value, thumbnail: Value)

  const NoPhotos: PhotoUrls := PhotoUrls(Null, Null, Null)

  /** What `validate_upload_file` reported: valid or not, an error message,
      and whether any bytes were read. */
  datatype FileCheck = FileCheck(isValid: bool, error: Option<string>, hasBytes: bool)

  /** The upload's outcome, whether storage was called, and the error flashed
      (if any). */
  datatype Upload = Upload(urls: PhotoUrls, stored: bool, flash: Option<string>)

  const UploadFailed: string := "Failed to upload photo. Please try again."

  /** `handle_photo_upload`: nothing on a validation error or without a file;
      the three URLs of the upload result on success; nothing and a flash
      when storage fails. A result missing one of the three keys raises. */
  function HandlePhotoUpload(check: FileCheck, store: Option<map<string, Value>>): (r: Result<Upload>)
    ensures Filled(check.error) ==> r == Ok(Upload(NoPhotos, false, check.error))
    ensures r.Ok? ==> (r.value.stored <==> !Filled(check.error) && check.isValid && check.hasBytes)
    ensures r.Ok? && !r.value.stored ==> r.value.urls == NoPhotos
    ensures r.Ok? && r.value.stored && (store.None? || store.value == map[]) ==>
      r.value.urls == NoPhotos && r.value.flash == Some(UploadFailed)
    ensures r.Ok? && r.value.stored && store.Some? && store.value != map[] ==>
      r.value.urls == PhotoUrls(Get(store.value, "display", Null), Get(store.value, "original", Null),
                                Get(store.value, "thumbnail", Null))
      && r.value.flash.None?
    ensures r.Err? ==> store.Some? && store.value != map[]
  {
    if Filled(check.error) then Ok(Upload(NoPhotos, false, check.error))
    else if !(check.isValid && check.hasBytes) then Ok(Upload(NoPhotos, false, None))
    else if store.None? || store.value == map[] then Ok(Upload(NoPhotos, true, Some(UploadFailed)))
    else
      var urls := store.value;
      if "display" !in urls || "original" !in urls || "thumbnail" !in urls then Err("KeyError")
      else Ok(Upload(PhotoUrls(urls["display"], urls["original"], urls["thumbnail"]), true, None))
  }

  const PhotoFields: seq<string> := ["photo_url", "photo_url_original", "photo_url_thumb"]

  /** The fields among `fields` that hold a truthy value, in order. */
  function TruthyFields(obj: map<string, Value>, fields: seq<string>): (r: seq<string>)
    ensures |r| <= |fields|
    ensures forall f <- r :: f in obj && Truthy(obj[f])
  {
    if |fields| == 0 then []
    else (if Truthy(Get(obj, fields[0], Null)) then [fields[0]] else []) + TruthyFields(obj, fields[1..])
  }

  /** The values of the truthy fields among `fields`, in order. */
  function Deletions(obj: map<string, Value>, fields: seq<string>): (r: seq<Value>)
    ensures var fs := TruthyFields(obj, fields);
      |r| == |fs| && forall i :: 0 <= i < |r| ==> r[i] == obj[fs[i]]
    ensures forall u <- r :: Truthy(u)
  {
    if |fields| == 0 then []
    else (if Truthy(Get(obj, fields[0], Null)) then [obj[fields[0]]] else []) + Deletions(obj, fields[1..])
  }

  /** `delete_all_photo_versions`: the URLs handed to the delete function:
      one per truthy photo field, in the order display, original,
      thumbnail. */
  function PhotoDeletions(obj: map<string, Value>): (r: seq<Value>)
    ensures var fs := TruthyFields(obj, PhotoFields);
      |r| == |fs| && forall i :: 0 <= i < |r| ==> r[i] == obj[fs[i]]
    ensures |r| <= 3
  {
    Deletions(obj, PhotoFields)
  }

  /** Storing an upload's URLs on a record and deleting it removes exactly
      those three versions, display first. */
  lemma StoredPhotosAreDeleted(urls: PhotoUrls)
    requires Truthy(urls.display) && Truthy(urls.original) && Truthy(urls.thumbnail)
    ensures PhotoDeletions(Record(urls)) == [urls.display, urls.original, urls.thumbnail]
  {
    var obj := Record(urls);
    assert PhotoFields[1..][1..][1..] == [];
    assert Deletions(obj, PhotoFields[1..][1..]) == [urls.thumbnail];
  }

  /** A record without photos deletes nothing. */
  lemma NoPhotosNoDeletions(obj: map<string, Value>)
    requires forall f <- PhotoFields :: f !in obj
    ensures PhotoDeletions(obj) == []
  {
    var fs := PhotoFields;
    assert fs[1..][1..][1..] == [];
    assert Deletions(obj, fs[1..][1..]) == [];
    assert Deletions(obj, fs[1..]) == [];
  }

  /** The photo columns a record stores for an upload. */
  function Record(urls: PhotoUrls): map<string, Value> {
    map["photo_url" := urls.display, "photo_url_original" := urls.original, "photo_url_thumb" := urls.thumbnail]
  }

  /** `extract_photo_urls`: all `None` for a missing or empty result,
      otherwise the three lookups with `None` for a missing key. */
  function ExtractPhotoUrls(result: Option<map<string, Value>>): (r: PhotoUrls)
    ensures result.None? || result.value == map[] ==> r == NoPhotos
    ensures result.Some? ==>
      && ("display" in result.value ==> r.display == result.value["display"])
      && ("original" in result.value ==> r.original == result.value["original"])
      && ("thumbnail" in result.value ==> r.thumbnail == result.value["thumbnail"])
    ensures result.Some? ==>
      && ("display" !in result.value ==> r.display == Null)
      && ("original" !in result.value ==> r.original == Null)
      && ("thumbnail" !in result.value ==> r.thumbnail == Null)
  {
    if result.None? || result.value == map[] then NoPhotos
    else PhotoUrls(Get(result.value, "display", Null), Get(result.value, "original", Null), Get(result.value, "thumbnail", Null))
  }

  /** Extracting agrees with the upload handler on a complete result. */
  lemma ExtractAgreesWithUpload(store: map<string, Value>)
    requires "display" in store && "original" in store && "thumbnail" in store
    ensures HandlePhotoUpload(FileCheck(true, None, true), Some(store)).Ok?
    ensures HandlePhotoUpload(FileCheck(true, None, true), Some(store)).value.urls == ExtractPhotoUrls(Some(store))
  {
  }
}
