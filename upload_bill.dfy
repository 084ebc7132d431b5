/** The bill-upload HTTP handler `main` (UploadBill/__init__.py, lines 7-73):
    validate the form in a fixed order, build the object key, make sure the
    `uploaded-bills` container exists, and upload the file under the key,
    overwriting any earlier blob of that name.

    The request arrives already parsed into its form fields and file parts;
    the environment variable, the UTC clock and the exceptions the storage
    SDK raises are parameters. */
module UploadBill {
  import opened Wrappers
  import opened Timestamp
  import opened ObjectKey
  import opened BlobStorage

  /** One file part of a multipart form: its client-side file name and its bytes. */
  datatype FilePart = FilePart(filename: string, content: Bytes)

  /** The parts of the request the handler reads: `req.form` and `req.files`. */
  datatype Request = Request(form: map<string, string>, files: map<string, FilePart>)

  datatype Response = Response(status: int, body: string)

  /** The exception each storage call raises, if any, given by the text
      `str(e)` yields: building the client from the connection string
      (line 51), `exists()` (line 58), `create_container()` (line 60) and
      `upload_blob()` (line 66). Authentication, network and timeout
      failures all arrive this way. */
  datatype StorageFaults = StorageFaults(
    client: Option<string>,
    existsCheck: Option<string>,
    create: Option<string>,
    upload: Option<string>)

  /** What the handler answers and what the container holds afterwards. */
  datatype Outcome = Outcome(response: Response, store: Option<Blobs>)

  /** `form.get(name, '')`. */
  function FormGet(form: map<string, string>, name: string): string {
    if name in form then form[name] else ""
  }

  /** `req.files.get(name)`. */
  function FileGet(files: map<string, FilePart>, name: string): Option<FilePart> {
    if name in files then Some(files[name]) else None
  }

  /** Python truthiness of `file_data`: `None` is false, and a file part is
      true exactly when it carries a non-empty file name. */
  predicate IsTruthyFile(f: Option<FilePart>) {
    f.Some? && f.value.filename != ""
  }

  /** Python truthiness of `os.environ.get(...)`: unset and empty are false. */
  predicate IsTruthyString(s: Option<string>) {
    s.Some? && s.value != ""
  }

  const LocationRequired: Response := Response(400, "Location ID is required")
  const NoFileUploaded: Response := Response(400, "No file was uploaded")
  const ConnectionNotSet: Response :=
    Response(500, "Server configuration error: Storage connection string not set")

  function Uploaded(key: string): Response {
    Response(200, "File uploaded successfully: " + key)
  }

  /** The answer of the `except Exception` clause (lines 71-73). */
  function ProcessingError(detail: string): Response {
    Response(500, "Error processing upload: " + detail)
  }

  /** The fields of a request that passed validation. */
  datatype Upload = Upload(
    locationId: string, truckId: string, billId: string,
    file: FilePart, connection: string)

  /** Lines 15-37: the three checks in order, each returning at once. */
  function Validate(req: Request, connection: Option<string>): (r: Result<Upload, Response>)
    ensures r.Success? <==> && FormGet(req.form, "location_id") != ""
                            && IsTruthyFile(FileGet(req.files, "file"))
                            && IsTruthyString(connection)
    ensures FormGet(req.form, "location_id") == "" ==> r == Failure(LocationRequired)
    ensures FormGet(req.form, "location_id") != "" && !IsTruthyFile(FileGet(req.files, "file"))
            ==> r == Failure(NoFileUploaded)
    ensures FormGet(req.form, "location_id") != "" && IsTruthyFile(FileGet(req.files, "file"))
              && !IsTruthyString(connection)
            ==> r == Failure(ConnectionNotSet)
    ensures r.Success? ==> && r.value.locationId == FormGet(req.form, "location_id") != ""
                           && r.value.truckId == FormGet(req.form, "truck_id")
                           && r.value.billId == FormGet(req.form, "bill_id")
                           && Some(r.value.file) == FileGet(req.files, "file")
                           && r.value.file.filename != ""
                           && Some(r.value.connection) == connection && r.value.connection != ""
  {
    var locationId := FormGet(req.form, "location_id");
    var fileData := FileGet(req.files, "file");
    if locationId == "" then Failure(LocationRequired)
    else if !IsTruthyFile(fileData) then Failure(NoFileUploaded)
    else if !IsTruthyString(connection) then Failure(ConnectionNotSet)
    else Success(Upload(locationId, FormGet(req.form, "truck_id"), FormGet(req.form, "bill_id"),
                        fileData.value, connection.value))
  }

  /** The key a request uploaded at `now` is stored under. */
  function UploadKey(req: Request, now: DateTime): string
    requires Valid(now)
  {
    Key(FormGet(req.form, "location_id"), Format(now),
        FormGet(req.form, "truck_id"), FormGet(req.form, "bill_id"))
  }

  /** No storage call on the path raises: the client is built, `exists()`
      answers, `create_container()` succeeds if it is called at all, and the
      upload succeeds. */
  predicate StorageSucceeds(faults: StorageFaults, before: Option<Blobs>) {
    && faults.client.None?
    && faults.existsCheck.None?
    && (before.None? ==> faults.create.None?)
    && faults.upload.None?
  }

  /** The message of the first storage call that raises. */
  function FirstFault(faults: StorageFaults, before: Option<Blobs>): string
    requires !StorageSucceeds(faults, before)
  {
    if faults.client.Some? then faults.client.value
    else if faults.existsCheck.Some? then faults.existsCheck.value
    else if before.None? && faults.create.Some? then faults.create.value
    else faults.upload.value
  }

  /** The whole handler as a function of its inputs and of the container
      state before the call. A successful upload is the only way a blob
      changes, and it changes exactly the one under the computed key. */
  function Handle(req: Request, connection: Option<string>, now: DateTime,
                  faults: StorageFaults, before: Option<Blobs>): (r: Outcome)
    requires Valid(now)
    ensures r.response.status in {200, 400, 500}
    ensures r.response.status == 200 <==> Validate(req, connection).Success? && StorageSucceeds(faults, before)
    ensures r.response.status == 200 ==>
              && r.response == Uploaded(UploadKey(req, now))
              && r.store == Some(BlobsOf(before)[UploadKey(req, now) := FileGet(req.files, "file").value.content])
    ensures r.response.status != 200 ==> BlobsOf(r.store) == BlobsOf(before)
  {
    match Validate(req, connection)
    case Failure(rejection) => Outcome(rejection, before)
    case Success(upload) =>
      var key := Key(upload.locationId, Format(now), upload.truckId, upload.billId);
      if faults.client.Some? then Outcome(ProcessingError(faults.client.value), before)
      else if faults.existsCheck.Some? then Outcome(ProcessingError(faults.existsCheck.value), before)
      else if before.None? && faults.create.Some? then Outcome(ProcessingError(faults.create.value), before)
      else
        var ensured := BlobsOf(before);
        if faults.upload.Some? then Outcome(ProcessingError(faults.upload.value), Some(ensured))
        else Outcome(Uploaded(key), Some(ensured[key := upload.file.content]))
  }

  /** `main`: the handler as the source runs it, step by step, against the
      container object. */
  method HandleUpload(req: Request, connection: Option<string>, now: DateTime,
                      faults: StorageFaults, store: Container) returns (resp: Response)
    requires Valid(now)
    requires store.name == ContainerName
    modifies store
    ensures Handle(req, connection, now, faults, old(store.blobs)) == Outcome(resp, store.blobs)
  {
    var locationId := FormGet(req.form, "location_id");
    var truckId := FormGet(req.form, "truck_id");
    var billId := FormGet(req.form, "bill_id");
    var fileData := FileGet(req.files, "file");

    if locationId == "" {
      return LocationRequired;
    }
    if !IsTruthyFile(fileData) {
      return NoFileUploaded;
    }
    if !IsTruthyString(connection) {
      return ConnectionNotSet;
    }

    var timestamp := Format(now);
    var filename := BuildFilename(locationId, timestamp, truckId, billId);

    if faults.client.Some? {
      return ProcessingError(faults.client.value);
    }
    var found := store.Exists(faults.existsCheck);
    if found.Failure? {
      return ProcessingError(found.error);
    }
    if !found.value {
      var created := store.CreateContainer(faults.create);
      if created.Some? {
        return ProcessingError(created.value);
      }
    }
    var uploaded := store.UploadBlob(filename, fileData.value.content, true, faults.upload);
    if uploaded.Some? {
      return ProcessingError(uploaded.value);
    }
    resp := Uploaded(filename);
  }

  /** An absent or empty `location_id` is answered with 400 whatever the
      other fields, the configuration, the clock and the storage would do,
      and the container is left as it was. */
  lemma LocationCheckedFirst(req: Request, connection: Option<string>, now: DateTime,
                             faults: StorageFaults, before: Option<Blobs>)
    requires Valid(now)
    requires FormGet(req.form, "location_id") == ""
    ensures Handle(req, connection, now, faults, before) == Outcome(LocationRequired, before)
  {
  }

  /** With a location but no truthy file part the answer is the missing-file
      400, whatever the configuration and storage; the container is unchanged. */
  lemma FileCheckedSecond(req: Request, connection: Option<string>, now: DateTime,
                          faults: StorageFaults, before: Option<Blobs>)
    requires Valid(now)
    requires FormGet(req.form, "location_id") != ""
    requires !IsTruthyFile(FileGet(req.files, "file"))
    ensures Handle(req, connection, now, faults, before) == Outcome(NoFileUploaded, before)
  {
  }

  /** Valid fields but no connection string: 500 before any key is built or
      storage is reached; the container is unchanged. */
  lemma ConnectionCheckedThird(req: Request, connection: Option<string>, now: DateTime,
                               faults: StorageFaults, before: Option<Blobs>)
    requires Valid(now)
    requires FormGet(req.form, "location_id") != ""
    requires IsTruthyFile(FileGet(req.files, "file"))
    requires !IsTruthyString(connection)
    ensures Handle(req, connection, now, faults, before) == Outcome(ConnectionNotSet, before)
  {
  }

  /** A rejected request neither reads the clock nor reaches storage: its
      outcome is the same at any time and under any storage behaviour. */
  lemma RejectionIgnoresClockAndStorage(req: Request, connection: Option<string>,
                                        now1: DateTime, now2: DateTime,
                                        faults1: StorageFaults, faults2: StorageFaults,
                                        before: Option<Blobs>)
    requires Valid(now1) && Valid(now2)
    requires || FormGet(req.form, "location_id") == ""
             || !IsTruthyFile(FileGet(req.files, "file"))
             || !IsTruthyString(connection)
    ensures Handle(req, connection, now1, faults1, before) == Handle(req, connection, now2, faults2, before)
    ensures Handle(req, connection, now1, faults1, before).store == before
  {
  }

  /** After a run on a valid request in which no storage call raises, the
      container exists whether or not it did before, the key holds the
      uploaded bytes (replacing any earlier content), every other blob is
      unchanged, and the answer is 200 naming the key. */
  lemma SuccessfulUpload(req: Request, connection: Option<string>, now: DateTime,
                         faults: StorageFaults, before: Option<Blobs>)
    requires Valid(now)
    requires FormGet(req.form, "location_id") != ""
    requires IsTruthyFile(FileGet(req.files, "file"))
    requires IsTruthyString(connection)
    requires StorageSucceeds(faults, before)
    ensures var r := Handle(req, connection, now, faults, before);
            var key := UploadKey(req, now);
            && r.response == Response(200, "File uploaded successfully: " + key)
            && r.store.Some?
            && key in r.store.value
            && r.store.value[key] == FileGet(req.files, "file").value.content
            && r.store.value.Keys == BlobsOf(before).Keys + {key}
            && (forall other | other in BlobsOf(before) && other != key ::
                  r.store.value[other] == BlobsOf(before)[other])
  {
    var r := Handle(req, connection, now, faults, before);
    assert r.response.status == 200;
  }

  /** On a valid request, any storage call that raises ends the run with
      500 and that exception's text; no blob changes, although the container
      stays created when only the upload itself failed. */
  lemma StorageFailureAnswers500(req: Request, connection: Option<string>, now: DateTime,
                                 faults: StorageFaults, before: Option<Blobs>)
    requires Valid(now)
    requires FormGet(req.form, "location_id") != ""
    requires IsTruthyFile(FileGet(req.files, "file"))
    requires IsTruthyString(connection)
    requires !StorageSucceeds(faults, before)
    ensures var r := Handle(req, connection, now, faults, before);
            && r.response == ProcessingError(FirstFault(faults, before))
            && BlobsOf(r.store) == BlobsOf(before)
            && (faults.client.None? && faults.existsCheck.None? && (before.None? ==> faults.create.None?)
                ==> r.store.Some?)
  {
  }

  /** Two uploads in a row whose keys coincide, neither hitting a storage
      fault: afterwards the key holds the second upload's bytes (last writer
      wins; nothing is appended), and every other blob is as before the
      first. The second run finds the container, so it never creates one. */
  lemma LastWriterWins(req1: Request, req2: Request, connection: Option<string>,
                       now1: DateTime, now2: DateTime,
                       faults1: StorageFaults, faults2: StorageFaults, before: Option<Blobs>)
    requires Valid(now1) && Valid(now2)
    requires UploadKey(req1, now1) == UploadKey(req2, now2)
    requires IsTruthyString(connection)
    requires FormGet(req1.form, "location_id") != "" && IsTruthyFile(FileGet(req1.files, "file"))
    requires FormGet(req2.form, "location_id") != "" && IsTruthyFile(FileGet(req2.files, "file"))
    requires StorageSucceeds(faults1, before)
    requires faults2.client.None? && faults2.existsCheck.None? && faults2.upload.None?
    ensures var mid := Handle(req1, connection, now1, faults1, before).store;
            var last := Handle(req2, connection, now2, faults2, mid);
            && last.response.status == 200
            && last.store == Some(BlobsOf(before)[UploadKey(req2, now2) := FileGet(req2.files, "file").value.content])
  {
    var key := UploadKey(req2, now2);
    var mid := Handle(req1, connection, now1, faults1, before).store;
    assert mid.Some? && BlobsOf(mid) == BlobsOf(before)[key := FileGet(req1.files, "file").value.content];
    assert StorageSucceeds(faults2, mid);
    assert BlobsOf(mid)[key := FileGet(req2.files, "file").value.content]
        == BlobsOf(before)[key := FileGet(req2.files, "file").value.content];
  }

  /** Requests with the same location, truck and bill get the same key
      exactly when they arrive within the same second: equal inputs always give
      equal keys, and different printed times always give different ones. */
  lemma SameKeyIffSameSecond(req1: Request, req2: Request, now1: DateTime, now2: DateTime)
    requires Valid(now1) && Valid(now2)
    requires FormGet(req1.form, "location_id") == FormGet(req2.form, "location_id")
    requires FormGet(req1.form, "truck_id") == FormGet(req2.form, "truck_id")
    requires FormGet(req1.form, "bill_id") == FormGet(req2.form, "bill_id")
    ensures UploadKey(req1, now1) == UploadKey(req2, now2) <==> now1 == now2
  {
    KeyTimestampInjective(FormGet(req1.form, "location_id"), Format(now1), Format(now2),
                          FormGet(req1.form, "truck_id"), FormGet(req1.form, "bill_id"));
    FormatInjective(now1, now2);
  }

  /** The two worked examples of the naming scheme: all fields present, and
      neither optional field present, at 2024-03-01 10:00:05 UTC. */
  lemma UploadKeyExamples(req: Request, now: DateTime)
    requires now == DateTime(2024, 3, 1, 10, 0, 5)
    requires FormGet(req.form, "location_id") == "store7"
    ensures FormGet(req.form, "truck_id") == "truck3" && FormGet(req.form, "bill_id") == "B99"
            ==> UploadKey(req, now) == "store7_20240301_100005_truck3_B99.jpg"
    ensures FormGet(req.form, "truck_id") == "" && FormGet(req.form, "bill_id") == ""
            ==> UploadKey(req, now) == "store7_20240301_100005.jpg"
  {
    FormatExample();
    KeyExamples();
  }
}
