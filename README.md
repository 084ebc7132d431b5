# Bill upload handler — a Dafny model

This project models the bill-upload HTTP endpoint `main` of
`api/UploadBill/__init__.py`. The endpoint receives a multipart form with a
photo of a delivery bill and three identifying fields. It stores the photo in
the `uploaded-bills` blob container under a name built from those fields and
the current UTC time:

    {location_id}_{YYYYMMDD_HHMMSS}[_{truck_id}][_{bill_id}].jpg

The model has five modules, one per concern of the handler:

- `Wrappers` (`wrappers.dfy`): `Option`, `Result` and a `byte` type.
- `Timestamp` (`timestamp.dfy`): `strftime("%Y%m%d_%H%M%S")` as `Format`, over
  the date and time fields of a `datetime`. `Parse` is its inverse.
- `ObjectKey` (`object_key.dfy`): the blob name. `BuildFilename` mirrors the
  source's list of parts and its appends. `Join` is Python's `str.join`.
  `Key` is the naming equation stated once, for reference.
- `BlobStorage` (`blob_storage.dfy`): the container as a class whose one field
  is an optional map from blob name to bytes. `None` means the container does
  not exist. Its methods model `exists()`, `create_container()` and
  `upload_blob(..., overwrite=...)`.
- `UploadBill` (`upload_bill.dfy`): the request, the ordered validation, the
  whole handler as a function `Handle`, and the handler as the source runs it,
  `HandleUpload`, proved equal to `Handle`.

The clock, the environment variable and the storage SDK are parameters:

- `now` is the UTC time the handler would read at line 40.
- `connection` is the value of `AZURE_STORAGE_CONNECTION_STRING`, or `None`
  when the variable is unset.
- `StorageFaults` gives, for each SDK call that can raise, the text `str(e)`
  of the exception it raises, or `None` when it does not raise. The calls are
  building the client, `exists()`, `create_container()` and `upload_blob()`.
  Authentication, network and timeout failures all arrive this way.

The handler's answers, as the code gives them:

- An absent or empty `location_id` gives 400 `"Location ID is required"`.
- A missing file part gives 400 `"No file was uploaded"`.
- An unset or empty connection string gives 500
  `"Server configuration error: Storage connection string not set"`.
- The connection string is read from `AZURE_STORAGE_CONNECTION_STRING` alone.
- Every storage failure gives 500 with `"Error processing upload: " + str(e)`.
- A file part counts as present when `req.files.get('file')` is truthy. That
  value is a werkzeug `FileStorage`, which is truthy exactly when its file name
  is non-empty. So a part with a file name and empty content passes the check,
  and a part with no file name is "No file was uploaded".
- A request whose form is empty is handled like any request without
  `location_id`: 400 `"Location ID is required"`.

The storage calls happen in this order, as in the source. First the client is
built from the connection string, then `exists()` is asked. If the container
is absent it is created. Then the upload is done with `overwrite=True`.
A call that raises ends the run at the `except` clause. When the upload raises
after the container was created, the container stays created but no blob
changes (`StorageFailureAnswers500`).

Two facts about the naming scheme follow from the proofs:

- For equal location, truck and bill, keys collide exactly when the uploads
  fall in the same second (`SameKeyIffSameSecond`). Such a collision
  overwrites the earlier photo (`LastWriterWins`).
- Field text containing `_` lets different requests collide. For example a
  location `s` with truck `20240301_100006` at `20240301_100005`, and a
  location `s_20240301_100005` with no truck whose timestamp is
  `20240301_100006`, share one key (`SeparatorInFieldCollides`).
- A request with only a truck id and one with only a bill id of the same text
  get the same key (`TruckAndBillIndistinguishable`). A reader of the names
  cannot tell which field was given.

## Model

| member | source | states |
|---|---|---|
| `Timestamp.Pad` | api/UploadBill/__init__.py:40 | writes `n` in exactly `width` decimal digits, zero-padded, and the digits read back as `n` |
| `Timestamp.PadValue` | api/UploadBill/__init__.py:40 | zero padding loses nothing: padding the value of a digit string to its length gives the string back |
| `Timestamp.Format` | api/UploadBill/__init__.py:40 | the rendered timestamp is 15 characters, `_` at index 8 and a decimal digit at every other index |
| `Timestamp.Parse` | api/UploadBill/__init__.py:40 | reading a timestamp back succeeds only on the `YYYYMMDD_HHMMSS` shape and yields a valid date and time |
| `Timestamp.ParseFormat` | api/UploadBill/__init__.py:40 | parsing a rendered timestamp gives back the date and time it was rendered from |
| `Timestamp.FormatParse` | api/UploadBill/__init__.py:40 | a string that parses is exactly the rendering of the time it names |
| `Timestamp.FormatInjective` | api/UploadBill/__init__.py:40 | two times get the same timestamp if and only if they agree to the second |
| `Timestamp.FormatExample` | api/UploadBill/__init__.py:40 | 2024-03-01 10:00:05 renders as `20240301_100005` |
| `ObjectKey.JoinAppend` | api/UploadBill/__init__.py:41-48 | appending a part to a non-empty list adds one separator and that part at the end of the joined string |
| `ObjectKey.Key` | api/UploadBill/__init__.py:41-48 | the key has the stated length, begins with `location_id + "_" + timestamp` and ends with `.jpg` |
| `ObjectKey.Parts` | api/UploadBill/__init__.py:41-46 | the parts list starts with location and timestamp, has one more entry per non-empty optional field, holds the truck id third when it is non-empty and the bill id last when it is non-empty, and no empty optional entry |
| `ObjectKey.BuildFilename` | api/UploadBill/__init__.py:41-48 | building the list by appends, joining with `_` and adding `.jpg` gives `location_id + "_" + ts`, then `"_" + truck_id` if non-empty, then `"_" + bill_id` if non-empty, then `.jpg` |
| `ObjectKey.KeyIsJoinedParts` | api/UploadBill/__init__.py:41-48 | the key equation equals the joined parts list plus `.jpg` for every input |
| `ObjectKey.KeyTimestampInjective` | api/UploadBill/__init__.py:40-48 | with the other fields fixed, two timestamps of equal width give the same key if and only if they are equal |
| `ObjectKey.KeyWithoutOptionalFields` | api/UploadBill/__init__.py:43-48 | with empty truck and bill the key is `location_id + "_" + ts + ".jpg"`, with no stray separator |
| `ObjectKey.SeparatorInFieldCollides` | api/UploadBill/__init__.py:41-48 | a location, timestamp and truck give the same key as the location joined to the timestamp by `_`, with the truck as timestamp and no truck |
| `ObjectKey.TruckAndBillIndistinguishable` | api/UploadBill/__init__.py:43-46 | a non-empty truck id alone and the same text as bill id alone give the same key |
| `ObjectKey.KeyHasNoStraySeparator` | api/UploadBill/__init__.py:41-48 | when location, truck and bill hold no leading, trailing or doubled `_`, the key has no `__` and no `_` before `.jpg` |
| `ObjectKey.KeyExamples` | api/UploadBill/__init__.py:41-48 | `store7` with `truck3` and `B99` gives `store7_20240301_100005_truck3_B99.jpg`; without them `store7_20240301_100005.jpg` |
| `BlobStorage.Container.Exists` | api/UploadBill/__init__.py:58 | `exists()` raises the given fault, or reports whether the container exists |
| `BlobStorage.Container.CreateContainer` | api/UploadBill/__init__.py:58-60 | creates an empty container when absent; refused when present; changes nothing on error |
| `BlobStorage.Container.UploadBlob` | api/UploadBill/__init__.py:63-66 | stores the bytes under the name, replacing an earlier blob only with `overwrite`; refused without a container; nothing else changes |
| `UploadBill.Validate` | api/UploadBill/__init__.py:15-37 | the request passes if and only if the location is non-empty, the file part is truthy and the connection string is non-empty; an empty location gives the location 400, then a missing file gives the file 400, then a missing connection string gives the configuration 500; acceptance carries the three form fields, the file part and the connection string |
| `UploadBill.Handle` | api/UploadBill/__init__.py:13-73 | status is 200, 400 or 500; 200 exactly when validation passes and no storage call raises; on 200 the body names the key and only that key changes, to the file's bytes; otherwise no blob changes |
| `UploadBill.HandleUpload` | api/UploadBill/__init__.py:7-73 | running the handler step by step against the `uploaded-bills` container gives the answer and the new container state of `Handle` |
| `UploadBill.LocationCheckedFirst` | api/UploadBill/__init__.py:16-25 | an absent or empty `location_id` gives 400 "Location ID is required" whatever else holds, and the store is untouched |
| `UploadBill.FileCheckedSecond` | api/UploadBill/__init__.py:19-28 | with a location but no truthy file part the answer is 400 "No file was uploaded", and the store is untouched |
| `UploadBill.ConnectionCheckedThird` | api/UploadBill/__init__.py:31-37 | with valid fields and an unset or empty connection string the answer is the configuration 500, and the store is untouched |
| `UploadBill.RejectionIgnoresClockAndStorage` | api/UploadBill/__init__.py:24-40 | a rejected request gives the same outcome at any time and under any storage behaviour, and leaves the store as it was |
| `UploadBill.SuccessfulUpload` | api/UploadBill/__init__.py:58-69 | for a non-empty location, a truthy file part and a non-empty connection string, after a run with no fault the container exists, the key holds the uploaded bytes, no other blob changed, and the answer is 200 naming the key |
| `UploadBill.StorageFailureAnswers500` | api/UploadBill/__init__.py:51-73 | on a request that passes the three checks, a storage call that raises gives 500 with "Error processing upload: " and that exception's text, and no blob changes |
| `UploadBill.LastWriterWins` | api/UploadBill/__init__.py:63-66 | two fault-free uploads in a row under one key end with 200 and leave the second upload's bytes there, other blobs as before |
| `UploadBill.SameKeyIffSameSecond` | api/UploadBill/__init__.py:40-48 | requests with equal location, truck and bill get the same key if and only if their times agree to the second |
| `UploadBill.UploadKeyExamples` | api/UploadBill/__init__.py:40-48 | at 2024-03-01 10:00:05 UTC, `store7`/`truck3`/`B99` and `store7` alone get the expected keys |

## Left out

- `test_storage_connection.py` is not part of this model. It is a manual
  connectivity script that prints and lists blobs, and it has no logic beyond
  the handler's.
- HTTP and multipart parsing (`req.form`, `req.files`) belong to the hosting
  library. The request is taken already parsed. What that library does with a
  body it cannot parse is not modelled.
- The clock (`datetime.utcnow()`) is a parameter. Microseconds are not printed
  and are not modelled.
- `Timestamp.Format`: for years below 1000 some platforms' `%Y` does not
  zero-pad; the model always pads to four digits. The clock never yields such
  years.
- The environment lookup (`os.environ.get`) is a parameter.
- The storage SDK, the network, authentication and timeouts are replaced by
  the abstract container and the injected exceptions.
- `BlobStorage.Container.UploadBlob`, `BlobStorage.Container.CreateContainer`:
  a call that raises is taken to change nothing. A request that the service
  applied before the client saw a timeout is not modelled.
- Concurrency between requests is not modelled. That includes the race
  between `exists()` and `create_container()`. A concurrent creator's
  "already exists" error reaches the model only as an injected
  `create_container()` fault.
- Logging calls are left out. The text of `str(e)` is an opaque parameter.
- The upload sends the file's bytes. Reading `file_data.stream` from a stream
  position other than its start is not modelled.
