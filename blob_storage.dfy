/** The `uploaded-bills` container of the storage account, as the handler
    sees it through the storage SDK (UploadBill/__init__.py, lines 51-66).
    The SDK and the network are not modelled; each call that can raise is
    given the exception it raises, if any, as a parameter, and otherwise
    acts on an abstract state: an optional map from blob name to content. */
module BlobStorage {
  import opened Wrappers

  /** The container the handler uploads into (line 52). */
  const ContainerName: string := "uploaded-bills"

  /** Error codes the storage service reports for the two requests it refuses. */
  const ContainerAlreadyExists: string := "ContainerAlreadyExists"
  const ContainerNotFound: string := "ContainerNotFound"
  const BlobAlreadyExists: string := "BlobAlreadyExists"

  type Blobs = map<string, Bytes>

  /** The blobs a container holds, and none when it does not exist. */
  function BlobsOf(state: Option<Blobs>): Blobs {
    if state.Some? then state.value else map[]
  }

  class Container {
    /** The name `get_container_client` was given (line 55). */
    const name: string

    /** `None` while the container does not exist; otherwise its blobs by name. */
    var blobs: Option<Blobs>

    constructor (name: string, initial: Option<Blobs>)
      ensures this.name == name && blobs == initial
    {
      this.name := name;
      blobs := initial;
    }

    /** `container_client.exists()`: raises `fault` if one is given, and
        otherwise reports whether the container exists. */
    method Exists(fault: Option<string>) returns (r: Result<bool, string>)
      ensures fault.Some? ==> r == Failure(fault.value)
      ensures fault.None? ==> r == Success(blobs.Some?)
    {
      if fault.Some? {
        r := Failure(fault.value);
      } else {
        r := Success(blobs.Some?);
      }
    }

    /** `container_client.create_container()`: creates an empty container;
        refused when it already exists. On any error nothing changes. */
    method CreateContainer(fault: Option<string>) returns (err: Option<string>)
      modifies this
      ensures fault.Some? ==> err == fault && blobs == old(blobs)
      ensures fault.None? && old(blobs).Some? ==> err == Some(ContainerAlreadyExists) && blobs == old(blobs)
      ensures fault.None? && old(blobs).None? ==> err == None && blobs == Some(map[])
    {
      if fault.Some? {
        err := fault;
      } else if blobs.Some? {
        err := Some(ContainerAlreadyExists);
      } else {
        err := None;
        blobs := Some(map[]);
      }
    }

    /** `blob_client.upload_blob(data, overwrite=overwrite)`: stores `data`
        under `name`, replacing an earlier blob of that name only when
        `overwrite` holds. Refused when the container does not exist. On any
        error nothing changes; on success no other blob changes. */
    method UploadBlob(name: string, data: Bytes, overwrite: bool, fault: Option<string>)
      returns (err: Option<string>)
      modifies this
      ensures fault.Some? ==> err == fault && blobs == old(blobs)
      ensures fault.None? && old(blobs).None? ==> err == Some(ContainerNotFound) && blobs == old(blobs)
      ensures fault.None? && old(blobs).Some? && name in old(blobs).value && !overwrite
              ==> err == Some(BlobAlreadyExists) && blobs == old(blobs)
      ensures fault.None? && old(blobs).Some? && (name !in old(blobs).value || overwrite)
              ==> err == None && blobs == Some(old(blobs).value[name := data])
    {
      if fault.Some? {
        err := fault;
      } else if blobs.None? {
        err := Some(ContainerNotFound);
      } else if name in blobs.value && !overwrite {
        err := Some(BlobAlreadyExists);
      } else {
        err := None;
        blobs := Some(blobs.value[name := data]);
      }
    }
  }
}
