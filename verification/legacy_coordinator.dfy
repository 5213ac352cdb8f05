/**
 * The earlier coordinator: a node registry that keeps only id, url, limit
 * and usage, and a file catalog whose records carry no encryption mode, no
 * agreement and no key.
 */
module LegacyCoordinator {
  import opened Common
  import opened Records

  /** A node as this coordinator registers it: the figures exactly as the heartbeat sent them. */
  datatype LegacyNodeRecord = LegacyNodeRecord(nodeId: string, url: string, limitMb: Option<int>, usedMb: Option<real>)

  /** The record register stores: every other field of the heartbeat is dropped. */
  function NodeRecordOf(req: RegisterRequest): LegacyNodeRecord
    requires Given(req.nodeId) && Given(req.url)
  {
    LegacyNodeRecord(req.nodeId.value, req.url.value, req.limitMb, req.usedMb)
  }

  /**
   * available_nodes: the nodes whose usage is below their limit; as in the
   * current coordinator, a record holding a null figure makes the
   * comparison raise and the request answer 500.
   */
  function AvailableNodes(nodes: map<string, LegacyNodeRecord>): (r: Outcome<map<string, LegacyNodeRecord>>)
    ensures r.Fail? <==> exists id :: id in nodes && (nodes[id].usedMb.None? || nodes[id].limitMb.None?)
    ensures r.Fail? ==> r.status == StatusServerError
    ensures r.Ok? ==> r.value.Keys <= nodes.Keys
    ensures r.Ok? ==> forall id :: id in nodes ==> (id in r.value <==> nodes[id].usedMb.value < nodes[id].limitMb.value as real)
    ensures r.Ok? ==> forall id :: id in r.value ==> r.value[id] == nodes[id]
  {
    if exists id :: id in nodes && (nodes[id].usedMb.None? || nodes[id].limitMb.None?) then Fail(StatusServerError)
    else Ok(map id | id in nodes && nodes[id].usedMb.value < nodes[id].limitMb.value as real :: nodes[id])
  }

  /** all_nodes: every registered record. */
  function AllNodes(nodes: map<string, LegacyNodeRecord>): (r: set<LegacyNodeRecord>)
    ensures forall id :: id in nodes ==> nodes[id] in r
    ensures forall n :: n in r ==> exists id :: id in nodes && nodes[id] == n
  {
    nodes.Values
  }

  /** store_file_metadata's validation: file id, filename and a non-empty chunk list are required. */
  predicate MetadataComplete(req: FileMetadataRequest) {
    Given(req.fileId) && Given(req.filename) && req.chunks.Some? && |req.chunks.value| > 0
  }

  /** The record store_file_metadata files: encryption mode, agreement and key are dropped. */
  function FileRecordOf(req: FileMetadataRequest): (f: FileRecord)
    requires MetadataComplete(req)
  {
    FileRecord(req.fileId.value, req.filename.value, req.size, req.owner, req.chunks.value,
               req.createdAt, None, None, None)
  }

  /** The record store_file_metadata evidently means to file: the posted encryption mode and key kept. */
  function FileRecordKeepingKey(req: FileMetadataRequest): (f: FileRecord)
    requires MetadataComplete(req)
    ensures f.encryption == req.encryption && f.key == req.key
    ensures f.(encryption := None, key := None) == FileRecordOf(req)
  {
    FileRecordOf(req).(encryption := req.encryption, key := req.key)
  }

  /** get_file_metadata: the stored record, or 404. */
  function GetFileMetadata(files: map<string, FileRecord>, fileId: string): (r: Outcome<FileRecord>)
    ensures r.Ok? <==> fileId in files
    ensures r.Ok? ==> r.value == files[fileId]
    ensures r.Fail? ==> r.status == StatusNotFound
  {
    if fileId in files then Ok(files[fileId]) else Fail(StatusNotFound)
  }

  /** list_files: the records of the given owner, or all of them. */
  function ListFiles(files: map<string, FileRecord>, owner: Option<string>): (r: map<string, FileRecord>)
    ensures r.Keys <= files.Keys
    ensures forall id :: id in r ==> r[id] == files[id]
    ensures forall id :: id in files ==> (id in r <==> !Given(owner) || files[id].owner == owner)
  {
    map id | id in files && (!Given(owner) || files[id].owner == owner) :: files[id]
  }

  /** The registry of storage nodes, keyed by node id. */
  class NodeRegistry {
    var nodes: map<string, LegacyNodeRecord>

    /** Every record is filed under its own, non-empty node id and has a url. */
    ghost predicate Valid()
      reads this
    {
      forall id :: id in nodes ==> nodes[id].nodeId == id && id != "" && nodes[id].url != ""
    }

    constructor ()
      ensures Valid() && nodes == map[]
    {
      nodes := map[];
    }

    /** register: 400 and no change without node id or url; otherwise an upsert by node id. */
    method Register(req: RegisterRequest) returns (r: Outcome<string>)
      requires Valid()
      modifies this
      ensures Valid()
      ensures !(Given(req.nodeId) && Given(req.url)) ==> r == Fail(StatusBadRequest) && nodes == old(nodes)
      ensures Given(req.nodeId) && Given(req.url) ==>
        && r == Ok(req.nodeId.value)
        && nodes == old(nodes)[req.nodeId.value := NodeRecordOf(req)]
    {
      if !Given(req.nodeId) || !Given(req.url) {
        return Fail(StatusBadRequest);
      }
      nodes := nodes[req.nodeId.value := NodeRecordOf(req)];
      return Ok(req.nodeId.value);
    }
  }

  /** The file catalog (`file_metadata.json`), keyed by file id. */
  class FileCatalog {
    var files: map<string, FileRecord>

    /** Every record is filed under its own id, has a filename and chunks, and holds no key. */
    ghost predicate Valid()
      reads this
    {
      forall id :: id in files ==>
        && files[id].fileId == id && id != ""
        && files[id].filename != "" && |files[id].chunks| > 0
        && files[id].key.None? && files[id].encryption.None?
    }

    constructor ()
      ensures Valid() && files == map[]
    {
      files := map[];
    }

    /** store_file_metadata: 400 and no change for an incomplete body, otherwise an upsert by file id. */
    method StoreFileMetadata(req: FileMetadataRequest) returns (r: Outcome<string>)
      requires Valid()
      modifies this
      ensures Valid()
      ensures !MetadataComplete(req) ==> r == Fail(StatusBadRequest) && files == old(files)
      ensures MetadataComplete(req) ==>
        && r == Ok(req.fileId.value)
        && files == old(files)[req.fileId.value := FileRecordOf(req)]
    {
      if !MetadataComplete(req) {
        return Fail(StatusBadRequest);
      }
      files := files[req.fileId.value := FileRecordOf(req)];
      return Ok(req.fileId.value);
    }
  }
}
