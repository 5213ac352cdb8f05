/**
 * The current coordinator: a registry of storage nodes, updated by the
 * nodes' register heartbeats and by deregister, and a catalog of file
 * records, updated by store and delete. Availability filtering, lookup and
 * listing are pure functions of the registry and catalog values.
 */
module Coordinator {
  import opened Common
  import opened Records

  /**
   * The node record register stores: limit and usage as sent; locked
   * space, price and wallet defaulted when left out and kept null when sent
   * as null.
   */
  function NodeRecordOf(req: RegisterRequest): (n: NodeRecord)
    requires Given(req.nodeId) && Given(req.url)
    ensures n.nodeId == req.nodeId.value && n.url == req.url.value
    ensures n.limitMb == req.limitMb && n.usedMb == req.usedMb
    ensures n.lockedMb == req.lockedMb.Get(100.0)
    ensures n.pricePerMb == req.pricePerMb.Get(1)
    ensures n.walletAddress == req.walletAddress.Get("")
  {
    NodeRecord(req.nodeId.value, req.url.value, req.limitMb, req.usedMb,
               req.lockedMb.Get(100.0), req.pricePerMb.Get(1), req.walletAddress.Get(""))
  }

  /** Both figures available_nodes compares first are present in the record. */
  predicate FiguresPresent(n: NodeRecord) {
    n.usedMb.Some? && n.limitMb.Some?
  }

  /**
   * available_nodes' test can be evaluated without raising: both figures are
   * present, and the locked figure it falls back on (only when no open space
   * is left) is not null.
   */
  predicate Comparable(n: NodeRecord) {
    FiguresPresent(n) && (n.usedMb.value < n.limitMb.value as real || n.lockedMb.Some?)
  }

  /** available_nodes' test: open space left, or some locked space. */
  predicate HasSpace(n: NodeRecord)
    requires Comparable(n)
  {
    n.usedMb.value < n.limitMb.value as real || n.lockedMb.value > 0.0
  }

  /**
   * available_nodes. Every record holds a used_mb, a limit_mb and a
   * locked_mb key, so the handler's `.get(..., 0)` defaults never apply: a
   * record whose figure was left out of the heartbeat or sent as null holds
   * null, comparing null raises, and the whole request answers 500.
   */
  function AvailableNodes(nodes: map<string, NodeRecord>): (r: Outcome<map<string, NodeRecord>>)
    ensures r.Fail? <==> exists id :: id in nodes && !Comparable(nodes[id])
    ensures r.Fail? ==> r.status == StatusServerError
    ensures r.Ok? ==> r.value.Keys <= nodes.Keys
    ensures r.Ok? ==> forall id :: id in nodes ==> (id in r.value <==> HasSpace(nodes[id]))
    ensures r.Ok? ==> forall id :: id in r.value ==> r.value[id] == nodes[id]
  {
    if exists id :: id in nodes && !Comparable(nodes[id]) then Fail(StatusServerError)
    else Ok(map id | id in nodes && HasSpace(nodes[id]) :: nodes[id])
  }

  /** A node with no usage figure makes available_nodes fail for every caller. */
  lemma MissingUsageFailsAvailableNodes()
    ensures AvailableNodes(map["n1" := NodeRecord("n1", "http://n1:6000", Some(1024), None, Some(100.0), Some(1), Some(""))])
              == Fail(StatusServerError)
  {
    var nodes := map["n1" := NodeRecord("n1", "http://n1:6000", Some(1024), None, Some(100.0), Some(1), Some(""))];
    assert "n1" in nodes && !Comparable(nodes["n1"]);
  }

  /** A full node that registered its locked space as null makes available_nodes fail as well. */
  lemma NullLockedFailsAvailableNodes()
    ensures AvailableNodes(map["n" := NodeRecordOf(RegisterRequest(Some("n"), Some("u"), Some(1), Some(1.0), Null, Absent, Absent))])
              == Fail(StatusServerError)
  {
    var nodes := map["n" := NodeRecordOf(RegisterRequest(Some("n"), Some("u"), Some(1), Some(1.0), Null, Absent, Absent))];
    assert "n" in nodes && !Comparable(nodes["n"]);
  }

  /** The test available_nodes evidently means: a missing or null figure counts as 0. */
  predicate HasSpaceDefaulted(n: NodeRecord) {
    n.usedMb.GetOr(0.0) < n.limitMb.GetOr(0) as real || n.lockedMb.GetOr(0.0) > 0.0
  }

  /** available_nodes with missing figures read as 0, as its `.get(..., 0)` calls intend. */
  function AvailableNodesDefaulted(nodes: map<string, NodeRecord>): (r: map<string, NodeRecord>)
    ensures r.Keys <= nodes.Keys
    ensures forall id :: id in nodes ==> (id in r <==> HasSpaceDefaulted(nodes[id]))
    ensures forall id :: id in r ==> r[id] == nodes[id]
  {
    map id | id in nodes && HasSpaceDefaulted(nodes[id]) :: nodes[id]
  }

  /** Wherever the handler does not fail, the corrected filter selects exactly the same nodes. */
  lemma DefaultedAgreesWhereHandlerAnswers(nodes: map<string, NodeRecord>)
    requires AvailableNodes(nodes).Ok?
    ensures AvailableNodes(nodes) == Ok(AvailableNodesDefaulted(nodes))
  {
    var a := AvailableNodes(nodes);
    var d := AvailableNodesDefaulted(nodes);
    forall id | id in nodes
      ensures (id in a.value) == (id in d)
    {
      assert Comparable(nodes[id]);
      assert HasSpace(nodes[id]) == HasSpaceDefaulted(nodes[id]);
    }
    assert a.value.Keys == d.Keys;
  }

  /** all_nodes: every registered record. */
  function AllNodes(nodes: map<string, NodeRecord>): (r: set<NodeRecord>)
    ensures forall id :: id in nodes ==> nodes[id] in r
    ensures forall n :: n in r ==> exists id :: id in nodes && nodes[id] == n
  {
    nodes.Values
  }

  /** Every available node is among all nodes. */
  lemma AvailableAmongAll(nodes: map<string, NodeRecord>)
    requires AvailableNodes(nodes).Ok?
    ensures AvailableNodes(nodes).value.Values <= AllNodes(nodes)
  {
  }

  /** store_file_metadata's validation: file id, filename and a non-empty chunk list are required. */
  predicate MetadataComplete(req: FileMetadataRequest) {
    Given(req.fileId) && Given(req.filename) && req.chunks.Some? && |req.chunks.value| > 0
  }

  /** The record store_file_metadata files: encryption defaults to "none", the key is kept only if sent. */
  function FileRecordOf(req: FileMetadataRequest): FileRecord
    requires MetadataComplete(req)
  {
    FileRecord(req.fileId.value, req.filename.value, req.size, req.owner, req.chunks.value,
               req.createdAt, Some(req.encryption.GetOr("none")), req.agreementId, req.key)
  }

  /** get_file_metadata: the stored record, or 404. */
  function GetFileMetadata(files: map<string, FileRecord>, fileId: string): (r: Outcome<FileRecord>)
    ensures r.Ok? <==> fileId in files
    ensures r.Ok? ==> r.value == files[fileId]
    ensures r.Fail? ==> r.status == StatusNotFound
  {
    if fileId in files then Ok(files[fileId]) else Fail(StatusNotFound)
  }

  /** Which records list_files returns: by owner if given, else by agreement if given, else all. */
  predicate FileListed(f: FileRecord, owner: Option<string>, agreementId: Option<string>) {
    if Given(owner) then f.owner == owner
    else if Given(agreementId) then f.agreementId == agreementId
    else true
  }

  /** list_files. */
  function ListFiles(files: map<string, FileRecord>, owner: Option<string>, agreementId: Option<string>): (r: map<string, FileRecord>)
    ensures r.Keys <= files.Keys
    ensures forall id :: id in r ==> r[id] == files[id]
    ensures forall id :: id in files ==> (id in r <==> FileListed(files[id], owner, agreementId))
    ensures !Given(owner) && !Given(agreementId) ==> r == files
  {
    map id | id in files && FileListed(files[id], owner, agreementId) :: files[id]
  }

  /** The registry of storage nodes, keyed by node id. */
  class NodeRegistry {
    var nodes: map<string, NodeRecord>

    /** Every record is filed under its own, non-empty node id and has a url. */
    ghost predicate Valid()
      reads this
    {
      forall id :: id in nodes ==> nodes[id].nodeId == id && id != "" && nodes[id].url != ""
    }

    constructor ()
      ensures Valid() && nodes == map[]
    {
      nodes := map[];
    }

    /**
     * register: without a node id or url, 400 and nothing changes;
     * otherwise the record is upserted under its node id, so a repeated
     * heartbeat replaces the record and never adds a second one.
     */
    method Register(req: RegisterRequest) returns (r: Outcome<string>)
      requires Valid()
      modifies this
      ensures Valid()
      ensures !(Given(req.nodeId) && Given(req.url)) ==> r == Fail(StatusBadRequest) && nodes == old(nodes)
      ensures Given(req.nodeId) && Given(req.url) ==>
        && r == Ok(req.nodeId.value)
        && nodes == old(nodes)[req.nodeId.value := NodeRecordOf(req)]
        && |nodes| == |old(nodes)| + (if req.nodeId.value in old(nodes) then 0 else 1)
    {
      if !Given(req.nodeId) || !Given(req.url) {
        return Fail(StatusBadRequest);
      }
      var id := req.nodeId.value;
      if id in nodes {
        assert nodes[id := NodeRecordOf(req)].Keys == nodes.Keys;
      }
      nodes := nodes[id := NodeRecordOf(req)];
      return Ok(id);
    }

    /** deregister: 400 without a node id, 404 for an unknown one, otherwise removes exactly that node. */
    method Deregister(nodeId: Option<string>) returns (r: Outcome<string>)
      requires Valid()
      modifies this
      ensures Valid()
      ensures !Given(nodeId) ==> r == Fail(StatusBadRequest)
      ensures Given(nodeId) && nodeId.value !in old(nodes) ==> r == Fail(StatusNotFound)
      ensures r.Fail? ==> nodes == old(nodes)
      ensures r.Ok? <==> Given(nodeId) && nodeId.value in old(nodes)
      ensures r.Ok? ==> r.value == nodeId.value && nodes == old(nodes) - {nodeId.value}
    {
      if !Given(nodeId) {
        return Fail(StatusBadRequest);
      }
      if nodeId.value !in nodes {
        return Fail(StatusNotFound);
      }
      nodes := nodes - {nodeId.value};
      return Ok(nodeId.value);
    }
  }

  /** The file catalog (`file_metadata.json`), keyed by file id. */
  class FileCatalog {
    var files: map<string, FileRecord>

    /** Every record is filed under its own id and has a filename, chunks and an encryption mode. */
    ghost predicate Valid()
      reads this
    {
      forall id :: id in files ==>
        && files[id].fileId == id && id != ""
        && files[id].filename != "" && |files[id].chunks| > 0
        && files[id].encryption.Some?
    }

    constructor ()
      ensures Valid() && files == map[]
    {
      files := map[];
    }

    /** store_file_metadata: 400 and no change for an incomplete body, otherwise an upsert by file id. */
    method StoreFileMetadata(req: FileMetadataRequest) returns (r: Outcome<string>)
      requires Valid()
      modifies this
      ensures Valid()
      ensures !MetadataComplete(req) ==> r == Fail(StatusBadRequest) && files == old(files)
      ensures MetadataComplete(req) ==>
        && r == Ok(req.fileId.value)
        && files == old(files)[req.fileId.value := FileRecordOf(req)]
    {
      if !MetadataComplete(req) {
        return Fail(StatusBadRequest);
      }
      files := files[req.fileId.value := FileRecordOf(req)];
      return Ok(req.fileId.value);
    }

    /** delete_file_metadata: 404 for an unknown file, 403 unless the owner rule allows, else removes only that record. */
    method DeleteFileMetadata(fileId: string, owner: Option<string>) returns (r: Outcome<string>)
      requires Valid()
      modifies this
      ensures Valid()
      ensures fileId !in old(files) ==> r == Fail(StatusNotFound)
      ensures fileId in old(files) && !OwnerMayDelete(old(files)[fileId].owner, owner) ==> r == Fail(StatusForbidden)
      ensures r.Fail? ==> files == old(files)
      ensures r.Ok? <==> fileId in old(files) && OwnerMayDelete(old(files)[fileId].owner, owner)
      ensures r.Ok? ==> r.value == fileId && files == old(files) - {fileId}
    {
      if fileId !in files {
        return Fail(StatusNotFound);
      }
      if files[fileId].owner != Some(Anonymous) && files[fileId].owner != owner {
        return Fail(StatusForbidden);
      }
      files := files - {fileId};
      return Ok(fileId);
    }
  }
}
