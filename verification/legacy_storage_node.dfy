/**
 * The earlier storage node: one directory of chunks and a metadata file, no
 * locked pool, no reservations and no agreement headers. Reads are open to
 * anyone; deletes follow the shared owner rule.
 */
module LegacyStorageNode {
  import opened Common
  import opened Pools

  /** One entry of this node's chunk metadata file. */
  datatype ChunkMeta = ChunkMeta(
    chunkId: string,
    fileId: string,
    owner: string,
    sizeBytes: nat,
    createdAt: real,
    encryption: string)

  /** The headers of a store request; None is a header that was not sent. */
  datatype StoreHeaders = StoreHeaders(owner: Option<string>, fileId: Option<string>, encryption: Option<string>)

  /** The figures the status route reports, in bytes instead of rounded MB. */
  datatype NodeStatus = NodeStatus(nodeId: string, usedBytes: nat, limitMb: int, pricePerMb: int, walletAddress: string)

  /** The metadata entry store_chunk writes, with the header defaults of the handler. */
  function NewChunkMeta(chunkId: string, data: Bytes, h: StoreHeaders, now: real): ChunkMeta {
    ChunkMeta(chunkId, h.fileId.GetOr(""), h.owner.GetOr(Anonymous), |data|, now, h.encryption.GetOr("none"))
  }

  /** The entries list_chunks returns: by owner if given, else by file id if given, else all. */
  predicate Listed(m: ChunkMeta, owner: Option<string>, fileId: Option<string>) {
    if Given(owner) then m.owner == owner.value
    else if Given(fileId) then m.fileId == fileId.value
    else true
  }

  class ChunkStore {
    const nodeId: string
    const limitMb: int
    const pricePerMb: int
    const walletAddress: string
    /** The `./storage` directory. */
    var storage: Pool
    /** The contents of `chunks_metadata.json`. */
    var metadata: map<string, ChunkMeta>

    /** Every entry is filed under its own chunk id and names a stored chunk. */
    ghost predicate Valid()
      reads this
    {
      && (forall id :: id in metadata ==> metadata[id].chunkId == id)
      && metadata.Keys <= storage.Keys
    }

    constructor (nodeId: string, limitMb: int, pricePerMb: int, walletAddress: string)
      ensures Valid()
      ensures this.nodeId == nodeId && this.limitMb == limitMb
      ensures this.pricePerMb == pricePerMb && this.walletAddress == walletAddress
      ensures storage == map[] && metadata == map[]
    {
      this.nodeId := nodeId;
      this.limitMb := limitMb;
      this.pricePerMb := pricePerMb;
      this.walletAddress := walletAddress;
      storage := map[];
      metadata := map[];
    }

    /** store_chunk's admission test: the directory is at or over the limit. */
    ghost predicate Full()
      reads this
    {
      PoolBytes(storage) >= limitMb * MiB
    }

    /**
     * store_chunk: unless the directory is already full, writes the bytes
     * under the caller's chunk id and upserts the metadata entry. The size
     * of the incoming chunk plays no part in admission.
     */
    method StoreChunk(chunkId: string, data: Bytes, h: StoreHeaders, now: real) returns (r: Outcome<string>)
      requires Valid()
      modifies this
      ensures Valid()
      ensures old(Full()) ==> r == Fail(StatusInsufficientStorage) && storage == old(storage) && metadata == old(metadata)
      ensures !old(Full()) ==>
        && r == Ok(nodeId)
        && storage == old(storage)[chunkId := data]
        && metadata == old(metadata)[chunkId := NewChunkMeta(chunkId, data, h, now)]
        && PoolBytes(storage) < limitMb * MiB + |data|
    {
      var used := TotalBytes(storage);
      if used >= limitMb * MiB {
        return Fail(StatusInsufficientStorage);
      }
      PoolBytesUpdate(storage, chunkId, data);
      storage := storage[chunkId := data];
      metadata := metadata[chunkId := NewChunkMeta(chunkId, data, h, now)];
      return Ok(nodeId);
    }

    /** retrieve_chunk: the stored bytes, to anyone, or 404. */
    method RetrieveChunk(chunkId: string) returns (r: Outcome<Bytes>)
      ensures chunkId in storage <==> r.Ok?
      ensures r.Ok? ==> r.value == storage[chunkId]
      ensures r.Fail? ==> r.status == StatusNotFound
    {
      if chunkId in storage {
        return Ok(storage[chunkId]);
      }
      return Fail(StatusNotFound);
    }

    /**
     * delete_chunk: 404 without the bytes, 404 (bytes kept) without a
     * metadata entry, 403 unless the owner rule allows the caller; otherwise
     * removes that one file and that one entry.
     */
    method DeleteChunk(chunkId: string, owner: Option<string>) returns (r: Outcome<()>)
      requires Valid()
      modifies this
      ensures Valid()
      ensures chunkId !in old(storage) ==> r == Fail(StatusNotFound)
      ensures chunkId in old(storage) && chunkId !in old(metadata) ==> r == Fail(StatusNotFound)
      ensures chunkId in old(metadata) && !OwnerMayDelete(Some(old(metadata)[chunkId].owner), owner) ==>
        r == Fail(StatusForbidden)
      ensures r.Fail? ==> storage == old(storage) && metadata == old(metadata)
      ensures r.Ok? <==> chunkId in old(metadata) && OwnerMayDelete(Some(old(metadata)[chunkId].owner), owner)
      ensures r.Ok? ==> storage == old(storage) - {chunkId} && metadata == old(metadata) - {chunkId}
      ensures r.Ok? ==> PoolBytes(storage) == PoolBytes(old(storage)) - |old(storage)[chunkId]|
    {
      if chunkId !in storage {
        return Fail(StatusNotFound);
      }
      if chunkId !in metadata {
        return Fail(StatusNotFound);
      }
      var stored := metadata[chunkId].owner;
      if stored != Anonymous && Some(stored) != owner {
        return Fail(StatusForbidden);
      }
      PoolBytesRemove(storage, chunkId);
      storage := storage - {chunkId};
      metadata := metadata - {chunkId};
      return Ok(());
    }

    /** list_chunks: the metadata entries selected by owner, else by file id, else all of them. */
    function ListChunks(owner: Option<string>, fileId: Option<string>): (r: map<string, ChunkMeta>)
      reads this
      ensures r.Keys <= metadata.Keys
      ensures forall id :: id in r ==> r[id] == metadata[id]
      ensures forall id :: id in metadata ==> (id in r <==> Listed(metadata[id], owner, fileId))
      ensures !Given(owner) && !Given(fileId) ==> r == metadata
    {
      map id | id in metadata && Listed(metadata[id], owner, fileId) :: metadata[id]
    }

    /** status: the accumulator loop over the directory, and the node's constants. */
    method Status() returns (s: NodeStatus)
      ensures s.usedBytes == PoolBytes(storage)
      ensures s.nodeId == nodeId && s.limitMb == limitMb && s.pricePerMb == pricePerMb && s.walletAddress == walletAddress
    {
      var used := TotalBytes(storage);
      s := NodeStatus(nodeId, used, limitMb, pricePerMb, walletAddress);
    }
  }
}
