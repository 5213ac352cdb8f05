/**
 * The current storage node: chunk bytes in two directories, the open pool
 * (first come, first served) and the locked pool (space reserved for
 * rental, and chunks stored under an agreement), plus a metadata file keyed
 * by chunk id. Admission, authorization and capacity figures follow the
 * node's route handlers; every MB comparison of the handlers is stated
 * exactly on bytes (`x / MiB < y` becomes `x < y * MiB`).
 */
module StorageNode {
  import opened Common
  import opened Pools

  /** One entry of the node's chunk metadata file. */
  datatype ChunkMeta = ChunkMeta(
    chunkId: string,
    fileId: string,
    owner: string,
    sizeBytes: nat,
    createdAt: real,
    encryption: string,
    agreementId: string,
    inLockedStorage: bool)

  /** The headers of a store request; None is a header that was not sent. */
  datatype StoreHeaders = StoreHeaders(
    owner: Option<string>,
    fileId: Option<string>,
    encryption: Option<string>,
    agreementId: Option<string>)

  /** The figures the status route reports, in bytes instead of rounded MB. */
  datatype NodeStatus = NodeStatus(
    nodeId: string,
    usedBytes: nat,
    lockedBytes: nat,
    totalUsedBytes: nat,
    limitMb: int,
    availableBytes: int,
    pricePerMb: int,
    walletAddress: string)

  /** Which metadata entries list_chunks returns, in the order its query arguments are tried. */
  datatype ChunkQuery = ByOwner(owner: string) | ByFile(fileId: string) | ByAgreement(agreementId: string) | OpenOnly

  /** The name of the reservation file a lock of `sizeMb` creates in the locked pool. */
  function ReservationName(nodeId: string, sizeMb: int): string {
    nodeId + "_" + Decimal(sizeMb) + "MB.space"
  }

  /** The metadata entry store_chunk writes, with the header defaults of the handler. */
  function NewChunkMeta(chunkId: string, data: Bytes, h: StoreHeaders, now: real): ChunkMeta {
    ChunkMeta(chunkId, h.fileId.GetOr(""), h.owner.GetOr(Anonymous), |data|, now,
              h.encryption.GetOr("none"), h.agreementId.GetOr(""), Given(h.agreementId))
  }

  /**
   * Who may read a chunk marked as locked: some owner or agreement header
   * must be sent, and an owner header must name the stored owner. The value
   * of the agreement header is never compared with anything.
   */
  predicate ReadAuthorized(m: ChunkMeta, owner: Option<string>, agreementId: Option<string>) {
    && (Given(owner) || Given(agreementId))
    && (Given(owner) ==> owner.value == m.owner)
  }

  /**
   * Who may delete a chunk: for a locked chunk some header must be sent and
   * every header sent must match the stored owner or agreement; for an open
   * chunk the shared owner rule applies.
   */
  predicate DeleteAuthorized(m: ChunkMeta, owner: Option<string>, agreementId: Option<string>) {
    if m.inLockedStorage then
      && (Given(owner) || Given(agreementId))
      && (Given(owner) ==> owner.value == m.owner)
      && (Given(agreementId) ==> agreementId.value == m.agreementId)
    else
      OwnerMayDelete(Some(m.owner), owner)
  }

  /** The query list_chunks answers: owner first, then file id, then agreement id. */
  function QueryOf(owner: Option<string>, fileId: Option<string>, agreementId: Option<string>): ChunkQuery {
    if Given(owner) then ByOwner(owner.value)
    else if Given(fileId) then ByFile(fileId.value)
    else if Given(agreementId) then ByAgreement(agreementId.value)
    else OpenOnly
  }

  predicate Matches(m: ChunkMeta, q: ChunkQuery) {
    match q
    case ByOwner(o) => m.owner == o
    case ByFile(f) => m.fileId == f
    case ByAgreement(a) => m.agreementId == a
    case OpenOnly => !m.inLockedStorage
  }

  /** Deleting is never easier than reading: whoever may delete a locked chunk may read it. */
  lemma DeleteImpliesReadOnLocked(m: ChunkMeta, owner: Option<string>, agreementId: Option<string>)
    requires m.inLockedStorage && DeleteAuthorized(m, owner, agreementId)
    ensures ReadAuthorized(m, owner, agreementId)
  {
  }

  /** Any non-empty agreement header unlocks every locked chunk for reading, whatever its agreement. */
  lemma AnyAgreementReadsLockedChunk(m: ChunkMeta, agreementId: string)
    requires agreementId != ""
    ensures ReadAuthorized(m, None, Some(agreementId))
  {
  }

  class ChunkStore {
    const nodeId: string
    const limitMb: int
    const pricePerMb: int
    const walletAddress: string
    /** The `./storage` directory. */
    var open: Pool
    /** The `./locked_storage` directory: reservation files and chunks stored under an agreement. */
    var locked: Pool
    /** The contents of `chunks_metadata.json`. */
    var metadata: map<string, ChunkMeta>

    /**
     * Every entry is filed under its own chunk id, is marked locked exactly
     * when it carries an agreement, and names a chunk that is in some pool.
     */
    ghost predicate Valid()
      reads this
    {
      && (forall id :: id in metadata ==> metadata[id].chunkId == id)
      && (forall id :: id in metadata ==> (metadata[id].inLockedStorage <==> metadata[id].agreementId != ""))
      && metadata.Keys <= open.Keys + locked.Keys
    }

    constructor (nodeId: string, limitMb: int, pricePerMb: int, walletAddress: string)
      ensures Valid()
      ensures this.nodeId == nodeId && this.limitMb == limitMb
      ensures this.pricePerMb == pricePerMb && this.walletAddress == walletAddress
      ensures open == map[] && locked == map[] && metadata == map[]
    {
      this.nodeId := nodeId;
      this.limitMb := limitMb;
      this.pricePerMb := pricePerMb;
      this.walletAddress := walletAddress;
      open := map[];
      locked := map[];
      metadata := map[];
    }

    /** store_chunk's admission test: the open pool alone is at or over the limit. */
    ghost predicate Full()
      reads this
    {
      PoolBytes(open) >= limitMb * MiB
    }

    /** lock_storage's admission test: limit minus open bytes minus locked bytes covers the request. */
    ghost predicate HasRoomFor(sizeMb: int)
      reads this
    {
      limitMb * MiB - PoolBytes(open) - PoolBytes(locked) >= sizeMb * MiB
    }

    /**
     * lock_storage: reserves `sizeMb` MiB by writing a zero-filled
     * reservation file into the locked pool. The file is named by node and
     * size only, so locking the same size again overwrites it. The file is
     * written before the ledger and the coordinator are told; when either
     * call raises, the handler answers 500 and the reservation stays.
     */
    method LockStorage(sizeMb: int, ledgerRaised: bool, coordinatorRaised: bool) returns (r: Outcome<string>)
      requires Valid()
      modifies this
      ensures Valid()
      ensures open == old(open) && metadata == old(metadata)
      ensures sizeMb <= 0 ==> r == Fail(StatusBadRequest) && locked == old(locked)
      ensures sizeMb > 0 && !old(HasRoomFor(sizeMb)) ==> r == Fail(StatusBadRequest) && locked == old(locked)
      ensures sizeMb > 0 && old(HasRoomFor(sizeMb)) ==>
        && locked == old(locked)[ReservationName(nodeId, sizeMb) := Zeros(sizeMb * MiB)]
        && r == (if ledgerRaised || coordinatorRaised then Fail(StatusServerError) else Ok(ReservationName(nodeId, sizeMb)))
        && PoolBytes(open) + PoolBytes(locked) <= limitMb * MiB
      ensures sizeMb > 0 && old(HasRoomFor(sizeMb)) && ReservationName(nodeId, sizeMb) !in old(locked) ==>
        PoolBytes(locked) == PoolBytes(old(locked)) + sizeMb * MiB
    {
      if sizeMb <= 0 {
        return Fail(StatusBadRequest);
      }
      var used := TotalBytes(open);
      var lockedBytes := TotalBytes(locked);
      if limitMb * MiB - used - lockedBytes < sizeMb * MiB {
        return Fail(StatusBadRequest);
      }
      var name := ReservationName(nodeId, sizeMb);
      PoolBytesUpdate(locked, name, Zeros(sizeMb * MiB));
      locked := locked[name := Zeros(sizeMb * MiB)];
      if ledgerRaised || coordinatorRaised {
        return Fail(StatusServerError);
      }
      return Ok(name);
    }

    /**
     * store_chunk: unless the open pool is already full, writes the bytes
     * under the caller's chunk id into the locked pool when an agreement
     * header is sent and into the open pool otherwise, and upserts the
     * metadata entry. The size of the incoming chunk and the locked pool
     * play no part in admission, so the open pool can end up over its limit,
     * by less than one chunk.
     */
    method StoreChunk(chunkId: string, data: Bytes, h: StoreHeaders, now: real) returns (r: Outcome<string>)
      requires Valid()
      modifies this
      ensures Valid()
      ensures old(Full()) ==>
        r == Fail(StatusInsufficientStorage) && open == old(open) && locked == old(locked) && metadata == old(metadata)
      ensures !old(Full()) ==>
        && r == Ok(nodeId)
        && metadata == old(metadata)[chunkId := NewChunkMeta(chunkId, data, h, now)]
        && (if Given(h.agreementId)
            then locked == old(locked)[chunkId := data] && open == old(open)
            else open == old(open)[chunkId := data] && locked == old(locked))
        && PoolBytes(open) < limitMb * MiB + |data|
    {
      var used := TotalBytes(open);
      if used >= limitMb * MiB {
        return Fail(StatusInsufficientStorage);
      }
      if Given(h.agreementId) {
        locked := locked[chunkId := data];
      } else {
        PoolBytesUpdate(open, chunkId, data);
        open := open[chunkId := data];
      }
      metadata := metadata[chunkId := NewChunkMeta(chunkId, data, h, now)];
      return Ok(nodeId);
    }

    /**
     * retrieve_chunk: looks in the open pool, then in the locked pool. A
     * chunk whose metadata marks it locked needs ReadAuthorized headers;
     * any other chunk (also one without metadata) is returned to anyone.
     */
    method RetrieveChunk(chunkId: string, owner: Option<string>, agreementId: Option<string>) returns (r: Outcome<Bytes>)
      ensures chunkId !in open && chunkId !in locked ==> r == Fail(StatusNotFound)
      ensures r.Ok? ==> r.value == (if chunkId in open then open[chunkId] else locked[chunkId])
      ensures chunkId in open || chunkId in locked ==>
        (r.Ok? <==> (chunkId in metadata && metadata[chunkId].inLockedStorage ==> ReadAuthorized(metadata[chunkId], owner, agreementId)))
      ensures r.Fail? ==> r.status == StatusNotFound || r.status == StatusForbidden
      ensures (chunkId in open || chunkId in locked) && r.Fail? ==> r == Fail(StatusForbidden)
    {
      if chunkId !in open && chunkId !in locked {
        return Fail(StatusNotFound);
      }
      if chunkId in metadata && metadata[chunkId].inLockedStorage {
        if !Given(owner) && !Given(agreementId) {
          return Fail(StatusForbidden);
        }
        if Given(owner) && metadata[chunkId].owner != owner.value {
          return Fail(StatusForbidden);
        }
      }
      if chunkId in open {
        return Ok(open[chunkId]);
      }
      return Ok(locked[chunkId]);
    }

    /**
     * delete_chunk: finds the bytes (open pool first), then requires a
     * metadata entry and DeleteAuthorized headers; on success removes that
     * one file and that one metadata entry.
     */
    method DeleteChunk(chunkId: string, owner: Option<string>, agreementId: Option<string>) returns (r: Outcome<()>)
      requires Valid()
      modifies this
      ensures Valid()
      ensures chunkId !in old(open) && chunkId !in old(locked) ==> r == Fail(StatusNotFound)
      ensures (chunkId in old(open) || chunkId in old(locked)) && chunkId !in old(metadata) ==> r == Fail(StatusNotFound)
      ensures chunkId in old(metadata) && !DeleteAuthorized(old(metadata)[chunkId], owner, agreementId) ==>
        r == Fail(StatusForbidden)
      ensures r.Fail? ==> open == old(open) && locked == old(locked) && metadata == old(metadata)
      ensures r.Ok? <==> chunkId in old(metadata) && DeleteAuthorized(old(metadata)[chunkId], owner, agreementId)
      ensures r.Ok? ==>
        && metadata == old(metadata) - {chunkId}
        && (if chunkId in old(open)
            then open == old(open) - {chunkId} && locked == old(locked)
            else locked == old(locked) - {chunkId} && open == old(open))
    {
      if chunkId !in open && chunkId !in locked {
        return Fail(StatusNotFound);
      }
      if chunkId !in metadata {
        return Fail(StatusNotFound);
      }
      var m := metadata[chunkId];
      if m.inLockedStorage {
        if !Given(owner) && !Given(agreementId) {
          return Fail(StatusForbidden);
        }
        if (Given(owner) && m.owner != owner.value) || (Given(agreementId) && m.agreementId != agreementId.value) {
          return Fail(StatusForbidden);
        }
      } else if m.owner != Anonymous && Some(m.owner) != owner {
        return Fail(StatusForbidden);
      }
      if chunkId in open {
        open := open - {chunkId};
      } else {
        locked := locked - {chunkId};
      }
      metadata := metadata - {chunkId};
      return Ok(());
    }

    /**
     * list_chunks: the metadata entries the query selects. Without a query
     * only chunks outside the locked pool are listed; with an owner, file or
     * agreement query, locked chunks are listed like any other.
     */
    function ListChunks(owner: Option<string>, fileId: Option<string>, agreementId: Option<string>): (r: map<string, ChunkMeta>)
      reads this
      ensures r.Keys <= metadata.Keys
      ensures forall id :: id in r ==> r[id] == metadata[id]
      ensures forall id :: id in metadata ==> (id in r <==> Matches(metadata[id], QueryOf(owner, fileId, agreementId)))
    {
      var q := QueryOf(owner, fileId, agreementId);
      map id | id in metadata && Matches(metadata[id], q) :: metadata[id]
    }

    /**
     * status: the two accumulator loops and the figures derived from them.
     * The available figure is the one lock_storage compares against.
     */
    method Status() returns (s: NodeStatus)
      ensures s.usedBytes == PoolBytes(open) && s.lockedBytes == PoolBytes(locked)
      ensures s.totalUsedBytes == s.usedBytes + s.lockedBytes
      ensures s.availableBytes == limitMb * MiB - s.totalUsedBytes
      ensures s.nodeId == nodeId && s.limitMb == limitMb && s.pricePerMb == pricePerMb && s.walletAddress == walletAddress
      ensures forall size :: HasRoomFor(size) <==> s.availableBytes >= size * MiB
    {
      var lockedBytes := TotalBytes(locked);
      var used := TotalBytes(open);
      s := NodeStatus(nodeId, used, lockedBytes, used + lockedBytes, limitMb,
                      limitMb * MiB - used - lockedBytes, pricePerMb, walletAddress);
    }
  }

  /**
   * A capacity scenario: on an empty node with a 100 MB
   * limit, a 100 MB reservation succeeds, an open-pool store still succeeds
   * afterwards (the open pool is admitted on its own usage), and a further
   * 1 MB reservation is refused.
   */
  method ReservationScenario(chunk: Bytes)
  {
    var node := new ChunkStore("n1", 100, 1, "");
    PoolBytesEmpty();
    var lock := node.LockStorage(100, false, false);
    assert lock == Ok(ReservationName("n1", 100));
    var stored := node.StoreChunk("c1", chunk, StoreHeaders(Some("alice"), None, None, None), 0.0);
    assert stored.Ok?;
    PoolBytesUpdate(map[], "c1", chunk);
    assert PoolBytes(node.open) == |chunk|;
    var again := node.LockStorage(1, false, false);
    assert again == Fail(StatusBadRequest);
  }
}
