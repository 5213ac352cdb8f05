/**
 * The JSON records that travel between the services: where a chunk was put,
 * a file's catalog record, the body of a store-file-metadata request, and a
 * storage node as the current coordinator registers it. A JSON key that a
 * body lacks or holds null is None, except for the keys whose code tells a
 * missing key and a null apart (a `JsonField`).
 */
module Records {
  import opened Common

  /** One element of a file record's `chunks` list: where one chunk of the file was put. */
  datatype ChunkPlacement = ChunkPlacement(
    chunkId: string,
    nodeId: string,
    nodeUrl: string,
    size: nat,
    index: int,
    encryption: string,
    agreementId: Option<string>)

  /**
   * A file record as a coordinator keeps it and a client reads it back.
   * The key travels base64-encoded; the encoding is not modelled, so the
   * record holds the key bytes.
   */
  datatype FileRecord = FileRecord(
    fileId: string,
    filename: string,
    size: Option<int>,
    owner: Option<string>,
    chunks: seq<ChunkPlacement>,
    createdAt: Option<real>,
    encryption: Option<string>,
    agreementId: Option<string>,
    key: Option<Bytes>)

  /** The JSON body a client posts to store_file_metadata. */
  datatype FileMetadataRequest = FileMetadataRequest(
    fileId: Option<string>,
    filename: Option<string>,
    size: Option<int>,
    owner: Option<string>,
    chunks: Option<seq<ChunkPlacement>>,
    createdAt: Option<real>,
    encryption: Option<string>,
    agreementId: Option<string>,
    key: Option<Bytes>)

  /** The JSON body of a node's register heartbeat. */
  datatype RegisterRequest = RegisterRequest(
    nodeId: Option<string>,
    url: Option<string>,
    limitMb: Option<int>,
    usedMb: Option<real>,
    lockedMb: JsonField<real>,
    pricePerMb: JsonField<int>,
    walletAddress: JsonField<string>)

  /**
   * A storage node as the current coordinator registers it. limit_mb and
   * used_mb are stored as sent (None when the heartbeat left them out or
   * sent null); locked_mb, price_per_mb and wallet_address carry their
   * defaults when left out, and None when sent as null.
   */
  datatype NodeRecord = NodeRecord(
    nodeId: string,
    url: string,
    limitMb: Option<int>,
    usedMb: Option<real>,
    lockedMb: Option<real>,
    pricePerMb: Option<int>,
    walletAddress: Option<string>)
}
