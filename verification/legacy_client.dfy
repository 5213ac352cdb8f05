/**
 * The earlier client service: open storage only. Upload spreads the chunks
 * round-robin and keeps a generated key in the file metadata; download
 * decrypts only when the record carries that key; delete removes the
 * chunks from the nodes but leaves the catalog entry in place.
 *
 * The chunk loop, the store and retrieve requests and the download's
 * write loop are the ones of the current client.
 */
module LegacyClient {
  import opened Common
  import opened Records
  import opened Chunking
  import opened Client
  import LegacyCoordinator

  /** The multipart form of an upload; None is a field that was not sent. */
  datatype LegacyUploadForm = LegacyUploadForm(file: Option<FilePart>, owner: Option<string>, encryption: Option<string>)

  /**
   * What upload_file learns from outside before the chunk loop: the new
   * file id, the coordinator's available_nodes reply, a freshly generated
   * key and the clock.
   */
  datatype LegacyUploadEnv = LegacyUploadEnv(
    fileId: string,
    available: Outcome<seq<LegacyCoordinator.LegacyNodeRecord>>,
    generatedKey: Bytes,
    now: real)

  function LegacyNodeUrls(nodes: seq<LegacyCoordinator.LegacyNodeRecord>): seq<string> {
    seq(|nodes|, i requires 0 <= i < |nodes| => nodes[i].url)
  }

  /** The same environment as the current client sees it on the open path. */
  function AsUploadEnv(env: LegacyUploadEnv): UploadEnv {
    UploadEnv(env.fileId, Fail(StatusServerError), [], false, None, env.generatedKey, env.now)
  }

  /**
   * The part of upload_file before the chunk loop: 400 without a named
   * file part, 500 when available_nodes failed, 503 when it is empty;
   * otherwise round-robin over the available nodes, with a generated key
   * exactly when the encryption mode is "aes".
   */
  function Prepare(form: LegacyUploadForm, env: LegacyUploadEnv): (r: Outcome<Prepared>)
    ensures !(form.file.Some? && form.file.value.filename != "") ==> r == Fail(StatusBadRequest)
    ensures form.file.Some? && form.file.value.filename != "" && env.available.Fail? ==> r == Fail(StatusServerError)
    ensures form.file.Some? && form.file.value.filename != "" && env.available == Ok([]) ==> r == Fail(StatusUnavailable)
    ensures form.file.Some? && form.file.value.filename != "" && env.available.Ok? && env.available.value != [] ==> r.Ok?
    ensures r.Fail? ==> r.status in {StatusBadRequest, StatusServerError, StatusUnavailable}
    ensures r.Ok? ==>
      && form.file.Some? && env.available.Ok?
      && r.value.filename == form.file.value.filename && r.value.data == form.file.value.data
      && r.value.encryption == form.encryption.GetOr("aes")
      && (r.value.key.Key? <==> r.value.encryption == "aes")
      && (r.value.key.Key? ==> r.value.key.bytes == env.generatedKey)
      && r.value.plan == UploadPlan(LegacyNodeUrls(env.available.value), false, form.owner.GetOr(Anonymous), env.fileId,
                                    EncryptWith(r.value.encryption, r.value.key), None)
      && |r.value.plan.nodeUrls| > 0
  {
    if form.file.None? || form.file.value.filename == "" then Fail(StatusBadRequest)
    else if env.available.Fail? then Fail(StatusServerError)
    else if env.available.value == [] then Fail(StatusUnavailable)
    else
      var encryption := form.encryption.GetOr("aes");
      var key := if encryption == "aes" then Key(env.generatedKey) else NoKey;
      Ok(Prepared(form.file.value.filename, form.file.value.data, encryption, key,
                  UploadPlan(LegacyNodeUrls(env.available.value), false, form.owner.GetOr(Anonymous), env.fileId,
                             EncryptWith(encryption, key), None)))
  }

  /**
   * upload_file once the form and the node list passed: split the file,
   * send every chunk in turn until one is refused, and post the metadata
   * once every chunk was stored.
   */
  method SendAndPost(p: Prepared, env: LegacyUploadEnv, encrypt: (nat, Bytes, Bytes) -> Bytes, hash: Bytes -> string,
                     store: StoreCall -> Option<string>, post: FileMetadataRequest -> bool)
    returns (r: Outcome<UploadReceipt>, chunks: seq<Bytes>, sent: seq<StoreCall>, posted: Option<FileMetadataRequest>)
    requires |p.plan.nodeUrls| > 0
    ensures Concat(chunks) == p.data
    ensures forall i :: 0 <= i < |chunks| ==> 0 < |chunks[i]| <= ChunkSize
    ensures forall i :: 0 <= i < |chunks| - 1 ==> |chunks[i]| == ChunkSize
    ensures |p.data| == 0 ==> chunks == []
    ensures |sent| <= |chunks|
    ensures forall j :: 0 <= j < |sent| ==> sent[j] == StoreCallFor(p.plan, j, chunks[j], encrypt, hash)
    ensures !AllStored(p.plan, chunks, encrypt, hash, store) ==>
      && r == Fail(StatusServerError) && posted.None? && |sent| > 0
      && store(sent[|sent| - 1]).None?
      && (forall j :: 0 <= j < |sent| - 1 ==> store(sent[j]).Some?)
    ensures AllStored(p.plan, chunks, encrypt, hash, store) ==>
      && sent == StoreCalls(p.plan, chunks, encrypt, hash)
      && posted == Some(PostedMetadata(p, AsUploadEnv(env), Entries(p.plan, chunks, encrypt, hash, store)))
      && (r.Ok? <==> post(posted.value))
      && (r.Ok? ==> r.value == UploadReceipt(env.fileId, |p.data|, |chunks|))
      && (r.Fail? ==> r.status == StatusServerError)
  {
    posted := None;
    chunks := SplitIntoChunks(p.data, ChunkSize);
    ConcatNothing(chunks);
    var outcome;
    outcome, sent := SendChunks(p.plan, chunks, encrypt, hash, store);
    if outcome.ChunkFailed? {
      r := Fail(StatusServerError);
      return;
    }
    var m := PostedMetadata(p, AsUploadEnv(env), outcome.entries);
    posted := Some(m);
    if !post(m) {
      r := Fail(StatusServerError);
      return;
    }
    r := Ok(UploadReceipt(env.fileId, |p.data|, |chunks|));
  }

  /**
   * upload_file: as the current client's open path. The metadata posted
   * carries the key exactly when one was generated (and is non-empty).
   */
  method UploadFile(form: LegacyUploadForm, env: LegacyUploadEnv, encrypt: (nat, Bytes, Bytes) -> Bytes, hash: Bytes -> string,
                    store: StoreCall -> Option<string>, post: FileMetadataRequest -> bool)
    returns (r: Outcome<UploadReceipt>, chunks: seq<Bytes>, sent: seq<StoreCall>, posted: Option<FileMetadataRequest>)
    ensures Prepare(form, env).Fail? ==> r == Fail(Prepare(form, env).status) && sent == [] && posted.None?
    ensures Prepare(form, env).Ok? ==>
      var p := Prepare(form, env).value;
      && Concat(chunks) == p.data
      && (forall i :: 0 <= i < |chunks| ==> 0 < |chunks[i]| <= ChunkSize)
      && (forall i :: 0 <= i < |chunks| - 1 ==> |chunks[i]| == ChunkSize)
      && (|p.data| == 0 ==> chunks == [])
      && |sent| <= |chunks|
      && (forall j :: 0 <= j < |sent| ==> sent[j] == StoreCallFor(p.plan, j, chunks[j], encrypt, hash))
      && (!AllStored(p.plan, chunks, encrypt, hash, store) ==>
            && r == Fail(StatusServerError) && posted.None? && |sent| > 0
            && store(sent[|sent| - 1]).None?
            && (forall j :: 0 <= j < |sent| - 1 ==> store(sent[j]).Some?))
      && (AllStored(p.plan, chunks, encrypt, hash, store) ==>
            && sent == StoreCalls(p.plan, chunks, encrypt, hash)
            && posted == Some(PostedMetadata(p, AsUploadEnv(env), Entries(p.plan, chunks, encrypt, hash, store)))
            && (posted.value.key.Some? <==> p.encryption == "aes" && |env.generatedKey| > 0)
            && (r.Ok? <==> post(posted.value))
            && (r.Ok? ==> r.value == UploadReceipt(env.fileId, |p.data|, |chunks|))
            && (r.Fail? ==> r.status == StatusServerError))
  {
    var prep := Prepare(form, env);
    if prep.Fail? {
      r, chunks, sent, posted := Fail(prep.status), [], [], None;
      return;
    }
    r, chunks, sent, posted := SendAndPost(prep.value, env, encrypt, hash, store, post);
  }

  /** download_file's decrypt condition: mode "aes" and a `key` in the record. */
  function LegacyDecryptWith(rec: FileRecord): Option<Bytes> {
    if rec.encryption == Some("aes") && rec.key.Some? then rec.key else None
  }

  /**
   * download_file: 404 for an unknown file, otherwise the chunks in index
   * order, fetched without headers and decrypted under the condition above.
   */
  method DownloadFile(reply: Option<FileRecord>, fetch: FetchCall -> Option<Bytes>, decrypt: (Bytes, Bytes) -> Option<Bytes>)
    returns (r: Outcome<Bytes>)
    ensures reply.None? ==> r == Fail(StatusNotFound)
    ensures reply.Some? ==>
      r == Assemble(FetchCalls(SortByIndex(reply.value.chunks), None, None), LegacyDecryptWith(reply.value), fetch, decrypt)
    ensures r.Fail? ==> r.status in {StatusNotFound, StatusServerError}
  {
    if reply.None? {
      return Fail(StatusNotFound);
    }
    r := FetchAll(FetchCalls(SortByIndex(reply.value.chunks), None, None), LegacyDecryptWith(reply.value), fetch, decrypt);
  }

  /** The record the earlier coordinator files never leads its download to decrypt. */
  lemma CatalogedRecordNeverDecrypted(req: FileMetadataRequest)
    requires LegacyCoordinator.MetadataComplete(req)
    ensures LegacyDecryptWith(LegacyCoordinator.FileRecordOf(req)) == None
  {
  }

  /** When every encryption is longer than its chunk, so is everything joined. */
  lemma {:induction false} ConcatLonger(short: seq<Bytes>, long: seq<Bytes>)
    requires |short| == |long| > 0
    requires forall i :: 0 <= i < |short| ==> |long[i]| > |short[i]|
    ensures |Concat(long)| > |Concat(short)|
    decreases |short|
  {
    if |short| > 1 {
      ConcatLonger(short[1..], long[1..]);
    }
  }

  /** Encryption lengthens every chunk: AES-CBC padding always adds at least one byte. */
  ghost predicate EncryptionLengthens(encrypt: (nat, Bytes, Bytes) -> Bytes) {
    forall i, c, k :: |encrypt(i, c, k)| > |c|
  }

  /** The bytes sent for each chunk, in order. */
  function Payloads(plan: UploadPlan, chunks: seq<Bytes>, encrypt: (nat, Bytes, Bytes) -> Bytes): seq<Bytes> {
    seq(|chunks|, i requires 0 <= i < |chunks| => Payload(plan, i, chunks[i], encrypt))
  }

  /**
   * An AES upload through the earlier client and coordinator downloads as
   * the concatenated ciphertexts, never as the file: the coordinator drops
   * the key the upload posted, so the download does not decrypt.
   */
  lemma AesUploadDownloadsCiphertext(p: Prepared, env: LegacyUploadEnv, chunks: seq<Bytes>,
                                     encrypt: (nat, Bytes, Bytes) -> Bytes, hash: Bytes -> string,
                                     store: StoreCall -> Option<string>, fetch: FetchCall -> Option<Bytes>,
                                     decrypt: (Bytes, Bytes) -> Option<Bytes>)
    requires |p.plan.nodeUrls| > 0 && p.plan.agreementId == None
    requires p.encryption == "aes" && KeyTruthy(p.key) && p.plan.encryptWith == EncryptWith(p.encryption, p.key)
    requires p.filename != "" && env.fileId != "" && |chunks| > 0 && Concat(chunks) == p.data
    requires AllStored(p.plan, chunks, encrypt, hash, store)
    requires ServesStored(p.plan, chunks, encrypt, hash, fetch)
    requires EncryptionLengthens(encrypt)
    ensures var rec := LegacyCoordinator.FileRecordOf(PostedMetadata(p, AsUploadEnv(env), Entries(p.plan, chunks, encrypt, hash, store)));
      var got := Assemble(FetchCalls(SortByIndex(rec.chunks), None, None), LegacyDecryptWith(rec), fetch, decrypt);
      && got == Ok(Concat(Payloads(p.plan, chunks, encrypt)))
      && got != Ok(p.data)
  {
    var es := Entries(p.plan, chunks, encrypt, hash, store);
    var rec := LegacyCoordinator.FileRecordOf(PostedMetadata(p, AsUploadEnv(env), es));
    assert LegacyDecryptWith(rec) == None;
    PositionalIndexSorted(es);
    var calls := FetchCalls(SortByIndex(rec.chunks), None, None);
    assert calls == FetchCalls(es, None, None);
    ServedPayloads(p.plan, chunks, encrypt, hash, store, fetch, decrypt);
    AssembleParts(calls, None, fetch, decrypt, Payloads(p.plan, chunks, encrypt));
    PayloadsLonger(p.plan, chunks, encrypt);
    ConcatLonger(chunks, Payloads(p.plan, chunks, encrypt));
  }

  /** Each fetched chunk, left as fetched, is the payload that was sent for it. */
  lemma ServedPayloads(plan: UploadPlan, chunks: seq<Bytes>, encrypt: (nat, Bytes, Bytes) -> Bytes, hash: Bytes -> string,
                       store: StoreCall -> Option<string>, fetch: FetchCall -> Option<Bytes>,
                       decrypt: (Bytes, Bytes) -> Option<Bytes>)
    requires |plan.nodeUrls| > 0 && AllStored(plan, chunks, encrypt, hash, store)
    requires ServesStored(plan, chunks, encrypt, hash, fetch)
    ensures var calls := FetchCalls(Entries(plan, chunks, encrypt, hash, store), None, None);
      && |calls| == |chunks|
      && forall i :: 0 <= i < |calls| ==> Part(calls[i], None, fetch, decrypt) == Ok(Payloads(plan, chunks, encrypt)[i])
  {
    var es := Entries(plan, chunks, encrypt, hash, store);
    var calls := FetchCalls(es, None, None);
    var sc := StoreCalls(plan, chunks, encrypt, hash);
    forall i | 0 <= i < |calls|
      ensures Part(calls[i], None, fetch, decrypt) == Ok(Payloads(plan, chunks, encrypt)[i])
    {
      assert sc[i] in sc;
      assert calls[i] == FetchCall(sc[i].url, sc[i].chunkId, None, None);
    }
  }

  /** Under an encrypting plan every payload is longer than its chunk. */
  lemma PayloadsLonger(plan: UploadPlan, chunks: seq<Bytes>, encrypt: (nat, Bytes, Bytes) -> Bytes)
    requires plan.encryptWith.Some? && EncryptionLengthens(encrypt)
    ensures forall i :: 0 <= i < |chunks| ==> |Payloads(plan, chunks, encrypt)[i]| > |chunks[i]|
  {
  }

  /**
   * A download of a record that keeps the posted encryption mode and key
   * gives back the file: the behaviour evidently intended.
   */
  lemma KeptKeyRoundTrip(p: Prepared, env: LegacyUploadEnv, chunks: seq<Bytes>,
                         encrypt: (nat, Bytes, Bytes) -> Bytes, hash: Bytes -> string,
                         store: StoreCall -> Option<string>, fetch: FetchCall -> Option<Bytes>,
                         decrypt: (Bytes, Bytes) -> Option<Bytes>)
    requires |p.plan.nodeUrls| > 0 && p.plan.agreementId == None
    requires p.plan.encryptWith == EncryptWith(p.encryption, p.key)
    requires p.encryption == "aes" ==> KeyTruthy(p.key)
    requires p.filename != "" && env.fileId != "" && |chunks| > 0 && Concat(chunks) == p.data
    requires AllStored(p.plan, chunks, encrypt, hash, store)
    requires ServesStored(p.plan, chunks, encrypt, hash, fetch)
    requires DecryptInverts(encrypt, decrypt)
    ensures var rec := LegacyCoordinator.FileRecordKeepingKey(PostedMetadata(p, AsUploadEnv(env), Entries(p.plan, chunks, encrypt, hash, store)));
      Assemble(FetchCalls(SortByIndex(rec.chunks), None, None), LegacyDecryptWith(rec), fetch, decrypt) == Ok(p.data)
  {
    var es := Entries(p.plan, chunks, encrypt, hash, store);
    var rec := LegacyCoordinator.FileRecordKeepingKey(PostedMetadata(p, AsUploadEnv(env), es));
    assert LegacyDecryptWith(rec) == p.plan.encryptWith;
    PositionalIndexSorted(es);
    var calls := FetchCalls(SortByIndex(rec.chunks), None, None);
    assert calls == FetchCalls(es, None, None);
    ServedChunksDecrypt(p.plan, chunks, encrypt, hash, store, fetch, decrypt);
    assert |calls| == |chunks|;
    AssembleParts(calls, p.plan.encryptWith, fetch, decrypt, chunks);
  }

  /** The result delete_file reports for one chunk. */
  datatype ChunkDeletion = ChunkDeletion(chunkId: string, deleted: bool)

  /** The delete requests of delete_file: X-Owner is the record's own owner, not the caller's. */
  function LegacyDeleteCalls(rec: FileRecord): seq<DeleteCall> {
    seq(|rec.chunks|, i requires 0 <= i < |rec.chunks| => DeleteCall(rec.chunks[i].nodeUrl, rec.chunks[i].chunkId, rec.owner, None))
  }

  /**
   * delete_file: 404 for an unknown file, 403 unless the owner rule allows
   * the caller; then one delete request per chunk, each reported as
   * deleted (200) or failed (any other status, or a request that raised).
   * The catalog entry is not removed.
   */
  method DeleteFile(reply: Option<FileRecord>, headerOwner: Option<string>, deleteChunk: DeleteCall -> Option<int>)
    returns (r: Outcome<seq<ChunkDeletion>>, sent: seq<DeleteCall>)
    ensures reply.None? ==> r == Fail(StatusNotFound) && sent == []
    ensures reply.Some? && !OwnerMayDelete(reply.value.owner, headerOwner) ==> r == Fail(StatusForbidden) && sent == []
    ensures reply.Some? && OwnerMayDelete(reply.value.owner, headerOwner) ==>
      && r.Ok?
      && sent == LegacyDeleteCalls(reply.value)
      && |r.value| == |reply.value.chunks|
      && forall i :: 0 <= i < |r.value| ==>
           r.value[i] == ChunkDeletion(reply.value.chunks[i].chunkId, deleteChunk(sent[i]) == Some(200))
  {
    sent := [];
    if reply.None? {
      return Fail(StatusNotFound), sent;
    }
    var rec := reply.value;
    if !OwnerMayDelete(rec.owner, headerOwner) {
      return Fail(StatusForbidden), sent;
    }
    var calls := LegacyDeleteCalls(rec);
    var results: seq<ChunkDeletion> := [];
    var i := 0;
    while i < |calls|
      invariant 0 <= i <= |calls|
      invariant sent == calls[..i] && |results| == i
      invariant forall j :: 0 <= j < i ==> results[j] == ChunkDeletion(rec.chunks[j].chunkId, deleteChunk(calls[j]) == Some(200))
    {
      results := results + [ChunkDeletion(calls[i].chunkId, deleteChunk(calls[i]) == Some(200))];
      sent := sent + [calls[i]];
      assert sent == calls[..i + 1];
      i := i + 1;
    }
    assert sent == calls;
    r := Ok(results);
  }

  /** list_files: 500 when the coordinator failed, otherwise every record with `key` deleted. */
  method ListFiles(reply: Option<seq<FileRecord>>) returns (r: Outcome<seq<FileRecord>>)
    ensures r.Fail? <==> reply.None?
    ensures r.Fail? ==> r.status == StatusServerError
    ensures r.Ok? ==> |r.value| == |reply.value| && forall i :: 0 <= i < |r.value| ==> r.value[i] == reply.value[i].(key := None)
  {
    r := Client.ListFiles(reply, None);
  }
}
