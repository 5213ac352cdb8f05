/**
 * The current client service: rents locked storage, uploads a file as
 * chunks spread over the storage nodes, downloads it back in index order,
 * deletes it, and lists the catalog with keys removed.
 *
 * Every remote party is a parameter: the coordinator's replies are values,
 * a storage node is a total function from the request it receives to its
 * reply, and the ledger's answers are values. Hashing, encryption and
 * decryption are parameters too. `encrypt` takes the chunk's position as
 * well, so each chunk may get its own IV.
 */
module Client {
  import opened Common
  import opened Records
  import opened Chunking
  import Coordinator

  // ------------------------------------------------------------ agreements

  /** The agreement id rent_storage issues: `{node_id}-{size_mb}`. */
  function AgreementId(nodeId: string, sizeMb: int): string {
    nodeId + "-" + Decimal(sizeMb)
  }

  /**
   * `agreement_id.split('-')[0]`: the longest prefix without a '-', which
   * is followed by a '-' unless it is the whole text.
   */
  function AgreementNode(a: string): (n: string)
    ensures |n| <= |a| && n == a[..|n|]
    ensures '-' !in n
    ensures |n| < |a| ==> a[|n|] == '-'
  {
    if |a| == 0 || a[0] == '-' then "" else [a[0]] + AgreementNode(a[1..])
  }

  /** Upload finds the node an agreement was made with exactly when that node's id holds no '-'. */
  lemma AgreementNodeRoundTrip(nodeId: string, sizeMb: int)
    ensures AgreementNode(AgreementId(nodeId, sizeMb)) == nodeId <==> '-' !in nodeId
  {
    var a := AgreementId(nodeId, sizeMb);
    var n := AgreementNode(a);
    assert a[..|nodeId|] == nodeId;
    assert a[|nodeId|] == '-';
    if '-' !in nodeId {
      assert forall i :: 0 <= i < |nodeId| ==> a[i] == nodeId[i] && a[i] != '-';
      assert forall i :: 0 <= i < |n| ==> n[i] == a[i] && n[i] != '-';
    }
  }

  /** The position of the first node with the given id, if any. */
  function FindNode(nodes: seq<NodeRecord>, nodeId: string): (r: Option<nat>)
    ensures r.Some? ==> r.value < |nodes| && nodes[r.value].nodeId == nodeId
    ensures r.Some? ==> forall j :: 0 <= j < r.value ==> nodes[j].nodeId != nodeId
    ensures r.None? ==> forall j :: 0 <= j < |nodes| ==> nodes[j].nodeId != nodeId
  {
    if |nodes| == 0 then None
    else if nodes[0].nodeId == nodeId then Some(0)
    else match FindNode(nodes[1..], nodeId) {
      case None => None
      case Some(k) => Some(k + 1)
    }
  }

  /** The JSON body of a rent_storage request; duration_days defaults to 30 only when left out. */
  datatype RentRequest = RentRequest(nodeId: Option<string>, sizeMb: Option<int>, durationDays: JsonField<int>, walletAddress: Option<string>)

  /** What a successful rental answers: the agreement id, the agreement's key and the price paid. */
  datatype Rental = Rental(agreementId: string, key: Bytes, totalPrice: int)

  /** rent_storage's parameter check: node id, a non-zero size and a wallet, all truthy. */
  predicate RentParamsGiven(req: RentRequest) {
    Given(req.nodeId) && req.sizeMb.Some? && req.sizeMb.value != 0 && Given(req.walletAddress)
  }

  /**
   * rent_storage. `key` is the freshly generated agreement key;
   * `contractLoaded` says whether the contract was loaded at start-up;
   * `available` is the coordinator's available_nodes reply; `createTx` and
   * `keyTx` are the receipt statuses of the two ledger transactions (None
   * when the call raised). A null price or duration makes the price's
   * `int(...)` raise: 500.
   */
  function RentStorage(req: RentRequest, key: Bytes, contractLoaded: bool, available: Outcome<seq<NodeRecord>>,
                       createTx: Option<int>, keyTx: Option<int>): (r: Outcome<Rental>)
    ensures r == Fail(StatusBadRequest) <==> !RentParamsGiven(req)
    ensures RentParamsGiven(req) && !contractLoaded ==> r == Fail(StatusServerError)
    ensures RentParamsGiven(req) && contractLoaded && available.Fail? ==> r == Fail(StatusServerError)
    ensures RentParamsGiven(req) && contractLoaded && available.Ok? && FindNode(available.value, req.nodeId.value).None? ==>
      r == Fail(StatusNotFound)
    ensures
      && RentParamsGiven(req) && contractLoaded && available.Ok? && FindNode(available.value, req.nodeId.value).Some?
      && (available.value[FindNode(available.value, req.nodeId.value).value].pricePerMb.None? || req.durationDays.Null?)
      ==> r == Fail(StatusServerError)
    ensures
      && RentParamsGiven(req) && contractLoaded && available.Ok? && FindNode(available.value, req.nodeId.value).Some?
      && available.value[FindNode(available.value, req.nodeId.value).value].pricePerMb.Some? && !req.durationDays.Null?
      ==> (r.Ok? <==> createTx == Some(1) && keyTx == Some(1))
    ensures r.Fail? ==> r.status in {StatusBadRequest, StatusNotFound, StatusServerError}
    ensures r.Ok? ==>
      && RentParamsGiven(req) && contractLoaded && available.Ok?
      && FindNode(available.value, req.nodeId.value).Some?
      && createTx == Some(1) && keyTx == Some(1)
      && r.value.agreementId == AgreementId(req.nodeId.value, req.sizeMb.value)
      && r.value.key == key
      && available.value[FindNode(available.value, req.nodeId.value).value].pricePerMb.Some?
      && req.durationDays.Get(30).Some?
      && r.value.totalPrice ==
           available.value[FindNode(available.value, req.nodeId.value).value].pricePerMb.value
           * req.sizeMb.value * req.durationDays.Get(30).value
  {
    if !RentParamsGiven(req) then Fail(StatusBadRequest)
    else if !contractLoaded then Fail(StatusServerError)
    else if available.Fail? then Fail(StatusServerError)
    else match FindNode(available.value, req.nodeId.value) {
      case None => Fail(StatusNotFound)
      case Some(k) =>
        match (available.value[k].pricePerMb, req.durationDays.Get(30)) {
          case (Some(perMb), Some(days)) =>
            var price := perMb * req.sizeMb.value * days;
            if createTx != Some(1) || keyTx != Some(1) then Fail(StatusServerError)
            else Ok(Rental(AgreementId(req.nodeId.value, req.sizeMb.value), key, price))
          case _ => Fail(StatusServerError)
        }
    }
  }

  /** A rental's agreement id leads an upload back to the rented node whenever that node's id holds no '-'. */
  lemma RentalNamesItsNode(req: RentRequest, key: Bytes, contractLoaded: bool, available: Outcome<seq<NodeRecord>>,
                           createTx: Option<int>, keyTx: Option<int>)
    requires RentStorage(req, key, contractLoaded, available, createTx, keyTx).Ok?
    requires '-' !in req.nodeId.value
    ensures AgreementNode(RentStorage(req, key, contractLoaded, available, createTx, keyTx).value.agreementId) == req.nodeId.value
  {
    AgreementNodeRoundTrip(req.nodeId.value, req.sizeMb.value);
  }

  /** One entry of available_storage_providers' answer; a null price is passed on as null. */
  datatype Provider = Provider(nodeId: string, availableMb: real, pricePerMb: Option<int>, url: string)

  function ProviderOf(n: NodeRecord): Provider
    requires n.lockedMb.Some?
  {
    Provider(n.nodeId, n.lockedMb.value, n.pricePerMb, n.url)
  }

  /** Every node's locked figure can be compared with 0 (none is null). */
  predicate LockedKnown(nodes: seq<NodeRecord>) {
    forall n :: n in nodes ==> n.lockedMb.Some?
  }

  /** The providers offered: one per available node with a non-negative locked figure, in order. */
  function Providers(nodes: seq<NodeRecord>): (ps: seq<Provider>)
    requires LockedKnown(nodes)
    ensures |ps| <= |nodes|
    ensures forall n :: n in nodes && n.lockedMb.value >= 0.0 ==> ProviderOf(n) in ps
    ensures forall p :: p in ps ==> exists n :: n in nodes && n.lockedMb.value >= 0.0 && p == ProviderOf(n)
  {
    if |nodes| == 0 then []
    else
      assert forall n :: n in nodes ==> n == nodes[0] || n in nodes[1..];
      var rest := Providers(nodes[1..]);
      if nodes[0].lockedMb.value >= 0.0 then [ProviderOf(nodes[0])] + rest else rest
  }

  /** The providers of a single node: that node's entry exactly when its locked figure is not negative. */
  lemma ProvidersOfOne(n: NodeRecord)
    requires n.lockedMb.Some?
    ensures Providers([n]) == if n.lockedMb.value >= 0.0 then [ProviderOf(n)] else []
  {
    assert [n][1..] == [];
  }

  /**
   * The loop keeps node order: the providers of two lists joined are the
   * providers of the first followed by those of the second. With
   * ProvidersOfOne this fixes the answer entry by entry.
   */
  lemma {:induction false} ProvidersAppend(xs: seq<NodeRecord>, ys: seq<NodeRecord>)
    requires LockedKnown(xs) && LockedKnown(ys)
    ensures LockedKnown(xs + ys)
    ensures Providers(xs + ys) == Providers(xs) + Providers(ys)
    decreases |xs|
  {
    if |xs| == 0 {
      assert xs + ys == ys;
    } else {
      assert (xs + ys)[0] == xs[0];
      assert (xs + ys)[1..] == xs[1..] + ys;
      ProvidersAppend(xs[1..], ys);
    }
  }

  /**
   * available_storage_providers: 500 when available_nodes failed, and 500
   * when some node's locked figure is null (comparing it raises); else the
   * providers.
   */
  function AvailableStorageProviders(available: Outcome<seq<NodeRecord>>): (r: Outcome<seq<Provider>>)
    ensures r.Fail? <==> available.Fail? || !LockedKnown(available.value)
    ensures r.Fail? ==> r.status == StatusServerError
    ensures r.Ok? ==> LockedKnown(available.value) && r.value == Providers(available.value)
  {
    if available.Fail? || !LockedKnown(available.value) then Fail(StatusServerError) else Ok(Providers(available.value))
  }

  // ---------------------------------------------------------------- upload

  /**
   * The `key` variable of upload_file: never assigned (the rented path
   * without a ledger key), None, or bound to bytes.
   */
  datatype KeyState = Unbound | NoKey | Key(bytes: Bytes)

  /** Python truthiness of a bound key. */
  predicate KeyTruthy(k: KeyState) {
    k.Key? && |k.bytes| > 0
  }

  /** The key chunks are encrypted with: `encryption == 'aes' and key`. */
  function EncryptWith(encryption: string, key: KeyState): Option<Bytes> {
    if encryption == "aes" && KeyTruthy(key) then Some(key.bytes) else None
  }

  /** Where and how the chunks of one upload are sent. */
  datatype UploadPlan = UploadPlan(
    nodeUrls: seq<string>,
    pinned: bool,
    owner: string,
    fileId: string,
    encryptWith: Option<Bytes>,
    agreementId: Option<string>)

  /** One store request to a node: url, chunk id in the path, body and headers. */
  datatype StoreCall = StoreCall(
    url: string,
    chunkId: string,
    payload: Bytes,
    owner: string,
    fileId: string,
    encryption: string,
    agreementId: Option<string>)

  /** The node chunk i goes to: always the first for rented storage, round-robin otherwise. */
  function TargetIndex(plan: UploadPlan, i: nat): (k: nat)
    requires |plan.nodeUrls| > 0
    ensures k < |plan.nodeUrls|
  {
    if plan.pinned then 0 else i % |plan.nodeUrls|
  }

  /** The bytes sent for chunk i: its encryption when a key applies, else the chunk itself. */
  function Payload(plan: UploadPlan, i: nat, chunk: Bytes, encrypt: (nat, Bytes, Bytes) -> Bytes): Bytes {
    if plan.encryptWith.Some? then encrypt(i, chunk, plan.encryptWith.value) else chunk
  }

  function EncryptionType(plan: UploadPlan): string {
    if plan.encryptWith.Some? then "aes" else "none"
  }

  /** The store request for chunk i; the chunk id is the hash of the bytes sent. */
  function StoreCallFor(plan: UploadPlan, i: nat, chunk: Bytes, encrypt: (nat, Bytes, Bytes) -> Bytes, hash: Bytes -> string): StoreCall
    requires |plan.nodeUrls| > 0
  {
    var payload := Payload(plan, i, chunk, encrypt);
    StoreCall(plan.nodeUrls[TargetIndex(plan, i)], hash(payload), payload, plan.owner, plan.fileId,
              EncryptionType(plan), if Given(plan.agreementId) then plan.agreementId else None)
  }

  /** The store requests for all chunks, in order. */
  function StoreCalls(plan: UploadPlan, chunks: seq<Bytes>, encrypt: (nat, Bytes, Bytes) -> Bytes, hash: Bytes -> string): seq<StoreCall>
    requires |plan.nodeUrls| > 0
  {
    seq(|chunks|, i requires 0 <= i < |chunks| => StoreCallFor(plan, i, chunks[i], encrypt, hash))
  }

  /** Every node accepts its chunk (answers 200 with a node id). */
  predicate AllStored(plan: UploadPlan, chunks: seq<Bytes>, encrypt: (nat, Bytes, Bytes) -> Bytes, hash: Bytes -> string,
                      store: StoreCall -> Option<string>)
    requires |plan.nodeUrls| > 0
  {
    forall i :: 0 <= i < |chunks| ==> store(StoreCallFor(plan, i, chunks[i], encrypt, hash)).Some?
  }

  /** The chunk entry recorded for an accepted store request; `nodeId` is the node's reply. */
  function EntryFor(plan: UploadPlan, i: nat, call: StoreCall, nodeId: string): ChunkPlacement {
    ChunkPlacement(call.chunkId, nodeId, call.url, |call.payload|, i, call.encryption, plan.agreementId)
  }

  /** The chunk entries of a fully stored upload. */
  function Entries(plan: UploadPlan, chunks: seq<Bytes>, encrypt: (nat, Bytes, Bytes) -> Bytes, hash: Bytes -> string,
                   store: StoreCall -> Option<string>): (es: seq<ChunkPlacement>)
    requires |plan.nodeUrls| > 0 && AllStored(plan, chunks, encrypt, hash, store)
    ensures |es| == |chunks|
    ensures forall i :: 0 <= i < |es| ==> es[i].index == i
    ensures plan.pinned ==> forall i :: 0 <= i < |es| ==> es[i].nodeUrl == plan.nodeUrls[0]
    ensures !plan.pinned ==> forall i :: 0 <= i < |es| ==> es[i].nodeUrl == plan.nodeUrls[i % |plan.nodeUrls|]
    ensures forall i :: 0 <= i < |es| ==>
      es[i].chunkId == hash(Payload(plan, i, chunks[i], encrypt)) && es[i].size == |Payload(plan, i, chunks[i], encrypt)|
  {
    seq(|chunks|, i requires 0 <= i < |chunks| =>
      var call := StoreCallFor(plan, i, chunks[i], encrypt, hash);
      EntryFor(plan, i, call, store(call).value))
  }

  datatype SendOutcome = AllSent(entries: seq<ChunkPlacement>) | ChunkFailed(at: nat)

  /**
   * The chunk loop of upload_file: sends chunk after chunk and stops at the
   * first node that does not answer 200; `sent` is every request made.
   */
  method SendChunks(plan: UploadPlan, chunks: seq<Bytes>, encrypt: (nat, Bytes, Bytes) -> Bytes, hash: Bytes -> string,
                    store: StoreCall -> Option<string>)
    returns (r: SendOutcome, sent: seq<StoreCall>)
    requires |plan.nodeUrls| > 0
    ensures |sent| <= |chunks|
    ensures forall j :: 0 <= j < |sent| ==> sent[j] == StoreCallFor(plan, j, chunks[j], encrypt, hash)
    ensures r.AllSent? <==> AllStored(plan, chunks, encrypt, hash, store)
    ensures r.AllSent? ==> sent == StoreCalls(plan, chunks, encrypt, hash) && r.entries == Entries(plan, chunks, encrypt, hash, store)
    ensures r.ChunkFailed? ==>
      && |sent| == r.at + 1
      && store(sent[r.at]).None?
      && forall j :: 0 <= j < r.at ==> store(sent[j]).Some?
  {
    var entries: seq<ChunkPlacement> := [];
    sent := [];
    var i := 0;
    while i < |chunks|
      invariant 0 <= i <= |chunks|
      invariant |sent| == i && |entries| == i
      invariant forall j :: 0 <= j < i ==> sent[j] == StoreCallFor(plan, j, chunks[j], encrypt, hash)
      invariant forall j :: 0 <= j < i ==> store(sent[j]).Some? && entries[j] == EntryFor(plan, j, sent[j], store(sent[j]).value)
    {
      var call := StoreCallFor(plan, i, chunks[i], encrypt, hash);
      sent := sent + [call];
      var reply := store(call);
      if reply.None? {
        r := ChunkFailed(i);
        return;
      }
      entries := entries + [EntryFor(plan, i, call, reply.value)];
      i := i + 1;
    }
    r := AllSent(entries);
    assert sent == StoreCalls(plan, chunks, encrypt, hash);
    assert entries == Entries(plan, chunks, encrypt, hash, store);
  }

  /** The uploaded file part: its name and bytes. */
  datatype FilePart = FilePart(filename: string, data: Bytes)

  /** The multipart form of an upload; None is a field that was not sent. */
  datatype UploadForm = UploadForm(file: Option<FilePart>, owner: Option<string>, encryption: Option<string>, agreementId: Option<string>)

  /**
   * What upload_file learns from outside before the chunk loop: the new
   * file id, the coordinator's available_nodes and all_nodes replies, whether
   * a contract is loaded, the ledger's key for the agreement (None when the
   * call raised), a freshly generated key and the clock.
   */
  datatype UploadEnv = UploadEnv(
    fileId: string,
    available: Outcome<seq<NodeRecord>>,
    allNodes: seq<NodeRecord>,
    contractLoaded: bool,
    chainKey: Option<Bytes>,
    generatedKey: Bytes,
    now: real)

  /** The upload as decided before the chunk loop. */
  datatype Prepared = Prepared(filename: string, data: Bytes, encryption: string, key: KeyState, plan: UploadPlan)

  function NodeUrls(nodes: seq<NodeRecord>): seq<string> {
    seq(|nodes|, i requires 0 <= i < |nodes| => nodes[i].url)
  }

  /** The nodes with the given id, in order. */
  function NodesNamed(nodes: seq<NodeRecord>, nodeId: string): (r: seq<NodeRecord>)
    ensures forall n :: n in r <==> n in nodes && n.nodeId == nodeId
  {
    if |nodes| == 0 then []
    else
      assert forall n :: n in nodes <==> n == nodes[0] || n in nodes[1..];
      (if nodes[0].nodeId == nodeId then [nodes[0]] else []) + NodesNamed(nodes[1..], nodeId)
  }

  /** The form is usable: a file part with a non-empty filename. */
  predicate FileGiven(form: UploadForm) {
    form.file.Some? && form.file.value.filename != ""
  }

  /**
   * The part of upload_file before the chunk loop: form checks, node
   * choice and key choice. Rented storage uses the nodes named by the
   * agreement and the ledger's key, and only when a contract is loaded and
   * the owner is not anonymous; otherwise its key stays unassigned. Open
   * storage uses the available nodes round-robin and a fresh key for AES.
   */
  function Prepare(form: UploadForm, env: UploadEnv): (r: Outcome<Prepared>)
    ensures !FileGiven(form) ==> r == Fail(StatusBadRequest)
    ensures r.Fail? ==> r.status in {StatusBadRequest, StatusNotFound, StatusServerError, StatusUnavailable}
    ensures r.Ok? ==>
      && FileGiven(form)
      && r.value.filename == form.file.value.filename && r.value.data == form.file.value.data
      && |r.value.plan.nodeUrls| > 0
      && r.value.plan.owner == form.owner.GetOr(Anonymous)
      && r.value.plan.fileId == env.fileId
      && r.value.plan.agreementId == form.agreementId
      && (r.value.plan.pinned <==> Given(form.agreementId))
      && r.value.plan.encryptWith == EncryptWith(r.value.encryption, r.value.key)
    // open storage
    ensures FileGiven(form) && !Given(form.agreementId) && env.available == Ok([]) ==> r == Fail(StatusUnavailable)
    ensures FileGiven(form) && !Given(form.agreementId) && env.available.Fail? ==> r == Fail(StatusServerError)
    ensures FileGiven(form) && !Given(form.agreementId) && env.available.Ok? && env.available.value != [] ==> r.Ok?
    ensures r.Ok? && !Given(form.agreementId) ==>
      && r.value.plan.nodeUrls == NodeUrls(env.available.value)
      && r.value.encryption == form.encryption.GetOr("aes")
      && r.value.key == (if r.value.encryption == "aes" then Key(env.generatedKey) else NoKey)
    // rented storage
    ensures FileGiven(form) && Given(form.agreementId) && NodesNamed(env.allNodes, AgreementNode(form.agreementId.value)) == [] ==>
      r == Fail(StatusNotFound)
    ensures FileGiven(form) && Given(form.agreementId) && NodesNamed(env.allNodes, AgreementNode(form.agreementId.value)) != [] ==>
      (r.Ok? <==> !(env.contractLoaded && form.owner.GetOr(Anonymous) != Anonymous) || env.chainKey.Some?)
    ensures
      && FileGiven(form) && Given(form.agreementId) && NodesNamed(env.allNodes, AgreementNode(form.agreementId.value)) != []
      && env.contractLoaded && form.owner.GetOr(Anonymous) != Anonymous && env.chainKey.None?
      ==> r == Fail(StatusServerError)
    ensures r.Ok? && Given(form.agreementId) ==>
      r.value.plan.nodeUrls == NodeUrls(NodesNamed(env.allNodes, AgreementNode(form.agreementId.value)))
    ensures r.Ok? && Given(form.agreementId) && !(env.contractLoaded && form.owner.GetOr(Anonymous) != Anonymous) ==>
      r.value.key.Unbound? && r.value.encryption == form.encryption.GetOr("aes")
    ensures r.Ok? && Given(form.agreementId) && env.contractLoaded && form.owner.GetOr(Anonymous) != Anonymous ==>
      env.chainKey.Some? && r.value.key == Key(env.chainKey.value) && r.value.encryption == "aes"
  {
    if !FileGiven(form) then Fail(StatusBadRequest)
    else
      var owner := form.owner.GetOr(Anonymous);
      var encryption := form.encryption.GetOr("aes");
      if Given(form.agreementId) then
        var named := NodesNamed(env.allNodes, AgreementNode(form.agreementId.value));
        if named == [] then Fail(StatusNotFound)
        else if env.contractLoaded && owner != Anonymous then
          if env.chainKey.None? then Fail(StatusServerError)
          else
            var key := Key(env.chainKey.value);
            Ok(Prepared(form.file.value.filename, form.file.value.data, "aes", key,
                        UploadPlan(NodeUrls(named), true, owner, env.fileId, EncryptWith("aes", key), form.agreementId)))
        else
          Ok(Prepared(form.file.value.filename, form.file.value.data, encryption, Unbound,
                      UploadPlan(NodeUrls(named), true, owner, env.fileId, EncryptWith(encryption, Unbound), form.agreementId)))
      else if env.available.Fail? then Fail(StatusServerError)
      else if env.available.value == [] then Fail(StatusUnavailable)
      else
        var key := if encryption == "aes" then Key(env.generatedKey) else NoKey;
        Ok(Prepared(form.file.value.filename, form.file.value.data, encryption, key,
                    UploadPlan(NodeUrls(env.available.value), false, owner, env.fileId, EncryptWith(encryption, key), form.agreementId)))
  }

  /**
   * The file metadata upload_file posts to the coordinator. The key goes
   * with it only for a truthy key and no agreement.
   */
  function PostedMetadata(p: Prepared, env: UploadEnv, entries: seq<ChunkPlacement>): (m: FileMetadataRequest)
    ensures m.key.Some? <==> KeyTruthy(p.key) && !Given(p.plan.agreementId)
    ensures m.key.Some? ==> m.key.value == p.key.bytes
    ensures m.chunks == Some(entries) && m.size == Some(|p.data|)
  {
    FileMetadataRequest(Some(env.fileId), Some(p.filename), Some(|p.data|), Some(p.plan.owner), Some(entries),
                        Some(env.now), Some(p.encryption), p.plan.agreementId,
                        if KeyTruthy(p.key) && !Given(p.plan.agreementId) then Some(p.key.bytes) else None)
  }

  /** upload_file's success answer. */
  datatype UploadReceipt = UploadReceipt(fileId: string, size: nat, chunks: nat)

  /**
   * upload_file. `chunks` is what was read from the file, `sent` every
   * store request made, `posted` the metadata posted to the coordinator
   * (None when none was); `post` is the coordinator's store_file_metadata,
   * true for a 200.
   */
  method UploadFile(form: UploadForm, env: UploadEnv, encrypt: (nat, Bytes, Bytes) -> Bytes, hash: Bytes -> string,
                    store: StoreCall -> Option<string>, post: FileMetadataRequest -> bool)
    returns (r: Outcome<UploadReceipt>, chunks: seq<Bytes>, sent: seq<StoreCall>, posted: Option<FileMetadataRequest>)
    ensures Prepare(form, env).Fail? ==> r == Fail(Prepare(form, env).status) && sent == [] && posted.None?
    ensures r.Fail? ==> r.status in {StatusBadRequest, StatusNotFound, StatusServerError, StatusUnavailable}
    ensures Prepare(form, env).Ok? ==>
      var p := Prepare(form, env).value;
      && Concat(chunks) == p.data
      && (forall i :: 0 <= i < |chunks| ==> 0 < |chunks[i]| <= ChunkSize)
      && (forall i :: 0 <= i < |chunks| - 1 ==> |chunks[i]| == ChunkSize)
      && (|p.data| == 0 ==> chunks == [])
      && |sent| <= |chunks|
      && (forall j :: 0 <= j < |sent| ==> sent[j] == StoreCallFor(p.plan, j, chunks[j], encrypt, hash))
      // an unassigned key always ends in 500, before any chunk is sent when AES was asked for
      && (p.key.Unbound? ==> r == Fail(StatusServerError) && posted.None?)
      && (p.key.Unbound? && p.encryption == "aes" ==> sent == [])
      // the first refused chunk ends the upload; nothing is posted
      && (!(p.key.Unbound? && p.encryption == "aes") && !AllStored(p.plan, chunks, encrypt, hash, store) ==>
            && r == Fail(StatusServerError) && posted.None? && |sent| > 0
            && store(sent[|sent| - 1]).None?
            && (forall j :: 0 <= j < |sent| - 1 ==> store(sent[j]).Some?))
      // otherwise every chunk was sent and its entry is posted
      && (!p.key.Unbound? && AllStored(p.plan, chunks, encrypt, hash, store) ==>
            && sent == StoreCalls(p.plan, chunks, encrypt, hash)
            && posted == Some(PostedMetadata(p, env, Entries(p.plan, chunks, encrypt, hash, store)))
            && (r.Ok? <==> post(posted.value))
            && (r.Ok? ==> r.value == UploadReceipt(env.fileId, |p.data|, |chunks|))
            && (r.Fail? ==> r.status == StatusServerError))
  {
    sent := [];
    posted := None;
    chunks := [];
    var prep := Prepare(form, env);
    if prep.Fail? {
      r := Fail(prep.status);
      return;
    }
    var p := prep.value;
    chunks := SplitIntoChunks(p.data, ChunkSize);
    ConcatNothing(chunks);
    if p.key.Unbound? && p.encryption == "aes" && |chunks| > 0 {
      // the first iteration reads the unassigned key
      r := Fail(StatusServerError);
      return;
    }
    var outcome;
    outcome, sent := SendChunks(p.plan, chunks, encrypt, hash, store);
    if outcome.ChunkFailed? {
      r := Fail(StatusServerError);
      return;
    }
    if p.key.Unbound? {
      // `if key and not agreement_id` reads the unassigned key
      r := Fail(StatusServerError);
      return;
    }
    var m := PostedMetadata(p, env, outcome.entries);
    posted := Some(m);
    if !post(m) {
      r := Fail(StatusServerError);
      return;
    }
    r := Ok(UploadReceipt(env.fileId, |p.data|, |chunks|));
  }

  /** An upload to rented storage that did not fetch the ledger's key never succeeds. */
  lemma RentedUploadNeedsLedgerKey(form: UploadForm, env: UploadEnv)
    requires Prepare(form, env).Ok? && Given(form.agreementId)
    requires !env.contractLoaded || form.owner.GetOr(Anonymous) == Anonymous
    ensures Prepare(form, env).value.key.Unbound?
  {
  }

  /**
   * An empty file splits into no chunks, so its upload posts an empty chunk
   * list, which the coordinator refuses.
   */
  lemma EmptyFileNotCatalogued(p: Prepared, env: UploadEnv, chunks: seq<Bytes>, encrypt: (nat, Bytes, Bytes) -> Bytes,
                               hash: Bytes -> string, store: StoreCall -> Option<string>)
    requires |p.plan.nodeUrls| > 0
    requires Concat(chunks) == p.data && forall i :: 0 <= i < |chunks| ==> |chunks[i]| > 0
    requires AllStored(p.plan, chunks, encrypt, hash, store)
    requires |p.data| == 0
    ensures !Coordinator.MetadataComplete(PostedMetadata(p, env, Entries(p.plan, chunks, encrypt, hash, store)))
  {
    ConcatNothing(chunks);
  }

  // -------------------------------------------------------------- download

  /** One retrieve request: node url, chunk id and the two optional headers. */
  datatype FetchCall = FetchCall(url: string, chunkId: string, agreementId: Option<string>, owner: Option<string>)

  function FetchCalls(ps: seq<ChunkPlacement>, agreementId: Option<string>, owner: Option<string>): seq<FetchCall> {
    seq(|ps|, i requires 0 <= i < |ps| => FetchCall(ps[i].nodeUrl, ps[i].chunkId, agreementId, owner))
  }

  /**
   * The retrieve requests of download_file, in index order; the agreement
   * and the caller's X-Owner (or "") go along only for rented storage.
   */
  function DownloadCalls(rec: FileRecord, headerOwner: Option<string>): seq<FetchCall> {
    if Given(rec.agreementId) then FetchCalls(SortByIndex(rec.chunks), rec.agreementId, Some(headerOwner.GetOr("")))
    else FetchCalls(SortByIndex(rec.chunks), None, None)
  }

  /**
   * download_file's key resolution. A non-AES file needs no key. An AES
   * file under an agreement, with a contract loaded, needs X-Owner (400)
   * and the ledger's key (500 when the call raised); any other AES file
   * needs the key in its record (500 without).
   */
  function ResolveKey(rec: FileRecord, headerOwner: Option<string>, contractLoaded: bool, chainKey: Option<Bytes>): (r: Outcome<Option<Bytes>>)
    ensures rec.encryption != Some("aes") ==> r == Ok(None)
    ensures r.Fail? ==> r.status in {StatusBadRequest, StatusServerError}
    ensures r == Fail(StatusBadRequest) <==>
      rec.encryption == Some("aes") && Given(rec.agreementId) && contractLoaded && !Given(headerOwner)
    ensures rec.encryption == Some("aes") && !(Given(rec.agreementId) && contractLoaded) ==>
      (r.Ok? <==> rec.key.Some?) && (r.Ok? ==> r.value == rec.key)
    ensures rec.encryption == Some("aes") && Given(rec.agreementId) && contractLoaded && Given(headerOwner) ==>
      (r.Ok? <==> chainKey.Some?) && (r.Ok? ==> r.value == chainKey)
  {
    if rec.encryption.GetOr("none") != "aes" then Ok(None)
    else if Given(rec.agreementId) && contractLoaded then
      if !Given(headerOwner) then Fail(StatusBadRequest)
      else if chainKey.None? then Fail(StatusServerError)
      else Ok(chainKey)
    else if rec.key.Some? then Ok(rec.key)
    else Fail(StatusServerError)
  }

  /** The key chunks are decrypted with: `encryption == 'aes' and key`. */
  function DecryptWith(encryption: Option<string>, key: Option<Bytes>): Option<Bytes> {
    if encryption == Some("aes") && key.Some? && |key.value| > 0 then key else None
  }

  /** One chunk as written to the output: fetched, then decrypted when a key applies. */
  function Part(call: FetchCall, decryptWith: Option<Bytes>, fetch: FetchCall -> Option<Bytes>,
                decrypt: (Bytes, Bytes) -> Option<Bytes>): Outcome<Bytes>
  {
    match fetch(call)
    case None => Fail(StatusServerError)
    case Some(bytes) =>
      if decryptWith.None? then Ok(bytes)
      else match decrypt(bytes, decryptWith.value) {
        case None => Fail(StatusServerError)
        case Some(plain) => Ok(plain)
      }
  }

  /** The file a download writes: every part in order, or 500 at the first part that fails. */
  function Assemble(calls: seq<FetchCall>, decryptWith: Option<Bytes>, fetch: FetchCall -> Option<Bytes>,
                    decrypt: (Bytes, Bytes) -> Option<Bytes>): (r: Outcome<Bytes>)
    ensures r.Fail? ==> r.status == StatusServerError
    ensures r.Ok? <==> forall i :: 0 <= i < |calls| ==> Part(calls[i], decryptWith, fetch, decrypt).Ok?
    decreases |calls|
  {
    if |calls| == 0 then Ok([])
    else match Part(calls[0], decryptWith, fetch, decrypt) {
      case Fail(s) => Fail(s)
      case Ok(first) =>
        match Assemble(calls[1..], decryptWith, fetch, decrypt) {
          case Fail(s) => Fail(s)
          case Ok(rest) =>
            assert forall i :: 1 <= i < |calls| ==> calls[i] == calls[1..][i - 1];
            Ok(first + rest)
        }
    }
  }

  /** When every part comes through, the download is their concatenation. */
  lemma {:induction false} AssembleParts(calls: seq<FetchCall>, decryptWith: Option<Bytes>, fetch: FetchCall -> Option<Bytes>,
                                         decrypt: (Bytes, Bytes) -> Option<Bytes>, parts: seq<Bytes>)
    requires |parts| == |calls|
    requires forall i :: 0 <= i < |calls| ==> Part(calls[i], decryptWith, fetch, decrypt) == Ok(parts[i])
    ensures Assemble(calls, decryptWith, fetch, decrypt) == Ok(Concat(parts))
    decreases |calls|
  {
    if |calls| > 0 {
      assert forall i :: 0 <= i < |calls| - 1 ==> calls[1..][i] == calls[i + 1] && parts[1..][i] == parts[i + 1];
      AssembleParts(calls[1..], decryptWith, fetch, decrypt, parts[1..]);
    }
  }

  /** The write loop of both downloads: fetches, decrypts and appends chunk after chunk. */
  method FetchAll(calls: seq<FetchCall>, decryptWith: Option<Bytes>, fetch: FetchCall -> Option<Bytes>,
                  decrypt: (Bytes, Bytes) -> Option<Bytes>) returns (r: Outcome<Bytes>)
    ensures r == Assemble(calls, decryptWith, fetch, decrypt)
  {
    var written: Bytes := [];
    var i := 0;
    assert calls[0..] == calls;
    ResumeNothing(Assemble(calls, decryptWith, fetch, decrypt));
    while i < |calls|
      invariant 0 <= i <= |calls|
      invariant Assemble(calls, decryptWith, fetch, decrypt) == Resume(written, Assemble(calls[i..], decryptWith, fetch, decrypt))
    {
      assert calls[i..][0] == calls[i] && calls[i..][1..] == calls[i + 1..];
      var part := Part(calls[i], decryptWith, fetch, decrypt);
      if part.Fail? {
        return Fail(part.status);
      }
      ResumeAppend(written, part.value, Assemble(calls[i + 1..], decryptWith, fetch, decrypt));
      written := written + part.value;
      i := i + 1;
    }
    assert calls[i..] == [];
    assert written + [] == written;
    r := Ok(written);
  }

  /** The download's result once `written` is on disk and the rest of the chunks give `rest`. */
  function Resume(written: Bytes, rest: Outcome<Bytes>): Outcome<Bytes> {
    match rest
    case Ok(tail) => Ok(written + tail)
    case Fail(s) => Fail(s)
  }

  lemma ResumeNothing(rest: Outcome<Bytes>)
    ensures Resume([], rest) == rest
  {
    if rest.Ok? {
      assert [] + rest.value == rest.value;
    }
  }

  lemma ResumeAppend(written: Bytes, part: Bytes, rest: Outcome<Bytes>)
    ensures Resume(written, Resume(part, rest)) == Resume(written + part, rest)
  {
    if rest.Ok? {
      assert written + (part + rest.value) == (written + part) + rest.value;
    }
  }

  /**
   * download_file: 404 for an unknown file, the key resolution's error, or
   * the chunks in index order, each decrypted when a key applies.
   */
  method DownloadFile(reply: Option<FileRecord>, headerOwner: Option<string>, contractLoaded: bool, chainKey: Option<Bytes>,
                      fetch: FetchCall -> Option<Bytes>, decrypt: (Bytes, Bytes) -> Option<Bytes>)
    returns (r: Outcome<Bytes>)
    ensures reply.None? ==> r == Fail(StatusNotFound)
    ensures reply.Some? && ResolveKey(reply.value, headerOwner, contractLoaded, chainKey).Fail? ==>
      r == Fail(ResolveKey(reply.value, headerOwner, contractLoaded, chainKey).status)
    ensures reply.Some? && ResolveKey(reply.value, headerOwner, contractLoaded, chainKey).Ok? ==>
      r == Assemble(DownloadCalls(reply.value, headerOwner),
                    DecryptWith(reply.value.encryption, ResolveKey(reply.value, headerOwner, contractLoaded, chainKey).value),
                    fetch, decrypt)
  {
    if reply.None? {
      return Fail(StatusNotFound);
    }
    var rec := reply.value;
    var key := ResolveKey(rec, headerOwner, contractLoaded, chainKey);
    if key.Fail? {
      return Fail(key.status);
    }
    r := FetchAll(DownloadCalls(rec, headerOwner), DecryptWith(rec.encryption, key.value), fetch, decrypt);
  }

  /**
   * Round trip for open storage: when every node accepted its chunk, the
   * coordinator filed the posted metadata, each node serves back the bytes
   * it was sent and decryption undoes encryption, the download's key
   * resolution finds the upload's key and the download yields the file.
   */
  lemma OpenUploadDownloadRoundTrip(p: Prepared, env: UploadEnv, chunks: seq<Bytes>,
                                    encrypt: (nat, Bytes, Bytes) -> Bytes, hash: Bytes -> string,
                                    store: StoreCall -> Option<string>, fetch: FetchCall -> Option<Bytes>,
                                    decrypt: (Bytes, Bytes) -> Option<Bytes>,
                                    headerOwner: Option<string>, contractLoaded: bool, chainKey: Option<Bytes>)
    requires |p.plan.nodeUrls| > 0 && !Given(p.plan.agreementId)
    requires p.plan.encryptWith == EncryptWith(p.encryption, p.key)
    requires p.encryption == "aes" ==> KeyTruthy(p.key)
    requires p.filename != "" && env.fileId != "" && |chunks| > 0 && Concat(chunks) == p.data
    requires AllStored(p.plan, chunks, encrypt, hash, store)
    requires ServesStored(p.plan, chunks, encrypt, hash, fetch)
    requires DecryptInverts(encrypt, decrypt)
    ensures var rec := Coordinator.FileRecordOf(PostedMetadata(p, env, Entries(p.plan, chunks, encrypt, hash, store)));
      && ResolveKey(rec, headerOwner, contractLoaded, chainKey) == Ok(p.plan.encryptWith)
      && Assemble(DownloadCalls(rec, headerOwner), DecryptWith(rec.encryption, p.plan.encryptWith), fetch, decrypt) == Ok(p.data)
  {
    var es := Entries(p.plan, chunks, encrypt, hash, store);
    var rec := Coordinator.FileRecordOf(PostedMetadata(p, env, es));
    PostedRecordKeepsKey(p, env, es);
    PositionalIndexSorted(es);
    var calls := DownloadCalls(rec, headerOwner);
    assert calls == FetchCalls(es, None, None);
    ServedChunksDecrypt(p.plan, chunks, encrypt, hash, store, fetch, decrypt);
    assert |calls| == |chunks|;
    assert forall i :: 0 <= i < |calls| ==> Part(calls[i], p.plan.encryptWith, fetch, decrypt) == Ok(chunks[i]);
    AssembleParts(calls, p.plan.encryptWith, fetch, decrypt, chunks);
    assert Assemble(calls, p.plan.encryptWith, fetch, decrypt) == Ok(p.data);
    assert ResolveKey(rec, headerOwner, contractLoaded, chainKey) == Ok(p.plan.encryptWith);
    assert DecryptWith(rec.encryption, p.plan.encryptWith) == p.plan.encryptWith;
  }

  /** Every node answers a retrieve of a chunk it was sent with the bytes it was sent. */
  ghost predicate ServesStored(plan: UploadPlan, chunks: seq<Bytes>, encrypt: (nat, Bytes, Bytes) -> Bytes, hash: Bytes -> string,
                         fetch: FetchCall -> Option<Bytes>)
    requires |plan.nodeUrls| > 0
  {
    forall c :: c in StoreCalls(plan, chunks, encrypt, hash) ==> fetch(FetchCall(c.url, c.chunkId, None, None)) == Some(c.payload)
  }

  /** Decryption with the same key undoes encryption. */
  ghost predicate DecryptInverts(encrypt: (nat, Bytes, Bytes) -> Bytes, decrypt: (Bytes, Bytes) -> Option<Bytes>) {
    forall i, c, k :: decrypt(encrypt(i, c, k), k) == Some(c)
  }

  /** The record the coordinator files for an open upload keeps its chunks, mode and key. */
  lemma PostedRecordKeepsKey(p: Prepared, env: UploadEnv, es: seq<ChunkPlacement>)
    requires !Given(p.plan.agreementId)
    requires p.plan.encryptWith == EncryptWith(p.encryption, p.key)
    requires p.encryption == "aes" ==> KeyTruthy(p.key)
    requires p.filename != "" && env.fileId != "" && |es| > 0
    ensures Coordinator.MetadataComplete(PostedMetadata(p, env, es))
    ensures var rec := Coordinator.FileRecordOf(PostedMetadata(p, env, es));
      && rec.chunks == es && !Given(rec.agreementId)
      && DecryptWith(rec.encryption, p.plan.encryptWith) == p.plan.encryptWith
      && ResolveKey(rec, None, false, None) == Ok(p.plan.encryptWith)
      && forall headerOwner, contractLoaded, chainKey :: ResolveKey(rec, headerOwner, contractLoaded, chainKey) == Ok(p.plan.encryptWith)
  {
  }

  /** Each fetched chunk, decrypted when the upload encrypted it, is the chunk that was read. */
  lemma ServedChunksDecrypt(plan: UploadPlan, chunks: seq<Bytes>, encrypt: (nat, Bytes, Bytes) -> Bytes, hash: Bytes -> string,
                            store: StoreCall -> Option<string>, fetch: FetchCall -> Option<Bytes>,
                            decrypt: (Bytes, Bytes) -> Option<Bytes>)
    requires |plan.nodeUrls| > 0 && AllStored(plan, chunks, encrypt, hash, store)
    requires ServesStored(plan, chunks, encrypt, hash, fetch)
    requires DecryptInverts(encrypt, decrypt)
    ensures var calls := FetchCalls(Entries(plan, chunks, encrypt, hash, store), None, None);
      forall i :: 0 <= i < |calls| ==> Part(calls[i], plan.encryptWith, fetch, decrypt) == Ok(chunks[i])
  {
    var es := Entries(plan, chunks, encrypt, hash, store);
    var calls := FetchCalls(es, None, None);
    var sc := StoreCalls(plan, chunks, encrypt, hash);
    forall i | 0 <= i < |calls|
      ensures Part(calls[i], plan.encryptWith, fetch, decrypt) == Ok(chunks[i])
    {
      assert sc[i] in sc;
      assert calls[i] == FetchCall(sc[i].url, sc[i].chunkId, None, None);
      assert fetch(calls[i]) == Some(Payload(plan, i, chunks[i], encrypt));
    }
  }

  // ------------------------------------------------------------ delete, list

  /** One delete request: node url, chunk id, X-Owner and, for rented storage, X-Agreement-Id. */
  datatype DeleteCall = DeleteCall(url: string, chunkId: string, owner: Option<string>, agreementId: Option<string>)

  /** The delete requests for a file's chunks, in the record's order. */
  function DeleteCalls(rec: FileRecord, owner: Option<string>): seq<DeleteCall> {
    seq(|rec.chunks|, i requires 0 <= i < |rec.chunks| =>
      DeleteCall(rec.chunks[i].nodeUrl, rec.chunks[i].chunkId, owner, if Given(rec.agreementId) then rec.agreementId else None))
  }

  /**
   * delete_file: 404 for an unknown file, 403 unless the owner rule allows
   * the caller; then one delete request per chunk (a node's refusal is only
   * logged, a request that raises ends the handler with 500), then the
   * coordinator's delete_file_metadata, whose non-200 answer is a 500.
   * `deleteChunk` answers a status, or None when the request raised.
   */
  method DeleteFile(fileId: string, reply: Option<FileRecord>, headerOwner: Option<string>,
                    deleteChunk: DeleteCall -> Option<int>, deleteRecord: (string, Option<string>) -> Option<int>)
    returns (r: Outcome<string>, sent: seq<DeleteCall>)
    ensures reply.None? ==> r == Fail(StatusNotFound) && sent == []
    ensures reply.Some? && !OwnerMayDelete(reply.value.owner, headerOwner) ==> r == Fail(StatusForbidden) && sent == []
    ensures reply.Some? ==> |sent| <= |reply.value.chunks| && sent == DeleteCalls(reply.value, headerOwner)[..|sent|]
    ensures r.Ok? <==>
      && reply.Some? && OwnerMayDelete(reply.value.owner, headerOwner)
      && (forall c :: c in DeleteCalls(reply.value, headerOwner) ==> deleteChunk(c).Some?)
      && deleteRecord(fileId, headerOwner) == Some(200)
    ensures r.Ok? ==> r.value == fileId && sent == DeleteCalls(reply.value, headerOwner)
    ensures r.Fail? && reply.Some? && OwnerMayDelete(reply.value.owner, headerOwner) ==> r.status == StatusServerError
    // a request that raises is the last one sent, and every earlier one was answered
    ensures
      && reply.Some? && OwnerMayDelete(reply.value.owner, headerOwner)
      && (exists c :: c in DeleteCalls(reply.value, headerOwner) && deleteChunk(c).None?)
      ==>
      && r.Fail? && |sent| > 0
      && deleteChunk(sent[|sent| - 1]).None?
      && (forall j :: 0 <= j < |sent| - 1 ==> deleteChunk(sent[j]).Some?)
  {
    sent := [];
    if reply.None? {
      return Fail(StatusNotFound), sent;
    }
    var rec := reply.value;
    if !OwnerMayDelete(rec.owner, headerOwner) {
      return Fail(StatusForbidden), sent;
    }
    var calls := DeleteCalls(rec, headerOwner);
    var i := 0;
    while i < |calls|
      invariant 0 <= i <= |calls|
      invariant sent == calls[..i]
      invariant forall j :: 0 <= j < i ==> deleteChunk(calls[j]).Some?
    {
      sent := sent + [calls[i]];
      assert sent == calls[..i + 1];
      if deleteChunk(calls[i]).None? {
        return Fail(StatusServerError), sent;
      }
      i := i + 1;
    }
    assert sent == calls;
    if deleteRecord(fileId, headerOwner) != Some(200) {
      return Fail(StatusServerError), sent;
    }
    r := Ok(fileId);
  }

  /** The records list_files keeps: those of the given agreement, or all of them. */
  function KeepAgreement(files: seq<FileRecord>, agreementId: Option<string>): (r: seq<FileRecord>)
    ensures !Given(agreementId) ==> r == files
    ensures forall f :: f in r ==> f in files && (Given(agreementId) ==> f.agreementId == agreementId)
    ensures forall f :: f in files && (Given(agreementId) ==> f.agreementId == agreementId) ==> f in r
  {
    if !Given(agreementId) then files
    else if |files| == 0 then []
    else
      assert forall f :: f in files <==> f == files[0] || f in files[1..];
      (if files[0].agreementId == agreementId then [files[0]] else []) + KeepAgreement(files[1..], agreementId)
  }

  /**
   * list_files: 500 when the coordinator failed; otherwise the records of
   * the given agreement (or all), with `key` deleted from each in place.
   */
  method ListFiles(reply: Option<seq<FileRecord>>, agreementId: Option<string>) returns (r: Outcome<seq<FileRecord>>)
    ensures r.Fail? <==> reply.None?
    ensures r.Fail? ==> r.status == StatusServerError
    ensures r.Ok? ==>
      var kept := KeepAgreement(reply.value, agreementId);
      && |r.value| == |kept|
      && forall i :: 0 <= i < |kept| ==> r.value[i] == kept[i].(key := None)
    ensures r.Ok? ==> forall f :: f in r.value ==> f.key.None?
  {
    if reply.None? {
      return Fail(StatusServerError);
    }
    var files := KeepAgreement(reply.value, agreementId);
    ghost var kept := files;
    var i := 0;
    while i < |files|
      invariant 0 <= i <= |files| && |files| == |kept|
      invariant forall j :: 0 <= j < i ==> files[j] == kept[j].(key := None)
      invariant forall j :: i <= j < |files| ==> files[j] == kept[j]
    {
      files := files[i := files[i].(key := None)];
      i := i + 1;
    }
    r := Ok(files);
  }
}
