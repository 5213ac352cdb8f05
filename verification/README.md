# Decentralised storage: chunk store, coordinator and client, modelled in Dafny

The system stores files as 1 MiB chunks spread over storage nodes.

- A **storage node** keeps chunk bytes in an open pool. The current node also keeps a locked pool, which holds rented space (reservation files) and chunks stored under an agreement. Beside the pools it keeps a metadata file keyed by chunk id.
- The **coordinator** keeps a registry of nodes, updated by heartbeats and deregistration, and a catalog of file records.
- The **client** service splits uploads into chunks and places them on nodes, round-robin for open storage and on the rented node for an agreement. It posts the file record to the coordinator, and on download it reassembles the chunks in index order. It also deletes and lists files, and issues agreements (`{node_id}-{size_mb}`) with their price.

There are two versions of each of the three services. The current one lives in `server/` and `StorageNode/`; the earlier one lives in top-level `client/`, `coordinator/` and `storage_node/`.

The model is organised as follows.

- **Node state and coordinator state** are classes.
  - A pool is a map from file name to bytes.
  - Node metadata, the registry and the catalog are maps.
  - The methods carry `modifies` clauses and state the whole new state.
  - The node's MB comparisons are stated exactly on bytes.
- **Client handlers** are methods that change nothing.
  - Every remote party is a parameter. A storage node is a total function from the request it receives to its reply; the coordinator's replies and the ledger's answers are values.
  - Hashing, encryption and decryption are parameters too.
- **Loops become Dafny loops proved against specification functions.** This covers the accumulator loops over a pool, the chunk split, the upload loop, the download write loop, the delete loop and the in-place key removal. The specification functions include `Concat`, `StoreCalls`, `Entries`, `Assemble` and `LegacyDeleteCalls`.

Modules, one per source file plus shared pieces:

- `Common`: the Option and Outcome types, Python truthiness, the owner delete rule and decimal text.
- `Records`: the JSON records the services exchange.
- `Pools`: directory byte accounting.
- `Chunking`: split, join and sort by index.
- `StorageNode` and `LegacyStorageNode`.
- `Coordinator` and `LegacyCoordinator`.
- `Client` and `LegacyClient`.

## Model

| member | source | states |
|---|---|---|
| Common.Decimal | server/client/app.py:166 | Python's `str` of an int: at least one character, only digits after the first, and a leading '-' exactly for negative values |
| Common.NatDigitsValue | server/client/app.py:166 | the digits rendered for a natural number denote that number |
| Common.DecimalRoundTrip | server/client/app.py:166 | reading the rendered text back as an integer gives the number itself |
| Common.DecimalInjective | server/client/app.py:166 | two numbers with the same rendering are equal, so `{node_id}-{size_mb}` names differ for different sizes |
| Pools.Zeros | StorageNode/storage_node/app.py:122-127 | the reservation file reads as exactly n zero bytes |
| Pools.SumSizesRemove | StorageNode/storage_node/app.py:97-98 | the byte sum over a set of files does not depend on the order the listing gives: any file can be taken out first |
| Pools.SumSizesAgree | StorageNode/storage_node/app.py:97-98 | the byte sum over a set of names depends only on the contents of those files |
| Pools.PoolBytesEmpty | StorageNode/storage_node/app.py:25-29 | an empty directory holds 0 bytes |
| Pools.PoolBytesRemove | StorageNode/storage_node/app.py:318-320 | removing a file lowers the directory total by exactly its size |
| Pools.PoolBytesUpdate | StorageNode/storage_node/app.py:174-177 | writing a file replaces its old size (0 if new) by the new size in the directory total |
| Pools.TotalBytes | StorageNode/storage_node/app.py:95-106 | the accumulator loop of get_used_space_mb / get_locked_space_mb returns the total byte size of every file of the directory |
| StorageNode.DeleteImpliesReadOnLocked | StorageNode/storage_node/app.py:296-311 | for a locked chunk, headers that pass delete_chunk's check always pass retrieve_chunk's |
| StorageNode.AnyAgreementReadsLockedChunk | StorageNode/storage_node/app.py:225-244 | any non-empty X-Agreement-Id alone reads any locked chunk: its value is never compared |
| StorageNode.ChunkStore.constructor | StorageNode/storage_node/app.py:18-29 | a new node has the given id, limit, price and wallet, and empty pools and metadata |
| StorageNode.ChunkStore.LockStorage | StorageNode/storage_node/app.py:108-155 | size ≤ 0 or limit − open − locked bytes < size MiB: 400 and nothing changes; otherwise the locked pool gets `{node}_{size}MB.space` of size MiB zero bytes, so open plus locked stays within the limit and locking a size again overwrites that file; a ledger or coordinator failure answers 500 but keeps the reservation; open pool and metadata unchanged |
| StorageNode.ChunkStore.StoreChunk | StorageNode/storage_node/app.py:157-209 | open pool at or over the limit: 507 and nothing changes; otherwise the bytes go under the caller's chunk id into the locked pool iff X-Agreement-Id is non-empty, else the open pool; the metadata is upserted with defaults owner "anonymous", file id "", encryption "none" and in_locked_storage = bool(agreement); the other pool is unchanged; the open pool overshoots its limit by less than the chunk |
| StorageNode.ChunkStore.RetrieveChunk | StorageNode/storage_node/app.py:211-246 | 404 iff the chunk is in neither pool; the open pool's bytes win over the locked pool's; succeeds iff the chunk is not marked locked or the headers pass ReadAuthorized (some header sent, and an owner header equal to the stored owner); a present chunk that is refused gets 403, never 404 |
| StorageNode.ChunkStore.DeleteChunk | StorageNode/storage_node/app.py:284-336 | 404 without bytes, and 404 with the bytes kept when there is no metadata; a locked chunk needs some header with every sent header matching; an open chunk needs the owner rule; success removes exactly that file (open pool first) and that metadata entry and nothing else; every failure changes nothing |
| StorageNode.ChunkStore.ListChunks | StorageNode/storage_node/app.py:248-266 | exactly the metadata entries matching the owner, else the file id, else the agreement; with no filter, only chunks outside the locked pool |
| StorageNode.ChunkStore.Status | StorageNode/storage_node/app.py:268-282 | used and locked are the pools' byte totals, total = used + locked, available = limit − total, with the node's constants; `available ≥ size MiB` is exactly lock_storage's admission test |
| LegacyStorageNode.ChunkStore.constructor | storage_node/app.py:15-31 | a new node has the given constants, an empty directory and empty metadata |
| LegacyStorageNode.ChunkStore.StoreChunk | storage_node/app.py:51-90 | used ≥ limit: 507 and nothing changes; otherwise the bytes are written under the caller's chunk id and the metadata is upserted with defaults owner "anonymous", file id "" and encryption "none" |
| LegacyStorageNode.ChunkStore.RetrieveChunk | storage_node/app.py:92-98 | the stored bytes to anyone, or 404 iff absent |
| LegacyStorageNode.ChunkStore.DeleteChunk | storage_node/app.py:125-154 | 404 without bytes; 404 with the bytes kept without metadata; 403 unless the stored owner is "anonymous" or equals X-Owner; success removes exactly that file and entry, lowering the byte total by its size |
| LegacyStorageNode.ChunkStore.ListChunks | storage_node/app.py:100-113 | exactly the entries of the owner if given, else of the file id if given, else all of them |
| LegacyStorageNode.ChunkStore.Status | storage_node/app.py:115-123 | used is the directory's byte total, with the node's constants |
| Chunking.ConcatAppend | server/client/app.py:84-85 | appending one more chunk appends its bytes to the joined file |
| Chunking.SplitIntoChunks | server/client/app.py:80-86 | the chunks join back to the input (nothing for size 0); every chunk is non-empty and at most the size, all but the last exactly the size; a negative size gives at most one chunk; empty input gives none (also the earlier client's split) |
| Chunking.AppendSlice | server/client/app.py:84-85 | reading the next slice extends the joined prefix to the end of that slice |
| Chunking.ConcatNothing | server/client/app.py:80-86 | non-empty chunks join to no bytes only when there are no chunks |
| Chunking.ConsSorted | server/client/app.py:352 | an entry no larger than every entry of a sorted list can go in front and the list stays sorted |
| Chunking.InsertByIndex | server/client/app.py:352 | inserting into an index-sorted list keeps it sorted and adds exactly that entry |
| Chunking.SortByIndex | server/client/app.py:352 | the result is sorted by index and is a permutation of the input (same multiset) |
| Chunking.InsertKeepsEqualOrder | server/client/app.py:352 | inserting an entry puts it ahead of the entries with the same index and keeps their order |
| Chunking.SortIsStable | server/client/app.py:352 | the sort is stable: for every index, the entries carrying it come out in their input order, as Python's `list.sort` guarantees |
| Chunking.SortKeepsSorted | server/client/app.py:352 | sorting a list already in index order leaves it unchanged |
| Chunking.PositionalIndexSorted | client/app.py:192 | entries whose index is their position are sorted, so the download's sort keeps the upload's order |
| Coordinator.NodeRecordOf | server/coordinator/app.py:56-75 | the stored record keeps id, url, limit and usage as sent; locked_mb, price_per_mb and wallet_address are each stored as sent when given a value, null when sent as null, and 100, 1 and "" respectively when the key is missing |
| Coordinator.AvailableNodes | server/coordinator/app.py:93-99 | 500 iff some record cannot be compared: a null used_mb or limit_mb, or no open space left and a null locked_mb (the `.get` defaults never apply, since register stores every key); otherwise exactly the records with used < limit or locked > 0, unchanged |
| Coordinator.MissingUsageFailsAvailableNodes | server/coordinator/app.py:60-75 | a node registered without used_mb makes available_nodes fail |
| Coordinator.NullLockedFailsAvailableNodes | server/coordinator/app.py:60-75 | a full node registered with `locked_mb: null` makes available_nodes fail |
| Coordinator.AvailableNodesDefaulted | server/coordinator/app.py:96-99 | the intended filter: exactly the records with used < limit or locked > 0 when a missing or null figure reads as 0 |
| Coordinator.DefaultedAgreesWhereHandlerAnswers | server/coordinator/app.py:96-99 | wherever the handler does not raise, it and the intended filter select the same nodes |
| Coordinator.AllNodes | server/coordinator/app.py:101-103 | every registered record, and nothing else |
| Coordinator.AvailableAmongAll | server/coordinator/app.py:93-103 | every available node is among all nodes |
| Coordinator.GetFileMetadata | server/coordinator/app.py:144-152 | the stored record iff the id is in the catalog, else 404 |
| Coordinator.ListFiles | server/coordinator/app.py:154-169 | exactly the records of the owner if given, else of the agreement if given, else all of them, unchanged |
| Coordinator.NodeRegistry.constructor | server/coordinator/app.py:51 | the registry starts empty |
| Coordinator.NodeRegistry.Register | server/coordinator/app.py:53-77 | without node id or url: 400 and nothing changes; otherwise an upsert of NodeRecordOf under the node id (locked_mb default 100, price default 1, wallet default "", each only for a missing key; a null is stored as null), so the registry grows by one only for a new id |
| Coordinator.NodeRegistry.Deregister | server/coordinator/app.py:79-91 | 400 without id, 404 for an unknown id, both with no change; otherwise removes exactly that node |
| Coordinator.FileCatalog.constructor | server/coordinator/app.py:21-23 | the catalog starts empty |
| Coordinator.FileCatalog.StoreFileMetadata | server/coordinator/app.py:105-142 | missing file id, filename or chunks: 400 and nothing changes; otherwise an upsert under the file id with encryption defaulting to "none" and the key kept only if sent |
| Coordinator.FileCatalog.DeleteFileMetadata | server/coordinator/app.py:171-191 | 404 for an unknown file, 403 unless the stored owner is "anonymous" or equals X-Owner, both with no change; otherwise removes only that record |
| LegacyCoordinator.AvailableNodes | coordinator/app.py:63-68 | 500 iff some record holds a null figure; otherwise exactly the records with used < limit |
| LegacyCoordinator.AllNodes | coordinator/app.py:70-72 | every registered record, and nothing else |
| LegacyCoordinator.FileRecordKeepingKey | coordinator/app.py:91-98 | the intended record: as filed, plus the posted encryption mode and key |
| LegacyCoordinator.GetFileMetadata | coordinator/app.py:106-114 | the stored record iff present, else 404 |
| LegacyCoordinator.ListFiles | coordinator/app.py:116-128 | exactly the records of the owner if given, else all of them |
| LegacyCoordinator.NodeRegistry.constructor | coordinator/app.py:41 | the registry starts empty |
| LegacyCoordinator.NodeRegistry.Register | coordinator/app.py:43-61 | without node id or url: 400 and nothing changes; otherwise an upsert keeping only id, url, limit and usage |
| LegacyCoordinator.FileCatalog.constructor | coordinator/app.py:28-30 | the catalog starts empty |
| LegacyCoordinator.FileCatalog.StoreFileMetadata | coordinator/app.py:74-104 | missing file id, filename or chunks: 400 and nothing changes; otherwise an upsert under the file id of a record without encryption mode, agreement or key |
| Client.AgreementNode | server/client/app.py:220 | `split('-')[0]`: the longest prefix without '-', followed by '-' unless it is the whole text |
| Client.AgreementNodeRoundTrip | server/client/app.py:166 | parsing `{node_id}-{size_mb}` gives back node_id if and only if node_id holds no '-' |
| Client.FindNode | server/client/app.py:133-141 | the position of the first node with the id, or None iff no node has it |
| Client.RentStorage | server/client/app.py:110-191 | 400 iff node id, size or wallet is missing; 500 without a contract; 500 when available_nodes failed; 404 for a node not available; 500 when the node's price_per_mb or the request's duration_days is null (`int(None)` raises); with all of these passed, success iff both ledger receipts have status 1, and then the agreement id is `{node_id}-{size_mb}` and price = price_per_mb × size_mb × duration_days (default 30 only when the key is missing) |
| Client.RentalNamesItsNode | server/client/app.py:166-220 | a rental's agreement id leads an upload back to the rented node when its id holds no '-' |
| Client.Providers | server/client/app.py:96-103 | a provider for every node with locked ≥ 0 and for no other node; a null price is passed on |
| Client.ProvidersOfOne | server/client/app.py:99-105 | a single node yields its provider entry exactly when its locked figure is not negative |
| Client.ProvidersAppend | server/client/app.py:97-105 | the loop keeps node order: the providers of two joined lists are those of the first followed by those of the second |
| Client.AvailableStorageProviders | server/client/app.py:88-108 | 500 iff available_nodes failed or some node's locked_mb is null (comparing it raises); otherwise the providers |
| Client.TargetIndex | server/client/app.py:260 | a valid node position: node 0 for rented storage, i mod n otherwise |
| Client.Entries | server/client/app.py:258-303 | one entry per chunk with index = position, placed on node 0 (rented) or node i mod n (open), chunk id = hash of the bytes sent, size = their length |
| Client.SendChunks | server/client/app.py:258-303 | the requests made are chunk 0, 1, ... in order; all sent iff every node accepts, with exactly the entries above; otherwise the upload stops at the first refusal, after exactly that request |
| Client.NodesNamed | server/client/app.py:224 | exactly the nodes with the given id |
| Client.Prepare | server/client/app.py:193-250 | 400 without a named file part; open storage: 500 on failed available_nodes, 503 on none, otherwise success with round-robin over them and a fresh key iff "aes"; rented: 404 for an unknown node; otherwise pinned to it, failing with 500 exactly when a contract is loaded, the owner is not anonymous and the ledger call raised; with the ledger's key and "aes" in that case, else the key stays unassigned |
| Client.PostedMetadata | server/client/app.py:306-319 | the key is posted iff it is truthy and there is no agreement; chunks and size are the upload's |
| Client.UploadFile | server/client/app.py:193-336 | the chunks join to the file (none for an empty file); requests follow SendChunks; an unassigned key always ends in 500, before any request when AES was asked; the first refused chunk is the last request, every earlier one was accepted, the answer is 500 and nothing is posted; otherwise the metadata is posted and the answer is 200 iff the coordinator accepts |
| Client.RentedUploadNeedsLedgerKey | server/client/app.py:230-236 | a rented upload without contract, or by "anonymous", leaves the key unassigned |
| Client.EmptyFileNotCatalogued | server/client/app.py:306-323 | an empty file splits into no chunks, so the metadata its upload posts has an empty chunk list, which the coordinator refuses |
| Client.ResolveKey | server/client/app.py:358-375 | no key for non-AES files; an AES file under an agreement with a contract needs X-Owner (else 400) and the ledger's key (else 500); any other AES file needs its stored key (else 500) |
| Client.Assemble | server/client/app.py:377-409 | succeeds iff every chunk is fetched (and decrypted when a key applies); failures are 500 |
| Client.AssembleParts | server/client/app.py:377-409 | when every part comes through, the download is exactly their concatenation |
| Client.FetchAll | server/client/app.py:377-409 | the write loop returns exactly Assemble: the parts in order, or 500 at the first failure |
| Client.DownloadFile | server/client/app.py:338-412 | 404 for an unknown file; the key resolution's error; otherwise the index-sorted chunks, with the agreement and owner headers only for rented files, decrypted when the mode is AES and the key truthy |
| Client.OpenUploadDownloadRoundTrip | server/client/app.py:306-409 | when every node accepted and serves back what it was sent and decryption undoes encryption, downloading the filed record of an open upload resolves the upload's key and yields the original file |
| Client.PostedRecordKeepsKey | server/coordinator/app.py:115-140 | the record filed for an open upload is complete and keeps the chunks, the mode and the key the download needs |
| Client.ServedChunksDecrypt | server/client/app.py:377-409 | each chunk fetched from where it was stored, decrypted when encrypted, is the chunk that was read |
| Client.DeleteFile | server/client/app.py:444-482 | 404 for an unknown file; 403 unless the stored owner is "anonymous" or equals X-Owner; requests go chunk by chunk in order; a raising request gives 500 and is the last one sent, every earlier one having been answered; success iff no request raised and the catalog delete answered 200 |
| Client.KeepAgreement | server/client/app.py:434-435 | exactly the records of the agreement if given, else all |
| Client.ListFiles | server/client/app.py:414-442 | 500 iff the coordinator failed; otherwise the kept records in order, each with `key` removed |
| LegacyClient.Prepare | client/app.py:68-101 | 400 without a named file part; 500 on failed available_nodes; 503 on none; otherwise success with round-robin over them; a key is generated iff the mode is "aes" |
| LegacyClient.SendAndPost | client/app.py:104-177 | the chunks join to the file; the requests follow SendChunks; the first refused chunk is the last request, the answer is 500 and nothing is posted; otherwise the metadata of every stored chunk is posted, and the answer is 200 iff the coordinator accepts |
| LegacyClient.UploadFile | client/app.py:68-177 | the chunks join to the file (none for an empty file); the first refused chunk is the last request, every earlier one was accepted, the answer is 500 and nothing is posted; otherwise the metadata is posted, carrying the key iff one was generated, and the answer is 200 iff the coordinator accepts |
| LegacyClient.DownloadFile | client/app.py:179-226 | 404 for an unknown file; otherwise the index-sorted chunks fetched without headers, decrypted iff the mode is "aes" and the record has a key |
| LegacyClient.CatalogedRecordNeverDecrypted | coordinator/app.py:91-98 | a record filed by the earlier coordinator never leads the earlier download to decrypt |
| LegacyClient.ConcatLonger | client/app.py:114-119 | when each encrypted chunk is longer than its chunk, the joined ciphertext is longer than the file |
| LegacyClient.ServedPayloads | client/app.py:197-218 | each chunk fetched and not decrypted is the payload that was sent for it |
| LegacyClient.PayloadsLonger | client/app.py:114-119 | under AES every payload is longer than its chunk |
| LegacyClient.AesUploadDownloadsCiphertext | coordinator/app.py:91-98 | an AES upload through the earlier client and coordinator downloads as the concatenated ciphertext, which differs from the file |
| LegacyClient.KeptKeyRoundTrip | client/app.py:151-223 | with the record keeping mode and key, the earlier download gives back the uploaded file |
| LegacyClient.DeleteFile | client/app.py:251-294 | 404 for an unknown file; 403 unless the stored owner is "anonymous" or equals X-Owner; otherwise one request per chunk in order, carrying the stored owner as X-Owner; one result per chunk, deleted iff the node answered 200; the catalog is untouched |
| LegacyClient.ListFiles | client/app.py:228-249 | 500 iff the coordinator failed; otherwise every record in order with `key` removed |

## Left out

- HTTP transport, Flask routing, CORS and JSON encoding are left out. Remote calls are parameters.
- A JSON null and a missing key are told apart (`JsonField`) only for register's `locked_mb`, `price_per_mb` and `wallet_address` and rent_storage's `duration_days`. Every other body key reads both as `None`. This matters for two keys that no modelled client sends as null. store_file_metadata's `encryption` sent as null is stored as null, while the model stores "none"; a null and "none" both mean no decryption on download. store_file_metadata's `key` sent as null is stored as null, while the model stores no key; the current download answers 500 for both.
- The blockchain is left out: contract loading, `createStorageAgreement`, `storeEncryptionKey`, `getEncryptionKey`, `lockStorage`, `getUserAgreements`, `storage_agreements`, `sync_agreements` and `save_contract_abi`. Their answers enter as values: receipt statuses, a key, or a raised call.
- user_agreements (server/client/app.py:484-513) is left out. It is a ledger query whose only local logic is the agreement-id format, which is modelled by Client.AgreementId.
- Cryptography and encoding are parameters: AES-CBC, padding, IVs, base64, the JSON envelope and SHA-256. The round-trip lemmas assume that decryption undoes encryption. AesUploadDownloadsCiphertext also assumes that encryption lengthens each chunk, as padding does.
- The MB floats, `round(..., 2)` and `int(...)` parsing are left out. Node capacity is compared exactly on integer bytes. Coordinator figures are kept as given.
- Filesystem details are left out: file permissions, sparse-file creation, temporary files and the order of directory listings. Listings are maps, and list answers are maps or sequences with no promised order.
- The node heartbeats (update_used_space, register_with_coordinator) are left out.
- Concurrency is left out. The handlers' read-modify-write of the JSON files is modelled as sequential.
- The web UI and server/client/temp/task.c are not part of this model.
- LegacyClient.UploadFile and Client.UploadFile: the receipt's size is the byte count read from the upload, which stands in for the saved temp file's size.

Behaviour of the code that a reader might not expect, modelled as written:

- A node stores under the caller's chunk id without recomputing it.
- Store admission ignores the incoming chunk's size and the locked pool.
- The agreement header's value is never checked on retrieve.
- Locking the same size twice overwrites one reservation file.
- The earlier client never deletes the catalog entry.
- The earlier coordinator drops the encryption mode and the key.

## Findings

| source | as written | input that shows it | evidently intended | confidence | as-written member | corrected member |
|---|---|---|---|---|---|---|
| server/coordinator/app.py:96-99 | register stores `used_mb`/`limit_mb` even when absent (null), so `node.get('used_mb', 0)` returns None and the comparison raises: available_nodes answers 500 for everyone | one node registered without `used_mb` (likewise a full node registered with `locked_mb: null`, Coordinator.NullLockedFailsAvailableNodes) | a missing figure reads as 0, as the `.get(..., 0)` calls say | high, not executed | Coordinator.MissingUsageFailsAvailableNodes | Coordinator.DefaultedAgreesWhereHandlerAnswers |
| coordinator/app.py:91-98 | the earlier coordinator files neither `encryption` nor `key`, so the earlier client's download (`encryption == 'aes' and 'key' in metadata`) never decrypts, and an AES upload downloads as ciphertext | any upload with the default encryption "aes" | the record keeps the posted mode and key, and the download returns the file | high, not executed | LegacyClient.AesUploadDownloadsCiphertext | LegacyClient.KeptKeyRoundTrip |
