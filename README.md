# Hugin desktop: message sync and beams, modelled in Dafny

This project models the two back-end modules of the Hugin desktop messenger that
keep state of their own:

- `src/backend/messages.cjs` (modules `MessageLogic` and `Messages`). The client
  polls a node for changes to the transaction pool. It keeps a dedup list of the
  pool hashes it has already looked at (`known_pool_txs`). It scans each new
  transaction's extra data:
  - a view tag decides whether the transaction is meant for this wallet;
  - otherwise it tries to open the data as a direct message;
  - otherwise it tries trial decryption as a group message, over the stored group keys.

  A message that opens goes to storage. The module also sends direct and group
  messages, on-chain as a transaction or off-chain as a frame. Sending keeps the
  contacts' message keys (`known_keys`) up to date.
- `src/backend/beam.cjs` (modules `BeamLogic` and `Beam`). This is the registry of
  peer-to-peer beams (`active_beams`) with its data handler, the heartbeat that pings
  a beam while it is registered, and the catalogs of files offered locally
  (`localFiles`) and by peers (`remoteFiles`).

`Js` gives the JavaScript built-ins the code relies on, with their edge cases:
`substring` clamps and swaps its bounds; `slice` counts a negative index from the
end; `filter` and `find` behave as usual.

How the state is modelled:
- Each module's top-level `let` variables become the fields of a class:
  `Messages.MessageSync` and `Beam.Beams`. Each handler becomes a method that
  changes those fields.
- The loops of `decryptHuginMessages` and `decryptGroupMessage` become loops. They
  are proved against the specification functions `MessageLogic.Batch` and
  `MessageLogic.FirstOpening`.
- What the modules hand on becomes an ordered log of effects on the class:
  - writes to the database, such as `saveMessage`, `saveGroupMessage` and `saveThisContact`;
  - messages to the renderer (`Hugin.send`, `sender`);
  - writes to a beam and stream pipes.

Collaborators whose code is not part of this model are given as values:
- the cryptography, `extraDataToMessage`, `JSON.parse` of envelopes and payloads,
  and signature checks (the `Crypto` record);
- the node's reply to the pool query;
- the database's answers, such as `saveHash`, the conversation record, the
  version date and the stored groups;
- the wallet's balance check and relay result;
- the clock and the random frame identifiers.

Behaviour of the code as written that the model keeps:
- **The type test always passes.** `message.type === 'sealedbox' || 'box'` is
  always truthy, so every opened direct message is saved (`MessageLogic.AcceptsDirectKind`).
- **An empty view tag means no tag.** An empty tag is falsy. A tag of three or more
  characters never matches, because the computed tag has two characters.
- **A thrown direct attempt skips the group attempt.** When the untagged direct
  attempt throws, the exception ends that transaction's iteration.
- **The group-save check never fires.** The result of `saveGroupMessage` is a
  Promise that is not awaited, so the `!saved` test is always false.
- **A first contact pops the wrong key.** `known_keys.pop(key)` ignores its
  argument and drops the last key.
- **Sending over a beam throws.** `sendMessage` with `beam_this` calls
  `send_beam_message`. beam.cjs exports `sendBeamMessage`, so the imported name is
  undefined. The call throws after `checkHistory` has run, and nothing is saved
  (`SendOutcome.BeamUndefined`).
- **An off-chain frame carries decoded text.** The frame concatenates a Buffer into
  a string, so it carries the text of the payload's bytes, not its hex
  (`SendEnv.hexText`).
- **Frames that are not JSON are swallowed.** `checkDataMessage` reports them as
  handled, so an encrypted text frame never reaches `decryptMessage`. Only a JSON
  value of another type does (`BeamLogic.NonJsonNeverDecrypted`).
- **A `null` frame throws.** It is reported as incoming data, then reading its
  `type` throws.
- **A download notice without a beam throws.** `downloadFile` opens the write
  stream, then reads the pipe of an undefined beam; the data handler throws.
- **`removeRemoteFile` filters on a field the entries lack.** It filters on
  `fileName`, but `addRemoteFile` stores `{file, chat}`. A frame naming a file
  removes nothing. A frame with no `fileName` empties the catalog.
- **`removeLocalFile` always throws.** It filters the catalog, then reads the
  undeclared `file` and throws. Nothing is written to the beam or sent to the renderer.
- **`addLocalFile` catalogues before the beam lookup.** The file is added first;
  without a beam for the chat the write then throws.

## Model

| member | source | states |
|---|---|---|
| MessageLogic.ValidateExtra | src/backend/messages.cjs:288-303 | the transaction passes iff its extra is at most 7000 characters and its hash is not yet known; the hash is appended to the dedup list unless it was known and the size was acceptable; nothing is ever removed |
| MessageLogic.ValidateExtraOnce | src/backend/messages.cjs:296-302 | a hash that passed once never passes again, whatever extra data comes with it, and a second sighting leaves the list unchanged |
| MessageLogic.LoadCheckedTxs | src/backend/messages.cjs:305-321 | the bootstrap hashes are a contiguous run of the stored ones that ends just before the last stored hash, at most 199 long, empty when nothing is stored |
| MessageLogic.LoadCheckedTxsLength | src/backend/messages.cjs:311-313 | the run holds n-1 hashes for n up to 100, 199-n for n between 100 and 200, and 199 from 200 on |
| MessageLogic.LoadCheckedTxsDropsWindow | src/backend/messages.cjs:311-313 | with exactly 199 stored hashes the run is empty |
| MessageLogic.RecentCheckedTxs | src/backend/messages.cjs:305-321 | the intended window: the newest min(n, 200) stored hashes, the last one included |
| MessageLogic.RecentCheckedTxsGrows | src/backend/messages.cjs:305-321 | the intended window never shrinks when a hash is stored, and it ends with that hash |
| MessageLogic.Defined | src/backend/messages.cjs:325-331 | the hashes sent to the node are exactly the defined stored hashes |
| MessageLogic.FetchFails | src/backend/messages.cjs:352-365 | the fetch fails for an unreachable node, for a reply without an addition list, and for a reply without a deletion list while hashes are known; a reply with both lists never fails |
| MessageLogic.RemoveDeleted | src/backend/messages.cjs:354 | after the pool reply, every remaining hash was known before and was not reported deleted, and every known hash that was not reported deleted remains |
| MessageLogic.RemoveDeletedOrder | src/backend/messages.cjs:354 | removal distributes over concatenation, so the survivors keep their order |
| MessageLogic.RemoveDeletedStable | src/backend/messages.cjs:354 | an empty deletion report changes nothing, and applying the same report twice is applying it once |
| MessageLogic.ViewTagMatches | src/backend/messages.cjs:251-271 | a tag matches iff the envelope parses, carries a non-empty tag and the key derivation succeeds, and the tag equals the first two characters of the hash of the derivation |
| MessageLogic.ViewTagIsHashPrefix | src/backend/messages.cjs:259-264 | a matching tag is a prefix of the hash of the key derivation |
| MessageLogic.AcceptsDirectKind | src/backend/messages.cjs:243 | the type test accepts every message type |
| MessageLogic.CandidateKeys | src/backend/messages.cjs:811-816 | a supplied 64-character group key is tried before the stored groups; otherwise only the stored groups are tried |
| MessageLogic.FirstOpening | src/backend/messages.cjs:818-836 | the chosen key opens the box and yields that plaintext, every earlier key fails, and there is no result iff every key fails |
| MessageLogic.FirstOpeningSkipsFailure | src/backend/messages.cjs:818-836 | a key that fails is passed over: the result is that of the remaining keys, one position later |
| MessageLogic.FirstOpeningTakesFirst | src/backend/messages.cjs:818-836 | a first key that opens the box wins whatever follows |
| MessageLogic.CheckOpened | src/backend/messages.cjs:842-855 | an opened group message is accepted iff its payload parses, the sender's address decodes, the signature verifies and the sender is not on the block list |
| MessageLogic.GroupEnvelope | src/backend/messages.cjs:810-815 | with a supplied 64-character key the envelope is the parsed text of an off-chain frame; otherwise it is the transaction's own parsed envelope; anything else has none |
| MessageLogic.DecryptGroup | src/backend/messages.cjs:803-867 | without an envelope the outcome is Unparsable for a supplied key and NoKey otherwise; with one, no opening key gives NoKey and otherwise the outcome is that of the gates on the first opening plaintext; an accepted message is signed by its sender, who is not blocked, and is off-chain exactly when a key was supplied |
| MessageLogic.SuppliedKeyFirst | src/backend/messages.cjs:811-816 | when the supplied key opens an off-chain frame, the stored groups play no part |
| MessageLogic.WrongKeyIgnored | src/backend/messages.cjs:818-836 | a stored group key that does not open the box has no influence on the outcome |
| MessageLogic.ForgedSenderRejected | src/backend/messages.cjs:847-853 | when the first opening plaintext carries a signature that does not verify for its sender, the message is rejected; no later key is tried |
| MessageLogic.GenuineGroupMessageAccepted | src/backend/messages.cjs:818-861 | a group message that the first opening stored key opens, and whose plaintext passes every gate, is accepted with the envelope's timestamp as an on-chain message |
| MessageLogic.CheckGroup | src/backend/messages.cjs:273-285 | no envelope or an empty secretbox gives NoMatch and changes nothing; otherwise the outcome is MessageLogic.DecryptGroup on the envelope with no supplied key, and exactly an accepted message is saved, on-chain |
| MessageLogic.Examine | src/backend/messages.cjs:219-232 | the view tag decides the path: a tagged transaction gets only the direct attempt, which saves iff it opens; untagged, the outcome is Direct with the save iff the direct attempt opens and DirectThrew with no change iff it throws; otherwise the group attempt runs and its outcome is MessageLogic.CheckGroup's |
| MessageLogic.Step | src/backend/messages.cjs:214-235 | a transaction is examined iff its extra is defined, at most 7000 characters, and its hash is new; a defined extra that is not examined is Skipped; an examined one is Short iff its extra has at most 200 characters, then Unsaved iff saveHash fails, and otherwise decided by MessageLogic.Examine with its hash remembered; a skipped, short or unsaved transaction hands nothing on; the dedup list changes only through validateExtra; at most one effect is added |
| MessageLogic.Batch | src/backend/messages.cjs:214-237 | one verdict per transaction; the effects only grow, by at most one per transaction |
| MessageLogic.BatchRemembers | src/backend/messages.cjs:214-237 | a pass never forgets a hash and remembers every hash whose extra it read |
| MessageLogic.BatchSkipsKnown | src/backend/messages.cjs:214-237 | transactions that each have either a known hash or no extra data examine nothing and hand nothing on |
| MessageLogic.RepeatedBatchIsInert | src/backend/messages.cjs:214-237 | a second pass over the same transactions, extra data defined or not, examines nothing and hands nothing new on |
| MessageLogic.BatchExaminesOnce | src/backend/messages.cjs:214-237 | a hash that occurs twice in one pass is examined at most the first time |
| MessageLogic.BatchExaminesFirst | src/backend/messages.cjs:214-237 | the first transaction of a pass with a hash new to the pass, defined extra data and at most 7000 characters of it is examined; with MessageLogic.BatchExaminesOnce each such hash gets exactly one attempt |
| MessageLogic.BatchSkipsKnownAt | src/backend/messages.cjs:214-237 | a transaction whose hash is known at the start of the pass is not examined |
| MessageLogic.KeysAfterSaveContact | src/backend/messages.cjs:971-987 | for an ordinary contact a new key is appended and a known key leaves the list unchanged; for a first contact the pushed list loses its last key, which leaves the list unchanged for a new key and drops the last key for a known one |
| MessageLogic.FirstContactForgetsLastKey | src/backend/messages.cjs:978-987 | for a first contact with a known key, exactly one key is forgotten; the key itself is forgotten only when it was last, and always when it was last and occurs once |
| MessageLogic.SplitReceiver | src/backend/messages.cjs:370-380 | sending proceeds iff the receiver has 163 characters and the message is not empty; the 99-character address and the 64-character key concatenate back to the receiver |
| MessageLogic.GroupSendAllowed | src/backend/messages.cjs:614-629 | a group send proceeds iff the message is not empty and the group key is defined and has 64 characters |
| MessageLogic.OffchainFrame | src/backend/messages.cjs:434-436 | an off-chain frame is the random identifier, then "99", then the payload |
| MessageLogic.FrameId | src/backend/messages.cjs:871 | the receiver's frame identifier is the frame's first 64 characters, or the whole frame when shorter |
| MessageLogic.FrameRoundTrip | src/backend/messages.cjs:871 | the receiver recovers the sender's 64-character identifier, and the payload follows the delimiter |
| Messages.TryGroupKeys | src/backend/messages.cjs:818-836 | the key loop stops at exactly the key FirstOpening chooses, with its plaintext |
| Messages.MessageSync.constructor | src/backend/messages.cjs:158-161 | the syncer starts with no known pool hashes and the account's keys and block list |
| Messages.MessageSync.ValidateExtra | src/backend/messages.cjs:288-303 | the verdict and the new dedup list are those of MessageLogic.ValidateExtra |
| Messages.MessageSync.SetKnownPoolTxs | src/backend/messages.cjs:325-331 | the dedup list becomes the defined stored hashes |
| Messages.MessageSync.FetchHuginMessages | src/backend/messages.cjs:334-367 | the reported deletions are removed from the dedup list; an unreachable node or a malformed reply reports a sync error and yields nothing; an empty addition list yields nothing |
| Messages.MessageSync.CheckForPrivateMessage | src/backend/messages.cjs:240-248 | an opened direct message is saved, and nothing else is |
| Messages.MessageSync.DecryptGroupMessage | src/backend/messages.cjs:803-867 | the outcome is that of MessageLogic.DecryptGroup, and exactly an accepted message is saved |
| Messages.MessageSync.CheckForGroupMessage | src/backend/messages.cjs:273-285 | the group attempt and its effect are those of MessageLogic.CheckGroup |
| Messages.MessageSync.ProcessTransaction | src/backend/messages.cjs:215-235 | one iteration's verdict, dedup list and effects are those of MessageLogic.Step |
| Messages.MessageSync.DecryptHuginMessages | src/backend/messages.cjs:214-237 | the loop's verdicts, dedup list and effects are those of MessageLogic.Batch |
| Messages.MessageSync.BackgroundSync | src/backend/messages.cjs:200-211 | a failed fetch reports an error and scans nothing; an empty addition list scans nothing and reports nothing; in both cases the dedup list is the bootstrapped one less any reported deletions; otherwise the added transactions are scanned from the bootstrapped dedup list less the deletions |
| Messages.MessageSync.CheckHistory | src/backend/messages.cjs:992-1006 | an unknown key is remembered and has no history; a known key has history unless its conversation predates the version date; a known key without a conversation record throws |
| Messages.MessageSync.SaveContact | src/backend/messages.cjs:960-990 | the keys become MessageLogic.KeysAfterSaveContact's; the contact is stored as "Anon" without a nickname; a first contact also stores the greeting |
| Messages.MessageSync.SendMessage | src/backend/messages.cjs:370-463 | a bad receiver or empty message changes nothing; otherwise the key is appended to the known keys iff it was not known; each outcome holds exactly under its conditions: history throws for a known key without a conversation, unfunded unless funded or a beam send, then encryption fails, the transaction is relayed or refused, a beam send throws, or the frame goes to the peer layer; the encryption is sealed iff the key has no history; the relayed payload and the frame after the identifier and "99" are that encryption; a relayed hash joins the dedup list and the message is saved |
| Messages.MessageSync.SendGroupsMessage | src/backend/messages.cjs:614-723 | refused iff the message is empty or the key is not a defined 64-character one; on-chain it is unfunded, relayed or refused by the wallet exactly as the balance and the wallet decide, and a relayed hash joins the dedup list with the message saved under it; off-chain it goes to the swarm iff asked (saved under its identifier as a channel message) and otherwise to the peer layer |
| BeamLogic.AddressOf | src/backend/beam.cjs:51 | the beam's address is the first 99 characters of the chat handle |
| BeamLogic.MessageKeyOf | src/backend/beam.cjs:74 | the message key is characters 99 to 163 of the chat handle, clamped: whatever follows character 99 of a shorter handle, and empty for a handle of at most 99 characters |
| BeamLogic.ChatSplits | src/backend/beam.cjs:51-74 | address and message key concatenate back to a 163-character chat handle |
| BeamLogic.Classify | src/backend/beam.cjs:67-76 | "Start" and "Ping" are ignored; a frame that is not JSON is swallowed; a frame goes to decryption iff it is JSON, not null, and its type is none of the four file-frame types |
| BeamLogic.ClassifyJson | src/backend/beam.cjs:247-272 | a parsed frame throws iff it is null, and is never a control frame or a swallowed one |
| BeamLogic.NonJsonNeverDecrypted | src/backend/beam.cjs:238-243 | a frame the parser rejects is never decrypted |
| BeamLogic.SessionFor | src/backend/beam.cjs:132 | the session found is the first registered for that address, and none is found iff no entry has the address |
| BeamLogic.WithoutSessions | src/backend/beam.cjs:136 | after the filter no entry has the address, and every entry for another address remains |
| BeamLogic.EndedSessionGone | src/backend/beam.cjs:131-139 | after endBeam the address has no session, and the filter distributes over concatenation, so the remaining sessions keep their order |
| BeamLogic.EndingAbsentSession | src/backend/beam.cjs:131-133 | ending an address that has no session leaves the registry as it is |
| BeamLogic.LocalFileNamed | src/backend/beam.cjs:259 | the file found is the first catalogued with the requested name; nothing is found iff the name is absent or no entry has it |
| BeamLogic.WithoutLocalFile | src/backend/beam.cjs:202 | no entry with the name remains, and every other entry does |
| BeamLogic.RemovedLocalFileGone | src/backend/beam.cjs:202 | a removed local file can no longer be found by name |
| BeamLogic.RemoteRemovalByNameKeepsAll | src/backend/beam.cjs:208-216 | a removal frame naming a file leaves the remote catalog as it is |
| BeamLogic.RemoteRemovalWithoutNameClearsAll | src/backend/beam.cjs:208-216 | a removal frame without a file name empties the remote catalog |
| BeamLogic.KeepRemoteFiles | src/backend/beam.cjs:215 | removeRemoteFile's filter keeps only entries of the catalog, never more of them; which ones it keeps is stated by the two lemmas above |
| BeamLogic.DownloadPath | src/backend/beam.cjs:176 | the download path is the directory, a slash and the file name, with "undefined" in place of an unset directory or name |
| BeamLogic.TextOf | src/backend/beam.cjs:176 | a defined value is its own text and an absent one reads "undefined" |
| Beam.Beams.constructor | src/backend/beam.cjs:10-14 | the registry and the catalogs start empty, with no download directory |
| Beam.Beams.BeamEvent | src/backend/beam.cjs:49-53 | the beam is registered under the chat's address and announced; a first beam for an address is the one found for it afterwards |
| Beam.Beams.StartBeam | src/backend/beam.cjs:29-47 | a new beam writes "Start", is registered and yields a BEAM:// link to its key; a joined beam is registered under the given key; a failed creation registers nothing and stops the chat's beam |
| Beam.Beams.OnConnected | src/backend/beam.cjs:60-64 | connecting starts the address's heartbeat and announces the beam |
| Beam.Beams.PingTick | src/backend/beam.cjs:141-153 | a heartbeat pings the address's beam while one is registered, and stops for good once none is |
| Beam.Beams.EndBeam | src/backend/beam.cjs:131-139 | afterwards the address has no session; when it had one, the stop is announced and its beam is ended; otherwise nothing happens |
| Beam.Beams.SendBeamMessage | src/backend/beam.cjs:125-128 | the message is written to the address's beam, and without one nothing happens but a throw |
| Beam.Beams.AddLocalFile | src/backend/beam.cjs:191-197 | the file is catalogued in every case; the peer and the renderer are told only when the chat has a beam |
| Beam.Beams.RemoveLocalFile | src/backend/beam.cjs:199-206 | every entry with the name is dropped, then the call throws without notifying anyone |
| Beam.Beams.AddRemoteFile | src/backend/beam.cjs:208-212 | the entry `{file, chat}` is appended and the catalog is sent |
| Beam.Beams.RemoveRemoteFile | src/backend/beam.cjs:214-217 | a named file removes nothing, a frame with no file name clears the catalog, and the catalog is sent |
| Beam.Beams.RequestDownload | src/backend/beam.cjs:219-226 | the download directory is remembered, then the request is written to the address's beam if there is one |
| Beam.Beams.UploadReady | src/backend/beam.cjs:228-235 | the upload notice is written to the address's beam if there is one |
| Beam.Beams.SendFile | src/backend/beam.cjs:155-171 | the catalogued file is streamed into the address's beam; a missing file or beam throws |
| Beam.Beams.DownloadFile | src/backend/beam.cjs:173-189 | a write stream is opened on the download path, and the beam is piped into it when there is one |
| Beam.Beams.CheckDataMessage | src/backend/beam.cjs:238-273 | a frame is left for decryption iff Classify says so; a non-JSON frame changes nothing; every parsed frame is first reported as incoming data, then the catalog, the result and the notices and writes that follow are those Beam.Dispatched gives for its type: a null frame throws; file frames update the remote catalog and send it; a download request is noticed, then streams the file and announces the upload iff the file is catalogued and the beam exists, and throws otherwise; an upload notice opens the download file, then pipes the beam into it iff one exists, and throws otherwise |
| Beam.Dispatched | src/backend/beam.cjs:247-272 | a parsed frame is left for decryption iff its type is none of the file-frame types and it is not null, and then nothing follows; only a null frame, a download request or an upload notice can throw; only file frames change the remote catalog |
| Beam.Beams.Dispatch | src/backend/beam.cjs:247-272 | the result, the remote catalog and the effects appended after the incoming-data notice are those Beam.Dispatched gives for the frame's type |
| Beam.Beams.AnswerDownloadRequest | src/backend/beam.cjs:257-263 | the request is noticed; then the file is streamed into the beam and the upload notice is written with the file's size iff the file is catalogued and the beam exists; otherwise the call throws after the notice |
| Beam.Beams.AcceptUpload | src/backend/beam.cjs:266-270 | the download is noticed and its file opened; the beam is piped into it iff one exists, and otherwise the call throws |
| Beam.Beams.OnData | src/backend/beam.cjs:67-76 | control frames are ignored; exactly the frames Classify sends to decryption are decrypted, with the chat's message key; a non-JSON frame changes nothing; a handled or thrown parsed frame leaves the remote catalog and the effects (after the incoming-data notice) that Beam.Dispatched gives; a non-JSON or file frame is handled; a null frame throws; a download request throws iff the file or the beam is missing, and an upload notice iff the beam is missing |

## Left out

- The cryptography is out of scope: key derivation, `cn_fast_hash`, `extraDataToMessage`,
  nacl boxes and secretboxes, signing and signature checks. So is `trimExtra` with its
  `JSON.parse`. Their results are fields of `Crypto`, `SendEnv` and `GroupSendEnv`.
- The database is out of scope: `saveHash`, `saveMessage`, `saveGroupMessage`,
  `saveThisContact`, `loadGroups`, `getConversation` and the version date. The saves
  of messages and contacts are recorded as effects; their answers are inputs.
- `saveHash` is not recorded as an effect. It is called for an over-long extra in
  validateExtra, before a transaction is decrypted, and after a relayed send. Its
  answer before decryption is an input (`Context.hashSaved`); the other calls are
  left out.
- A sync pass is modelled as running without interruption. In the code,
  `backgroundSyncMessages` and `decryptHuginMessages` are started without `await`, and
  `saveMessage` starts `saveContact` without `await`. So `known_pool_txs` and
  `known_keys` could change between two iterations of a pass; the model does not
  capture such interleavings.
- The internals of `saveMessage` and `saveGroupMessage` are not modelled: sanitising,
  call parsing, the unknown-contact save and the renderer notices.
- `startMessageSyncer`'s `while (true)` / `sleep` loop, the wallet sync status and the
  wallet reset are not modelled. One iteration is `Messages.MessageSync.BackgroundSync`.
- `optimizeMessages` and its timer, `encryptMessage`, `checkBalance`, `decryptRtcMessage`,
  `decryptGroupRtcMessage` and `syncGroupHistory` are not modelled. The
  `fetchGroupHistory` and block-list IPC handlers are not modelled either. These are
  wallet, network and IPC code; their results enter as inputs where the core uses them.
- The fields `n`, `r` and `c` of an outgoing group payload are not modelled. The
  renderer notices `sent_group`, `sent_rtc_group` and `saved-addr` are not modelled.
- The invite check in `sendMessage` (`message.msg`) is not modelled. It is always
  false for a string message.
- `newBeam` / `setKeys`, `decryptMessage`'s body (decryption, `sanitizeHtml`, `saveMsg`)
  and the `remote-address`, `end`, `error` and SIGINT handlers are not modelled. The
  `end` and `error` handlers only call `EndBeam`.
- Hyperbeam streams, `progress-stream` progress reports, the file system and the
  interval timers are not modelled. A heartbeat is an address in `heartbeats`, and a
  tick is `Beam.Beams.PingTick`.
- MessageLogic.GroupTx: the off-chain text of a frame that comes without a supplied key is treated as having no secretbox (`NoKey`). In the code, `tx.sb` of a string is undefined; decoding it as hex then fails inside the per-key `try`, so no key opens the box, with the same result.
- BeamLogic.Json: a JSON `fileName` that is present but not a string (say `null`) is not distinguished from a string. `None` stands only for an absent field.

## Findings

| source | as written | input that shows it | evidently intended | confidence | as-written member | corrected member |
|---|---|---|---|---|---|---|
| src/backend/messages.cjs:311 | `checkedTxs.slice(arrayLength - 200, arrayLength - 1)`: when fewer than 200 hashes are stored, the start index is negative, so it counts from the end, and the last stored hash is always excluded | 199 stored hashes give an empty window (start -1 → 198, end 198); 150 give 49 hashes instead of 150 | the newest min(n, 200) stored hashes | high, not executed | MessageLogic.LoadCheckedTxsDropsWindow | MessageLogic.RecentCheckedTxs |
