/** The module-level state of src/backend/messages.cjs — the dedup list of pool
    transaction hashes, the contacts' message keys and the block list — and the
    operations that read and change it. What the client hands to storage or to the
    user interface is kept as an ordered log of effects. */
module Messages {
  import opened Js
  import opened MessageLogic

  /** decryptGroupMessage's `while (!decryptBox && i < groups.length)` loop: try the
      candidate keys in order and stop at the first that opens the box. */
  method TryGroupKeys(keys: seq<Key>, sb: string, t: int, c: Crypto) returns (r: Option<(nat, string)>)
    ensures r == FirstOpening(keys, sb, t, c)
  {
    var box: Option<string> := None;
    var i := 0;
    while box.None? && i < |keys|
      invariant 0 <= i <= |keys|
      invariant box.None? ==> forall j :: 0 <= j < i ==> c.openBox(sb, t, keys[j]).None?
      invariant box.Some? ==> 0 < i && c.openBox(sb, t, keys[i - 1]) == box
      invariant box.Some? ==> forall j :: 0 <= j < i - 1 ==> c.openBox(sb, t, keys[j]).None?
    {
      box := c.openBox(sb, t, keys[i]);
      i := i + 1;
    }
    if box.Some? {
      r := Some((i - 1, box.value));
      var first := FirstOpening(keys, sb, t, c);
      assert first.Some? && c.openBox(sb, t, keys[first.value.0]).Some?;
    } else {
      r := None;
    }
  }

  /** What sendMessage did. */
  datatype SendOutcome =
    | Refused                                       // wrong receiver length or empty message
    | HistoryThrew                                  // checkHistory found no conversation record
    | Unfunded                                      // checkBalance said no
    | EncryptThrew                                  // encryptMessage threw
    | Relayed(payload: string, sealed: bool, hash: Hash)  // the transaction was sent
    | RelayFailed                                   // the wallet refused the transaction
    | BeamUndefined(frame: string)                  // send_beam_message is not a function
    | Rtc(frame: string, sealed: bool)              // handed to the peer-to-peer layer

  /** The results of the calls sendMessage makes: the conversation record's timestamp
      (`None` when there is none), the stored version date, the balance check, the
      clock, the encryption to a hex payload (sealed or not; `None` when it throws), the
      text a hex payload's bytes read as once concatenated into a string, the wallet's
      transaction hash (`None` on failure) and the random frame identifier. */
  datatype SendEnv = SendEnv(conversation: Option<int>, versionDate: Option<int>, funded: bool, now: int,
                             encrypt: (string, Key, bool, Address) -> Option<string>,
                             hexText: string -> string, tx: Option<Hash>, randomKey: string)

  /** What a group message to send holds before it is signed: text, sender, group key. */
  datatype GroupDraft = GroupDraft(m: string, k: Address, g: Option<Key>)

  /** The results of the calls sendGroupsMessage makes: balance, clock, signature, the
      sealing of the payload into the `{sb, t}` JSON text (the secretbox under the group
      key, with the clock as nonce), the wallet's transaction hash and the random frame
      identifier. */
  datatype GroupSendEnv = GroupSendEnv(funded: bool, now: int, signature: string,
                                       seal: (GroupPayload, int) -> string,
                                       tx: Option<Hash>, randomKey: string)

  /** What sendGroupsMessage did. */
  datatype GroupSendOutcome =
    | GroupRefused                 // empty message, or no 64-character group key
    | GroupUnfunded                // checkBalance said no
    | GroupRelayed(hash: Hash)     // the transaction was sent
    | GroupRelayFailed             // the wallet refused the transaction
    | Swarm(frame: string)         // sent to the group's swarm
    | GroupRtc(frame: string)      // handed to the peer-to-peer layer

  class MessageSync {
    /** known_pool_txs: hashes of pool transactions already looked at. */
    var knownPoolTxs: seq<Hash>
    /** known_keys: the contacts' message keys, tried when opening direct messages. */
    var knownKeys: seq<Key>
    /** block_list: addresses whose group messages are discarded. */
    var blockList: seq<Address>
    /** What was handed to storage and to the user interface, in order. */
    var effects: seq<Effect>

    /** startMessageSyncer's set-up: the keys and block list come from the account. */
    constructor (keys: seq<Key>, blocked: seq<Address>)
      ensures knownPoolTxs == [] && knownKeys == keys && blockList == blocked && effects == []
    {
      knownPoolTxs := [];
      knownKeys := keys;
      blockList := blocked;
      effects := [];
    }

    /** The part of the state that a scan of the pool changes. */
    function State(): SyncState
      reads this
    {
      SyncState(knownPoolTxs, effects)
    }

    /** validateExtra: remember the hash; say whether the transaction is new and small enough. */
    method ValidateExtra(extra: string, hash: Hash) returns (ok: bool)
      modifies this`knownPoolTxs
      ensures (ok, knownPoolTxs) == MessageLogic.ValidateExtra(old(knownPoolTxs), extra, hash)
    {
      if |extra| > MaxExtraLength {
        knownPoolTxs := knownPoolTxs + [hash];
        return false;
      }
      if hash !in knownPoolTxs {
        knownPoolTxs := knownPoolTxs + [hash];
        return true;
      }
      return false;
    }

    /** setKnownPoolTxs, with the assignment its caller makes of its result: the dedup
        list becomes the stored hashes that are defined. */
    method SetKnownPoolTxs(checked: seq<Option<Hash>>) returns (known: seq<Hash>)
      modifies this`knownPoolTxs
      ensures known == Defined(checked) && knownPoolTxs == known
    {
      known := Defined(checked);
      knownPoolTxs := known;
    }

    /** The dedup-list update of fetchHuginMessages and its result: the deleted hashes
        are dropped, an empty addition list yields nothing, and any exception yields
        nothing and reports a sync error. */
    method FetchHuginMessages(reply: PoolReply) returns (txs: Option<seq<Transaction>>)
      modifies this`knownPoolTxs, this`effects
      ensures reply.Reply? && reply.deleted.Some? ==> knownPoolTxs == RemoveDeleted(old(knownPoolTxs), reply.deleted.value)
      ensures reply.Unreachable? || reply.deleted.None? ==> knownPoolTxs == old(knownPoolTxs)
      ensures effects == old(effects) + (if FetchFails(old(knownPoolTxs), reply) then [SyncError] else [])
      ensures txs.Some? <==> !FetchFails(old(knownPoolTxs), reply) && reply.added.value != []
      ensures txs.Some? ==> txs == reply.added
    {
      match reply
      case Unreachable =>
        effects := effects + [SyncError];
        return None;
      case Reply(added, deleted) =>
        if deleted.None? && knownPoolTxs != [] {
          // `includes` on the missing list throws inside the filter callback
          effects := effects + [SyncError];
          return None;
        }
        if deleted.Some? {
          knownPoolTxs := RemoveDeleted(knownPoolTxs, deleted.value);
        }
        if added.None? {
          effects := effects + [SyncError];
          return None;
        }
        if added.value == [] {
          return None;
        }
        return added;
    }

    /** checkForPrivateMessage: open the extra data with the known message keys and, when
        it opens, hand the message to storage; the type test always passes. */
    method CheckForPrivateMessage(extra: string, c: Crypto) returns (r: Attempt<Message>)
      modifies this`effects
      ensures r == c.openDirect(extra, knownKeys)
      ensures effects == old(effects) + (if r.Opened? then [SaveDirect(r.value)] else [])
    {
      r := c.openDirect(extra, knownKeys);
      if r.Opened? && AcceptsDirectKind(r.value.kind) {
        effects := effects + [SaveDirect(r.value)];
      }
    }

    /** decryptGroupMessage: the candidate keys are the stored groups, with a supplied
        64-character key put in front (and the message then off-chain); the first key
        that opens the box is used; then the signature and block-list gates; an accepted
        message is handed to storage. */
    method DecryptGroupMessage(tx: GroupTx, hash: Hash, groupKey: string, groups: seq<Key>, c: Crypto)
      returns (r: GroupOutcome)
      modifies this`effects
      ensures r == DecryptGroup(tx, groupKey, groups, blockList, c)
      ensures effects == old(effects) + (if r.Accepted? then [SaveGroup(r.payload, hash, r.t, r.offchain)] else [])
    {
      var offchain := false;
      var keys := groups;
      var env: Option<Envelope>;
      if |groupKey| == KeyLength {
        env := match tx case Raw(text) => c.parse(text) case Parsed(_) => None;
        if env.None? {
          return Unparsable;
        }
        keys := [groupKey] + keys;
        offchain := true;
      } else {
        // the text of a frame has no `sb` field, so every attempt would throw
        env := match tx case Parsed(e) => Some(e) case Raw(_) => None;
        if env.None? {
          return NoKey;
        }
      }
      var hit := TryGroupKeys(keys, env.value.sb, env.value.t, c);
      if hit.None? {
        return NoKey;
      }
      r := CheckOpened(hit.value.1, env.value.t, offchain, blockList, c);
      if r.Accepted? {
        effects := effects + [SaveGroup(r.payload, hash, r.t, r.offchain)];
      }
    }

    /** checkForGroupMessage: a parsed envelope with a secretbox is decrypted as a group message. */
    method CheckForGroupMessage(extra: string, hash: Hash, groups: seq<Key>, c: Crypto) returns (v: Verdict)
      modifies this`effects
      ensures (State(), v) == CheckGroup(old(State()), extra, hash, groups, blockList, c)
    {
      var env := c.parse(extra);
      if env.None? || env.value.sb == "" {
        return NoMatch;
      }
      var outcome := DecryptGroupMessage(Parsed(env.value), hash, "", groups, c);
      assert knownPoolTxs == old(knownPoolTxs);
      assert outcome == DecryptGroup(Parsed(env.value), "", groups, blockList, c);
      assert State() == CheckGroup(old(State()), extra, hash, groups, blockList, c).0;
      return Group(outcome);
    }

    /** One iteration of decryptHuginMessages' loop. */
    method ProcessTransaction(tx: Transaction, groups: seq<Key>, hashSaved: Hash -> bool, c: Crypto) returns (v: Verdict)
      modifies this`knownPoolTxs, this`effects
      ensures (State(), v) == Step(old(State()), tx, Context(knownKeys, blockList, groups, hashSaved, c))
    {
      if tx.extra.None? {
        // validateExtra reads the length of undefined and throws
        return Unreadable;
      }
      var extra := tx.extra.value;
      var ok := ValidateExtra(extra, tx.hash);
      if !ok {
        return Skipped;
      }
      if |extra| <= MinMessageLength {
        return Short;
      }
      if !hashSaved(tx.hash) {
        return Unsaved;
      }
      ghost var ctx := Context(knownKeys, blockList, groups, hashSaved, c);
      ghost var pre := State();
      assert Step(old(State()), tx, ctx) == Examine(pre, extra, tx.hash, ctx);
      var tagged := ViewTagMatches(extra, c);
      var direct := CheckForPrivateMessage(extra, c);
      if tagged {
        assert State() == Examine(pre, extra, tx.hash, ctx).0;
        return Tagged(direct.Opened?);
      }
      if direct.Opened? {
        assert State() == Examine(pre, extra, tx.hash, ctx).0;
        return Direct;
      }
      if direct.Threw? {
        assert State() == pre;
        return DirectThrew;
      }
      assert direct.NotOpened? && State() == pre;
      assert Examine(pre, extra, tx.hash, ctx) == CheckGroup(pre, extra, tx.hash, groups, blockList, c);
      v := CheckForGroupMessage(extra, tx.hash, groups, c);
      assert (State(), v) == CheckGroup(pre, extra, tx.hash, groups, blockList, c);
    }

    /** decryptHuginMessages: every transaction in order, each with its verdict. */
    method DecryptHuginMessages(txs: seq<Transaction>, groups: seq<Key>, hashSaved: Hash -> bool, c: Crypto)
      returns (verdicts: seq<Verdict>)
      modifies this`knownPoolTxs, this`effects
      ensures (State(), verdicts) == Batch(old(State()), txs, Context(knownKeys, blockList, groups, hashSaved, c))
    {
      var ctx := Context(knownKeys, blockList, groups, hashSaved, c);
      verdicts := [];
      for i := 0 to |txs|
        invariant Batch(State(), txs[i..], ctx).0 == Batch(old(State()), txs, ctx).0
        invariant verdicts + Batch(State(), txs[i..], ctx).1 == Batch(old(State()), txs, ctx).1
      {
        assert txs[i..][1..] == txs[i + 1..];
        var v := ProcessTransaction(txs[i], groups, hashSaved, c);
        verdicts := verdicts + [v];
      }
      assert txs[|txs|..] == [];
      assert Batch(State(), txs[|txs|..], ctx) == (State(), []);
      assert verdicts == verdicts + [];
    }

    /** One iteration of backgroundSyncMessages: on the first run the dedup list is set
        from the stored hashes, then the pool changes are fetched, then scanned. */
    method BackgroundSync(checked: Option<seq<Option<Hash>>>, reply: PoolReply, groups: seq<Key>,
                          hashSaved: Hash -> bool, c: Crypto) returns (verdicts: seq<Verdict>)
      modifies this`knownPoolTxs, this`effects
      ensures var known := if checked.Some? then Defined(checked.value) else old(knownPoolTxs);
        FetchFails(known, reply) ==> verdicts == [] && effects == old(effects) + [SyncError]
      ensures var known := if checked.Some? then Defined(checked.value) else old(knownPoolTxs);
        !FetchFails(known, reply) && reply.added.value != [] ==>
          (State(), verdicts) == Batch(SyncState(if reply.deleted.Some? then RemoveDeleted(known, reply.deleted.value) else known, old(effects)),
                                       reply.added.value, Context(knownKeys, blockList, groups, hashSaved, c))
      ensures var known := if checked.Some? then Defined(checked.value) else old(knownPoolTxs);
        FetchFails(known, reply) || reply.added.value == [] ==>
          knownPoolTxs == (if reply.Reply? && reply.deleted.Some? then RemoveDeleted(known, reply.deleted.value) else known)
      ensures var known := if checked.Some? then Defined(checked.value) else old(knownPoolTxs);
        !FetchFails(known, reply) && reply.added.value == [] ==> verdicts == [] && effects == old(effects)
    {
      if checked.Some? {
        var _ := SetKnownPoolTxs(checked.value);
      }
      ghost var known := knownPoolTxs;
      var txs := FetchHuginMessages(reply);
      if txs.None? {
        return [];
      }
      assert State() == SyncState(if reply.deleted.Some? then RemoveDeleted(known, reply.deleted.value) else known, old(effects));
      verdicts := DecryptHuginMessages(txs.value, groups, hashSaved, c);
    }

    /** checkHistory: a known message key has history when its conversation is not older
        than the stored version date; an unknown key is remembered and has none. A known
        key without a conversation record makes the call throw (`None`). */
    method CheckHistory(messageKey: Key, addr: Address, conversation: Option<int>, versionDate: Option<int>)
      returns (r: Option<bool>)
      modifies this`knownKeys
      ensures messageKey in knownKeys
      ensures knownKeys == if messageKey in old(knownKeys) then old(knownKeys) else old(knownKeys) + [messageKey]
      ensures messageKey !in old(knownKeys) ==> r == Some(false)
      ensures messageKey in old(knownKeys) ==> (r.None? <==> conversation.None?)
      ensures messageKey in old(knownKeys) && conversation.Some? ==>
        r == Some(!(versionDate.Some? && conversation.value < versionDate.value))
    {
      if messageKey in knownKeys {
        if conversation.None? {
          return None;
        }
        // a missing version date parses to NaN, and a comparison with NaN is false
        return Some(!(versionDate.Some? && conversation.value < versionDate.value));
      }
      knownKeys := knownKeys + [messageKey];
      return Some(false);
    }

    /** saveContact: the address is the first 99 characters and the key the next 64;
        a new key is remembered, the contact is stored under the nickname or "Anon",
        and a first contact also stores a greeting and then pops the last key. */
    method SaveContact(huginAddress: string, nickname: string, first: bool, now: int)
      modifies this`knownKeys, this`effects
      ensures var key := Substring(huginAddress, AddressLength, ReceiverLength);
        knownKeys == KeysAfterSaveContact(old(knownKeys), key, first)
      ensures var addr, key := Substring(huginAddress, 0, AddressLength), Substring(huginAddress, AddressLength, ReceiverLength);
        effects == old(effects) + [Effect.SaveContact(addr, key, if nickname == "" then "Anon" else nickname)]
          + (if first then [SaveSent("New friend added!", key, now, addr, false)] else [])
    {
      var name := if nickname == "" then "Anon" else nickname;
      var addr := Substring(huginAddress, 0, AddressLength);
      var key := Substring(huginAddress, AddressLength, ReceiverLength);
      if key !in knownKeys {
        knownKeys := knownKeys + [key];
      }
      effects := effects + [Effect.SaveContact(addr, key, name)];
      if first {
        effects := effects + [SaveSent("New friend added!", key, now, addr, false)];
        knownKeys := knownKeys[..|knownKeys| - 1];
      }
    }

    /** Whether sendMessage encrypts sealed: the key has no history, because it was not
        known before or its conversation is older than the stored version date. */
    predicate SendsSealed(known: seq<Key>, key: Key, env: SendEnv)
    {
      key !in known || (env.conversation.Some? && env.versionDate.Some? && env.conversation.value < env.versionDate.value)
    }

    /** Whether sendMessage gets as far as encrypting: the input is accepted, the history
        check does not throw, and the balance check passes or is skipped for a beam. */
    predicate SendReachesEncryption(message: string, receiver: string, known: seq<Key>, beamThis: bool, env: SendEnv)
    {
      && SplitReceiver(message, receiver).Some?
      && !(Substring(receiver, AddressLength, ReceiverLength) in known && env.conversation.None?)
      && (beamThis || env.funded)
    }

    /** sendMessage: refuse a receiver that is not exactly 163 characters or an empty
        message; otherwise split the receiver, consult the history (which remembers a
        new key), encrypt sealed when there is no history, and relay the payload either
        as a transaction (whose hash is then known, so it is never scanned as new) or as
        an off-chain frame. */
    method SendMessage(message: string, receiver: string, offChain: bool, group: bool, beamThis: bool, env: SendEnv)
      returns (o: SendOutcome)
      modifies this`knownKeys, this`knownPoolTxs, this`effects
      ensures o.Refused? <==> SplitReceiver(message, receiver).None?
      ensures o.Refused? ==> knownKeys == old(knownKeys) && knownPoolTxs == old(knownPoolTxs) && effects == old(effects)
      ensures !o.Refused? ==> receiver[AddressLength..] in knownKeys
      ensures !o.Refused? ==>
        knownKeys == if receiver[AddressLength..] in old(knownKeys) then old(knownKeys) else old(knownKeys) + [receiver[AddressLength..]]
      ensures o.HistoryThrew? ==> receiver[AddressLength..] in old(knownKeys) && env.conversation.None?
      ensures o.Relayed? || o.Rtc? ==> (receiver[AddressLength..] !in old(knownKeys) ==> o.sealed)
      ensures o.Relayed? ==> !offChain && env.tx == Some(o.hash) && knownPoolTxs == old(knownPoolTxs) + [o.hash]
      ensures o.Relayed? ==> effects == old(effects) + [SaveSent(message, receiver[AddressLength..], env.now, receiver[..AddressLength], false)]
      ensures !o.Relayed? ==> knownPoolTxs == old(knownPoolTxs)
      ensures o.Rtc? ==> (offChain && !beamThis &&
        |env.randomKey| + 2 <= |o.frame| && o.frame[..|env.randomKey|] == env.randomKey && o.frame[|env.randomKey|..|env.randomKey| + 2] == "99")
      ensures o.Rtc? ==> effects == old(effects) + [RtcMessage(o.frame, Some(receiver[..AddressLength]), group),
                                                     SaveSent(message, receiver[AddressLength..], env.now, receiver[..AddressLength], true)]
      ensures o.RelayFailed? ==> effects == old(effects) + [SendError]
      ensures !o.Relayed? && !o.Rtc? && !o.RelayFailed? ==> effects == old(effects)
      ensures o.HistoryThrew? <==> (SplitReceiver(message, receiver).Some? &&
        Substring(receiver, AddressLength, ReceiverLength) in old(knownKeys) && env.conversation.None?)
      ensures o.Unfunded? <==> SplitReceiver(message, receiver).Some? && !o.HistoryThrew? && !beamThis && !env.funded
      ensures var key, addr := Substring(receiver, AddressLength, ReceiverLength), Substring(receiver, 0, AddressLength);
        var payload := env.encrypt(message, key, SendsSealed(old(knownKeys), key, env), addr);
        && (o.EncryptThrew? <==> SendReachesEncryption(message, receiver, old(knownKeys), beamThis, env) && payload.None?)
        && (o.Relayed? <==> SendReachesEncryption(message, receiver, old(knownKeys), beamThis, env) && payload.Some? && !offChain && env.tx.Some?)
        && (o.RelayFailed? <==> SendReachesEncryption(message, receiver, old(knownKeys), beamThis, env) && payload.Some? && !offChain && env.tx.None?)
        && (o.BeamUndefined? <==> SendReachesEncryption(message, receiver, old(knownKeys), beamThis, env) && payload.Some? && offChain && beamThis)
        && (o.Rtc? <==> SendReachesEncryption(message, receiver, old(knownKeys), beamThis, env) && payload.Some? && offChain && !beamThis)
      ensures var key, addr := Substring(receiver, AddressLength, ReceiverLength), Substring(receiver, 0, AddressLength);
        var sealed := SendsSealed(old(knownKeys), key, env);
        && (o.Relayed? ==> o.payload == env.encrypt(message, key, sealed, addr).value && o.sealed == sealed)
        && (o.Rtc? ==> o.sealed == sealed)
        && (o.Rtc? || o.BeamUndefined? ==> o.frame == OffchainFrame(env.randomKey, env.hexText(env.encrypt(message, key, sealed, addr).value)))
    {
      var split := SplitReceiver(message, receiver);
      if split.None? {
        return Refused;
      }
      var address, key := split.value.0, split.value.1;
      assert address == receiver[..AddressLength] && key == receiver[AddressLength..];
      var history := CheckHistory(key, address, env.conversation, env.versionDate);
      if history.None? {
        return HistoryThrew;
      }
      if !beamThis && !env.funded {
        return Unfunded;
      }
      var sealed := !history.value;
      var payload := env.encrypt(message, key, sealed, address);
      if payload.None? {
        return EncryptThrew;
      }
      if !offChain {
        match env.tx
        case Some(h) =>
          knownPoolTxs := knownPoolTxs + [h];
          effects := effects + [SaveSent(message, key, env.now, address, false)];
          return Relayed(payload.value, sealed, h);
        case None =>
          effects := effects + [SendError];
          return RelayFailed;
      }
      var frame := OffchainFrame(env.randomKey, env.hexText(payload.value));
      if beamThis {
        // the imported send_beam_message is undefined: calling it throws
        return BeamUndefined(frame);
      }
      effects := effects + [RtcMessage(frame, Some(address), group), SaveSent(message, key, env.now, address, true)];
      return Rtc(frame, sealed);
    }

    /** sendGroupsMessage: refuse an empty message or a group key that is missing or not
        64 characters; sign and seal the payload; relay it as a transaction (whose hash
        is then known) or as an off-chain frame, to the swarm or to the peer layer. */
    method SendGroupsMessage(draft: GroupDraft, offchain: bool, swarm: bool, env: GroupSendEnv)
      returns (o: GroupSendOutcome)
      modifies this`knownPoolTxs, this`effects
      ensures o.GroupRefused? <==> !GroupSendAllowed(draft.m, draft.g)
      ensures o.GroupUnfunded? <==> GroupSendAllowed(draft.m, draft.g) && !offchain && !env.funded
      ensures o.GroupRelayed? <==> GroupSendAllowed(draft.m, draft.g) && !offchain && env.funded && env.tx.Some?
      ensures o.GroupRelayFailed? <==> GroupSendAllowed(draft.m, draft.g) && !offchain && env.funded && env.tx.None?
      ensures o.Swarm? <==> GroupSendAllowed(draft.m, draft.g) && offchain && swarm
      ensures o.GroupRtc? <==> GroupSendAllowed(draft.m, draft.g) && offchain && !swarm
      ensures o.GroupRelayed? ==> !offchain && env.tx == Some(o.hash) && knownPoolTxs == old(knownPoolTxs) + [o.hash]
      ensures o.GroupRelayed? ==>
        effects == old(effects) + [SaveSentGroup(GroupPayload(draft.m, draft.k, env.signature, draft.g.value), o.hash, env.now, false, false)]
      ensures !o.GroupRelayed? ==> knownPoolTxs == old(knownPoolTxs)
      ensures o.Swarm? || o.GroupRtc? ==> (offchain && draft.g.Some? &&
        o.frame == OffchainFrame(env.randomKey, env.seal(GroupPayload(draft.m, draft.k, env.signature, draft.g.value), env.now)))
      ensures o.Swarm? ==> swarm && effects == old(effects) + [SwarmMessage(o.frame, draft.g.value),
        SaveSentGroup(GroupPayload(draft.m, draft.k, env.signature, draft.g.value), env.randomKey, env.now, false, true)]
      ensures o.GroupRtc? ==> !swarm && effects == old(effects) + [RtcMessage(o.frame, None, true)]
      ensures o.GroupRelayFailed? ==> effects == old(effects) + [SendError]
      ensures o.GroupRefused? || o.GroupUnfunded? ==> effects == old(effects)
    {
      if !GroupSendAllowed(draft.m, draft.g) {
        return GroupRefused;
      }
      if !offchain && !env.funded {
        return GroupUnfunded;
      }
      var payload := GroupPayload(draft.m, draft.k, env.signature, draft.g.value);
      var sealed := env.seal(payload, env.now);
      if !offchain {
        match env.tx
        case Some(h) =>
          effects := effects + [SaveSentGroup(payload, h, env.now, false, false)];
          knownPoolTxs := knownPoolTxs + [h];
          return GroupRelayed(h);
        case None =>
          effects := effects + [SendError];
          return GroupRelayFailed;
      }
      var frame := OffchainFrame(env.randomKey, sealed);
      if swarm {
        effects := effects + [SwarmMessage(frame, draft.g.value), SaveSentGroup(payload, env.randomKey, env.now, false, true)];
        return Swarm(frame);
      }
      effects := effects + [RtcMessage(frame, None, true)];
      return GroupRtc(frame);
    }
  }
}
