/** The decision logic of src/backend/messages.cjs, as functions of the client's state
    and of the results of the calls it makes: which pool transactions are examined, in
    which order the decryptions are tried, which candidate key opens a group message,
    and what is handed to storage. Cryptography, JSON parsing and the database are not
    implemented here: their results are the fields of `Crypto` and `Context`. */
module MessageLogic {
  import opened Js

  type Hash = string
  type Key = string
  type Address = string

  /** Extra data longer than this is rejected outright (and its hash remembered). */
  const MaxExtraLength := 7000
  /** Extra data of at most this length is never a message. */
  const MinMessageLength := 200
  /** loadCheckedTxs asks for this many of the stored hashes. */
  const StoredWindow := 200
  /** A chat address is this long; the message key follows it. */
  const AddressLength := 99
  /** A receiver is an address followed by a 64-character message key. */
  const ReceiverLength := 163
  /** A group key, and the random id that starts an off-chain frame. */
  const KeyLength := 64

  /** A pool transaction after the node's reply was rewritten: its extra data
      (`None` when the field is undefined) and its hash. */
  datatype Transaction = Transaction(extra: Option<string>, hash: Hash)

  /** The fields of a parsed envelope that the client consults; a missing field reads
      as "" (a falsy value) or 0. */
  datatype Envelope = Envelope(vt: string, txKey: string, sb: string, t: int)

  /** A direct message as extraDataToMessage returns it. */
  datatype Message = Message(kind: string, from: Address, key: Key, text: string, t: int)

  /** The opened plaintext of a group secretbox: message, sender, signature, group. */
  datatype GroupPayload = GroupPayload(m: string, k: Address, s: string, g: string)

  /** A call that returns a value, returns nothing (a falsy value), or throws. */
  datatype Attempt<T> = Opened(value: T) | NotOpened | Threw

  /** The cryptography and parsing that the client calls but does not implement. */
  datatype Crypto = Crypto(
    parse: string -> Option<Envelope>,                  // JSON.parse(trimExtra(x)); None when it throws
    derive: (string, string) -> Option<string>,         // generateKeyDerivation(txKey, view key)
    fastHash: string -> string,                         // cn_fast_hash
    viewKey: string,                                    // the private view key
    openDirect: (string, seq<Key>) -> Attempt<Message>, // extraDataToMessage(extra, known_keys, ...)
    openBox: (string, int, Key) -> Option<string>,      // nacl.secretbox.open; None when null or thrown
    parsePayload: string -> Option<GroupPayload>,       // JSON.parse of the opened box
    spendKey: Address -> Option<string>,                // Address.fromAddress(k).spend.publicKey
    verify: (string, string, string) -> bool            // verifyMessageSignature(m, key, s)
  )

  /** What the client hands to storage or to the user interface, in order. */
  datatype Effect =
    | SaveDirect(msg: Message)                                   // saveMessage of a received message
    | SaveGroup(payload: GroupPayload, hash: Hash, t: int, offchain: bool)  // saveGroupMessage
    | SaveSent(text: string, key: Key, t: int, chat: Address, offchain: bool)
    | SaveSentGroup(payload: GroupPayload, hash: Hash, t: int, offchain: bool, channel: bool)
    | SaveContact(addr: Address, key: Key, name: string)         // saveThisContact
    | RtcMessage(frame: string, to: Option<Address>, group: bool) // 'rtc_message'
    | SwarmMessage(frame: string, groupKey: Key)                   // send_swarm_message
    | SyncError                                                  // 'sync', 'Error'
    | SendError                                                  // 'error_msg'

  // ---------------------------------------------------------------------------
  // The dedup list of pool transaction hashes

  /** validateExtra: whether the transaction is to be examined, and the dedup list
      afterwards. The hash is remembered in every case, and nothing is forgotten. */
  function ValidateExtra(known: seq<Hash>, extra: string, hash: Hash): (r: (bool, seq<Hash>))
    ensures r.0 <==> |extra| <= MaxExtraLength && hash !in known
    ensures |known| <= |r.1| <= |known| + 1 && r.1[..|known|] == known
    ensures |r.1| == |known| + 1 ==> r.1[|known|] == hash
    ensures r.1 == known <==> |extra| <= MaxExtraLength && hash in known
    ensures hash in r.1
  {
    if |extra| > MaxExtraLength then (false, known + [hash])
    else if hash !in known then (true, known + [hash])
    else (false, known)
  }

  /** A hash that passed validation never passes again until it is removed: whatever
      extra data comes with it the second time, the verdict is false and an extra of
      acceptable size leaves the list as it is. */
  lemma ValidateExtraOnce(known: seq<Hash>, extra: string, again: string, hash: Hash)
    requires ValidateExtra(known, extra, hash).0
    ensures !ValidateExtra(ValidateExtra(known, extra, hash).1, again, hash).0
    ensures |again| <= MaxExtraLength ==>
      ValidateExtra(ValidateExtra(known, extra, hash).1, again, hash).1 == ValidateExtra(known, extra, hash).1
  {
  }

  /** loadCheckedTxs: `slice(n - 200, n - 1)` of the stored hashes under JavaScript's
      slice rules, or [] when nothing is stored. The result is a contiguous run of
      stored hashes, at most 199 of them, that ends just before the last one. */
  function LoadCheckedTxs(stored: seq<Option<Hash>>): (r: seq<Option<Hash>>)
    ensures stored == [] ==> r == []
    ensures |r| <= StoredWindow - 1
    ensures stored != [] ==> |r| < |stored| && r == stored[|stored| - 1 - |r|..|stored| - 1]
  {
    var n := |stored|;
    if n > 0 then Slice(stored, n - StoredWindow, n - 1) else []
  }

  /** How many hashes loadCheckedTxs returns: a negative start counts back from the
      end, so between 101 and 199 stored hashes the window shrinks as the store grows. */
  lemma LoadCheckedTxsLength(stored: seq<Option<Hash>>)
    ensures 0 < |stored| <= 100 ==> |LoadCheckedTxs(stored)| == |stored| - 1
    ensures 100 < |stored| < StoredWindow ==> |LoadCheckedTxs(stored)| == 199 - |stored|
    ensures |stored| >= StoredWindow ==> |LoadCheckedTxs(stored)| == StoredWindow - 1
  {
  }

  /** With 199 stored hashes the bootstrap window is empty. */
  lemma LoadCheckedTxsDropsWindow(stored: seq<Option<Hash>>)
    requires |stored| == StoredWindow - 1
    ensures LoadCheckedTxs(stored) == []
  {
  }

  /** The bootstrap window as evidently intended: the most recent stored hashes, up to
      200 of them, the last one included. */
  function RecentCheckedTxs(stored: seq<Option<Hash>>): (r: seq<Option<Hash>>)
    ensures |r| == if |stored| < StoredWindow then |stored| else StoredWindow
    ensures r == stored[|stored| - |r|..]
  {
    var n := |stored|;
    Slice(stored, if n < StoredWindow then 0 else n - StoredWindow, n)
  }

  /** The intended window never shrinks as the store grows, and always holds the newest hash. */
  lemma RecentCheckedTxsGrows(stored: seq<Option<Hash>>, h: Option<Hash>)
    ensures |RecentCheckedTxs(stored)| <= |RecentCheckedTxs(stored + [h])|
    ensures RecentCheckedTxs(stored + [h])[|RecentCheckedTxs(stored + [h])| - 1] == h
  {
  }

  /** setKnownPoolTxs: the stored hashes without the undefined ones, in stored order. */
  function Defined(checked: seq<Option<Hash>>): (r: seq<Hash>)
    ensures |r| <= |checked|
    ensures forall h :: h in r <==> Some(h) in checked
  {
    if checked == [] then []
    else (match checked[0] case Some(h) => [h] case None => []) + Defined(checked[1..])
  }

  /** The node's answer to get_pool_changes_lite: unreachable (the request or the JSON
      decoding threw), or the added transactions and deleted hashes, each `None` when
      the field is missing. */
  datatype PoolReply = Unreachable | Reply(added: Option<seq<Transaction>>, deleted: Option<seq<Hash>>)

  /** Whether fetchHuginMessages ends in its catch: the node is unreachable, the
      deletion list is missing while there is a hash to test against it, or the added
      list is missing. */
  predicate FetchFails(known: seq<Hash>, reply: PoolReply)
    ensures reply.Unreachable? ==> FetchFails(known, reply)
    ensures reply.Reply? && reply.added.None? ==> FetchFails(known, reply)
    ensures reply.Reply? && reply.deleted.None? && known != [] ==> FetchFails(known, reply)
    ensures reply.Reply? && reply.deleted.Some? && reply.added.Some? ==> !FetchFails(known, reply)
    ensures known == [] && reply.Reply? && reply.added.Some? ==> !FetchFails(known, reply)
  {
    || reply.Unreachable?
    || (reply.deleted.None? && known != [])
    || reply.added.None?
  }

  /** The dedup list after the node's reply: every hash the node reports deleted is
      dropped, the rest keep their relative order. */
  function RemoveDeleted(known: seq<Hash>, deleted: seq<Hash>): (r: seq<Hash>)
    ensures forall i :: 0 <= i < |r| ==> r[i] in known && r[i] !in deleted
    ensures forall i :: 0 <= i < |known| && known[i] !in deleted ==> known[i] in r
  {
    Filter(known, (h: Hash) => h !in deleted)
  }

  /** Removal acts hash by hash: removing from a concatenation is removing from each part,
      which is to say the survivors stay in their previous order. */
  lemma RemoveDeletedOrder(a: seq<Hash>, b: seq<Hash>, deleted: seq<Hash>)
    ensures RemoveDeleted(a + b, deleted) == RemoveDeleted(a, deleted) + RemoveDeleted(b, deleted)
  {
    FilterAppend(a, b, (h: Hash) => h !in deleted);
  }

  /** An empty deletion list leaves the dedup list as it is, and a list from which
      nothing reported is left stays as it is under the same report. */
  lemma RemoveDeletedStable(known: seq<Hash>, deleted: seq<Hash>)
    ensures RemoveDeleted(known, []) == known
    ensures RemoveDeleted(RemoveDeleted(known, deleted), deleted) == RemoveDeleted(known, deleted)
  {
    FilterKeepsAll(known, (h: Hash) => h !in []);
    FilterIdempotent(known, (h: Hash) => h !in deleted);
  }

  // ---------------------------------------------------------------------------
  // View tags and the decryption attempts

  /** checkForViewTag: the envelope advertises a non-empty tag and it equals the first
      two characters of the hash of the key derivation. */
  function ViewTagMatches(extra: string, c: Crypto): (r: bool)
    ensures r ==> c.parse(extra).Some? && 0 < |c.parse(extra).value.vt| <= 2
    ensures r ==> c.derive(c.parse(extra).value.txKey, c.viewKey).Some?
    ensures c.parse(extra).Some? && c.parse(extra).value.vt != "" && c.derive(c.parse(extra).value.txKey, c.viewKey).Some? ==>
      (r <==> c.parse(extra).value.vt == Substring(c.fastHash(c.derive(c.parse(extra).value.txKey, c.viewKey).value), 0, 2))
  {
    match c.parse(extra)
    case None => false
    case Some(env) =>
      env.vt != "" &&
      match c.derive(env.txKey, c.viewKey)
      case None => false
      case Some(d) => Substring(c.fastHash(d), 0, 2) == env.vt
  }

  /** A matching tag is a prefix of the derivation's hash; a tag of three or more
      characters never matches. */
  lemma ViewTagIsHashPrefix(extra: string, c: Crypto)
    requires ViewTagMatches(extra, c)
    ensures c.parse(extra).value.vt <= c.fastHash(c.derive(c.parse(extra).value.txKey, c.viewKey).value)
  {
    var h := c.fastHash(c.derive(c.parse(extra).value.txKey, c.viewKey).value);
    if |h| < 2 {
      assert Substring(h, 0, 2) == h;
    }
  }

  /** The type test of checkForPrivateMessage: `type === 'sealedbox' || 'box'`, whose
      second operand is a non-empty string literal and so always truthy. */
  function AcceptsDirectKind(kind: string): (r: bool)
    ensures r
  {
    kind == "sealedbox" || "box" != ""
  }

  /** The list of candidate group keys, for an off-chain frame with the supplied key first. */
  function CandidateKeys(groupKey: string, groups: seq<Key>): (r: seq<Key>)
    ensures |groupKey| == KeyLength ==> r == [groupKey] + groups
    ensures |groupKey| != KeyLength ==> r == groups
  {
    if |groupKey| == KeyLength then [groupKey] + groups else groups
  }

  /** Whether a candidate key opens the box. */
  function Opens(sb: string, t: int, c: Crypto): Key -> bool
  {
    (k: Key) => c.openBox(sb, t, k).Some?
  }

  /** The first candidate key that opens the box, with the plaintext it yields. */
  function FirstOpening(keys: seq<Key>, sb: string, t: int, c: Crypto): (r: Option<(nat, string)>)
    ensures r.Some? ==> r.value.0 < |keys| && c.openBox(sb, t, keys[r.value.0]) == Some(r.value.1)
    ensures r.Some? ==> forall j :: 0 <= j < r.value.0 ==> c.openBox(sb, t, keys[j]).None?
    ensures r.None? <==> forall j :: 0 <= j < |keys| ==> c.openBox(sb, t, keys[j]).None?
  {
    match FindIndex(keys, Opens(sb, t, c))
    case None => None
    case Some(i) => Some((i, c.openBox(sb, t, keys[i]).value))
  }

  /** A key that does not open the box is passed over as if it were not in the list. */
  lemma FirstOpeningSkipsFailure(k: Key, rest: seq<Key>, sb: string, t: int, c: Crypto)
    requires c.openBox(sb, t, k).None?
    ensures FirstOpening([k] + rest, sb, t, c).None? == FirstOpening(rest, sb, t, c).None?
    ensures FirstOpening(rest, sb, t, c).Some? ==>
      FirstOpening([k] + rest, sb, t, c).value == (FirstOpening(rest, sb, t, c).value.0 + 1, FirstOpening(rest, sb, t, c).value.1)
  {
    var keys := [k] + rest;
    assert keys[0] == k && keys[1..] == rest;
    match FindIndex(rest, Opens(sb, t, c))
    case None =>
    case Some(i) => assert keys[i + 1] == rest[i];
  }

  /** A key that opens the box wins, whatever follows it. */
  lemma FirstOpeningTakesFirst(k: Key, rest: seq<Key>, sb: string, t: int, c: Crypto)
    requires c.openBox(sb, t, k).Some?
    ensures FirstOpening([k] + rest, sb, t, c) == Some((0, c.openBox(sb, t, k).value))
  {
    assert ([k] + rest)[0] == k;
  }

  /** What a group message becomes once decryptGroupMessage is done with it. */
  datatype GroupOutcome =
    | Unparsable                                  // the off-chain frame did not parse
    | NoKey                                       // no candidate key opened the box
    | BadPayload                                  // the plaintext or the sender address did not parse
    | Unverified                                  // the signature does not match the sender
    | Blocked                                     // the sender is on the block list
    | Accepted(payload: GroupPayload, t: int, offchain: bool)

  /** A group message as decryptGroupMessage receives it: the parsed envelope of a pool
      transaction, or the raw text of an off-chain frame. */
  datatype GroupTx = Parsed(env: Envelope) | Raw(text: string)

  /** The gates after the box has opened: the plaintext must parse, the sender's
      address must decode, the signature must verify and the sender must not be blocked. */
  function CheckOpened(plain: string, t: int, offchain: bool, blockList: seq<Address>, c: Crypto): (r: GroupOutcome)
    ensures r.Accepted? ==> r.t == t && r.offchain == offchain && c.parsePayload(plain) == Some(r.payload)
    ensures r.Accepted? <==>
      && c.parsePayload(plain).Some?
      && c.spendKey(c.parsePayload(plain).value.k).Some?
      && c.verify(c.parsePayload(plain).value.m, c.spendKey(c.parsePayload(plain).value.k).value, c.parsePayload(plain).value.s)
      && c.parsePayload(plain).value.k !in blockList
  {
    match c.parsePayload(plain)
    case None => BadPayload
    case Some(p) =>
      match c.spendKey(p.k)
      case None => BadPayload
      case Some(pk) =>
        if !c.verify(p.m, pk, p.s) then Unverified
        else if p.k in blockList then Blocked
        else Accepted(p, t, offchain)
  }

  /** The envelope that decryptGroupMessage opens: an off-chain frame (a 64-character
      key was supplied) is parsed from its text; a parsed transaction is used as it is. */
  function GroupEnvelope(tx: GroupTx, groupKey: string, c: Crypto): (r: Option<Envelope>)
    ensures |groupKey| == KeyLength ==> (r.Some? <==> tx.Raw? && c.parse(tx.text).Some?)
    ensures |groupKey| == KeyLength && r.Some? ==> r == c.parse(tx.text)
    ensures |groupKey| != KeyLength ==> (r.Some? <==> tx.Parsed?)
    ensures |groupKey| != KeyLength && r.Some? ==> r.value == tx.env
  {
    if |groupKey| == KeyLength then
      match tx
      case Raw(text) => c.parse(text)
      case Parsed(_) => None
    else
      match tx
      case Parsed(env) => Some(env)
      case Raw(_) => None
  }

  /** decryptGroupMessage: trial decryption over the candidate keys in order, then the
      signature and block-list gates. An accepted message has a verified signature,
      a sender who is not blocked, and is off-chain exactly when a key was supplied. */
  function DecryptGroup(tx: GroupTx, groupKey: string, groups: seq<Key>, blockList: seq<Address>, c: Crypto): (r: GroupOutcome)
    ensures r.Accepted? ==> r.payload.k !in blockList
    ensures r.Accepted? ==> c.spendKey(r.payload.k).Some? && c.verify(r.payload.m, c.spendKey(r.payload.k).value, r.payload.s)
    ensures r.Accepted? ==> r.offchain == (|groupKey| == KeyLength)
    ensures r.Unparsable? ==> |groupKey| == KeyLength
    ensures GroupEnvelope(tx, groupKey, c).None? ==> r == (if |groupKey| == KeyLength then Unparsable else NoKey)
    ensures GroupEnvelope(tx, groupKey, c).Some? ==>
      (var env := GroupEnvelope(tx, groupKey, c).value;
       var hit := FirstOpening(CandidateKeys(groupKey, groups), env.sb, env.t, c);
       (hit.None? ==> r == NoKey) &&
       (hit.Some? ==> r == CheckOpened(hit.value.1, env.t, |groupKey| == KeyLength, blockList, c)))
  {
    var offchain := |groupKey| == KeyLength;
    match GroupEnvelope(tx, groupKey, c)
    case None => if offchain then Unparsable else NoKey
    case Some(env) =>
      match FirstOpening(CandidateKeys(groupKey, groups), env.sb, env.t, c)
      case None => NoKey
      case Some(hit) => CheckOpened(hit.1, env.t, offchain, blockList, c)
  }

  /** An off-chain frame whose supplied key opens it never consults the stored groups. */
  lemma SuppliedKeyFirst(text: string, groupKey: Key, groups: seq<Key>, blockList: seq<Address>, c: Crypto)
    requires |groupKey| == KeyLength && c.parse(text).Some?
    requires c.openBox(c.parse(text).value.sb, c.parse(text).value.t, groupKey).Some?
    ensures DecryptGroup(Raw(text), groupKey, groups, blockList, c) == DecryptGroup(Raw(text), groupKey, [], blockList, c)
  {
    var env := c.parse(text).value;
    FirstOpeningTakesFirst(groupKey, groups, env.sb, env.t, c);
    FirstOpeningTakesFirst(groupKey, [], env.sb, env.t, c);
  }

  /** A candidate that fails is ignored: with [wrong, right] the outcome is that of [right]. */
  lemma WrongKeyIgnored(env: Envelope, wrong: Key, rest: seq<Key>, blockList: seq<Address>, c: Crypto)
    requires c.openBox(env.sb, env.t, wrong).None?
    ensures DecryptGroup(Parsed(env), "", [wrong] + rest, blockList, c) == DecryptGroup(Parsed(env), "", rest, blockList, c)
  {
    FirstOpeningSkipsFailure(wrong, rest, env.sb, env.t, c);
  }

  /** A message whose first opening key yields a payload with a signature that does not
      verify is never accepted: no later key is tried. */
  lemma ForgedSenderRejected(env: Envelope, groups: seq<Key>, blockList: seq<Address>, c: Crypto, p: GroupPayload)
    requires FirstOpening(groups, env.sb, env.t, c).Some?
    requires c.parsePayload(FirstOpening(groups, env.sb, env.t, c).value.1) == Some(p)
    requires c.spendKey(p.k).None? || !c.verify(p.m, c.spendKey(p.k).value, p.s)
    ensures DecryptGroup(Parsed(env), "", groups, blockList, c) in {BadPayload, Unverified}
  {
  }

  /** A genuine group message is accepted: when the i-th stored group key is the first
      that opens the box and the plaintext passes every gate, the payload is handed on
      with the envelope's timestamp, as an on-chain message. */
  lemma {:induction false} GenuineGroupMessageAccepted(env: Envelope, groups: seq<Key>, i: nat, plain: string, blockList: seq<Address>, c: Crypto)
    requires i < |groups| && c.openBox(env.sb, env.t, groups[i]) == Some(plain)
    requires forall j :: 0 <= j < i ==> c.openBox(env.sb, env.t, groups[j]).None?
    requires c.parsePayload(plain).Some? && c.spendKey(c.parsePayload(plain).value.k).Some?
    requires c.verify(c.parsePayload(plain).value.m, c.spendKey(c.parsePayload(plain).value.k).value, c.parsePayload(plain).value.s)
    requires c.parsePayload(plain).value.k !in blockList
    ensures DecryptGroup(Parsed(env), "", groups, blockList, c) == Accepted(c.parsePayload(plain).value, env.t, false)
  {
    var hit := FirstOpening(groups, env.sb, env.t, c);
    assert hit.Some? && hit.value.0 == i by {
      assert c.openBox(env.sb, env.t, groups[i]).Some?;
    }
  }

  // ---------------------------------------------------------------------------
  // One pass of decryptHuginMessages

  /** What the client knows while it scans a batch: the contacts' message keys, the
      block list, the stored groups, saveHash's answers and the cryptography. */
  datatype Context = Context(knownKeys: seq<Key>, blockList: seq<Address>, groups: seq<Key>,
                             hashSaved: Hash -> bool, crypto: Crypto)

  /** The state one pass changes: the dedup list and what was handed on. */
  datatype SyncState = SyncState(known: seq<Hash>, effects: seq<Effect>)

  /** What became of one transaction. */
  datatype Verdict =
    | Unreadable                  // its extra data is undefined: validateExtra threw
    | Skipped                     // validateExtra refused it: too long, or already known
    | Short                       // at most 200 characters: never a message
    | Unsaved                     // saveHash reported failure
    | Tagged(found: bool)         // the view tag matched: only the direct attempt ran
    | Direct                      // no tag, and the direct message opened
    | DirectThrew                 // no tag, and the direct attempt threw
    | Group(outcome: GroupOutcome) // a group envelope was decrypted
    | NoMatch                     // nothing opened: skipped silently

  /** Verdicts of transactions whose contents were looked at. */
  predicate Examined(v: Verdict) {
    !v.Unreadable? && !v.Skipped?
  }

  /** checkForGroupMessage: a parsed envelope with a secretbox goes to decryptGroupMessage. */
  function CheckGroup(s: SyncState, extra: string, hash: Hash, groups: seq<Key>, blockList: seq<Address>, c: Crypto): (r: (SyncState, Verdict))
    ensures r.0.known == s.known
    ensures r.1.Group? || r.1.NoMatch?
    ensures r.1.NoMatch? <==> c.parse(extra).None? || c.parse(extra).value.sb == ""
    ensures r.1.NoMatch? ==> r.0 == s
    ensures r.1.Group? ==> r.1.outcome == DecryptGroup(Parsed(c.parse(extra).value), "", groups, blockList, c)
    ensures r.1.Group? && r.1.outcome.Accepted? ==> r.0.effects == s.effects + [SaveGroup(r.1.outcome.payload, hash, r.1.outcome.t, false)]
    ensures r.1.Group? && !r.1.outcome.Accepted? ==> r.0 == s
  {
    match c.parse(extra)
    case None => (s, NoMatch)
    case Some(env) =>
      if env.sb == "" then (s, NoMatch)
      else
        var outcome := DecryptGroup(Parsed(env), "", groups, blockList, c);
        var effects := if outcome.Accepted? then s.effects + [SaveGroup(outcome.payload, hash, outcome.t, outcome.offchain)] else s.effects;
        (SyncState(s.known, effects), Group(outcome))
  }

  /** The fixed decision order for a new transaction with a long enough extra: view tag,
      then the direct message, then the group message. */
  function Examine(s: SyncState, extra: string, hash: Hash, ctx: Context): (r: (SyncState, Verdict))
    ensures r.0.known == s.known
    ensures r.1.Tagged? ==> (r.1.found <==> ctx.crypto.openDirect(extra, ctx.knownKeys).Opened?)
    ensures r.1.Tagged? && !r.1.found ==> r.0 == s
    ensures r.1.Tagged? && r.1.found ==> r.0.effects == s.effects + [SaveDirect(ctx.crypto.openDirect(extra, ctx.knownKeys).value)]
    ensures r.1.Tagged? || r.1.Direct? || r.1.DirectThrew? || r.1.Group? || r.1.NoMatch?
    ensures ViewTagMatches(extra, ctx.crypto) <==> r.1.Tagged?
    ensures r.1.Direct? ==> (ctx.crypto.openDirect(extra, ctx.knownKeys).Opened? &&
      r.0.effects == s.effects + [SaveDirect(ctx.crypto.openDirect(extra, ctx.knownKeys).value)])
    ensures r.1.Group? ==> !ViewTagMatches(extra, ctx.crypto) && ctx.crypto.openDirect(extra, ctx.knownKeys).NotOpened?
    ensures r.1.Direct? <==> !ViewTagMatches(extra, ctx.crypto) && ctx.crypto.openDirect(extra, ctx.knownKeys).Opened?
    ensures r.1.DirectThrew? <==> !ViewTagMatches(extra, ctx.crypto) && ctx.crypto.openDirect(extra, ctx.knownKeys).Threw?
    ensures r.1.DirectThrew? || r.1.NoMatch? ==> r.0 == s
    ensures !ViewTagMatches(extra, ctx.crypto) && ctx.crypto.openDirect(extra, ctx.knownKeys).NotOpened? ==>
      r == CheckGroup(s, extra, hash, ctx.groups, ctx.blockList, ctx.crypto)
  {
    var direct := ctx.crypto.openDirect(extra, ctx.knownKeys);
    if ViewTagMatches(extra, ctx.crypto) then
      match direct
      case Opened(m) => (SyncState(s.known, s.effects + [SaveDirect(m)]), Tagged(true))
      case _ => (s, Tagged(false))
    else
      match direct
      case Opened(m) =>
        if AcceptsDirectKind(m.kind) then (SyncState(s.known, s.effects + [SaveDirect(m)]), Direct)
        else CheckGroup(s, extra, hash, ctx.groups, ctx.blockList, ctx.crypto)
      case Threw => (s, DirectThrew)
      case NotOpened => CheckGroup(s, extra, hash, ctx.groups, ctx.blockList, ctx.crypto)
  }

  /** One iteration of decryptHuginMessages' loop. Only a transaction that passes
      validateExtra and carries more than 200 characters of extra is examined; the dedup
      list changes only through validateExtra; at most one thing is handed on. */
  function Step(s: SyncState, tx: Transaction, ctx: Context): (r: (SyncState, Verdict))
    ensures Examined(r.1) ==> tx.extra.Some? && |tx.extra.value| <= MaxExtraLength && tx.hash !in s.known
    ensures Examined(r.1) && !r.1.Short? ==> MinMessageLength < |tx.extra.value|
    ensures tx.extra.Some? ==> r.0.known == ValidateExtra(s.known, tx.extra.value, tx.hash).1
    ensures tx.extra.None? ==> r == (s, Unreadable)
    ensures r.0.effects == s.effects || (Examined(r.1) && |r.0.effects| == |s.effects| + 1 && r.0.effects[..|s.effects|] == s.effects)
    ensures Examined(r.1) <==> tx.extra.Some? && |tx.extra.value| <= MaxExtraLength && tx.hash !in s.known
    ensures Examined(r.1) ==> (r.1.Short? <==> |tx.extra.value| <= MinMessageLength)
    ensures Examined(r.1) && MinMessageLength < |tx.extra.value| ==> (r.1.Unsaved? <==> !ctx.hashSaved(tx.hash))
    ensures Examined(r.1) && MinMessageLength < |tx.extra.value| && ctx.hashSaved(tx.hash) ==>
      r == Examine(SyncState(s.known + [tx.hash], s.effects), tx.extra.value, tx.hash, ctx)
    ensures forall h :: h in r.0.known ==> h in s.known || h == tx.hash
    ensures !Examined(r.1) || r.1.Short? || r.1.Unsaved? ==> r.0.effects == s.effects
    ensures tx.extra.Some? && !Examined(r.1) ==> r.1.Skipped?
  {
    match tx.extra
    case None => (s, Unreadable)
    case Some(extra) =>
      var (ok, known) := ValidateExtra(s.known, extra, tx.hash);
      var s' := SyncState(known, s.effects);
      if !ok then (s', Skipped)
      else if |extra| <= MinMessageLength then (s', Short)
      else if !ctx.hashSaved(tx.hash) then (s', Unsaved)
      else Examine(s', extra, tx.hash, ctx)
  }

  /** decryptHuginMessages over a whole batch: the state after it and each transaction's verdict. */
  function Batch(s: SyncState, txs: seq<Transaction>, ctx: Context): (r: (SyncState, seq<Verdict>))
    ensures |r.1| == |txs|
    ensures s.effects <= r.0.effects && |r.0.effects| <= |s.effects| + |txs|
    decreases |txs|
  {
    if txs == [] then (s, [])
    else
      var (s1, v) := Step(s, txs[0], ctx);
      var (s2, vs) := Batch(s1, txs[1..], ctx);
      (s2, [v] + vs)
  }

  /** A batch never forgets a hash, and remembers every hash it read extra data for. */
  lemma {:induction false} BatchRemembers(s: SyncState, txs: seq<Transaction>, ctx: Context)
    ensures forall h :: h in s.known ==> h in Batch(s, txs, ctx).0.known
    ensures forall i :: 0 <= i < |txs| && txs[i].extra.Some? ==> txs[i].hash in Batch(s, txs, ctx).0.known
    decreases |txs|
  {
    if txs != [] {
      var s1 := Step(s, txs[0], ctx).0;
      BatchRemembers(s1, txs[1..], ctx);
      forall i | 0 <= i < |txs| && txs[i].extra.Some?
        ensures txs[i].hash in Batch(s, txs, ctx).0.known
      {
        if i > 0 { assert txs[i] == txs[1..][i - 1]; }
      }
    }
  }

  /** Transactions whose hash is already known are not examined and hand nothing on. */
  lemma {:induction false} BatchSkipsKnown(s: SyncState, txs: seq<Transaction>, ctx: Context)
    requires forall i :: 0 <= i < |txs| && txs[i].extra.Some? ==> txs[i].hash in s.known
    ensures Batch(s, txs, ctx).0.effects == s.effects
    ensures forall i :: 0 <= i < |txs| ==> !Examined(Batch(s, txs, ctx).1[i])
    decreases |txs|
  {
    if txs != [] {
      var s1 := Step(s, txs[0], ctx).0;
      BatchRemembers(s, [txs[0]], ctx);
      forall i | 0 <= i < |txs[1..]| && txs[1..][i].extra.Some? ensures txs[1..][i].hash in s1.known {
        assert txs[1..][i] == txs[i + 1];
        assert s1.known[..|s.known|] == s.known || txs[0].extra.None?;
      }
      BatchSkipsKnown(s1, txs[1..], ctx);
      var vs := Batch(s, txs, ctx).1;
      forall i | 0 <= i < |txs| ensures !Examined(vs[i]) {
        if i > 0 { assert vs[i] == Batch(s1, txs[1..], ctx).1[i - 1]; }
      }
    }
  }

  /** Dedup idempotence: feeding the same batch a second time examines nothing and hands
      nothing on; every message was handed on during the first pass. */
  lemma RepeatedBatchIsInert(s: SyncState, txs: seq<Transaction>, ctx: Context)
    ensures Batch(Batch(s, txs, ctx).0, txs, ctx).0.effects == Batch(s, txs, ctx).0.effects
    ensures forall i :: 0 <= i < |txs| ==> !Examined(Batch(Batch(s, txs, ctx).0, txs, ctx).1[i])
  {
    BatchRemembers(s, txs, ctx);
    BatchSkipsKnown(Batch(s, txs, ctx).0, txs, ctx);
  }

  /** Within one batch a hash is examined at most once: every later transaction with
      the hash of one whose extra data was read is skipped. */
  lemma {:induction false} BatchExaminesOnce(s: SyncState, txs: seq<Transaction>, ctx: Context, i: nat, j: nat)
    requires i < j < |txs| && txs[i].hash == txs[j].hash && txs[i].extra.Some?
    ensures !Examined(Batch(s, txs, ctx).1[j])
    decreases |txs|
  {
    var s1 := Step(s, txs[0], ctx).0;
    if i == 0 {
      var rest := txs[1..];
      assert rest[j - 1] == txs[j];
      BatchSkipsKnownAt(s1, rest, ctx, j - 1);
    } else {
      BatchExaminesOnce(s1, txs[1..], ctx, i - 1, j - 1);
    }
  }

  /** Within one batch a hash is examined at least once: the first transaction with a
      hash new to the batch, whose extra data is defined and at most 7000 characters,
      is examined. With BatchExaminesOnce, each such hash gets exactly one attempt. */
  lemma {:induction false} BatchExaminesFirst(s: SyncState, txs: seq<Transaction>, ctx: Context, j: nat)
    requires j < |txs| && txs[j].extra.Some? && |txs[j].extra.value| <= MaxExtraLength
    requires txs[j].hash !in s.known
    requires forall i :: 0 <= i < j ==> txs[i].hash != txs[j].hash
    ensures Examined(Batch(s, txs, ctx).1[j])
    decreases |txs|
  {
    var s1 := Step(s, txs[0], ctx).0;
    if j > 0 {
      var rest := txs[1..];
      assert rest[j - 1] == txs[j];
      forall i | 0 <= i < j - 1 ensures rest[i].hash != rest[j - 1].hash {
        assert rest[i] == txs[i + 1];
      }
      BatchExaminesFirst(s1, rest, ctx, j - 1);
      assert Batch(s, txs, ctx).1[j] == Batch(s1, rest, ctx).1[j - 1];
    }
  }

  /** A single transaction whose hash is known at the start of a batch is not examined. */
  lemma {:induction false} BatchSkipsKnownAt(s: SyncState, txs: seq<Transaction>, ctx: Context, j: nat)
    requires j < |txs| && txs[j].hash in s.known
    ensures !Examined(Batch(s, txs, ctx).1[j])
    decreases |txs|
  {
    var s1 := Step(s, txs[0], ctx).0;
    if j > 0 {
      assert txs[1..][j - 1] == txs[j];
      BatchRemembers(s, [txs[0]], ctx);
      BatchSkipsKnownAt(s1, txs[1..], ctx, j - 1);
    }
  }

  // ---------------------------------------------------------------------------
  // Contacts and sending

  /** The known message keys after saveContact: the key is added when it is new; for a
      first contact `pop()` then drops the last key, which is the new one when it was
      added and otherwise whichever key happens to be last. */
  function KeysAfterSaveContact(known: seq<Key>, key: Key, first: bool): (r: seq<Key>)
    ensures !first ==> key in r && known <= r && |r| <= |known| + 1
    ensures !first && key in known ==> r == known
    ensures !first && key !in known ==> r == known + [key]
    ensures first && key !in known ==> r == known
    ensures first && key in known ==> r == known[..|known| - 1]
  {
    var pushed := if key !in known then known + [key] else known;
    if first then pushed[..|pushed| - 1] else pushed
  }

  /** For a first contact whose key was already known, the last known key is forgotten:
      with the key itself last it is dropped, otherwise the other key is. */
  lemma FirstContactForgetsLastKey(known: seq<Key>, key: Key)
    requires key in known
    ensures known[|known| - 1] == key && key !in known[..|known| - 1] ==> key !in KeysAfterSaveContact(known, key, true)
    ensures key !in KeysAfterSaveContact(known, key, true) ==> known[|known| - 1] == key
    ensures |KeysAfterSaveContact(known, key, true)| == |known| - 1
  {
  }

  /** sendMessage's input check and split: `None` when it returns at once; otherwise the
      chat address and the message key, which together are the receiver. */
  function SplitReceiver(message: string, receiver: string): (r: Option<(Address, Key)>)
    ensures r.Some? <==> |receiver| == ReceiverLength && |message| > 0
    ensures r.Some? ==> r.value.0 + r.value.1 == receiver
    ensures r.Some? ==> |r.value.0| == AddressLength && |r.value.1| == ReceiverLength - AddressLength
  {
    if |receiver| != ReceiverLength then None
    else if |message| == 0 then None
    else
      SubstringSplit(receiver, AddressLength);
      Some((Substring(receiver, 0, AddressLength), Substring(receiver, AddressLength, ReceiverLength)))
  }

  /** sendGroupsMessage's input check: a non-empty message and a defined 64-character group key. */
  function GroupSendAllowed(m: string, group: Option<Key>): (r: bool)
    ensures r <==> group.Some? && |group.value| == KeyLength && m != ""
  {
    |m| != 0 && group.Some? && |group.value| == KeyLength
  }

  /** The off-chain frame: a random identifier, the delimiter "99", then the payload. */
  function OffchainFrame(randomKey: string, payload: string): (r: string)
    ensures |r| == |randomKey| + 2 + |payload|
    ensures r[..|randomKey|] == randomKey && r[|randomKey|..|randomKey| + 2] == "99" && r[|randomKey| + 2..] == payload
  {
    randomKey + "99" + payload
  }

  /** The identifier a receiver reads back from an off-chain frame. */
  function FrameId(frame: string): (r: string)
    ensures |r| == if |frame| < KeyLength then |frame| else KeyLength
    ensures r == frame[..if |frame| < KeyLength then |frame| else KeyLength]
  {
    Substring(frame, 0, KeyLength)
  }

  /** Framing round trip: the receiver recovers the identifier, and the payload follows
      the delimiter. */
  lemma FrameRoundTrip(randomKey: string, payload: string)
    requires |randomKey| == KeyLength
    ensures FrameId(OffchainFrame(randomKey, payload)) == randomKey
    ensures OffchainFrame(randomKey, payload)[KeyLength + 2..] == payload
  {
    var f := OffchainFrame(randomKey, payload);
    assert f[..KeyLength] == randomKey;
  }
}
