/** The value-level part of src/backend/beam.cjs: the records the beam registry and the
    file catalogs hold, the way an incoming frame is classified, and the list updates
    the registry and the catalogs go through. */
module BeamLogic {
  import opened Js

  type Address = string
  type BeamKey = string

  /** A chat handle is a 99-character address followed by a 64-character message key. */
  const AddressLength := 99
  const ChatLength := 163

  /** The address part of a chat handle (`chat.substring(0, 99)`). */
  function AddressOf(chat: string): (r: Address)
    ensures |chat| >= AddressLength ==> r == chat[..AddressLength]
    ensures |chat| < AddressLength ==> r == chat
  {
    Substring(chat, 0, AddressLength)
  }

  /** The message-key part of a chat handle (`chat.substring(99, 163)`). */
  function MessageKeyOf(chat: string): (r: string)
    ensures |chat| >= ChatLength ==> r == chat[AddressLength..ChatLength]
    ensures AddressLength < |chat| < ChatLength ==> r == chat[AddressLength..]
    ensures |chat| <= AddressLength ==> r == []
  {
    Substring(chat, AddressLength, ChatLength)
  }

  /** A chat handle is the concatenation of its address and its message key. */
  lemma ChatSplits(chat: string)
    requires |chat| == ChatLength
    ensures AddressOf(chat) + MessageKeyOf(chat) == chat
    ensures |AddressOf(chat)| == AddressLength && |MessageKeyOf(chat)| == ChatLength - AddressLength
  {
    SubstringSplit(chat, AddressLength);
  }

  /** An entry of active_beams: the beam's key and the address it talks to. */
  datatype Session = Session(key: BeamKey, chat: Address)

  /** An entry of localFiles, built by addLocalFile. */
  datatype LocalFile = LocalFile(fileName: string, chat: string, size: int, path: string)

  /** An entry of remoteFiles, built by addRemoteFile as `{file, chat}`: the name sits in
      a field called `file`, and the record has no `fileName` field. */
  datatype RemoteFile = RemoteFile(file: Option<string>, chat: Address)

  /** A parsed frame, as far as the handler looks at it. `None` in a field stands for a
      property that is absent (undefined). */
  datatype Json =
    | JNull
    | JObject(kind: Option<string>, fileName: Option<string>, size: Option<int>)
    | JOther   // a number, string, boolean or array: its `type` is undefined

  /** The `type` of a parsed frame; `null` has none, reading it throws. */
  function TypeOf(j: Json): Option<string>
  {
    if j.JObject? then j.kind else None
  }

  /** What the data handler and checkDataMessage do with one incoming frame. */
  datatype Disposition =
    | Control                 // "Start" or "Ping": ignored
    | Swallowed               // not JSON: checkDataMessage reports it handled
    | NullFrame               // `null`: reading its type throws
    | FileAdded               // remote-file-added
    | FileRemoved             // remote-file-removed
    | DownloadAsked           // request-download
    | UploadAnnounced         // upload-ready
    | ToDecrypt               // any other JSON value: handed to decryptMessage

  /** The frame types checkDataMessage acts on. */
  const FileFrameTypes: seq<string> := ["remote-file-added", "remote-file-removed", "request-download", "upload-ready"]

  /** The data handler's decision for a decoded frame, given the JSON parser. */
  function Classify(str: string, parse: string -> Option<Json>): (r: Disposition)
    ensures r.Control? <==> str == "Start" || str == "Ping"
    ensures r.Swallowed? <==> str != "Start" && str != "Ping" && parse(str).None?
    ensures r.ToDecrypt? <==> (str != "Start" && str != "Ping" && parse(str).Some? && !parse(str).value.JNull?
                               && (TypeOf(parse(str).value).None? || TypeOf(parse(str).value).value !in FileFrameTypes))
  {
    if str == "Start" || str == "Ping" then Control
    else match parse(str)
      case None => Swallowed
      case Some(j) => ClassifyJson(j)
  }

  /** checkDataMessage's decision for a frame that parsed: by its `type`. */
  function ClassifyJson(j: Json): (r: Disposition)
    ensures r.NullFrame? <==> j.JNull?
    ensures r !in {Control, Swallowed}
  {
    if j.JNull? then NullFrame
    else match TypeOf(j)
      case Some("remote-file-added") => FileAdded
      case Some("remote-file-removed") => FileRemoved
      case Some("request-download") => DownloadAsked
      case Some("upload-ready") => UploadAnnounced
      case _ => ToDecrypt
  }

  /** A frame that is not JSON never reaches decryption: the parse failure is reported
      as handled. This holds for every encrypted text frame the parser rejects. */
  lemma NonJsonNeverDecrypted(str: string, parse: string -> Option<Json>)
    requires parse(str).None?
    ensures Classify(str, parse) != ToDecrypt
    ensures str != "Start" && str != "Ping" ==> Classify(str, parse) == Swallowed
  {
  }

  /** The session for an address: the first entry of active_beams whose chat is it. */
  function SessionFor(active: seq<Session>, addr: Address): (r: Option<Session>)
    ensures r.Some? ==> r.value in active && r.value.chat == addr
    ensures r.Some? ==> exists i :: 0 <= i < |active| && active[i] == r.value && forall j :: 0 <= j < i ==> active[j].chat != addr
    ensures r.None? <==> forall j :: 0 <= j < |active| ==> active[j].chat != addr
  {
    Find(active, (s: Session) => s.chat == addr)
  }

  /** endBeam's filter: every session for the address is dropped. */
  function WithoutSessions(active: seq<Session>, addr: Address): (r: seq<Session>)
    ensures forall j :: 0 <= j < |r| ==> r[j].chat != addr && r[j] in active
    ensures forall j :: 0 <= j < |active| && active[j].chat != addr ==> active[j] in r
  {
    Filter(active, (s: Session) => s.chat != addr)
  }

  /** After endBeam no session for the address is left, and the surviving sessions keep
      their order: the filter distributes over concatenation. */
  lemma EndedSessionGone(front: seq<Session>, back: seq<Session>, addr: Address)
    ensures SessionFor(WithoutSessions(front + back, addr), addr).None?
    ensures WithoutSessions(front + back, addr) == WithoutSessions(front, addr) + WithoutSessions(back, addr)
  {
    FilterAppend(front, back, (s: Session) => s.chat != addr);
  }

  /** Ending a session that is not there changes nothing. */
  lemma EndingAbsentSession(active: seq<Session>, addr: Address)
    requires SessionFor(active, addr).None?
    ensures WithoutSessions(active, addr) == active
  {
    forall x | x in active ensures x.chat != addr {
      var j :| 0 <= j < |active| && active[j] == x;
    }
    FilterKeepsAll(active, (s: Session) => s.chat != addr);
  }

  /** The local file with a name: the first catalog entry with it. */
  function LocalFileNamed(local: seq<LocalFile>, name: Option<string>): (r: Option<LocalFile>)
    ensures r.Some? ==> name.Some? && r.value in local && r.value.fileName == name.value
    ensures r.Some? ==> exists i :: 0 <= i < |local| && local[i] == r.value && forall j :: 0 <= j < i ==> local[j].fileName != name.value
    ensures r.None? <==> name.None? || forall j :: 0 <= j < |local| ==> local[j].fileName != name.value
  {
    match name
    case None => None
    case Some(n) => Find(local, (f: LocalFile) => f.fileName == n)
  }

  /** removeLocalFile's filter: every entry with that name is dropped. */
  function WithoutLocalFile(local: seq<LocalFile>, name: string): (r: seq<LocalFile>)
    ensures forall j :: 0 <= j < |r| ==> r[j].fileName != name && r[j] in local
    ensures forall j :: 0 <= j < |local| && local[j].fileName != name ==> local[j] in r
  {
    Filter(local, (f: LocalFile) => f.fileName != name)
  }

  /** A removed local file can no longer be found by its name. */
  lemma RemovedLocalFileGone(local: seq<LocalFile>, name: string)
    ensures LocalFileNamed(WithoutLocalFile(local, name), Some(name)).None?
  {
  }

  /** The `fileName` a remoteFiles entry has: none, since addRemoteFile stores the name
      under `file`. */
  function EntryFileName(x: RemoteFile): Option<string>
  {
    None
  }

  /** removeRemoteFile's filter `x.fileName !== fileName`, on entries without that field. */
  function KeepRemoteFiles(remote: seq<RemoteFile>, fileName: Option<string>): (r: seq<RemoteFile>)
    ensures |r| <= |remote|
    ensures forall i :: 0 <= i < |r| ==> r[i] in remote
  {
    Filter(remote, (x: RemoteFile) => EntryFileName(x) != fileName)
  }

  /** A frame that names a file removes nothing from the remote catalog. */
  lemma {:induction false} RemoteRemovalByNameKeepsAll(remote: seq<RemoteFile>, name: string)
    ensures KeepRemoteFiles(remote, Some(name)) == remote
  {
    FilterKeepsAll(remote, (x: RemoteFile) => EntryFileName(x) != Some(name));
  }

  /** A frame without a fileName empties the remote catalog. */
  lemma {:induction false} RemoteRemovalWithoutNameClearsAll(remote: seq<RemoteFile>)
    ensures KeepRemoteFiles(remote, None) == []
  {
    FilterDropsAll(remote, (x: RemoteFile) => EntryFileName(x) != None);
  }

  /** An absent value concatenated into a string reads "undefined". */
  function TextOf(v: Option<string>): (r: string)
    ensures v.Some? ==> r == v.value
    ensures v.None? ==> r == "undefined"
  {
    if v.Some? then v.value else "undefined"
  }

  /** downloadFile's target path: the download directory, a slash, the file name. */
  function DownloadPath(dir: Option<string>, fileName: Option<string>): (r: string)
    ensures dir.Some? && fileName.Some? ==> r == dir.value + "/" + fileName.value
    ensures dir.None? && fileName.Some? ==> r == "undefined/" + fileName.value
    ensures dir.Some? && fileName.None? ==> r == dir.value + "/undefined"
    ensures dir.None? && fileName.None? ==> r == "undefined/undefined"
    ensures |r| > |TextOf(dir)| && r[|TextOf(dir)|] == '/'
  {
    TextOf(dir) + "/" + TextOf(fileName)
  }
}
