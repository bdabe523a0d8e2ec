/** The module-level state of src/backend/beam.cjs — active_beams, localFiles,
    remoteFiles and downloadDirectory — with the handlers that change it. Hyperbeam
    streams, the file system and the renderer are outside: what the module writes to a
    beam, sends to the renderer or starts streaming is kept as an ordered log. */
module Beam {
  import opened Js
  import opened BeamLogic

  /** A frame the client writes to a beam. */
  datatype OutFrame =
    | Start
    | Ping
    | Text(message: string)
    | FileAddedFrame(fileName: string)
    | RequestDownloadFrame(fileName: string)
    | UploadReadyFrame(offered: Option<string>, size: Option<int>)

  /** What the module hands on, in order. */
  datatype BeamEffect =
    | NewBeam(key: BeamKey, chat: Address)                  // 'new-beam'
    | StopBeam(chat: Address)                               // 'stop-beam'
    | BeamConnected(chat: Address, key: BeamKey)            // 'beam-connected'
    | Write(key: BeamKey, frame: OutFrame)                  // beam.write
    | End(key: BeamKey)                                     // beam.end
    | IncomingData(data: Json)                              // 'incoming-data'
    | DownloadRequest(data: Json)                           // 'download-request'
    | Downloading(data: Json)                               // 'downloading'
    | LocalFileAdded(file: LocalFile)                       // 'local-files' with the new file
    | RemoteFiles(files: seq<RemoteFile>)                   // 'remote-files' with the catalog
    | Upload(path: string, key: BeamKey)                    // a file stream piped into a beam
    | OpenDownload(path: string)                            // a write stream opened on a path
    | Download(key: BeamKey, path: string)                  // a beam piped into that stream
    | Decrypt(text: string, messageKey: string)             // decryptMessage started

  /** startBeam's result. */
  datatype StartResult = Link(msg: string, chat: string) | Joined | Failed

  /** The data handler's result; `Threw` is a rejected handler. */
  datatype DataOutcome = Ignored | Handled | Decrypting | Threw

  /** Everything checkDataMessage does after the incoming-data notice, by frame type,
      given the local catalog, the beam registry and the download directory: whether
      handling succeeded, the new remote catalog, and the notices and writes that follow. */
  function Dispatched(j: Json, chat: Address, remote: seq<RemoteFile>, localFiles: seq<LocalFile>, active: seq<Session>,
                      downloadDirectory: Option<string>): (r: (Option<bool>, seq<RemoteFile>, seq<BeamEffect>))
    ensures r.0 == Some(false) <==> ClassifyJson(j) == ToDecrypt
    ensures r.0.None? ==> ClassifyJson(j) in {NullFrame, DownloadAsked, UploadAnnounced}
    ensures ClassifyJson(j) !in {FileAdded, FileRemoved} ==> r.1 == remote
    ensures ClassifyJson(j) == ToDecrypt ==> r.2 == []
  {
    match ClassifyJson(j)
    case NullFrame => (None, remote, [])
    case FileAdded => (Some(true), remote + [RemoteFile(j.fileName, chat)], [RemoteFiles(remote + [RemoteFile(j.fileName, chat)])])
    case FileRemoved =>
      var kept := if j.fileName.Some? then remote else [];
      (Some(true), kept, [RemoteFiles(kept)])
    case DownloadAsked =>
      var file, beam := LocalFileNamed(localFiles, j.fileName), SessionFor(active, chat);
      if file.Some? && beam.Some? then
        (Some(true), remote, [DownloadRequest(j), Upload(file.value.path, beam.value.key),
                              Write(beam.value.key, UploadReadyFrame(j.fileName, Some(file.value.size)))])
      else (None, remote, [DownloadRequest(j)])
    case UploadAnnounced =>
      var path, beam := DownloadPath(downloadDirectory, j.fileName), SessionFor(active, chat);
      if beam.Some? then (Some(true), remote, [Downloading(j), OpenDownload(path), Download(beam.value.key, path)])
      else (None, remote, [Downloading(j), OpenDownload(path)])
    case _ => (Some(false), remote, [])
  }

  class Beams {
    /** active_beams: one entry per beam started, in order. */
    var active: seq<Session>
    /** localFiles: the files offered to peers. */
    var localFiles: seq<LocalFile>
    /** remoteFiles: the files peers offered. */
    var remoteFiles: seq<RemoteFile>
    /** The addresses whose ping interval (checkIfOnline) is still running. */
    var heartbeats: seq<Address>
    /** downloadDirectory: unset until the first requestDownload. */
    var downloadDirectory: Option<string>
    var effects: seq<BeamEffect>

    /** The module as loaded: no beams, empty catalogs. */
    constructor ()
      ensures active == [] && localFiles == [] && remoteFiles == [] && heartbeats == []
      ensures downloadDirectory == None && effects == []
    {
      active := [];
      localFiles := [];
      remoteFiles := [];
      heartbeats := [];
      downloadDirectory := None;
      effects := [];
    }

    /** beamEvent: register the beam under the chat's address and announce it. */
    method BeamEvent(key: BeamKey, chat: string)
      modifies this`active, this`effects
      ensures active == old(active) + [Session(key, AddressOf(chat))]
      ensures effects == old(effects) + [NewBeam(key, AddressOf(chat))]
      ensures SessionFor(old(active), AddressOf(chat)).None? ==> SessionFor(active, AddressOf(chat)) == Some(Session(key, AddressOf(chat)))
    {
      var addr := AddressOf(chat);
      active := active + [Session(key, addr)];
      effects := effects + [NewBeam(key, addr)];
      ghost var p := (s: Session) => s.chat == addr;
      if SessionFor(old(active), addr).None? {
        assert active[|old(active)|] == Session(key, addr);
        assert FindIndex(active, p) == Some(|old(active)|);
      }
    }

    /** startBeam: key "new" creates a beam (whose key `newKey` the network assigns),
        writes "Start" and returns a link; any other key joins that beam. When the beam
        cannot be created (`dhtUp` false) the chat's beam is stopped instead. */
    method StartBeam(key: string, chat: string, dhtUp: bool, newKey: BeamKey) returns (r: StartResult)
      modifies this`active, this`effects
      ensures !dhtUp ==> r == Failed && active == old(active) && effects == old(effects) + [StopBeam(AddressOf(chat))]
      ensures dhtUp && key == "new" ==> r == Link("BEAM://" + newKey, chat)
      ensures dhtUp && key == "new" ==> active == old(active) + [Session(newKey, AddressOf(chat))]
      ensures dhtUp && key == "new" ==> effects == old(effects) + [Write(newKey, Start), NewBeam(newKey, AddressOf(chat))]
      ensures dhtUp && key != "new" ==> r == Joined && active == old(active) + [Session(key, AddressOf(chat))]
      ensures dhtUp && key != "new" ==> effects == old(effects) + [NewBeam(key, AddressOf(chat))]
    {
      if !dhtUp {
        effects := effects + [StopBeam(AddressOf(chat))];
        return Failed;
      }
      if key == "new" {
        effects := effects + [Write(newKey, Start)];
        BeamEvent(newKey, chat);
        return Link("BEAM://" + newKey, chat);
      }
      BeamEvent(key, chat);
      return Joined;
    }

    /** The 'connected' handler: start pinging the address and tell the renderer. */
    method OnConnected(key: BeamKey, chat: string)
      modifies this`heartbeats, this`effects
      ensures heartbeats == old(heartbeats) + [AddressOf(chat)]
      ensures effects == old(effects) + [BeamConnected(AddressOf(chat), key)]
    {
      heartbeats := heartbeats + [AddressOf(chat)];
      effects := effects + [BeamConnected(AddressOf(chat), key)];
    }

    /** One tick of checkIfOnline's interval: ping the address's beam, or stop the
        interval once there is none. */
    method PingTick(h: nat)
      requires h < |heartbeats|
      modifies this`heartbeats, this`effects
      ensures SessionFor(active, old(heartbeats)[h]).None? ==>
        heartbeats == old(heartbeats)[..h] + old(heartbeats)[h + 1..] && effects == old(effects)
      ensures SessionFor(active, old(heartbeats)[h]).Some? ==>
        heartbeats == old(heartbeats) && effects == old(effects) + [Write(SessionFor(active, old(heartbeats)[h]).value.key, Ping)]
    {
      var found := SessionFor(active, heartbeats[h]);
      if found.None? {
        heartbeats := heartbeats[..h] + heartbeats[h + 1..];
      } else {
        effects := effects + [Write(found.value.key, Ping)];
      }
    }

    /** endBeam: when the address has a beam, stop it, end its stream and drop every
        entry for the address; otherwise nothing happens. */
    method EndBeam(contact: Address)
      modifies this`active, this`effects
      ensures active == WithoutSessions(old(active), contact)
      ensures SessionFor(active, contact).None?
      ensures SessionFor(old(active), contact).None? ==> active == old(active) && effects == old(effects)
      ensures SessionFor(old(active), contact).Some? ==>
        effects == old(effects) + [StopBeam(contact), End(SessionFor(old(active), contact).value.key)]
    {
      var found := SessionFor(active, contact);
      if found.None? {
        EndingAbsentSession(active, contact);
        return;
      }
      effects := effects + [StopBeam(contact), End(found.value.key)];
      EndedSessionGone(active, [], contact);
      active := WithoutSessions(active, contact);
    }

    /** sendBeamMessage: write the message to the address's beam; without one it throws. */
    method SendBeamMessage(message: string, to: Address) returns (ok: bool)
      modifies this`effects
      ensures ok <==> SessionFor(active, to).Some?
      ensures ok ==> effects == old(effects) + [Write(SessionFor(active, to).value.key, Text(message))]
      ensures !ok ==> effects == old(effects)
    {
      var found := SessionFor(active, to);
      if found.None? {
        return false;
      }
      effects := effects + [Write(found.value.key, Text(message))];
      return true;
    }

    /** addLocalFile: the file is catalogued first; then the address's beam is told
        and the renderer is sent the file. Without a beam the write throws, after the
        file was catalogued. */
    method AddLocalFile(fileName: string, filePath: string, chat: string, fileSize: int) returns (ok: bool)
      modifies this`localFiles, this`effects
      ensures localFiles == old(localFiles) + [LocalFile(fileName, chat, fileSize, filePath)]
      ensures ok <==> SessionFor(active, AddressOf(chat)).Some?
      ensures ok ==> effects == old(effects) + [Write(SessionFor(active, AddressOf(chat)).value.key, FileAddedFrame(fileName)),
                                                 LocalFileAdded(LocalFile(fileName, chat, fileSize, filePath))]
      ensures !ok ==> effects == old(effects)
    {
      var file := LocalFile(fileName, chat, fileSize, filePath);
      localFiles := localFiles + [file];
      var found := SessionFor(active, AddressOf(chat));
      if found.None? {
        return false;
      }
      effects := effects + [Write(found.value.key, FileAddedFrame(fileName)), LocalFileAdded(file)];
      return true;
    }

    /** removeLocalFile: every catalog entry with the name is dropped, then building the
        notice reads an undeclared `file` and throws, so nothing is written or sent. */
    method RemoveLocalFile(fileName: string, chat: Address) returns (ok: bool)
      modifies this`localFiles
      ensures !ok
      ensures localFiles == WithoutLocalFile(old(localFiles), fileName)
      ensures LocalFileNamed(localFiles, Some(fileName)).None?
    {
      localFiles := WithoutLocalFile(localFiles, fileName);
      RemovedLocalFileGone(old(localFiles), fileName);
      return false;
    }

    /** addRemoteFile: catalog `{file, chat}` and send the renderer the catalog. */
    method AddRemoteFile(file: Option<string>, chat: Address)
      modifies this`remoteFiles, this`effects
      ensures remoteFiles == old(remoteFiles) + [RemoteFile(file, chat)]
      ensures effects == old(effects) + [RemoteFiles(remoteFiles)]
    {
      remoteFiles := remoteFiles + [RemoteFile(file, chat)];
      effects := effects + [RemoteFiles(remoteFiles)];
    }

    /** removeRemoteFile: filter on a field the entries lack, so a named file removes
        nothing and a frame without a name empties the catalog; the renderer is sent it. */
    method RemoveRemoteFile(fileName: Option<string>, chat: Address)
      modifies this`remoteFiles, this`effects
      ensures fileName.Some? ==> remoteFiles == old(remoteFiles)
      ensures fileName.None? ==> remoteFiles == []
      ensures effects == old(effects) + [RemoteFiles(remoteFiles)]
    {
      remoteFiles := KeepRemoteFiles(remoteFiles, fileName);
      if fileName.Some? {
        RemoteRemovalByNameKeepsAll(old(remoteFiles), fileName.value);
      } else {
        RemoteRemovalWithoutNameClearsAll(old(remoteFiles));
      }
      effects := effects + [RemoteFiles(remoteFiles)];
    }

    /** requestDownload: remember the download directory, then ask the peer for the
        file; without a beam for the address the write throws. */
    method RequestDownload(downloadDir: string, file: string, from: Address) returns (ok: bool)
      modifies this`downloadDirectory, this`effects
      ensures downloadDirectory == Some(downloadDir)
      ensures ok <==> SessionFor(active, from).Some?
      ensures ok ==> effects == old(effects) + [Write(SessionFor(active, from).value.key, RequestDownloadFrame(file))]
      ensures !ok ==> effects == old(effects)
    {
      downloadDirectory := Some(downloadDir);
      var found := SessionFor(active, from);
      if found.None? {
        return false;
      }
      effects := effects + [Write(found.value.key, RequestDownloadFrame(file))];
      return true;
    }

    /** uploadReady: tell the peer the file is about to stream. */
    method UploadReady(file: Option<string>, size: Option<int>, from: Address) returns (ok: bool)
      modifies this`effects
      ensures ok <==> SessionFor(active, from).Some?
      ensures ok ==> effects == old(effects) + [Write(SessionFor(active, from).value.key, UploadReadyFrame(file, size))]
      ensures !ok ==> effects == old(effects)
    {
      var found := SessionFor(active, from);
      if found.None? {
        return false;
      }
      effects := effects + [Write(found.value.key, UploadReadyFrame(file, size))];
      return true;
    }

    /** sendFile: stream the catalogued file into the address's beam; a missing file or
        a missing beam throws. */
    method SendFile(fileName: Option<string>, contact: Address) returns (ok: bool)
      modifies this`effects
      ensures ok <==> LocalFileNamed(localFiles, fileName).Some? && SessionFor(active, contact).Some?
      ensures ok ==> effects == old(effects) + [Upload(LocalFileNamed(localFiles, fileName).value.path, SessionFor(active, contact).value.key)]
      ensures !ok ==> effects == old(effects)
    {
      var found := SessionFor(active, contact);
      var file := LocalFileNamed(localFiles, fileName);
      if file.None? || found.None? {
        return false;
      }
      effects := effects + [Upload(file.value.path, found.value.key)];
      return true;
    }

    /** downloadFile: open a write stream on the download path, then pipe the
        address's beam into it; without a beam the pipe throws after the stream opened. */
    method DownloadFile(fileName: Option<string>, from: Address) returns (ok: bool)
      modifies this`effects
      ensures ok <==> SessionFor(active, from).Some?
      ensures ok ==> effects == old(effects) + [OpenDownload(DownloadPath(downloadDirectory, fileName)),
                                                 Download(SessionFor(active, from).value.key, DownloadPath(downloadDirectory, fileName))]
      ensures !ok ==> effects == old(effects) + [OpenDownload(DownloadPath(downloadDirectory, fileName))]
    {
      var found := SessionFor(active, from);
      var path := DownloadPath(downloadDirectory, fileName);
      effects := effects + [OpenDownload(path)];
      if found.None? {
        return false;
      }
      effects := effects + [Download(found.value.key, path)];
      return true;
    }

    /** checkDataMessage: `Some(true)` when the frame was handled (or was not JSON),
        `Some(false)` when it is left to decryption, `None` when handling it threw. */
    method CheckDataMessage(data: string, chat: Address, parse: string -> Option<Json>) returns (r: Option<bool>)
      requires data != "Start" && data != "Ping"
      modifies this`remoteFiles, this`effects
      ensures r == Some(false) <==> Classify(data, parse) == ToDecrypt
      ensures r.None? ==> Classify(data, parse) in {NullFrame, DownloadAsked, UploadAnnounced}
      ensures Classify(data, parse) == Swallowed ==> r == Some(true) && effects == old(effects) && remoteFiles == old(remoteFiles)
      ensures Classify(data, parse) != Swallowed ==>
        (var j := parse(data).value;
         |effects| > |old(effects)| && effects[..|old(effects)| + 1] == old(effects) + [IncomingData(j)] &&
         (r, remoteFiles, effects[|old(effects)| + 1..]) == Dispatched(j, chat, old(remoteFiles), localFiles, active, downloadDirectory))
    {
      var parsed := parse(data);
      if parsed.None? {
        return Some(true);
      }
      var j := parsed.value;
      effects := effects + [IncomingData(j)];
      ghost var before := effects;
      r := Dispatch(j, chat);
      assert effects[..|before|] == before;
    }

    /** The dispatch on a parsed frame's type. */
    method Dispatch(j: Json, chat: Address) returns (r: Option<bool>)
      modifies this`remoteFiles, this`effects
      ensures |effects| >= |old(effects)| && effects[..|old(effects)|] == old(effects)
      ensures (r, remoteFiles, effects[|old(effects)|..]) == Dispatched(j, chat, old(remoteFiles), localFiles, active, downloadDirectory)
    {
      if j.JNull? {
        return None;
      }
      var kind := TypeOf(j);
      if kind == Some("remote-file-added") {
        AddRemoteFile(j.fileName, chat);
        return Some(true);
      }
      if kind == Some("remote-file-removed") {
        RemoveRemoteFile(j.fileName, chat);
        return Some(true);
      }
      if kind == Some("request-download") {
        var ok := AnswerDownloadRequest(j, chat);
        return if ok then Some(true) else None;
      }
      if kind == Some("upload-ready") {
        var ok := AcceptUpload(j, chat);
        return if ok then Some(true) else None;
      }
      assert ClassifyJson(j) == ToDecrypt;
      assert effects[|old(effects)|..] == [];
      return Some(false);
    }

    /** checkDataMessage's request-download branch: notify the renderer, then stream the
        named local file and announce it; a missing file or beam throws. */
    method AnswerDownloadRequest(j: Json, chat: Address) returns (ok: bool)
      requires j.JObject?
      modifies this`effects
      ensures ok <==> LocalFileNamed(localFiles, j.fileName).Some? && SessionFor(active, chat).Some?
      ensures ok ==> effects == old(effects) + [DownloadRequest(j), Upload(LocalFileNamed(localFiles, j.fileName).value.path, SessionFor(active, chat).value.key),
                                                 Write(SessionFor(active, chat).value.key, UploadReadyFrame(j.fileName, Some(LocalFileNamed(localFiles, j.fileName).value.size)))]
      ensures !ok ==> effects == old(effects) + [DownloadRequest(j)]
    {
      effects := effects + [DownloadRequest(j)];
      var file := LocalFileNamed(localFiles, j.fileName);
      if file.None? {
        return false;
      }
      ok := SendFile(j.fileName, chat);
      if !ok {
        return;
      }
      ok := UploadReady(j.fileName, Some(file.value.size), chat);
    }

    /** checkDataMessage's upload-ready branch: notify the renderer, then download into
        the download directory; without a beam the pipe throws. */
    method AcceptUpload(j: Json, chat: Address) returns (ok: bool)
      requires j.JObject?
      modifies this`effects
      ensures ok <==> SessionFor(active, chat).Some?
      ensures ok ==> effects == old(effects) + [Downloading(j), OpenDownload(DownloadPath(downloadDirectory, j.fileName)),
                                                 Download(SessionFor(active, chat).value.key, DownloadPath(downloadDirectory, j.fileName))]
      ensures !ok ==> effects == old(effects) + [Downloading(j), OpenDownload(DownloadPath(downloadDirectory, j.fileName))]
    {
      effects := effects + [Downloading(j)];
      ok := DownloadFile(j.fileName, chat);
    }

    /** The 'data' handler: control frames are ignored; a frame checkDataMessage handled
        (including every frame that is not JSON) stops there; any other frame goes to
        decryption with the chat's message key. */
    method OnData(str: string, chat: string, parse: string -> Option<Json>) returns (r: DataOutcome)
      modifies this`remoteFiles, this`effects
      ensures r == Ignored <==> Classify(str, parse) == Control
      ensures r == Decrypting <==> Classify(str, parse) == ToDecrypt
      ensures r == Threw ==> Classify(str, parse) in {NullFrame, DownloadAsked, UploadAnnounced}
      ensures Classify(str, parse) in {Swallowed, FileAdded, FileRemoved} ==> r == Handled
      ensures Classify(str, parse) == NullFrame ==> r == Threw
      ensures Classify(str, parse) == DownloadAsked ==>
        (r == Threw <==> LocalFileNamed(localFiles, parse(str).value.fileName).None? || SessionFor(active, AddressOf(chat)).None?)
      ensures Classify(str, parse) == UploadAnnounced ==> (r == Threw <==> SessionFor(active, AddressOf(chat)).None?)
      ensures Classify(str, parse) in {Control, Swallowed} ==> effects == old(effects) && remoteFiles == old(remoteFiles)
      ensures Classify(str, parse) !in {Control, Swallowed, ToDecrypt} ==>
        (var j := parse(str).value;
         remoteFiles == Dispatched(j, AddressOf(chat), old(remoteFiles), localFiles, active, downloadDirectory).1 &&
         effects == old(effects) + [IncomingData(j)] + Dispatched(j, AddressOf(chat), old(remoteFiles), localFiles, active, downloadDirectory).2)
      ensures r == Decrypting ==> (remoteFiles == old(remoteFiles) &&
        effects == old(effects) + [IncomingData(parse(str).value), Decrypt(str, MessageKeyOf(chat))])
    {
      if str == "Start" || str == "Ping" {
        return Ignored;
      }
      var handled := CheckDataMessage(str, AddressOf(chat), parse);
      if handled.None? {
        return Threw;
      }
      if handled.value {
        return Handled;
      }
      effects := effects + [Decrypt(str, MessageKeyOf(chat))];
      return Decrypting;
    }
  }
}
