/**
 * The receiving session updated in place (ReceiverSession.ts), proved against
 * ReceiverState.  Its dictionary holds the value of each ChunkReceiver; the
 * class of that name is proved against the same transitions in Receiving.
 */
module ReceiverSession {
  import opened Basics
  import opened FileNames
  import opened Hashing
  import opened Encryption
  import opened Receiving
  import opened ReceiverState
  import opened Wire
  import Sinks

  /** The part of the offered metadata that the transfer uses. */
  datatype FileMetadata = FileMetadata(id: string, name: Name, totalChunks: nat, chunkSize: nat)

  function Ids(files: seq<FileMetadata>): set<string> {
    set i | 0 <= i < |files| :: files[i].id
  }

  lemma IdsStep(files: seq<FileMetadata>, n: nat)
    requires n < |files|
    ensures Ids(files[..n + 1]) == Ids(files[..n]) + {files[n].id}
  {
    assert files[..n + 1] == files[..n] + [files[n]];
    forall id | id in Ids(files[..n])
      ensures id in Ids(files[..n + 1])
    {
      var i :| 0 <= i < n && files[..n][i].id == id;
      assert files[..n + 1][i].id == id;
    }
    assert files[..n + 1][n].id == files[n].id;
  }

  /** The dictionary after a fresh receiver was put in for each file; ids of an offer are expected to differ. */
  function Opened(receivers: map<string, FileRx>, files: seq<FileMetadata>, onDisk: set<string>): map<string, FileRx> {
    if files == [] then receivers
    else
      var meta := files[|files| - 1];
      Opened(receivers, files[..|files| - 1], onDisk)
        [meta.id := Fresh(meta.chunkSize, meta.totalChunks, Sinks.Empty(meta.id in onDisk))]
  }

  /** The names under which the sinks are opened: the offered ones, sanitized once more. */
  function OpenedNames(names: map<string, Name>, files: seq<FileMetadata>): (r: map<string, Name>)
    ensures r.Keys == names.Keys + Ids(files)
  {
    if files == [] then names
    else
      var n := |files| - 1;
      IdsStep(files, n);
      assert files[..n + 1] == files;
      OpenedNames(names, files[..n])[files[n].id := Sanitize(files[n].name)]
  }

  lemma {:induction false} OpenedFresh(receivers: map<string, FileRx>, files: seq<FileMetadata>, onDisk: set<string>)
    ensures var after := Opened(receivers, files, onDisk);
            && after.Keys == receivers.Keys + Ids(files)
            && (forall id :: id in Ids(files) ==> FirstGap(after[id].received) == 0)
            && (forall id :: id in receivers && id !in Ids(files) ==> after[id] == receivers[id])
  {
    FirstGapIsUnique([], 0);
    if files != [] {
      var n := |files| - 1;
      OpenedFresh(receivers, files[..n], onDisk);
      IdsStep(files, n);
      assert files[..n + 1] == files;
    }
  }

  /** With different ids, each offered file gets its own fresh receiver. */
  lemma {:induction false} OpenedEach(receivers: map<string, FileRx>, files: seq<FileMetadata>, onDisk: set<string>, i: nat)
    requires i < |files| && forall a, b :: 0 <= a < b < |files| ==> files[a].id != files[b].id
    ensures var after := Opened(receivers, files, onDisk);
            files[i].id in after
            && after[files[i].id] == Fresh(files[i].chunkSize, files[i].totalChunks, Sinks.Empty(files[i].id in onDisk))
  {
    if i < |files| - 1 { OpenedEach(receivers, files[..|files| - 1], onDisk, i); }
  }

  /** The bytes a finalized sink hands over. */
  method Finalize(sink: Sinks.SinkState) returns (saved: seq<byte>)
    ensures saved == Sinks.Output(sink)
  {
    match sink {
      case Disk(stream) => saved := stream;
      case Keyed(rows) =>
        var keys, n := rows.Keys, 0;
        while keys != {}
          invariant forall k :: k in rows ==> k < n || k in keys
          decreases keys
        {
          var k :| k in keys;
          keys := keys - {k};
          n := if k < n then n else k + 1;
        }
        saved := Sinks.JoinRows(rows, n);
        ghost var m := Sinks.Above(rows.Keys);
        if n <= m { Sinks.JoinRowsEnough(rows, n, m); } else { Sinks.JoinRowsEnough(rows, m, n); }
    }
  }

  /** The user's decision on an offer, as the sender hears of it. */
  datatype Answer = FileAccept(resumeFrom: map<string, nat>) | FileReject

  class ReceiverSession {
    const h: Digest
    const cipher: Option<Cipher>
    var receivers: map<string, FileRx>
    var pendingChunkMeta: Option<Meta>
    var completedFileIds: set<string>
    var status: map<string, Status>
    var saved: map<string, seq<byte>>
    var names: map<string, Name>
    var disk: map<Name, DiskFile>
    var transferDone: bool

    ghost function State(): RxState
      reads this
    {
      RxState(receivers, pendingChunkMeta, completedFileIds, status, saved, names, disk, transferDone)
    }

    constructor (h: Digest, cipher: Option<Cipher>, disk: map<Name, DiskFile>)
      ensures this.h == h && this.cipher == cipher
      ensures State() == RxState(map[], None, {}, map[], map[], map[], disk, false)
    {
      this.h, this.cipher := h, cipher;
      receivers, pendingChunkMeta, completedFileIds := map[], None, {};
      status, saved, transferDone := map[], map[], false;
      names, this.disk := map[], disk;
    }

    /** One whole handler of the file channel; `ok`: its platform calls are fulfilled. */
    method HandleFileChannelData(m: FileMsg, ok: bool)
      modifies this
      ensures State() == OnMessage(Env(h, cipher), old(State()), m, ok)
    {
      match m {
        case ChunkMeta(meta) => pendingChunkMeta := Some(meta);
        case Binary(data) => HandleBinary(data, ok);
        case FileComplete(id, checksum) => HandleFileComplete(id, checksum, ok);
        case TransferComplete(_) => transferDone := true;
      }
    }

    method HandleBinary(data: seq<byte>, ok: bool)
      modifies this
      ensures State() == OnBinary(Env(h, cipher), old(State()), data, ok)
    {
      if pendingChunkMeta.None? {
        return;
      }
      var meta := pendingChunkMeta.value;
      pendingChunkMeta := None;
      if meta.fileId !in receivers {
        return;
      }
      var receiver := receivers[meta.fileId];
      if receiver.digested || meta.chunkIndex in receiver.received {
        return;
      }
      var plaintext := Decode(cipher, meta.iv, data);
      if plaintext.None? || !ok {
        return;
      }
      receivers := receivers[meta.fileId := Accept(receiver, meta.chunkIndex, plaintext.value)];
      status := status[meta.fileId := Transferring];
    }

    method HandleFileComplete(id: string, checksum: string, ok: bool)
      modifies this
      ensures State() == OnFileComplete(Env(h, cipher), old(State()), id, checksum, ok)
    {
      if id !in receivers || id in completedFileIds {
        return;
      }
      var receiver := receivers[id];
      completedFileIds := completedFileIds + {id};
      status := status[id := Verifying];
      receivers := receivers[id := receiver.(digested := true)];
      var localDigest := BytesToHex(h(receiver.hashed));
      var verified := ChecksumsMatch(localDigest, checksum);
      if verified.None? || !ok {
        return;
      }
      var blob := Finalize(receiver.sink);
      if receiver.sink.Disk? && id in names {
        disk := disk[names[id] := DiskFile(id, blob)];
      }
      receivers := receivers[id := receivers[id].(sink := AfterFinalize(receiver.sink, true))];
      saved := saved[id := blob];
      status := status[id := if verified.value then Completed else Failed];
    }

    /** A re-offer of files that have receivers is answered at once; any other offer is put to the user. */
    method HandleFileOffer(files: seq<FileMetadata>) returns (answer: Option<Answer>)
      ensures answer.Some? <==> Ids(files) <= receivers.Keys
      ensures answer.Some? ==>
                && answer.value.FileAccept? && answer.value.resumeFrom.Keys == Ids(files)
                && forall id :: id in Ids(files) ==> answer.value.resumeFrom[id] == FirstGap(receivers[id].received)
    {
      answer := None;
      if forall i :: 0 <= i < |files| ==> files[i].id in receivers {
        var resumeFrom := SendAccept(files);
        answer := Some(FileAccept(resumeFrom));
      } else {
        var i :| 0 <= i < |files| && files[i].id !in receivers;
        assert files[i].id in Ids(files);
      }
    }

    /** Declined, nothing changes.  Accepted, every offered file starts afresh, and the answer names chunk 0 for each. */
    method RespondToOffer(files: seq<FileMetadata>, onDisk: set<string>, accept: bool) returns (answer: Answer)
      modifies this
      ensures !accept ==> answer == FileReject && State() == old(State())
      ensures accept ==>
                && State() == old(State()).(receivers := Opened(old(receivers), files, onDisk), names := OpenedNames(old(names), files))
                && answer.FileAccept? && answer.resumeFrom.Keys == Ids(files)
                && forall id :: id in Ids(files) ==> answer.resumeFrom[id] == 0
    {
      if !accept {
        return FileReject;
      }
      for n := 0 to |files|
        invariant State() == old(State()).(receivers := Opened(old(receivers), files[..n], onDisk),
                                           names := OpenedNames(old(names), files[..n]))
      {
        var meta := files[n];
        receivers := receivers[meta.id := Fresh(meta.chunkSize, meta.totalChunks, Sinks.Empty(meta.id in onDisk))];
        names := names[meta.id := Sanitize(meta.name)];
        assert files[..n + 1][..n] == files[..n];
      }
      assert files[..|files|] == files;
      OpenedFresh(old(receivers), files, onDisk);
      var resumeFrom := SendAccept(files);
      assert Ids(files) * receivers.Keys == Ids(files);
      answer := FileAccept(resumeFrom);
    }

    /** The resume points sent back in FILE_ACCEPT: for each file that has a receiver, its first gap. */
    method SendAccept(files: seq<FileMetadata>) returns (resumeFrom: map<string, nat>)
      ensures resumeFrom.Keys == Ids(files) * receivers.Keys
      ensures forall id :: id in resumeFrom ==> resumeFrom[id] == FirstGap(receivers[id].received)
    {
      resumeFrom := map[];
      for n := 0 to |files|
        invariant resumeFrom.Keys == Ids(files[..n]) * receivers.Keys
        invariant forall id :: id in resumeFrom ==> resumeFrom[id] == FirstGap(receivers[id].received)
      {
        var id := files[n].id;
        IdsStep(files, n);
        if id in receivers {
          resumeFrom := resumeFrom[id := FirstGap(receivers[id].received)];
        }
      }
      assert files[..|files|] == files;
    }
  }
}
