/** File transfer with MD5 verification, as the common Junos module does it:
    hashing a local file block by block, reading the device's checksum, and
    the skip / copy / verify decision; and the transfers without checksum. */
module Transfer {
  import opened Text
  import opened JunosTypes

  type Bytes = seq<bv8>

  /** The read size of the hashing loop. */
  const BlockSize := 65536

  function Concat(blocks: seq<Bytes>): Bytes {
    if blocks == [] then [] else Concat(blocks[..|blocks| - 1]) + blocks[|blocks| - 1]
  }

  /** _hashfile: read the file in blocks until a read comes back empty,
      feeding each block to the hasher; `digest` is the MD5 hex digest of all
      bytes fed. The blocks read are returned as well. */
  method HashFile(content: Bytes, digest: Bytes -> string) returns (checksum: string, blocks: seq<Bytes>)
    ensures checksum == digest(content)
    ensures Concat(blocks) == content
    ensures forall i :: 0 <= i < |blocks| ==> 0 < |blocks[i]| <= BlockSize
    ensures forall i :: 0 <= i < |blocks| - 1 ==> |blocks[i]| == BlockSize
  {
    var pos := 0;
    var fed: Bytes := [];
    blocks := [];
    var buf := content[pos..if |content| < BlockSize then |content| else BlockSize];
    while |buf| > 0
      invariant 0 <= pos <= |content|
      invariant fed == content[..pos] == Concat(blocks)
      invariant buf == content[pos..if |content| - pos < BlockSize then |content| else pos + BlockSize]
      invariant forall i :: 0 <= i < |blocks| ==> 0 < |blocks[i]| <= BlockSize
      invariant forall i :: 0 <= i < |blocks| - 1 ==> |blocks[i]| == BlockSize
      invariant blocks != [] && |blocks[|blocks| - 1]| < BlockSize ==> pos == |content|
      decreases |content| - pos
    {
      fed := fed + buf;
      blocks := blocks + [buf];
      assert Concat(blocks) == Concat(blocks[..|blocks| - 1]) + buf;
      pos := pos + |buf|;
      assert fed == content[..pos];
      buf := content[pos..if |content| - pos < BlockSize then |content| else pos + BlockSize];
    }
    assert fed == content;
    checksum := digest(fed);
  }

  /** A local file as open() and read() see it: its bytes, or the message of
      the OSError raised. */
  datatype LocalFile = LocalContent(bytes: Bytes) | LocalOpenError(message: string)

  /** The device's answer to get-checksum-information: the text of the
      checksum element (absent when there is none), or the exception raised. */
  datatype RemoteReply = RemoteText(text: Option<string>) | RemoteRaised(error: LibError)

  const NoFile := "no_file"
  /** The texts whose presence in an error message marks a missing file. */
  const NoSuchFile := "No such file"
  const NoSuchFileOrDirectory := "No such file or directory"

  /** local_md5: the digest of the file; a missing file is "no_file" only when fetching. */
  function LocalChecksum(f: LocalFile, action: Direction, digest: Bytes -> string): Result<string, Crash> {
    match f
    case LocalContent(bytes) => Ok(digest(bytes))
    case LocalOpenError(message) =>
      if Contains(message, NoSuchFile) && action == Get then Ok(NoFile)
      else Err(OSError(message))
  }

  /** local_md5, hashing through the block loop. */
  method LocalMd5(f: LocalFile, action: Direction, digest: Bytes -> string) returns (r: Result<string, Crash>)
    ensures r == LocalChecksum(f, action, digest)
  {
    match f {
      case LocalContent(bytes) =>
        var checksum, _ := HashFile(bytes, digest);
        r := Ok(checksum);
      case LocalOpenError(message) =>
        if Contains(message, NoSuchFile) && action == Get {
          r := Ok(NoFile);
        } else {
          r := Err(OSError(message));
        }
    }
  }

  /** remote_md5: the stripped checksum text; a missing remote file is
      "no_file" only when pushing. A reply without a checksum element fails on
      None.strip(). */
  function RemoteChecksum(reply: RemoteReply, action: Direction): Result<string, Crash> {
    match reply
    case RemoteText(None) => Err(AttributeError("'NoneType' object has no attribute 'strip'"))
    case RemoteText(Some(t)) => Ok(StripSpace(t))
    case RemoteRaised(e) =>
      if Contains(e.detail, NoSuchFileOrDirectory) && action == Put then Ok(NoFile)
      else Err(Uncaught(e))
  }

  const FailedPrefix := "Transfer failed (different MD5 between local and remote) "

  /** The status of a transfer whose checksums still differ afterwards. */
  function MismatchStatus(local: string, remote: string): string {
    FailedPrefix + local + " | " + remote
  }

  /** The mismatch status names both checksums. */
  lemma MismatchStatusNames(local: string, remote: string)
    ensures StartsWith(MismatchStatus(local, remote), FailedPrefix)
    ensures Contains(MismatchStatus(local, remote), local)
    ensures Contains(MismatchStatus(local, remote), remote)
  {
    var s := MismatchStatus(local, remote);
    assert s[..|FailedPrefix|] == FailedPrefix;
    ContainsConcat(FailedPrefix, local, " | " + remote);
    assert s == FailedPrefix + local + (" | " + remote);
    ContainsConcat(FailedPrefix + local + " | ", remote, "");
    assert s == FailedPrefix + local + " | " + remote + "";
  }

  const PushedStatus := "File pushed OK"
  const SkippedStatus := "File already present, skipping the scp"

  /** The end of a checksum-verified transfer. */
  datatype CopyOutcome = Copied(status: string, changed: bool) | CopyMismatch(status: string) | CopyCrashed(crash: Crash)

  /** The checksum of the side a transfer writes to, before or after, read in
      the direction's own way. */
  function TargetChecksum(d: Direction, local: LocalFile, remote: RemoteReply, digest: Bytes -> string): Result<string, Crash> {
    if d == Put then RemoteChecksum(remote, Put) else LocalChecksum(local, Get, digest)
  }

  function SourceChecksum(d: Direction, local: LocalFile, remote: RemoteReply, digest: Bytes -> string): Result<string, Crash> {
    if d == Put then LocalChecksum(local, Put, digest) else RemoteChecksum(remote, Get)
  }

  /** Whether the copy is needed: the target is missing or differs from the source. */
  predicate NeedsCopy(target: string, source: string) {
    target == NoFile || target != source
  }

  /** scp/ftp_file_copy_put and _get: checksum the source (the local file when
      pushing, the remote one when fetching), then the target, copy only when
      they differ, then checksum the target again. */
  function VerifiedCopy(d: Direction, localBefore: LocalFile, remoteBefore: RemoteReply, copy: LibResult,
                        localAfter: LocalFile, remoteAfter: RemoteReply, digest: Bytes -> string): CopyOutcome {
    var src := SourceChecksum(d, localBefore, remoteBefore, digest);
    var tgt := TargetChecksum(d, localBefore, remoteBefore, digest);
    if src.Err? then CopyCrashed(src.error)
    else if tgt.Err? then CopyCrashed(tgt.error)
    else
      var source := src.value;
      var target := tgt.value;
      if !NeedsCopy(target, source) then Copied(SkippedStatus, false)
      else CheckedTransfer(d, source, copy, TargetChecksum(d, localAfter, remoteAfter, digest))
  }

  /** The copy itself and the comparison of the target's checksum `after` it
      with the source's. */
  function CheckedTransfer(d: Direction, source: string, copy: LibResult, after: Result<string, Crash>): CopyOutcome {
    if copy.Raised? then CopyCrashed(Uncaught(copy.error))
    else match after
      case Err(c) => CopyCrashed(c)
      case Ok(sum) =>
        if sum != source then
          CopyMismatch(if d == Put then MismatchStatus(source, sum) else MismatchStatus(sum, source))
        else Copied(PushedStatus, true)
  }

  /** A file is reported copied only when the target's checksum afterwards
      equals the source's; it is skipped exactly when both checksums were
      readable, equal, and the target was not missing. */
  lemma VerifiedCopyMeaning(d: Direction, localBefore: LocalFile, remoteBefore: RemoteReply, copy: LibResult,
                            localAfter: LocalFile, remoteAfter: RemoteReply, digest: Bytes -> string)
    ensures var o := VerifiedCopy(d, localBefore, remoteBefore, copy, localAfter, remoteAfter, digest);
      var src := SourceChecksum(d, localBefore, remoteBefore, digest);
      var tgt := TargetChecksum(d, localBefore, remoteBefore, digest);
      var after := TargetChecksum(d, localAfter, remoteAfter, digest);
      && (o == Copied(PushedStatus, true) ==> src.Ok? && after == Ok(src.value))
      && (o == Copied(SkippedStatus, false) <==> src.Ok? && tgt.Ok? && !NeedsCopy(tgt.value, src.value))
      && (o.Copied? ==> o == Copied(PushedStatus, true) || o == Copied(SkippedStatus, false))
      && (o.CopyMismatch? ==> src.Ok? && tgt.Ok? && NeedsCopy(tgt.value, src.value) && copy.Done? && after.Ok? && after.value != src.value)
  {
  }

  /** A push whose local file cannot be opened crashes: a missing local file
      is tolerated only when fetching. */
  lemma PushNeedsLocalFile(message: string, remoteBefore: RemoteReply, copy: LibResult,
                           localAfter: LocalFile, remoteAfter: RemoteReply, digest: Bytes -> string)
    ensures VerifiedCopy(Put, LocalOpenError(message), remoteBefore, copy, localAfter, remoteAfter, digest)
      == CopyCrashed(OSError(message))
  {
  }

  /** A transfer without checksum: its result flag, or the exception's text. */
  datatype PlainCopy = CopyReturned(result: bool) | CopyRaised(error: LibError)

  /** The *_without_checksum transfers: SCP reports success whenever it does not
      raise; FTP reports its own result; over a local connection an exception
      becomes an "Error: ..." status, over a delegated one it propagates. */
  function UnverifiedCopy(t: Transport, conn: ConnType, outcome: PlainCopy): Result<(string, bool), Crash> {
    match outcome
    case CopyRaised(e) =>
      if conn == Local then Ok(("Error: " + e.detail, false)) else Err(Uncaught(e))
    case CopyReturned(result) =>
      if t == Scp || result then Ok((PushedStatus, true)) else Ok(("Transfer failed", false))
  }

  /** Success is reported exactly when nothing was raised and, for FTP, the
      transfer returned true; a local connection never lets an exception out. */
  lemma UnverifiedCopyMeaning(t: Transport, conn: ConnType, outcome: PlainCopy)
    ensures var r := UnverifiedCopy(t, conn, outcome);
      && (r.Ok? && r.value.1 <==> outcome.CopyReturned? && (t == Scp || outcome.result))
      && (conn == Local ==> r.Ok?)
      && (r.Ok? && r.value.1 ==> r.value.0 == PushedStatus)
  {
  }
}
