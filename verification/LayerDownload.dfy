/** Resumable layer downloads whose digest verifier is kept across retries. */
module LayerDownload {
  import opened Values

  /** Says whether bytes hash to the digest of the layer. */
  type Hash = Bytes -> bool

  /** The temporary file and the running verifier, which has consumed the given bytes. */
  datatype Descriptor = Descriptor(tmpFile: Option<Bytes>, verifier: Option<Bytes>)

  datatype Open = Opened | Refused(retry: bool)

  /** How the copy ends. A failed write comes after its chunk has gone to the verifier; `kept` bytes reach the file. */
  datatype Ending =
    | EndOfStream
    | WrongCodeForByteRange
    | Interrupted(retry: bool)
    | WriteFailed(chunk: Bytes, kept: nat, retry: bool)

  /** What the file system and the registry do during one attempt. `size` is None when the length is unknown. The file
      may have to be truncated once before the copy (`truncateFails`) and once after it (`startOverFails`). */
  datatype Attempt = Attempt(
    createFails: bool, seekEndFails: bool, open: Open, seekFails: bool, truncateFails: bool, size: Option<nat>,
    reseekFails: bool, verifierFails: bool, chunks: seq<Bytes>, ending: Ending, startOverFails: bool, rewindFails: bool)

  datatype Outcome = Success(file: Bytes) | Retry | GiveUp

  const FRESH := Descriptor(None, None)
  const MAX_ATTEMPTS := 5

  /** An attempt in which nothing fails and the stream is empty. */
  const SMOOTH := Attempt(false, false, Opened, false, false, None, false, false, [], EndOfStream, false, false)

  function Concat(chunks: seq<Bytes>): Bytes {
    if chunks == [] then [] else Concat(chunks[..|chunks| - 1]) + chunks[|chunks| - 1]
  }

  function Kept(chunk: Bytes, kept: nat): Bytes {
    if kept < |chunk| then chunk[..kept] else chunk
  }

  function OrEmpty(b: Option<Bytes>): Bytes {
    if b.Some? then b.value else []
  }

  /** What is on disk when the attempt begins: nothing if the file is new or had to be replaced. */
  function OnDisk(ld: Descriptor, a: Attempt): Bytes {
    if a.seekEndFails then [] else OrEmpty(ld.tmpFile)
  }

  predicate Oversized(ld: Descriptor, a: Attempt) {
    a.size.Some? && a.size.value != 0 && |OnDisk(ld, a)| > a.size.value
  }

  /** The file contents the attempt continues from; their length is the offset asked of the registry. */
  function Start(ld: Descriptor, a: Attempt): Bytes {
    if Oversized(ld, a) then [] else OnDisk(ld, a)
  }

  /** The bytes the verifier has consumed when the copy begins. */
  function Seen(ld: Descriptor, a: Attempt): Bytes {
    if Oversized(ld, a) then [] else OrEmpty(ld.verifier)
  }

  function Truncated(file: Bytes, fails: bool): (Descriptor, Outcome) {
    if fails then (Descriptor(Some(file), None), GiveUp) else (Descriptor(Some([]), None), Retry)
  }

  function Next(hash: Hash, ld: Descriptor, a: Attempt): (Descriptor, Outcome) {
    if (ld.tmpFile.None? || a.seekEndFails) && a.createFails then (ld.(tmpFile := None), GiveUp)
    else
      var base := OnDisk(ld, a);
      if a.open.Refused? then (Descriptor(Some(base), ld.verifier), if a.open.retry then Retry else GiveUp)
      else if base != [] && a.seekFails then Truncated(base, a.truncateFails)
      else if Oversized(ld, a) && a.truncateFails then (Descriptor(Some(base), None), GiveUp)
      else
        var seen := if Oversized(ld, a) then None else ld.verifier;
        if a.size.Some? && a.reseekFails then (Descriptor(Some(Start(ld, a)), seen), Retry)
        else if seen.None? && a.verifierFails then (Descriptor(Some(Start(ld, a)), None), GiveUp)
        else Copied(hash, Start(ld, a), Seen(ld, a), a)
  }

  /** The attempt from the copy onwards. */
  function Copied(hash: Hash, start: Bytes, seen: Bytes, a: Attempt): (Descriptor, Outcome) {
    var file, hashed := start + Concat(a.chunks), seen + Concat(a.chunks);
    match a.ending
    case WrongCodeForByteRange => Truncated(file, a.startOverFails)
    case Interrupted(retry) => (Descriptor(Some(file), Some(hashed)), if retry then Retry else GiveUp)
    case WriteFailed(chunk, kept, retry) =>
      (Descriptor(Some(file + Kept(chunk, kept)), Some(hashed + chunk)), if retry then Retry else GiveUp)
    case EndOfStream =>
      if !hash(hashed) then
        if start != [] then Truncated(file, a.startOverFails) else (Descriptor(Some(file), Some(hashed)), GiveUp)
      else if a.rewindFails then (FRESH, GiveUp)
      else (Descriptor(None, Some(hashed)), Success(file))
  }

  // ---------------------------------------------------------------------------
  // The verifier follows the file

  /** A missing verifier goes with an empty file; otherwise the verifier has consumed exactly the file. */
  ghost predicate InStep(ld: Descriptor) {
    OrEmpty(ld.verifier) == OrEmpty(ld.tmpFile)
  }

  /** The file is replaced while the verifier remembers the old one. */
  predicate DropsFile(ld: Descriptor, a: Attempt) {
    ld.tmpFile.Some? && a.seekEndFails && OrEmpty(ld.verifier) != []
  }

  /** The copy is reached: nothing before it fails. */
  predicate Copies(ld: Descriptor, a: Attempt) {
    && !((ld.tmpFile.None? || a.seekEndFails) && a.createFails) && a.open.Opened?
    && !(OnDisk(ld, a) != [] && a.seekFails) && !(Oversized(ld, a) && a.truncateFails)
    && !(a.size.Some? && a.reseekFails) && !((Oversized(ld, a) || ld.verifier.None?) && a.verifierFails)
  }

  /** A write fails after the verifier has consumed bytes that do not reach the file. */
  predicate LosesBytes(ld: Descriptor, a: Attempt) {
    Copies(ld, a) && a.ending.WriteFailed? && a.ending.kept < |a.ending.chunk|
  }

  lemma TransferStep(hash: Hash, ld: Descriptor, attempts: seq<Attempt>, i: nat, budget: nat)
    requires i < |attempts| && budget > 0
    ensures Transfer(hash, ld, attempts[i..], budget) ==
            var (next, outcome) := Next(hash, ld, attempts[i]);
            if outcome.Retry? then Transfer(hash, next, attempts[i + 1..], budget - 1) else (next, outcome)
  {
    assert attempts[i..][0] == attempts[i] && attempts[i..][1..] == attempts[i + 1..];
  }

  lemma TransferEnds(hash: Hash, ld: Descriptor, attempts: seq<Attempt>, i: nat, budget: nat)
    requires i <= |attempts| && (i == |attempts| || budget == 0)
    ensures Transfer(hash, ld, attempts[i..], budget) == (ld, Retry)
  {
  }

  /** The attempt leaves the verifier out of step with the file: a failed write loses bytes, or a file the verifier
      remembers is replaced and not truncated in the same attempt. */
  predicate Slips(ld: Descriptor, a: Attempt) {
    LosesBytes(ld, a) || (DropsFile(ld, a) && !(Copies(ld, a) && a.ending.WrongCodeForByteRange?))
  }

  /** The attempt from the copy onwards, when the verifier starts in step or ahead of an empty file. */
  lemma CopiedInStepIff(hash: Hash, start: Bytes, seen: Bytes, a: Attempt)
    requires seen == start || (start == [] && seen != [])
    requires Copied(hash, start, seen, a).1.Retry?
    ensures InStep(Copied(hash, start, seen, a).0) <==>
            || a.ending.WrongCodeForByteRange? || a.ending.EndOfStream?
            || (seen == start && !(a.ending.WriteFailed? && a.ending.kept < |a.ending.chunk|))
  {
    var read := Concat(a.chunks);
    match a.ending
    case EndOfStream =>
    case WrongCodeForByteRange =>
    case Interrupted(_) =>
      LongerDiffers(seen + read, start + read);
    case WriteFailed(chunk, kept, _) =>
      LongerDiffers(seen + read + chunk, start + read + Kept(chunk, kept));
  }

  lemma LongerDiffers(a: Bytes, b: Bytes)
    ensures |a| != |b| ==> a != b
  {
  }

  /** After an attempt that may be retried, verifier and file agree exactly when no write lost bytes and the file
      was not replaced, or was but has been truncated since. */
  lemma RetryInStepIff(hash: Hash, ld: Descriptor, a: Attempt)
    requires InStep(ld) && Next(hash, ld, a).1.Retry?
    ensures InStep(Next(hash, ld, a).0) <==> !Slips(ld, a)
  {
    if Copies(ld, a) {
      CopiedInStepIff(hash, Start(ld, a), Seen(ld, a), a);
    }
  }

  /** The bytes that were verified are the bytes handed over exactly when the attempt did not replace a
      file the verifier remembers. */
  lemma VerifiedIffHanded(hash: Hash, ld: Descriptor, a: Attempt)
    requires InStep(ld) && Next(hash, ld, a).1.Success?
    ensures hash(Seen(ld, a) + Concat(a.chunks))
    ensures Seen(ld, a) + Concat(a.chunks) == Next(hash, ld, a).1.file <==> !DropsFile(ld, a)
  {
    if DropsFile(ld, a) {
      assert |Seen(ld, a) + Concat(a.chunks)| > |Start(ld, a) + Concat(a.chunks)|;
    }
  }

  /** Retrying, as the download manager does: until success, a final error, or the last allowed attempt. */
  function Transfer(hash: Hash, ld: Descriptor, attempts: seq<Attempt>, budget: nat): (Descriptor, Outcome)
    decreases attempts
  {
    if attempts == [] || budget == 0 then (ld, Retry)
    else
      var (next, outcome) := Next(hash, ld, attempts[0]);
      if outcome.Retry? then Transfer(hash, next, attempts[1..], budget - 1) else (next, outcome)
  }

  /** No attempt that is made slips. */
  ghost predicate NeverSlips(hash: Hash, ld: Descriptor, attempts: seq<Attempt>, budget: nat)
    decreases attempts
  {
    attempts != [] && budget != 0 ==>
      && !Slips(ld, attempts[0])
      && var (next, outcome) := Next(hash, ld, attempts[0]);
         outcome.Retry? ==> NeverSlips(hash, next, attempts[1..], budget - 1)
  }

  /** However a download is interrupted, resumed, truncated and restarted, a file it hands over has the digest. */
  lemma {:induction false} TransferVerified(hash: Hash, ld: Descriptor, attempts: seq<Attempt>, budget: nat)
    requires InStep(ld) && NeverSlips(hash, ld, attempts, budget)
    ensures var (after, outcome) := Transfer(hash, ld, attempts, budget);
            && (outcome.Success? ==> hash(outcome.file))
            && (outcome.Retry? ==> InStep(after))
    decreases attempts
  {
    if attempts != [] && budget != 0 {
      var (next, outcome) := Next(hash, ld, attempts[0]);
      if outcome.Retry? {
        RetryInStepIff(hash, ld, attempts[0]);
        TransferVerified(hash, next, attempts[1..], budget - 1);
      } else if outcome.Success? {
        VerifiedIffHanded(hash, ld, attempts[0]);
      }
    }
  }

  /** A failed write that is retried hands over a file other than the one that was verified. */
  lemma LostBytesUnverified()
    ensures var hash: Hash := b => b == [1, 2];
            var lost := SMOOTH.(ending := WriteFailed([1], 0, true));
            var rest := lost.(chunks := [[2]], ending := EndOfStream);
            Transfer(hash, FRESH, [lost, rest], MAX_ATTEMPTS).1 == Success([2]) && !hash([2])
  {
    var hash: Hash := b => b == [1, 2];
    var lost := SMOOTH.(ending := WriteFailed([1], 0, true));
    var rest := lost.(chunks := [[2]], ending := EndOfStream);
    var ld := Descriptor(Some([]), Some([1]));
    assert Copied(hash, [], [], lost) == (Descriptor(Some([] + [] + [1][..0]), Some([] + [] + [1])), Retry);
    assert [] + [] + [1][..0] == [] && [] + [] + [1] == [1];
    assert Next(hash, FRESH, lost) == (ld, Retry);
    assert Concat([[2]]) == [2] && Seen(ld, rest) + Concat([[2]]) == [1, 2];
    assert Next(hash, ld, rest).1 == Success([2]);
    assert [lost, rest][1..] == [rest];
  }

  /** A failed seek on a resumed download hands over a file other than the one that was verified. */
  lemma ReplacedFileUnverified()
    ensures var hash: Hash := b => b == [1, 2];
            var quiet := SMOOTH.(chunks := [[1]], ending := Interrupted(true));
            var replaced := quiet.(seekEndFails := true, chunks := [[2]], ending := EndOfStream);
            Transfer(hash, FRESH, [quiet, replaced], MAX_ATTEMPTS).1 == Success([2]) && !hash([2])
  {
    var hash: Hash := b => b == [1, 2];
    var quiet := SMOOTH.(chunks := [[1]], ending := Interrupted(true));
    var replaced := quiet.(seekEndFails := true, chunks := [[2]], ending := EndOfStream);
    assert Concat([[1]]) == [1] && Concat([[2]]) == [2];
    var ld := Descriptor(Some([1]), Some([1]));
    assert Next(hash, FRESH, quiet) == (ld, Retry);
    assert Seen(ld, replaced) + Concat([[2]]) == [1, 2];
    assert Next(hash, ld, replaced).1 == Success([2]);
    assert [quiet, replaced][1..] == [replaced];
  }

  // ---------------------------------------------------------------------------
  // An honest registry

  /** What is read is the true blob from the offset on. */
  ghost predicate Served(offset: nat, a: Attempt, blob: Bytes) {
    offset <= |blob| ==>
      && Concat(a.chunks) <= blob[offset..]
      && (a.ending.EndOfStream? ==> Concat(a.chunks) == blob[offset..])
      && (a.ending.WriteFailed? ==> Concat(a.chunks) + a.ending.chunk <= blob[offset..])
  }

  /** The registry serves the true blob from the requested offset. */
  ghost predicate Honest(ld: Descriptor, a: Attempt, blob: Bytes) {
    Served(|Start(ld, a)|, a, blob)
  }

  lemma HonestCopied(hash: Hash, start: Bytes, a: Attempt, blob: Bytes)
    requires hash(blob) && start <= blob && Served(|start|, a, blob)
    requires a.ending.WriteFailed? ==> a.ending.kept >= |a.ending.chunk|
    ensures var (next, outcome) := Copied(hash, start, start, a);
            && (outcome.Retry? ==> OrEmpty(next.tmpFile) <= blob)
            && (outcome.Success? ==> outcome.file == blob)
            && (a.ending.EndOfStream? && !a.rewindFails ==> outcome == Success(blob))
  {
    assert blob == start + blob[|start|..];
    if a.ending.WriteFailed? {
      assert start + Concat(a.chunks) + a.ending.chunk == start + (Concat(a.chunks) + a.ending.chunk);
    }
  }

  /** With an honest registry the file stays a prefix of the blob, and reaching the end of the stream succeeds. */
  lemma HonestStep(hash: Hash, ld: Descriptor, a: Attempt, blob: Bytes)
    requires hash(blob) && InStep(ld) && !Slips(ld, a) && Honest(ld, a, blob)
    requires OrEmpty(ld.tmpFile) <= blob
    ensures Next(hash, ld, a).1.Retry? ==> OrEmpty(Next(hash, ld, a).0.tmpFile) <= blob
    ensures Next(hash, ld, a).1.Success? ==> Next(hash, ld, a).1.file == blob
    ensures Copies(ld, a) && a.ending.EndOfStream? && !a.rewindFails ==> Next(hash, ld, a).1 == Success(blob)
  {
    if Copies(ld, a) && !a.ending.WrongCodeForByteRange? {
      assert Start(ld, a) <= blob && Seen(ld, a) == Start(ld, a);
      HonestCopied(hash, Start(ld, a), a, blob);
    }
  }

  ghost predicate HonestRun(hash: Hash, ld: Descriptor, attempts: seq<Attempt>, budget: nat, blob: Bytes)
    decreases attempts
  {
    attempts != [] && budget != 0 ==>
      && Honest(ld, attempts[0], blob)
      && var (next, outcome) := Next(hash, ld, attempts[0]);
         outcome.Retry? ==> HonestRun(hash, next, attempts[1..], budget - 1, blob)
  }

  lemma {:induction false} HonestTransfer(hash: Hash, ld: Descriptor, attempts: seq<Attempt>, budget: nat, blob: Bytes)
    requires hash(blob) && InStep(ld) && OrEmpty(ld.tmpFile) <= blob
    requires NeverSlips(hash, ld, attempts, budget) && HonestRun(hash, ld, attempts, budget, blob)
    ensures var (after, outcome) := Transfer(hash, ld, attempts, budget);
            && (outcome.Success? ==> outcome.file == blob)
            && (outcome.Retry? ==> OrEmpty(after.tmpFile) <= blob)
    decreases attempts
  {
    if attempts != [] && budget != 0 {
      var (next, outcome) := Next(hash, ld, attempts[0]);
      HonestStep(hash, ld, attempts[0], blob);
      if outcome.Retry? {
        RetryInStepIff(hash, ld, attempts[0]);
        HonestTransfer(hash, next, attempts[1..], budget - 1, blob);
      }
    }
  }

  // ---------------------------------------------------------------------------
  // What an attempt comes to, over its own fields and what is in the file

  /** How far the attempt gets with `offset` bytes in the file: it has a file, the registry answers, and the file can
      be continued. */
  ghost predicate Positioned(ld: Descriptor, a: Attempt, offset: nat) {
    && ((ld.tmpFile.None? || a.seekEndFails) ==> !a.createFails)
    && a.open.Opened?
    && (offset > 0 ==> !a.seekFails)
    && (Exceeds(a, offset) ==> !a.truncateFails)
  }

  /** The file is longer than the registry says the blob is. */
  ghost predicate Exceeds(a: Attempt, offset: nat) {
    a.size.Some? && 0 < a.size.value < offset
  }

  /** The stream is read. */
  ghost predicate Reads(ld: Descriptor, a: Attempt, offset: nat) {
    && Positioned(ld, a, offset)
    && (a.size.Some? ==> !a.reseekFails)
    && (ld.verifier.None? || Exceeds(a, offset) ==> !a.verifierFails)
  }

  /** The copy ends in a way that may be retried. A wrong digest is such a way only when the download was resumed. */
  ghost predicate EndsInRetry(hash: Hash, ld: Descriptor, a: Attempt, offset: nat) {
    match a.ending
    case EndOfStream =>
      && 0 < offset && !Exceeds(a, offset) && !a.startOverFails
      && !hash(OrEmpty(ld.verifier) + Concat(a.chunks))
    case WrongCodeForByteRange => !a.startOverFails
    case Interrupted(retry) => retry
    case WriteFailed(_, _, retry) => retry
  }

  /** Exactly when an attempt may be retried. */
  lemma RetriedIff(hash: Hash, ld: Descriptor, a: Attempt)
    ensures var offset := if ld.tmpFile.None? || a.seekEndFails then 0 else |ld.tmpFile.value|;
            Next(hash, ld, a).1.Retry? <==>
            || (a.open == Refused(true) && ((ld.tmpFile.None? || a.seekEndFails) ==> !a.createFails))
            || (a.open.Opened? && offset > 0 && a.seekFails && !a.truncateFails)
            || (Positioned(ld, a, offset) && a.size.Some? && a.reseekFails)
            || (Reads(ld, a, offset) && EndsInRetry(hash, ld, a, offset))
  {
  }

  /** Exactly when an attempt hands over a file, and which: what was kept and what was read. */
  lemma SucceedsIff(hash: Hash, ld: Descriptor, a: Attempt)
    ensures var offset := if ld.tmpFile.None? || a.seekEndFails then 0 else |ld.tmpFile.value|;
            var seen := if ld.verifier.None? || Exceeds(a, offset) then [] else ld.verifier.value;
            Next(hash, ld, a).1.Success? <==>
            Reads(ld, a, offset) && a.ending.EndOfStream? && hash(seen + Concat(a.chunks)) && !a.rewindFails
    ensures var offset := if ld.tmpFile.None? || a.seekEndFails then 0 else |ld.tmpFile.value|;
            Next(hash, ld, a).1.Success? ==>
            Next(hash, ld, a).1.file ==
            (if offset == 0 || Exceeds(a, offset) then [] else ld.tmpFile.value) + Concat(a.chunks)
  {
    assert [] + Concat(a.chunks) == Concat(a.chunks);
  }

  /** An attempt that may be retried keeps what it has: an interruption loses nothing that was read, and the file is
      emptied only to start over. */
  lemma RetryKeeps(hash: Hash, ld: Descriptor, a: Attempt)
    requires Next(hash, ld, a).1.Retry?
    ensures var offset := if ld.tmpFile.None? || a.seekEndFails then 0 else |ld.tmpFile.value|;
            var had := if offset == 0 then [] else ld.tmpFile.value;
            var start := if Exceeds(a, offset) then [] else had;
            var file := Next(hash, ld, a).0.tmpFile;
            if a.open.Refused? then file == Some(had)
            else if offset > 0 && a.seekFails then file == Some([])
            else if a.size.Some? && a.reseekFails then file == Some(start)
            else match a.ending
                 case Interrupted(_) => file == Some(start + Concat(a.chunks))
                 case WriteFailed(chunk, kept, _) =>
                   file == Some(start + Concat(a.chunks) + if kept < |chunk| then chunk[..kept] else chunk)
                 case _ => file == Some([])
  {
  }

  /** Nothing fails, and the stream is read to its end. */
  ghost predicate Faultless(a: Attempt) {
    && !a.createFails && !a.seekEndFails && a.open.Opened? && !a.seekFails && !a.truncateFails && !a.reseekFails
    && !a.verifierFails && a.ending.EndOfStream? && !a.startOverFails && !a.rewindFails
  }

  /** A faultless attempt with an honest registry hands over the blob exactly when the file it continues is the
      beginning of the blob; otherwise it may be retried, and has emptied the file. */
  lemma FaultlessStep(hash: Hash, ld: Descriptor, a: Attempt, blob: Bytes)
    requires forall b :: hash(b) <==> b == blob
    requires InStep(ld) && Faultless(a) && Honest(ld, a, blob) && |Start(ld, a)| <= |blob|
    ensures Start(ld, a) <= blob ==> Next(hash, ld, a).1 == Success(blob)
    ensures !(Start(ld, a) <= blob) ==> Next(hash, ld, a) == (Descriptor(Some([]), None), Retry)
  {
    var start := Start(ld, a);
    assert Seen(ld, a) == start;
    var file := start + Concat(a.chunks);
    assert |file| == |blob| && file[..|start|] == start;
    if start <= blob {
      assert file == blob;
    }
  }

  /** Whatever a download has gathered so far, two faultless attempts with an honest registry complete it, even if the
      file is no part of the blob. */
  lemma Recovers(hash: Hash, ld: Descriptor, attempts: seq<Attempt>, budget: nat, blob: Bytes)
    requires forall b :: hash(b) <==> b == blob
    requires InStep(ld) && |attempts| >= 2 && budget >= 2 && Faultless(attempts[0]) && Faultless(attempts[1])
    requires HonestRun(hash, ld, attempts, budget, blob)
    requires |OrEmpty(ld.tmpFile)| <= |blob| || Oversized(ld, attempts[0])
    ensures Transfer(hash, ld, attempts, budget).1 == Success(blob)
  {
    FaultlessStep(hash, ld, attempts[0], blob);
    var (next, outcome) := Next(hash, ld, attempts[0]);
    if outcome.Retry? {
      assert attempts[1..][0] == attempts[1];
      FaultlessStep(hash, next, attempts[1], blob);
    }
  }

  // ---------------------------------------------------------------------------
  // The descriptor object

  class LayerDescriptor {
    const hash: Hash
    var tmpFile: Option<Bytes>
    var verifier: Option<Bytes>

    ghost function State(): Descriptor
      reads this
    {
      Descriptor(tmpFile, verifier)
    }

    constructor (hash: Hash)
      ensures this.hash == hash && State() == FRESH
    {
      this.hash, tmpFile, verifier := hash, None, None;
    }

    method TruncateDownloadFile(truncateFails: bool) returns (ok: bool)
      modifies this
      ensures ok <==> !truncateFails
      ensures State() == Descriptor(if ok then Some([]) else old(tmpFile), None)
    {
      verifier := None;
      if truncateFails {
        return false;
      }
      tmpFile := Some([]);
      return true;
    }

    /** Copies the stream to the file, teeing every chunk into the verifier first. */
    method Copy(chunks: seq<Bytes>)
      requires tmpFile.Some? && verifier.Some?
      modifies this
      ensures tmpFile == Some(old(tmpFile.value) + Concat(chunks))
      ensures verifier == Some(old(verifier.value) + Concat(chunks))
    {
      for i := 0 to |chunks|
        invariant tmpFile.Some? && tmpFile.value == old(tmpFile.value) + Concat(chunks[..i])
        invariant verifier.Some? && verifier.value == old(verifier.value) + Concat(chunks[..i])
      {
        assert chunks[..i + 1][..i] == chunks[..i];
        verifier := Some(verifier.value + chunks[i]);
        tmpFile := Some(tmpFile.value + chunks[i]);
      }
      assert chunks[..|chunks|] == chunks;
    }

    method Download(a: Attempt) returns (outcome: Outcome)
      modifies this
      ensures (State(), outcome) == Next(hash, old(State()), a)
    {
      if tmpFile.None? || a.seekEndFails {
        tmpFile := None;
        if a.createFails {
          return GiveUp;
        }
        tmpFile := Some([]);
      }
      var offset := |tmpFile.value|;
      if a.open.Refused? {
        return if a.open.retry then Retry else GiveUp;
      }
      if offset != 0 && a.seekFails {
        var ok := TruncateDownloadFile(a.truncateFails);
        return if ok then Retry else GiveUp;
      }
      if a.size.Some? {
        if a.size.value != 0 && offset > a.size.value {
          offset := 0;
          var ok := TruncateDownloadFile(a.truncateFails);
          if !ok {
            return GiveUp;
          }
        }
        if a.reseekFails {
          return Retry;
        }
      }
      if verifier.None? {
        if a.verifierFails {
          return GiveUp;
        }
        verifier := Some([]);
      }
      outcome := Finish(a, offset != 0);
    }

    /** Copies the rest of the blob and checks its digest. */
    method Finish(a: Attempt, resumed: bool) returns (outcome: Outcome)
      requires tmpFile.Some? && verifier.Some? && (resumed <==> tmpFile.value != [])
      modifies this
      ensures (State(), outcome) == Copied(hash, old(tmpFile.value), old(verifier.value), a)
    {
      Copy(a.chunks);
      match a.ending
      case WrongCodeForByteRange =>
        var ok := TruncateDownloadFile(a.startOverFails);
        return if ok then Retry else GiveUp;
      case Interrupted(retry) =>
        return if retry then Retry else GiveUp;
      case WriteFailed(chunk, kept, retry) =>
        verifier := Some(verifier.value + chunk);
        tmpFile := Some(tmpFile.value + Kept(chunk, kept));
        return if retry then Retry else GiveUp;
      case EndOfStream =>
        if !hash(verifier.value) {
          if resumed {
            var ok := TruncateDownloadFile(a.startOverFails);
            return if ok then Retry else GiveUp;
          }
          return GiveUp;
        }
        var file := tmpFile.value;
        tmpFile := None;
        if a.rewindFails {
          verifier := None;
          return GiveUp;
        }
        return Success(file);
    }

    /** Downloads with retries, at most `MAX_ATTEMPTS` times; what each attempt meets is given in turn. */
    method Fetch(attempts: seq<Attempt>) returns (outcome: Outcome)
      modifies this
      ensures (State(), outcome) == Transfer(hash, old(State()), attempts, 5)
    {
      ghost var transfer := Transfer(hash, State(), attempts, MAX_ATTEMPTS);
      var retries := 0;
      outcome := Retry;
      assert attempts[0..] == attempts;
      while outcome.Retry? && retries < |attempts| && retries < MAX_ATTEMPTS
        invariant 0 <= retries <= |attempts| && retries <= MAX_ATTEMPTS
        invariant transfer ==
                  if outcome.Retry? then Transfer(hash, State(), attempts[retries..], MAX_ATTEMPTS - retries)
                  else (State(), outcome)
      {
        TransferStep(hash, State(), attempts, retries, MAX_ATTEMPTS - retries);
        outcome := Download(attempts[retries]);
        retries := retries + 1;
      }
      if outcome.Retry? {
        TransferEnds(hash, State(), attempts, retries, MAX_ATTEMPTS - retries);
      }
    }
  }
}
