/** Copying a terminal's input while watching for the detach key sequence. */
module EscapeCopy {
  import opened Values

  datatype ReadError = NoError | EOF | Failed(message: string)

  /** One read from the source. */
  datatype Read = Read(data: Bytes, err: ReadError)

  /** One write to the destination: how many bytes it takes, and whether it reports an error. */
  datatype Write = Write(n: nat, failed: bool)

  datatype Outcome = Done | Detached | ReadFailed(message: string) | WriteFailed | ShortWrite

  const DEFAULT_KEYS: Bytes := [16, 17]

  function Effective(keys: Bytes): Bytes {
    if keys == [] then DEFAULT_KEYS else keys
  }

  /** The `i`-th read; a source that has run dry keeps reporting the end. */
  function At(input: seq<Read>, i: nat): Read {
    if i < |input| then input[i] else Read([], EOF)
  }

  /** Everything the reads from `i` up to `j` delivered. */
  function Delivered(input: seq<Read>, i: nat, j: nat): Bytes
    requires i <= j
  {
    if i == j then [] else Delivered(input, i, j - 1) + At(input, j - 1).data
  }

  /** The reads from `p` on deliver the first `m` keys, one key each. */
  ghost predicate Begun(input: seq<Read>, p: nat, keys: Bytes, m: nat)
    requires m <= |keys|
  {
    m == 0 || (Begun(input, p, keys, m - 1) && At(input, p + m - 1).data == [keys[m - 1]])
  }

  /** The reads from `p` on deliver the keys, one key each. */
  ghost predicate Spelled(input: seq<Read>, p: nat, keys: Bytes) {
    Begun(input, p, keys, |keys|)
  }

  /** How many reads from `p` on deliver one key each, given that the first `i` do. */
  function Matched(input: seq<Read>, p: nat, keys: Bytes, i: nat): (m: nat)
    requires i <= |keys| && Begun(input, p, keys, i)
    ensures i <= m <= |keys| && Begun(input, p, keys, m)
    ensures m < |keys| ==> At(input, p + m).data != [keys[m]]
    decreases |keys| - i
  {
    if i < |keys| && At(input, p + i).data == [keys[i]] then Matched(input, p, keys, i + 1) else i
  }

  /** What happens from read `p` on when every write succeeds, and how many reads it takes. */
  function Scan(input: seq<Read>, p: nat, keys: Bytes): (Outcome, nat)
    requires keys != []
    decreases |input| - p
  {
    var m := if At(input, p).data == [] then 0 else Matched(input, p, keys, 0);
    if m == |keys| then (Detached, p + m)
    else
      match At(input, p + m).err
      case EOF => (Done, p + m + 1)
      case Failed(message) => (ReadFailed(message), p + m + 1)
      case NoError => Scan(input, p + m + 1, keys)
  }

  // ---------------------------------------------------------------------------

  lemma {:induction false} DeliveredConcat(input: seq<Read>, i: nat, j: nat, k: nat)
    requires i <= j <= k
    ensures Delivered(input, i, k) == Delivered(input, i, j) + Delivered(input, j, k)
    decreases k - j
  {
    if j < k {
      DeliveredConcat(input, i, j, k - 1);
    }
  }

  /** Reads that deliver one key each deliver the keys. */
  lemma {:induction false} DeliveredKeys(input: seq<Read>, p: nat, keys: Bytes, m: nat)
    requires m <= |keys| && Begun(input, p, keys, m)
    ensures Delivered(input, p, p + m) == keys[..m]
  {
    if m > 0 {
      DeliveredKeys(input, p, keys, m - 1);
      assert keys[..m] == keys[..m - 1] + [keys[m - 1]];
    }
  }

  lemma {:induction false} BegunAt(input: seq<Read>, p: nat, keys: Bytes, m: nat, i: nat)
    requires i < m <= |keys| && Begun(input, p, keys, m)
    ensures At(input, p + i).data == [keys[i]]
  {
    if i < m - 1 {
      BegunAt(input, p, keys, m - 1, i);
    }
  }

  /** Detaching is never spurious: the last reads delivered exactly the keys, one at a time. */
  lemma {:induction false} DetachedByKeys(input: seq<Read>, p: nat, keys: Bytes)
    requires keys != [] && Scan(input, p, keys).0.Detached?
    ensures var n := Scan(input, p, keys).1;
            p + |keys| <= n && Spelled(input, n - |keys|, keys)
    decreases |input| - p
  {
    var m := if At(input, p).data == [] then 0 else Matched(input, p, keys, 0);
    if m < |keys| {
      DetachedByKeys(input, p + m + 1, keys);
    }
  }

  /** The first key occurs nowhere else in the sequence. */
  predicate FirstUnique(keys: Bytes) {
    keys != [] && forall i :: 0 < i < |keys| ==> keys[i] != keys[0]
  }

  /** A proper beginning of the keys, `n` of them, ends just before `k` and does not go back beyond `p`. */
  ghost predicate EndsAt(input: seq<Read>, keys: Bytes, p: nat, k: nat, n: nat) {
    1 <= n < |keys| && p + n <= k && Begun(input, k - n, keys, n)
  }

  /** The length of a false start that ends just before `k`, if it is at least `m`; 0 if there is none. */
  ghost function FalseStart(input: seq<Read>, keys: Bytes, p: nat, k: nat, m: nat): nat
    decreases |keys| - m
  {
    if m >= |keys| then 0 else if EndsAt(input, keys, p, k, m) then m else FalseStart(input, keys, p, k, m + 1)
  }

  /** How many false starts follow each other without a gap just before `k`, not going back beyond `p`. */
  ghost function FalseStarts(input: seq<Read>, keys: Bytes, p: nat, k: nat): nat
    decreases k
  {
    var m := FalseStart(input, keys, p, k, 1);
    if m == 0 || m > k then 0 else 1 + FalseStarts(input, keys, p, k - m)
  }

  lemma {:induction false} FalseStartFound(input: seq<Read>, keys: Bytes, p: nat, k: nat, m: nat)
    requires 1 <= m
    ensures FalseStart(input, keys, p, k, m) != 0 ==> EndsAt(input, keys, p, k, FalseStart(input, keys, p, k, m))
    decreases |keys| - m
  {
    if m < |keys| && !EndsAt(input, keys, p, k, m) {
      FalseStartFound(input, keys, p, k, m + 1);
    }
  }

  lemma {:induction false} FalseStartExists(input: seq<Read>, keys: Bytes, p: nat, k: nat, m: nat, n: nat)
    requires 1 <= m <= n && EndsAt(input, keys, p, k, n)
    ensures FalseStart(input, keys, p, k, m) != 0
    decreases n - m
  {
    if m < n && !EndsAt(input, keys, p, k, m) {
      FalseStartExists(input, keys, p, k, m + 1, n);
    }
  }

  lemma FalseStartUnique(input: seq<Read>, keys: Bytes, p: nat, k: nat, n: nat)
    requires FirstUnique(keys) && EndsAt(input, keys, p, k, n)
    ensures FalseStart(input, keys, p, k, 1) == n
  {
    FalseStartFound(input, keys, p, k, 1);
    FalseStartExists(input, keys, p, k, 1, n);
    OneEnds(input, keys, p, k, n, FalseStart(input, keys, p, k, 1));
  }

  lemma OneEnds(input: seq<Read>, keys: Bytes, p: nat, k: nat, n: nat, m: nat)
    requires FirstUnique(keys) && EndsAt(input, keys, p, k, n) && EndsAt(input, keys, p, k, m)
    ensures n == m
  {
    BegunAt(input, k - m, keys, m, 0);
    BegunAt(input, k - n, keys, n, 0);
    if m < n {
      BegunAt(input, k - n, keys, n, n - m);
    } else if n < m {
      BegunAt(input, k - m, keys, m, m - n);
    }
  }

  /** From `p` on, a round takes `m` reads that are keys and one that is not the next key. */
  ghost predicate RoundOf(input: seq<Read>, keys: Bytes, p: nat, m: nat) {
    m < |keys| && Begun(input, p, keys, m) && At(input, p + m).data != [keys[m]]
  }

  /** A false start that begins within a round and ends after it begins at its last read. */
  lemma WithinRound(input: seq<Read>, keys: Bytes, p: nat, m: nat, x: nat, f: nat)
    requires FirstUnique(keys) && RoundOf(input, keys, p, m) && EndsAt(input, keys, p, x, f) && x - f <= p + m < x
    ensures x - f == p + m && m > 0
  {
    var y := x - f;
    BegunAt(input, y, keys, f, 0);
    if p == y {
      BegunAt(input, y, keys, f, m);
    } else if y < p + m {
      BegunAt(input, p, keys, m, y - p);
    }
  }

  lemma RoundIsFalseStart(input: seq<Read>, keys: Bytes, p: nat, m: nat)
    requires FirstUnique(keys) && 0 < m < |keys| && Begun(input, p, keys, m)
    ensures FalseStarts(input, keys, p, p + m) == 1
  {
    assert EndsAt(input, keys, p, p + m, m);
    FalseStartUnique(input, keys, p, p + m, m);
    FalseStartFound(input, keys, p, p, 1);
    assert FalseStarts(input, keys, p, p) == 0;
  }

  /** Leaving out a whole round at the front does not change whether the number of false starts is even. */
  lemma {:induction false} RoundKeepsParity(input: seq<Read>, keys: Bytes, p: nat, m: nat, x: nat)
    requires FirstUnique(keys) && RoundOf(input, keys, p, m) && p + m + 1 <= x
    ensures FalseStarts(input, keys, p, x) % 2 == FalseStarts(input, keys, p + m + 1, x) % 2
    decreases x
  {
    var f, g := FalseStart(input, keys, p, x, 1), FalseStart(input, keys, p + m + 1, x, 1);
    FalseStartFound(input, keys, p, x, 1);
    FalseStartFound(input, keys, p + m + 1, x, 1);
    if g != 0 {
      assert EndsAt(input, keys, p, x, g);
      FalseStartUnique(input, keys, p, x, g);
      RoundKeepsParity(input, keys, p, m, x - g);
    } else if f != 0 {
      if p + m + 1 + f <= x {
        assert EndsAt(input, keys, p + m + 1, x, f);
        FalseStartExists(input, keys, p + m + 1, x, 1, f);
      } else {
        WithinRound(input, keys, p, m, x, f);
        RoundIsFalseStart(input, keys, p, m);
      }
    }
  }

  /** No read from `p` up to `k` fails. */
  ghost predicate Calm(input: seq<Read>, p: nat, k: nat)
    decreases k - p
  {
    p < k ==> At(input, p).err.NoError? && Calm(input, p + 1, k)
  }

  lemma {:induction false} CalmAt(input: seq<Read>, p: nat, i: nat, k: nat)
    requires Calm(input, p, k) && p <= i <= k
    ensures Calm(input, i, k) && (i < k ==> At(input, i).err.NoError?)
    decreases i - p
  {
    if p < i {
      CalmAt(input, p + 1, i, k);
    }
  }

  lemma {:induction false} CalmShorter(input: seq<Read>, p: nat, i: nat, k: nat)
    requires Calm(input, p, k) && p <= i <= k
    ensures Calm(input, p, i)
    decreases i - p
  {
    if p < i {
      CalmShorter(input, p + 1, i, k);
    }
  }

  /** What an error of a read means for the copy. */
  function Ending(err: ReadError): Outcome
    requires !err.NoError?
  {
    if err.EOF? then Done else ReadFailed(err.message)
  }

  /** One round of the scan from `p` on, when the keys are not spelled there. */
  lemma ScanRound(input: seq<Read>, p: nat, keys: Bytes) returns (m: nat)
    requires keys != [] && !Spelled(input, p, keys)
    ensures RoundOf(input, keys, p, m)
    ensures At(input, p + m).err.NoError? ==> Scan(input, p, keys) == Scan(input, p + m + 1, keys)
    ensures !At(input, p + m).err.NoError? ==>
              Scan(input, p, keys) == (Ending(At(input, p + m).err), p + m + 1)
  {
    m := if At(input, p).data == [] then 0 else Matched(input, p, keys, 0);
    assert At(input, p + 0) == At(input, p);
  }

  lemma RoundUnique(input: seq<Read>, keys: Bytes, p: nat, m: nat, n: nat)
    requires RoundOf(input, keys, p, m) && RoundOf(input, keys, p, n)
    ensures m == n
  {
    if m < n {
      BegunAt(input, p, keys, n, m);
    } else if n < m {
      BegunAt(input, p, keys, m, n);
    }
  }

  /** The reads from `p` up to `k` fall into rounds: each some beginning of the keys and one read that breaks it. */
  ghost predicate Tiled(input: seq<Read>, keys: Bytes, p: nat, k: nat)
    requires p <= k
    decreases k - p
  {
    p == k || exists m: nat :: RoundOf(input, keys, p, m) && p + m + 1 <= k && Tiled(input, keys, p + m + 1, k)
  }

  /** No round begins where the keys are spelled. */
  lemma SpelledNoRound(input: seq<Read>, keys: Bytes, p: nat, m: nat)
    requires Spelled(input, p, keys)
    ensures !RoundOf(input, keys, p, m)
  {
    if m < |keys| {
      BegunAt(input, p, keys, |keys|, m);
    }
  }

  /** When nothing fails before read `k`, the copy detaches on the keys from there on exactly when they are spelled
      there and the reads before fall into rounds, so that none of these swallows the first key and none is the keys. */
  lemma {:induction false} TiledDetachesIff(input: seq<Read>, p: nat, keys: Bytes, k: nat)
    requires keys != [] && p <= k && Calm(input, p, k)
    ensures Scan(input, p, keys) == (Detached, k + |keys|) <==> Spelled(input, k, keys) && Tiled(input, keys, p, k)
    decreases k - p
  {
    if Spelled(input, p, keys) {
      SpelledDetaches(input, p, keys);
      forall m: nat
        ensures !RoundOf(input, keys, p, m)
      {
        SpelledNoRound(input, keys, p, m);
      }
    } else {
      var m := ScanRound(input, p, keys);
      forall n: nat | RoundOf(input, keys, p, n)
        ensures n == m
      {
        RoundUnique(input, keys, p, m, n);
      }
      if p + m + 1 <= k {
        CalmAt(input, p, p + m, k);
        CalmAt(input, p, p + m + 1, k);
        TiledDetachesIff(input, p + m + 1, keys, k);
      } else {
        NotDetachedBefore(input, p + m + 1, keys, k + |keys|);
      }
    }
  }

  lemma {:induction false} ScanAdvances(input: seq<Read>, p: nat, keys: Bytes)
    requires keys != []
    ensures Scan(input, p, keys).1 > p
    decreases |input| - p
  {
    var m := if At(input, p).data == [] then 0 else Matched(input, p, keys, 0);
    if m < |keys| && At(input, p + m).err.NoError? {
      ScanAdvances(input, p + m + 1, keys);
    }
  }

  /** When nothing fails before read `k`, the copy ends there, well or with the error of that read, exactly when that
      read has an error and the reads up to it fall into rounds. */
  lemma {:induction false} TiledEndsIff(input: seq<Read>, p: nat, keys: Bytes, k: nat)
    requires keys != [] && p <= k && Calm(input, p, k)
    ensures !Scan(input, p, keys).0.Detached? && Scan(input, p, keys).1 == k + 1 <==>
            !At(input, k).err.NoError? && Tiled(input, keys, p, k + 1)
    ensures !At(input, k).err.NoError? && Tiled(input, keys, p, k + 1) ==>
              Scan(input, p, keys).0 == match At(input, k).err
                                        case EOF => Done
                                        case Failed(message) => ReadFailed(message)
    decreases k - p
  {
    if Spelled(input, p, keys) {
      SpelledDetaches(input, p, keys);
      forall m: nat
        ensures !RoundOf(input, keys, p, m)
      {
        SpelledNoRound(input, keys, p, m);
      }
    } else {
      var m := ScanRound(input, p, keys);
      forall n: nat | RoundOf(input, keys, p, n)
        ensures n == m
      {
        RoundUnique(input, keys, p, m, n);
      }
      if p + m < k {
        CalmAt(input, p, p + m, k);
        CalmAt(input, p, p + m + 1, k);
        TiledEndsIff(input, p + m + 1, keys, k);
      } else {
        ScanAdvances(input, p + m + 1, keys);
      }
    }
  }

  /** If the keys are spelled from read `i` on, an odd number of false starts lead up to them. */
  ghost predicate MissedAt(input: seq<Read>, keys: Bytes, p: nat, i: nat) {
    Spelled(input, i, keys) ==> FalseStarts(input, keys, p, i) % 2 == 1
  }

  ghost predicate Missed(input: seq<Read>, keys: Bytes, p: nat, k: nat) {
    forall i :: p <= i < k ==> MissedAt(input, keys, p, i)
  }

  lemma RoundKeepsMissed(input: seq<Read>, keys: Bytes, p: nat, m: nat, k: nat)
    requires FirstUnique(keys) && RoundOf(input, keys, p, m) && Missed(input, keys, p, k)
    ensures Missed(input, keys, p + m + 1, k)
  {
    var q := p + m + 1;
    forall i | q <= i < k
      ensures MissedAt(input, keys, q, i)
    {
      assert MissedAt(input, keys, p, i);
      RoundKeepsParity(input, keys, p, m, i);
    }
  }

  lemma NoFalseStarts(input: seq<Read>, keys: Bytes, p: nat)
    ensures FalseStarts(input, keys, p, p) == 0
  {
    FalseStartFound(input, keys, p, p, 1);
  }

  /** Keys whose first one does not come again among them, spelled from read `k` on, are recognised exactly when an even
      number of false starts lead up to them: after an odd number, the first key is taken for the read that breaks the
      last of them. Earlier spellings may have been missed in that way. */
  lemma {:induction false} KeysDetachIff(input: seq<Read>, p: nat, keys: Bytes, k: nat)
    requires FirstUnique(keys) && p <= k && Calm(input, p, k) && Missed(input, keys, p, k) && Spelled(input, k, keys)
    ensures Scan(input, p, keys) == (Detached, k + |keys|) <==> FalseStarts(input, keys, p, k) % 2 == 0
    decreases k - p
  {
    NoFalseStarts(input, keys, p);
    if p == k {
      SpelledDetaches(input, k, keys);
    } else {
      assert MissedAt(input, keys, p, p);
      var m := ScanRound(input, p, keys);
      if p + m + 1 <= k {
        CalmAt(input, p, p + m, k);
        CalmAt(input, p, p + m + 1, k);
        RoundKeepsParity(input, keys, p, m, k);
        RoundKeepsMissed(input, keys, p, m, k);
        KeysDetachIff(input, p + m + 1, keys, k);
      } else {
        InterruptedByKeys(input, p, keys, m, k);
      }
    }
  }

  /** The first spelling that is not missed. */
  lemma {:induction false} FirstEven(input: seq<Read>, keys: Bytes, p: nat, k: nat) returns (i: nat)
    requires p <= k && !Missed(input, keys, p, k)
    ensures p <= i < k && Missed(input, keys, p, i)
    ensures Spelled(input, i, keys) && FalseStarts(input, keys, p, i) % 2 == 0
    decreases k
  {
    if Missed(input, keys, p, k - 1) {
      i := k - 1;
      assert !MissedAt(input, keys, p, i);
    } else {
      i := FirstEven(input, keys, p, k - 1);
    }
  }

  lemma DetachesEarlier(input: seq<Read>, p: nat, keys: Bytes, k: nat)
    requires FirstUnique(keys) && p <= k && Calm(input, p, k) && !Missed(input, keys, p, k)
    ensures Scan(input, p, keys).0.Detached? && Scan(input, p, keys).1 < k + |keys|
  {
    var i := FirstEven(input, keys, p, k);
    CalmShorter(input, p, i, k);
    KeysDetachIff(input, p, keys, i);
  }

  /** The copy detaches exactly at the first spelling that an even number of false starts lead up to. */
  lemma DetachesAtFirstEven(input: seq<Read>, p: nat, keys: Bytes, k: nat)
    requires FirstUnique(keys) && p <= k && Calm(input, p, k)
    ensures Scan(input, p, keys) == (Detached, k + |keys|) <==>
            && Spelled(input, k, keys) && FalseStarts(input, keys, p, k) % 2 == 0
            && Missed(input, keys, p, k)
  {
    if !Missed(input, keys, p, k) {
      DetachesEarlier(input, p, keys, k);
    } else if Spelled(input, k, keys) {
      KeysDetachIff(input, p, keys, k);
    } else if Scan(input, p, keys) == (Detached, k + |keys|) {
      DetachedByKeys(input, p, keys);
    }
  }

  /** After a missed ctrl-p ctrl-q, typing it once more detaches. */
  lemma SecondTryDetaches()
    ensures var input := [Read([16], NoError), Read([16], NoError), Read([17], NoError), Read([16], NoError),
                          Read([17], NoError)];
            Scan(input, 0, DEFAULT_KEYS) == (Detached, 5)
  {
    var input := [Read([16], NoError), Read([16], NoError), Read([17], NoError), Read([16], NoError),
                  Read([17], NoError)];
    assert Matched(input, 0, DEFAULT_KEYS, 0) == 1;
    assert Matched(input, 2, DEFAULT_KEYS, 0) == 0;
    assert Matched(input, 3, DEFAULT_KEYS, 0) == 2;
    assert Scan(input, 3, DEFAULT_KEYS) == (Detached, 5);
    assert Scan(input, 2, DEFAULT_KEYS) == (Detached, 5);
  }

  /** Keys that begin within a round begin at its last read, and are missed. */
  lemma InterruptedByKeys(input: seq<Read>, p: nat, keys: Bytes, m: nat, k: nat)
    requires FirstUnique(keys) && RoundOf(input, keys, p, m) && p < k <= p + m && Spelled(input, k, keys)
    requires Scan(input, p, keys).0.Detached? ==> Scan(input, p, keys) == Scan(input, p + m + 1, keys)
    ensures FalseStarts(input, keys, p, k) == 1 && Scan(input, p, keys) != (Detached, k + |keys|)
  {
    BegunAt(input, k, keys, |keys|, 0);
    if k < p + m {
      BegunAt(input, p, keys, m, k - p);
    }
    RoundIsFalseStart(input, keys, p, m);
    NotDetachedBefore(input, p + m + 1, keys, k + |keys|);
  }

  lemma NotDetachedBefore(input: seq<Read>, p: nat, keys: Bytes, n: nat)
    requires keys != [] && n < p + |keys|
    ensures Scan(input, p, keys) != (Detached, n)
  {
    if Scan(input, p, keys).0.Detached? {
      DetachedByKeys(input, p, keys);
    }
  }

  lemma SpelledDetaches(input: seq<Read>, p: nat, keys: Bytes)
    requires keys != [] && Spelled(input, p, keys)
    ensures Scan(input, p, keys) == (Detached, p + |keys|)
  {
    BegunAt(input, p, keys, |keys|, 0);
    var m := Matched(input, p, keys, 0);
    if m < |keys| {
      BegunAt(input, p, keys, |keys|, m);
    }
  }

  /** A longer sequence is recognised when no earlier read was its first key on its own. */
  lemma {:induction false} KeysDetach(input: seq<Read>, p: nat, keys: Bytes, k: nat)
    requires keys != [] && p <= k && Spelled(input, k, keys)
    requires forall i :: p <= i < k ==> At(input, i).err.NoError? && At(input, i).data != [keys[0]]
    ensures Scan(input, p, keys) == (Detached, k + |keys|)
    decreases k - p
  {
    if p == k {
      SpelledDetaches(input, k, keys);
    } else {
      assert At(input, p + 0).data != [keys[0]];
      KeysDetach(input, p + 1, keys, k);
    }
  }

  /** Pressing ctrl-p twice before ctrl-q does not detach. */
  lemma RepeatedFirstKeyMissed()
    ensures Scan([Read([16], NoError), Read([16], NoError), Read([17], NoError)], 0, DEFAULT_KEYS) == (Done, 4)
  {
    var input := [Read([16], NoError), Read([16], NoError), Read([17], NoError)];
    assert Matched(input, 0, DEFAULT_KEYS, 0) == 1;
    assert Matched(input, 2, DEFAULT_KEYS, 0) == 0;
    assert Scan(input, 3, DEFAULT_KEYS) == (Done, 4);
    assert Scan(input, 2, DEFAULT_KEYS) == (Done, 4);
  }

  // ---------------------------------------------------------------------------

  /** Reads on for as long as single reads spell out the keys; `preserved` is everything read. */
  method Watch(input: seq<Read>, p: nat, keys: Bytes) returns (preserved: Bytes, next: nat, detached: bool)
    requires keys != [] && At(input, p).data != []
    ensures var m := Matched(input, p, keys, 0);
            && detached == (m == |keys|)
            && next == (if detached then p + m else p + m + 1)
            && preserved == Delivered(input, p, next)
  {
    preserved, next, detached := [], p + 1, false;
    var buf, i := At(input, p).data, 0;
    while true
      invariant i < |keys| && next == p + i + 1 && buf == At(input, p + i).data && Begun(input, p, keys, i)
      invariant Matched(input, p, keys, 0) == Matched(input, p, keys, i)
      invariant preserved == Delivered(input, p, p + i)
      decreases |keys| - i
    {
      preserved := preserved + buf;
      if |buf| != 1 || buf[0] != keys[i] {
        return;
      }
      assert buf == [keys[i]];
      if i == |keys| - 1 {
        detached := true;
        return;
      }
      i, next := i + 1, next + 1;
      buf := At(input, p + i).data;
    }
  }

  /** One round of the copy: everything read, and whether it was the keys. */
  method Round(input: seq<Read>, p: nat, keys: Bytes) returns (piece: Bytes, next: nat, detached: bool)
    requires keys != []
    ensures p < next && piece == Delivered(input, p, next)
    ensures if detached then piece == keys && Scan(input, p, keys) == (Detached, next)
            else Scan(input, p, keys) == match At(input, next - 1).err
                   case EOF => (Done, next)
                   case Failed(message) => (ReadFailed(message), next)
                   case NoError => Scan(input, next, keys)
    ensures p >= |input| ==> !detached && At(input, next - 1).err.EOF?
  {
    if At(input, p).data == [] {
      assert Delivered(input, p, p) == [];
      return [], p + 1, false;
    }
    piece, next, detached := Watch(input, p, keys);
    if detached {
      DeliveredKeys(input, p, keys, |keys|);
      assert keys[..|keys|] == keys;
    }
  }

  /** The pieces written, one after the other. */
  ghost function Flat(pieces: seq<Bytes>): Bytes {
    if pieces == [] then [] else Flat(pieces[..|pieces| - 1]) + pieces[|pieces| - 1]
  }

  /** The `i`-th write reports an error. */
  ghost predicate Fails(writes: seq<Write>, i: int) {
    0 <= i < |writes| && writes[i].failed
  }

  /** The `i`-th write takes less than the `n` bytes it is given. */
  ghost predicate Short(writes: seq<Write>, i: int, n: nat) {
    0 <= i < |writes| && writes[i].n < n
  }

  /** What the `i`-th write takes of a piece; once the given results are used up, writes take everything. */
  ghost function TakenOf(writes: seq<Write>, i: nat, piece: Bytes): Bytes {
    if Short(writes, i, |piece|) then piece[..writes[i].n] else piece
  }

  /** Every piece was written whole and without an error. */
  ghost predicate AllWhole(writes: seq<Write>, pieces: seq<Bytes>) {
    forall i :: 0 <= i < |pieces| ==> pieces[i] != [] && !Fails(writes, i) && !Short(writes, i, |pieces[i]|)
  }

  /** The pieces were written in turn, each whole and without an error, unless the last one says otherwise: then the
      outcome says so too, and only what that write took has arrived. */
  ghost predicate WroteAll(writes: seq<Write>, pieces: seq<Bytes>, dst: Bytes, outcome: Outcome) {
    if outcome.WriteFailed? || outcome.ShortWrite? then
      && pieces != []
      && var n, last := |pieces| - 1, pieces[|pieces| - 1];
         && AllWhole(writes, pieces[..n]) && last != []
         && dst == Flat(pieces[..n]) + TakenOf(writes, n, last)
         && (outcome.WriteFailed? <==> Fails(writes, n)) && (outcome.ShortWrite? ==> Short(writes, n, |last|))
    else
      AllWhole(writes, pieces) && dst == Flat(pieces)
  }

  lemma FlatMore(pieces: seq<Bytes>, piece: Bytes)
    ensures Flat(pieces + [piece]) == Flat(pieces) + piece
  {
    assert (pieces + [piece])[..|pieces + [piece]| - 1] == pieces;
  }

  lemma WholeMore(writes: seq<Write>, pieces: seq<Bytes>, piece: Bytes)
    requires AllWhole(writes, pieces) && piece != []
    requires !Fails(writes, |pieces|) && !Short(writes, |pieces|, |piece|)
    ensures AllWhole(writes, pieces + [piece])
  {
  }

  lemma BrokenOff(writes: seq<Write>, pieces: seq<Bytes>, piece: Bytes, outcome: Outcome)
    requires AllWhole(writes, pieces) && piece != []
    requires outcome == if Fails(writes, |pieces|) then WriteFailed else ShortWrite
    requires Fails(writes, |pieces|) || Short(writes, |pieces|, |piece|)
    ensures WroteAll(writes, pieces + [piece], Flat(pieces) + TakenOf(writes, |pieces|, piece), outcome)
  {
    assert (pieces + [piece])[..|pieces|] == pieces;
  }

  /** Copies the input to `dst` until the end, an error, or the keys. `taken` is the number of reads made; `pieces` are
      what was given to the destination, write by write. */
  method CopyEscapable(input: seq<Read>, keys0: Bytes, writes: seq<Write>)
    returns (dst: Bytes, written: nat, outcome: Outcome, taken: nat, ghost pieces: seq<Bytes>)
    ensures Delivered(input, 0, taken) ==
            Flat(pieces) + if !outcome.Detached? then [] else if keys0 == [] then [16, 17] else keys0
    ensures WroteAll(writes, pieces, dst, outcome) && dst <= Delivered(input, 0, taken)
    ensures !outcome.WriteFailed? && !outcome.ShortWrite? ==>
              (outcome, taken) == Scan(input, 0, if keys0 == [] then [16, 17] else keys0)
    ensures written == if outcome.Detached? then 0 else |dst|
  {
    var keys, w := Effective(keys0), 0;
    dst, written, taken, pieces := [], 0, 0, [];
    while true
      invariant Delivered(input, 0, taken) == dst == Flat(pieces) && written == |dst| && w == |pieces|
      invariant AllWhole(writes, pieces)
      invariant Scan(input, 0, keys) == Scan(input, taken, keys)
      decreases |input| - taken
    {
      var piece, next, detached := Round(input, taken, keys);
      DeliveredConcat(input, 0, taken, next);
      taken := next;
      if detached {
        return dst, 0, Detached, taken, pieces;
      }
      if piece != [] {
        ghost var before := pieces;
        var took, failed := Put(writes, w, piece);
        FlatMore(pieces, piece);
        pieces := pieces + [piece];
        dst, written := dst + piece[..took], written + took;
        if failed {
          BrokenOff(writes, before, piece, WriteFailed);
          return dst, written, WriteFailed, taken, pieces;
        }
        if took != |piece| {
          BrokenOff(writes, before, piece, ShortWrite);
          return dst, written, ShortWrite, taken, pieces;
        }
        WholeMore(writes, before, piece);
        w := w + 1;
      }
      var err := At(input, taken - 1).err;
      if err.EOF? {
        return dst, written, Done, taken, pieces;
      }
      if err.Failed? {
        return dst, written, ReadFailed(err.message), taken, pieces;
      }
    }
  }

  /** One write. */
  method Put(writes: seq<Write>, w: nat, data: Bytes) returns (took: nat, failed: bool)
    ensures took <= |data| && data[..took] == TakenOf(writes, w, data) && (failed <==> Fails(writes, w))
  {
    if w >= |writes| {
      assert data[..|data|] == data;
      return |data|, false;
    }
    assert data[..|data|] == data;
    return if writes[w].n <= |data| then writes[w].n else |data|, writes[w].failed;
  }
}
