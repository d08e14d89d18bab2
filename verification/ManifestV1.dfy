/** Schema 1 manifests: removing repeated layers, checking the parent chain, listing what to download. */
module ManifestV1 {
  import opened Images

  datatype V1Image = V1Image(id: string, parent: string, createdBy: string, throwAway: bool)

  /** The compatibility string of a history entry, together with what decoding it yields. The throw-away flag and the
      entry in the new format are decoded separately, which may fail although the image could be decoded. */
  datatype Compat = Malformed(raw: string) | V1(raw: string, image: V1Image, convertible: bool)

  predicate ValidID(id: string) {
    |id| == 64 && forall i :: 0 <= i < |id| ==> '0' <= id[i] <= '9' || 'a' <= id[i] <= 'f'
  }

  predicate Decodable(history: seq<Compat>) {
    forall i :: 0 <= i < |history| ==> history[i].V1? && ValidID(history[i].image.id)
  }

  function Decode(history: seq<Compat>): (imgs: seq<V1Image>)
    requires forall i :: 0 <= i < |history| ==> history[i].V1?
    ensures |imgs| == |history| && forall i :: 0 <= i < |imgs| ==> imgs[i] == history[i].image
  {
    seq(|history|, i requires 0 <= i < |history| => history[i].image)
  }

  /** `xs` without the entries whose image ID equals the next one: each run keeps its last entry. */
  function Collapse<T>(imgs: seq<V1Image>, xs: seq<T>): seq<T>
    requires |imgs| == |xs|
  {
    if |xs| <= 1 then xs
    else if imgs[0].id == imgs[1].id then Collapse(imgs[1..], xs[1..])
    else [xs[0]] + Collapse(imgs[1..], xs[1..])
  }

  /** Equal IDs are adjacent: everything between two of them is equal too. */
  predicate Contiguous(imgs: seq<V1Image>) {
    forall i, j, k :: 0 <= i < j < k < |imgs| && imgs[i].id == imgs[k].id ==> imgs[j].id == imgs[i].id
  }

  predicate LinkedAt(imgs: seq<V1Image>, i: int)
    requires 0 <= i < |imgs| - 1
  {
    imgs[i].id == imgs[i + 1].id || imgs[i].parent == imgs[i + 1].id
  }

  /** What a schema 1 history must look like to be accepted. */
  predicate Acceptable(imgs: seq<V1Image>)
    requires imgs != []
  {
    && imgs[|imgs| - 1].parent == ""
    && Contiguous(imgs)
    && forall i :: 0 <= i < |imgs| - 1 ==> LinkedAt(imgs, i)
  }

  ghost predicate ParentAt(imgs: seq<V1Image>, i: int)
    requires 0 <= i < |imgs| - 1
  {
    imgs[i].parent == imgs[i + 1].id
  }

  /** An unbroken chain of distinct images from the top image to a base image without a parent. */
  ghost predicate ParentChain(imgs: seq<V1Image>) {
    && imgs != [] && imgs[|imgs| - 1].parent == ""
    && (forall i :: 0 <= i < |imgs| - 1 ==> ParentAt(imgs, i))
    && (forall i, j :: 0 <= i < j < |imgs| ==> imgs[i].id != imgs[j].id)
  }

  ghost function IDs(imgs: seq<V1Image>): set<string> {
    set i | 0 <= i < |imgs| :: imgs[i].id
  }

  // ---------------------------------------------------------------------------

  lemma AcceptableTail(imgs: seq<V1Image>)
    requires |imgs| > 1 && Acceptable(imgs)
    ensures Acceptable(imgs[1..]) && LinkedAt(imgs, 0)
    ensures imgs[0].id != imgs[1].id ==> imgs[0].id !in IDs(imgs[1..])
    ensures IDs(imgs) == {imgs[0].id} + IDs(imgs[1..])
  {
    var tail := imgs[1..];
    forall i | 0 <= i < |tail| - 1
      ensures LinkedAt(tail, i)
    {
      assert LinkedAt(imgs, i + 1);
    }
    ConsIDs(imgs);
    assert tail[0] == imgs[1];
  }

  lemma ConsIDs(imgs: seq<V1Image>)
    requires imgs != []
    ensures IDs(imgs) == {imgs[0].id} + IDs(imgs[1..])
  {
    forall i | 0 < i < |imgs|
      ensures imgs[i].id in IDs(imgs[1..])
    {
      assert imgs[1..][i - 1] == imgs[i];
    }
  }

  lemma ConsChain(img: V1Image, rest: seq<V1Image>)
    requires ParentChain(rest) && img.parent == rest[0].id && img.id !in IDs(rest)
    ensures ParentChain([img] + rest)
  {
    var c := [img] + rest;
    forall i | 0 <= i < |c| - 1
      ensures ParentAt(c, i)
    {
      if i > 0 {
        assert ParentAt(rest, i - 1);
      }
    }
    assert forall j :: 0 <= j < |rest| ==> rest[j].id in IDs(rest);
  }

  /** Collapsing an acceptable history leaves a parent chain with the same top image and no image ID lost or added. */
  lemma {:induction false} CollapsedIsChain(imgs: seq<V1Image>)
    requires imgs != [] && Acceptable(imgs)
    ensures ParentChain(Collapse(imgs, imgs))
    ensures Collapse(imgs, imgs)[0].id == imgs[0].id
    ensures IDs(Collapse(imgs, imgs)) == IDs(imgs)
  {
    if |imgs| > 1 {
      var tail := imgs[1..];
      var rest := Collapse(tail, tail);
      AcceptableTail(imgs);
      CollapsedIsChain(tail);
      if imgs[0].id == imgs[1].id {
        assert imgs[1].id in IDs(tail) by { assert tail[0] == imgs[1]; }
      } else {
        ConsChain(imgs[0], rest);
        ConsIDs([imgs[0]] + rest);
        assert ([imgs[0]] + rest)[1..] == rest;
      }
    }
  }

  lemma {:induction false} CollapseNotEmpty<T>(imgs: seq<V1Image>, xs: seq<T>)
    requires |imgs| == |xs| > 0
    ensures Collapse(imgs, xs) != []
  {
    if |xs| > 1 {
      CollapseNotEmpty(imgs[1..], xs[1..]);
    }
  }

  lemma ChainTail(img: V1Image, rest: seq<V1Image>)
    requires rest != [] && ParentChain([img] + rest)
    ensures ParentChain(rest) && img.parent == rest[0].id && img.id !in IDs(rest)
  {
    var c := [img] + rest;
    assert ParentAt(c, 0);
    forall i | 0 <= i < |rest| - 1
      ensures ParentAt(rest, i)
    {
      assert ParentAt(c, i + 1);
    }
    forall i | 0 <= i < |rest|
      ensures rest[i].id != img.id
    {
      assert c[0].id != c[i + 1].id;
    }
    forall i, j | 0 <= i < j < |rest|
      ensures rest[i].id != rest[j].id
    {
      assert c[i + 1].id != c[j + 1].id;
    }
  }

  /** One more entry in front: of the same image, or of a new one whose parent comes next. */
  lemma AcceptableCons(imgs: seq<V1Image>)
    requires |imgs| > 1 && Acceptable(imgs[1..])
    requires imgs[0].id == imgs[1].id || (imgs[0].parent == imgs[1].id && imgs[0].id !in IDs(imgs[1..]))
    ensures Acceptable(imgs)
  {
    var tail := imgs[1..];
    forall i | 0 <= i < |imgs| - 1
      ensures LinkedAt(imgs, i)
    {
      if i > 0 {
        assert LinkedAt(tail, i - 1);
      }
    }
    assert forall k :: 0 <= k < |tail| ==> tail[k].id in IDs(tail);
    forall i, j, k | 0 <= i < j < k < |imgs| && imgs[i].id == imgs[k].id
      ensures imgs[j].id == imgs[i].id
    {
      if i > 0 {
        assert tail[i - 1].id == tail[k - 1].id;
      } else if imgs[0].id == imgs[1].id && j > 1 {
        assert tail[0].id == tail[k - 1].id;
      }
    }
  }

  /** A history is acceptable exactly when what collapsing leaves of it is a parent chain. */
  lemma {:induction false} AcceptableIff(imgs: seq<V1Image>)
    requires imgs != []
    ensures Acceptable(imgs) <==> ParentChain(Collapse(imgs, imgs))
  {
    if Acceptable(imgs) {
      CollapsedIsChain(imgs);
    } else if |imgs| > 1 && ParentChain(Collapse(imgs, imgs)) {
      var tail := imgs[1..];
      AcceptableIff(tail);
      if imgs[0].id != imgs[1].id {
        CollapseNotEmpty(tail, tail);
        ChainTail(imgs[0], Collapse(tail, tail));
        CollapsedIsChain(tail);
      }
      AcceptableCons(imgs);
    }
  }

  /** Collapsing two lists by the same IDs keeps them in lockstep. */
  lemma {:induction false} CollapseLockstep<S, T>(imgs: seq<V1Image>, xs: seq<S>, ys: seq<T>)
    requires |imgs| == |xs| == |ys|
    ensures |Collapse(imgs, xs)| == |Collapse(imgs, ys)|
  {
    if |xs| > 1 {
      CollapseLockstep(imgs[1..], xs[1..], ys[1..]);
    }
  }

  /** How many of the first `n` entries end a run of equal IDs. */
  ghost function RunsEnded(imgs: seq<V1Image>, n: nat): nat
    requires n < |imgs|
  {
    if n == 0 then 0 else RunsEnded(imgs, n - 1) + if imgs[n - 1].id == imgs[n].id then 0 else 1
  }

  lemma {:induction false} RunsEndedTail(imgs: seq<V1Image>, n: nat)
    requires 0 < n < |imgs|
    ensures RunsEnded(imgs, n) == (if imgs[0].id == imgs[1].id then 0 else 1) + RunsEnded(imgs[1..], n - 1)
  {
    if n > 1 {
      RunsEndedTail(imgs, n - 1);
    }
  }

  /** What is kept is the last entry of each run, in order, and nothing else. */
  lemma {:induction false} CollapseKeepsLast<T>(imgs: seq<V1Image>, xs: seq<T>, i: nat)
    requires i < |imgs| == |xs|
    ensures |Collapse(imgs, xs)| == RunsEnded(imgs, |imgs| - 1) + 1
    ensures i == |imgs| - 1 || imgs[i].id != imgs[i + 1].id ==>
              RunsEnded(imgs, i) < |Collapse(imgs, xs)| && Collapse(imgs, xs)[RunsEnded(imgs, i)] == xs[i]
  {
    if |imgs| > 1 {
      CollapseKeepsLast(imgs[1..], xs[1..], if i == 0 then 0 else i - 1);
      RunsEndedTail(imgs, |imgs| - 1);
      if i > 0 {
        RunsEndedTail(imgs, i);
        assert xs[1..][i - 1] == xs[i];
      }
    }
  }

  /** One step of the backward loop on a list whose entries after `i` are collapsed already. */
  lemma CollapseStep<T>(imgs: seq<V1Image>, xs: seq<T>, i: int, current: seq<T>)
    requires |imgs| == |xs| && 0 <= i < |xs| - 1 && current == xs[..i + 1] + Collapse(imgs[i + 1..], xs[i + 1..])
    ensures |current| > i
    ensures (if imgs[i].id == imgs[i + 1].id then current[..i] + current[i + 1..] else current) ==
            xs[..i] + Collapse(imgs[i..], xs[i..])
  {
    assert imgs[i..][1..] == imgs[i + 1..] && xs[i..][1..] == xs[i + 1..];
    assert xs[..i + 1] == xs[..i] + [xs[i]];
  }

  lemma {:induction false} CollapseDecoded(history: seq<Compat>)
    requires forall i :: 0 <= i < |history| ==> history[i].V1?
    ensures var imgs, kept := Decode(history), Collapse(Decode(history), history);
            && (forall i :: 0 <= i < |kept| ==> kept[i].V1?)
            && Decode(kept) == Collapse(imgs, imgs)
  {
    if |history| > 1 {
      CollapseDecoded(history[1..]);
      assert Decode(history)[1..] == Decode(history[1..]);
    }
  }

  lemma IDsNotEmpty(history: seq<Compat>)
    requires Decodable(history)
    ensures forall i :: 0 <= i < |history| ==> Decode(history)[i].id != ""
  {
    forall i | 0 <= i < |history|
      ensures Decode(history)[i].id != ""
    {
      assert ValidID(history[i].image.id);
    }
  }

  /** What is left of an acceptable manifest has as many layers as entries, and forms a parent chain. */
  lemma Repaired(fsLayers: seq<string>, history: seq<Compat>)
    requires |fsLayers| == |history| > 0 && Decodable(history) && Acceptable(Decode(history))
    ensures var imgs := Decode(history);
            var kept := Collapse(imgs, history);
            && |Collapse(imgs, fsLayers)| == |kept| && (forall h :: h in kept ==> h.V1?)
            && ParentChain(Decode(kept))
  {
    CollapseLockstep(Decode(history), fsLayers, history);
    CollapseDecoded(history);
    CollapsedIsChain(Decode(history));
  }

  // ---------------------------------------------------------------------------

  class Manifest {
    var fsLayers: seq<string>
    var history: seq<Compat>

    constructor (fsLayers: seq<string>, history: seq<Compat>)
      ensures this.fsLayers == fsLayers && this.history == history
    {
      this.fsLayers, this.history := fsLayers, history;
    }

    /** Checks made before the layers are looked at. */
    method Verify(schemaVersion: int, digestVerified: bool) returns (ok: bool)
      ensures ok <==> digestVerified && schemaVersion == 1 && |fsLayers| == |history| > 0
    {
      if !digestVerified || schemaVersion != 1 || |fsLayers| != |history| {
        return false;
      }
      return |fsLayers| != 0;
    }

    /** Decodes the history, unless an entry is malformed or has an invalid ID. */
    method ReadHistory() returns (ok: bool, imgs: seq<V1Image>)
      ensures ok <==> Decodable(history)
      ensures ok <==> forall i :: 0 <= i < |history| ==>
                        && history[i].V1? && |history[i].image.id| == 64
                        && forall j :: 0 <= j < 64 ==>
                             '0' <= history[i].image.id[j] <= '9' || 'a' <= history[i].image.id[j] <= 'f'
      ensures ok ==> imgs == Decode(history)
    {
      imgs := [];
      for i := 0 to |history|
        invariant |imgs| == i && forall j :: 0 <= j < i ==> history[j].V1? && ValidID(history[j].image.id)
        invariant forall j :: 0 <= j < i ==> imgs[j] == history[j].image
      {
        if history[i].Malformed? || !ValidID(history[i].image.id) {
          return false, [];
        }
        imgs := imgs + [history[i].image];
      }
      ok := true;
    }

    /** Removes repeated layers in place and checks the parent chain. */
    method FixManifestLayers() returns (ok: bool)
      requires |fsLayers| == |history| > 0
      modifies this
      ensures ok <==> Decodable(old(history)) && Acceptable(Decode(old(history)))
      ensures ok ==> fsLayers == Collapse(Decode(old(history)), old(fsLayers))
      ensures ok ==> history == Collapse(Decode(old(history)), old(history))
      ensures ok ==> |fsLayers| == |history| && (forall h :: h in history ==> h.V1?) && ParentChain(Decode(history))
    {
      var imgs;
      ok, imgs := ReadHistory();
      if !ok || imgs[|imgs| - 1].parent != "" {
        return false;
      }
      IDsNotEmpty(history);
      ok := NoStrayDuplicates(imgs);
      if !ok {
        return false;
      }
      ok := DropRepeats(imgs);
      if ok {
        Repaired(old(fsLayers), old(history));
      }
    }

    /** The backward loop that drops repeated entries and checks each remaining parent link. */
    method DropRepeats(imgs: seq<V1Image>) returns (ok: bool)
      requires |imgs| == |fsLayers| == |history| > 0
      modifies this
      ensures ok <==> forall i :: 0 <= i < |imgs| - 1 ==> LinkedAt(imgs, i)
      ensures ok ==> fsLayers == Collapse(imgs, old(fsLayers)) && history == Collapse(imgs, old(history))
    {
      var i := |imgs| - 1;
      while i > 0
        invariant 0 <= i < |imgs|
        invariant fsLayers == old(fsLayers)[..i] + Collapse(imgs[i..], old(fsLayers)[i..])
        invariant history == old(history)[..i] + Collapse(imgs[i..], old(history)[i..])
        invariant forall j :: i <= j < |imgs| - 1 ==> LinkedAt(imgs, j)
      {
        i := i - 1;
        CollapseStep(imgs, old(fsLayers), i, fsLayers);
        CollapseStep(imgs, old(history), i, history);
        if imgs[i].id == imgs[i + 1].id {
          fsLayers := fsLayers[..i] + fsLayers[i + 1..];
          history := history[..i] + history[i + 1..];
        } else if imgs[i].parent != imgs[i + 1].id {
          assert !LinkedAt(imgs, i);
          return false;
        }
      }
      assert imgs[0..] == imgs && old(fsLayers)[0..] == old(fsLayers) && old(history)[0..] == old(history);
      return true;
    }

    /** Lists the blobs to download, bottom first, and the converted history. */
    method Descriptors() returns (ok: bool, blobs: seq<string>, converted: seq<History>)
      requires |fsLayers| == |history| && forall i :: 0 <= i < |history| ==> history[i].V1?
      ensures ok <==> Convertible(history)
      ensures ok ==> blobs == Blobs(Decode(history), fsLayers)
      ensures ok ==> Converted(history, converted) && |blobs| == NonEmpty(converted)
      ensures ok ==> LinedUp(history, fsLayers, blobs, converted)
    {
      blobs, converted := [], [];
      var imgs := Decode(history);
      var i := |fsLayers|;
      while i > 0
        invariant 0 <= i <= |fsLayers| && |converted| == |history| - i
        invariant blobs == Blobs(imgs[i..], fsLayers[i..]) && |blobs| == NonEmpty(converted)
        invariant forall j :: i <= j < |history| ==> history[j].convertible
        invariant forall j :: i <= j < |history| ==>
                    converted[|history| - 1 - j] == History(history[j].image.createdBy, history[j].image.throwAway)
      {
        i := i - 1;
        if !history[i].convertible {
          return false, [], [];
        }
        assert imgs[i..][1..] == imgs[i + 1..] && fsLayers[i..][1..] == fsLayers[i + 1..];
        var h := History(history[i].image.createdBy, history[i].image.throwAway);
        ghost var before := converted;
        converted := converted + [h];
        assert converted[..|converted| - 1] == before;
        if !history[i].image.throwAway {
          blobs := blobs + [fsLayers[i]];
        }
      }
      assert imgs[0..] == imgs && fsLayers[0..] == fsLayers;
      BlobsLineUp(history, fsLayers, blobs, converted);
      ok := true;
    }

    /** Verification, repair and listing together: as many blobs as history entries that own a layer. */
    method Prepare(schemaVersion: int, digestVerified: bool)
      returns (ok: bool, blobs: seq<string>, converted: seq<History>)
      modifies this
      ensures ok <==> && digestVerified && schemaVersion == 1 && |old(fsLayers)| == |old(history)| > 0
                      && Decodable(old(history)) && Acceptable(Decode(old(history)))
                      && Convertible(Collapse(Decode(old(history)), old(history)))
      ensures ok ==> fsLayers == Collapse(Decode(old(history)), old(fsLayers))
      ensures ok ==> history == Collapse(Decode(old(history)), old(history))
      ensures ok ==> |history| == |fsLayers| && forall h :: h in history ==> h.V1?
      ensures ok ==> blobs == Blobs(Decode(history), fsLayers) && ParentChain(Decode(history))
      ensures ok ==> Converted(history, converted) && |blobs| == NonEmpty(converted)
      ensures ok ==> LinedUp(history, fsLayers, blobs, converted)
    {
      blobs, converted := [], [];
      ok := Verify(schemaVersion, digestVerified);
      if !ok {
        return;
      }
      ok := FixManifestLayers();
      if ok {
        ok, blobs, converted := Descriptors();
      }
    }
  }

  predicate Convertible(history: seq<Compat>) {
    forall i :: 0 <= i < |history| ==> history[i].V1? && history[i].convertible
  }

  /** The history in the new format, oldest entry first. */
  ghost predicate Converted(history: seq<Compat>, converted: seq<History>)
    requires forall h :: h in history ==> h.V1?
  {
    && |converted| == |history|
    && forall i :: 0 <= i < |history| ==>
         converted[|history| - 1 - i] == History(history[i].image.createdBy, history[i].image.throwAway)
  }

  /** The blob of the entry at `n` in the converted history is `layer`: the entry comes after as many entries that own
      a layer as there are blobs before that one. */
  ghost predicate OwnedBy(blobs: seq<string>, converted: seq<History>, n: int, layer: string) {
    && 0 <= n < |converted|
    && var k := NonEmpty(converted[..n]);
       k < |blobs| && blobs[k] == layer
  }

  /** Bottom to top: each layer of the manifest is the blob of its own entry in the converted history, which lists the
      entries in the opposite order. */
  ghost predicate LinedUp(history: seq<Compat>, fsLayers: seq<string>, blobs: seq<string>, converted: seq<History>)
    requires |history| == |fsLayers| && forall i :: 0 <= i < |history| ==> history[i].V1?
  {
    forall i :: 0 <= i < |history| && !history[i].image.throwAway ==>
      OwnedBy(blobs, converted, |history| - 1 - i, fsLayers[i])
  }

  /** The blobs of the entries that are not throw-away, from the bottom of the image to the top. */
  function Blobs(imgs: seq<V1Image>, layers: seq<string>): seq<string>
    requires |imgs| == |layers|
  {
    if imgs == [] then []
    else Blobs(imgs[1..], layers[1..]) + if imgs[0].throwAway then [] else [layers[0]]
  }

  /** The entries of a converted history own a layer where the old ones are not throw-away, in the opposite order. */
  ghost predicate Mirrors(imgs: seq<V1Image>, converted: seq<History>) {
    |converted| == |imgs| && forall i :: 0 <= i < |imgs| ==> converted[|imgs| - 1 - i].emptyLayer == imgs[i].throwAway
  }

  lemma MirrorsTail(imgs: seq<V1Image>, converted: seq<History>)
    requires imgs != [] && Mirrors(imgs, converted)
    ensures Mirrors(imgs[1..], converted[..|converted| - 1])
    ensures converted[|converted| - 1].emptyLayer == imgs[0].throwAway
  {
    var tail, init := imgs[1..], converted[..|converted| - 1];
    forall i | 0 <= i < |tail|
      ensures init[|tail| - 1 - i].emptyLayer == tail[i].throwAway
    {
      assert converted[|imgs| - 1 - (i + 1)].emptyLayer == imgs[i + 1].throwAway;
    }
  }

  lemma {:induction false} BlobCount(imgs: seq<V1Image>, layers: seq<string>, converted: seq<History>)
    requires |imgs| == |layers| && Mirrors(imgs, converted)
    ensures |Blobs(imgs, layers)| == NonEmpty(converted)
  {
    if imgs != [] {
      MirrorsTail(imgs, converted);
      BlobCount(imgs[1..], layers[1..], converted[..|converted| - 1]);
    }
  }

  /** Each entry that is not throw-away has its layer among the blobs, at its place among the owners. */
  lemma {:induction false} BlobOwned(imgs: seq<V1Image>, layers: seq<string>, converted: seq<History>, i: nat)
    requires i < |imgs| == |layers| && Mirrors(imgs, converted) && !imgs[i].throwAway
    ensures OwnedBy(Blobs(imgs, layers), converted, |imgs| - 1 - i, layers[i])
  {
    var init := converted[..|converted| - 1];
    MirrorsTail(imgs, converted);
    if i == 0 {
      BlobCount(imgs[1..], layers[1..], init);
    } else {
      BlobOwned(imgs[1..], layers[1..], init, i - 1);
      assert init[..|imgs| - 1 - i] == converted[..|imgs| - 1 - i];
    }
  }

  lemma BlobsLineUp(history: seq<Compat>, fsLayers: seq<string>, blobs: seq<string>, converted: seq<History>)
    requires |history| == |fsLayers| && (forall i :: 0 <= i < |history| ==> history[i].V1?)
    requires blobs == Blobs(Decode(history), fsLayers) && Converted(history, converted)
    ensures LinedUp(history, fsLayers, blobs, converted)
  {
    var imgs := Decode(history);
    forall i | 0 <= i < |history| && !history[i].image.throwAway
      ensures OwnedBy(blobs, converted, |history| - 1 - i, fsLayers[i])
    {
      BlobOwned(imgs, fsLayers, converted, i);
    }
  }

  method NoStrayDuplicates(imgs: seq<V1Image>) returns (ok: bool)
    requires forall i :: 0 <= i < |imgs| ==> imgs[i].id != ""
    ensures ok <==> Contiguous(imgs)
  {
    var idmap: set<string>, lastID := {}, "";
    for i := 0 to |imgs|
      invariant forall x :: x in idmap <==> exists j :: 0 <= j < i && imgs[j].id == x
      invariant lastID == if i == 0 then "" else imgs[i - 1].id
      invariant Contiguous(imgs[..i])
    {
      if imgs[i].id != lastID && imgs[i].id in idmap {
        return false;
      }
      ghost var longer := imgs[..i + 1];
      forall a, b, c | 0 <= a < b < c < i + 1 && longer[a].id == longer[c].id
        ensures longer[b].id == longer[a].id
      {
        if c < i {
          assert imgs[..i][a].id == imgs[..i][c].id;
        } else if b < i - 1 {
          assert imgs[..i][a].id == imgs[..i][i - 1].id;
        }
      }
      lastID := imgs[i].id;
      idmap := idmap + {lastID};
    }
    assert imgs[..|imgs|] == imgs;
    return true;
  }
}
