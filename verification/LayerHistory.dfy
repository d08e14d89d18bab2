/** Histories and layers agree: from commit and import, through the store, to the history listing. */
module LayerHistory {
  import opened Images
  import opened Forest
  import ImageStore
  import opened Values

  /** The layer digest of an empty archive. */
  const EMPTY_TAR: DiffID := "sha256:5f70bf18a086007016e948b04aed3b82103a36bea41755b6cddfaf10ace3c6ef"

  // ---------------------------------------------------------------------------
  // Building configurations

  lemma NonEmptyMore(history: seq<History>, h: History)
    ensures NonEmpty(history + [h]) == NonEmpty(history) + if h.emptyLayer then 0 else 1
  {
    assert (history + [h])[..|history + [h]| - 1] == history;
  }

  /** The configuration of a committed container: the history and layers of its image, if it has one, and one more
      entry, which owns a layer unless nothing changed. */
  method Commit(base: Option<Image>, createdBy: string, diffID: DiffID) returns (image: Image)
    ensures var below := if base.Some? then base.value else Image([], []);
            image == Image(below.diffIDs + (if diffID == EMPTY_TAR then [] else [diffID]),
                           below.history + [History(createdBy, diffID == EMPTY_TAR)])
    ensures (base.Some? ==> Fits(base.value)) ==> forall raw :: !ImageStore.Refused(Decoded(raw, image))
  {
    var history, diffIDs := [], [];
    if base.Some? {
      history, diffIDs := base.value.history, base.value.diffIDs;
    }
    var h := History(createdBy, true);
    if diffID != EMPTY_TAR {
      h := h.(emptyLayer := false);
      diffIDs := diffIDs + [diffID];
    }
    NonEmptyMore(history, h);
    image := Image(diffIDs, history + [h]);
    assert diffIDs == (if base.Some? then base.value.diffIDs else []) + if diffID == EMPTY_TAR then [] else [diffID];
  }

  /** The configuration of an imported archive. */
  method Import(diffID: DiffID) returns (image: Image)
    ensures image.diffIDs == [diffID] && |image.history| == 1 && !image.history[0].emptyLayer
    ensures forall raw :: !ImageStore.Refused(Decoded(raw, image))
  {
    image := Image([diffID], [History("", false)]);
    NonEmptyMore([], History("", false));
    assert [] + [History("", false)] == [History("", false)];
  }

  // ---------------------------------------------------------------------------
  // The store only ever holds images whose history fits

  ghost predicate AllFit(s: ImageStore.State) {
    forall id :: id in s.content ==> id.config.Decoded? && Fits(id.config.image)
  }

  lemma {:induction false} RunFits(s: ImageStore.State, ops: seq<ImageStore.Op>)
    requires AllFit(s)
    ensures AllFit(ImageStore.Run(s, ops))
  {
    if ops != [] {
      RunFits(s, ops[..|ops| - 1]);
    }
  }

  // ---------------------------------------------------------------------------
  // Listing the history

  /** A line of the listing; the ID is None where it is shown as missing. */
  datatype Line = Line(id: Option<ID>, createdBy: string, size: nat)

  datatype Listing = Listed(lines: seq<Line>) | TooManyLayers | NoSuchLayer(chain: ChainID)

  /** The image `k` parent links above `id`. */
  function AncestorAt(parents: map<ID, ID>, id: ID, k: nat): Option<ID>
    decreases k
  {
    if k == 0 then Some(id) else if id in parents then AncestorAt(parents, parents[id], k - 1) else None
  }

  lemma {:induction false} AncestorAtIsUp(parents: map<ID, ID>, id: ID, k: nat, x: ID)
    ensures AncestorAt(parents, id, k) == Some(x) <==> Up(parents, id, k, x)
    decreases k
  {
    if k > 0 && id in parents {
      AncestorAtIsUp(parents, parents[id], k - 1, x);
    }
  }

  lemma {:induction false} AncestorAtStep(parents: map<ID, ID>, id: ID, k: nat)
    ensures AncestorAt(parents, id, k + 1) ==
            var x := AncestorAt(parents, id, k);
            if x.Some? && x.value in parents then Some(parents[x.value]) else None
    decreases k
  {
    if k > 0 && id in parents {
      AncestorAtStep(parents, parents[id], k - 1);
    }
  }

  lemma {:induction false} NoFurther(parents: map<ID, ID>, id: ID, k: nat, j: nat)
    requires k <= j && AncestorAt(parents, id, k).None?
    ensures AncestorAt(parents, id, j).None?
  {
    if j > k {
      NoFurther(parents, id, k, j - 1);
      AncestorAtStep(parents, id, j - 1);
    }
  }

  lemma {:induction false} NonEmptyPrefix(history: seq<History>, i: nat)
    requires i <= |history|
    ensures NonEmpty(history[..i]) <= NonEmpty(history)
  {
    if i == |history| {
      assert history[..i] == history;
    } else {
      assert history[..|history| - 1][..i] == history[..i];
      NonEmptyPrefix(history[..|history| - 1], i);
    }
  }

  /** The first `n` layers of an image. */
  function Bottom(image: Image, n: nat): ChainID {
    if n <= |image.diffIDs| then image.diffIDs[..n] else image.diffIDs
  }

  /** The size to show for entry `i`: that of the layer it owns, which sits on those owned by the entries before. */
  function SizeAt(image: Image, sizes: ChainID -> Option<nat>, i: nat): Option<nat>
    requires i < |image.history|
  {
    if image.history[i].emptyLayer then Some(0) else sizes(Bottom(image, NonEmpty(image.history[..i]) + 1))
  }

  /** The lines for the first `n` entries, newest first. */
  function Lines(image: Image, sizes: ChainID -> Option<nat>, n: nat): Option<seq<Line>>
    requires n <= |image.history|
  {
    if n == 0 then Some([])
    else
      var size, rest := SizeAt(image, sizes, n - 1), Lines(image, sizes, n - 1);
      if size.None? || rest.None? then None
      else Some([Line(None, image.history[n - 1].createdBy, size.value)] + rest.value)
  }

  /** Line by line: entry `i` is on the `i`-th line from the bottom. */
  lemma {:induction false} LinesMeaning(image: Image, sizes: ChainID -> Option<nat>, n: nat, i: nat)
    requires i < n <= |image.history| && Lines(image, sizes, n).Some?
    ensures |Lines(image, sizes, n).value| == n && SizeAt(image, sizes, i).Some?
    ensures Lines(image, sizes, n).value[n - 1 - i] ==
            Line(None, image.history[i].createdBy, SizeAt(image, sizes, i).value)
    decreases n
  {
    if n == 1 {
      assert Lines(image, sizes, 0) == Some([]);
    } else {
      LinesMeaning(image, sizes, n - 1, if i < n - 1 then i else 0);
    }
  }

  lemma LinesPrefix(image: Image, sizes: ChainID -> Option<nat>, m: nat, n: nat)
    requires m <= n <= |image.history| && Lines(image, sizes, m).None?
    ensures Lines(image, sizes, n).None?
  {
  }

  /** The size of entry `i`, given how many entries before it own a layer. */
  lemma SizeStep(image: Image, sizes: ChainID -> Option<nat>, i: nat, layerCounter: nat)
    requires i < |image.history| && layerCounter == NonEmpty(image.history[..i])
    ensures var h := image.history[i];
            && NonEmpty(image.history[..i + 1]) == layerCounter + (if h.emptyLayer then 0 else 1)
            && NonEmpty(image.history[..i + 1]) <= NonEmpty(image.history)
            && (h.emptyLayer ==> SizeAt(image, sizes, i) == Some(0))
            && (!h.emptyLayer && layerCounter < |image.diffIDs| ==>
                  SizeAt(image, sizes, i) == sizes(image.diffIDs[..layerCounter] + [image.diffIDs[layerCounter]]))
  {
    assert image.history[..i + 1] == image.history[..i] + [image.history[i]];
    NonEmptyMore(image.history[..i], image.history[i]);
    NonEmptyPrefix(image.history, i + 1);
    if layerCounter < |image.diffIDs| {
      assert image.diffIDs[..layerCounter + 1] == image.diffIDs[..layerCounter] + [image.diffIDs[layerCounter]];
    }
  }

  lemma LinesMore(image: Image, sizes: ChainID -> Option<nat>, i: nat, lines: seq<Line>, size: nat)
    requires i < |image.history| && Lines(image, sizes, i) == Some(lines) && SizeAt(image, sizes, i) == Some(size)
    ensures Lines(image, sizes, i + 1) == Some([Line(None, image.history[i].createdBy, size)] + lines)
  {
  }

  lemma LinesMissing(image: Image, sizes: ChainID -> Option<nat>, i: nat)
    requires i < |image.history| && SizeAt(image, sizes, i).None?
    ensures Lines(image, sizes, |image.history|).None?
  {
    LinesPrefix(image, sizes, i + 1, |image.history|);
  }

  /** The layers up to the one that entry `i` owns. */
  ghost function ChainAt(image: Image, i: nat): ChainID
    requires i < |image.history|
  {
    var n := NonEmpty(image.history[..i]);
    if n < |image.diffIDs| then image.diffIDs[..n + 1] else image.diffIDs
  }

  /** An entry owns the topmost of these layers. */
  ghost predicate Owned(image: Image, chain: ChainID) {
    exists i :: 0 <= i < |image.history| && !image.history[i].emptyLayer && chain == ChainAt(image, i)
  }

  lemma OwnedAt(image: Image, i: nat, layerCounter: nat)
    requires i < |image.history| && !image.history[i].emptyLayer
    requires layerCounter == NonEmpty(image.history[..i]) < |image.diffIDs|
    ensures Owned(image, image.diffIDs[..layerCounter] + [image.diffIDs[layerCounter]])
  {
    assert image.diffIDs[..layerCounter + 1] == image.diffIDs[..layerCounter] + [image.diffIDs[layerCounter]];
    assert ChainAt(image, i) == image.diffIDs[..layerCounter + 1];
  }

  /** The listing's lines before IDs are filled in. */
  method Sizes(image: Image, sizes: ChainID -> Option<nat>) returns (listing: Listing)
    ensures listing.TooManyLayers? ==> !Fits(image)
    ensures listing.NoSuchLayer? ==> sizes(listing.chain).None? && Owned(image, listing.chain)
    ensures Fits(image) ==> (listing.Listed? <==> Lines(image, sizes, |image.history|).Some?)
    ensures listing.Listed? ==> Lines(image, sizes, |image.history|) == Some(listing.lines)
  {
    var lines: seq<Line>, layerCounter, chain: ChainID := [], 0, [];
    for i := 0 to |image.history|
      invariant layerCounter == NonEmpty(image.history[..i]) <= |image.diffIDs|
      invariant chain == image.diffIDs[..layerCounter]
      invariant Lines(image, sizes, i) == Some(lines)
    {
      var h := image.history[i];
      var size := 0;
      SizeStep(image, sizes, i, layerCounter);
      if !h.emptyLayer {
        if |image.diffIDs| <= layerCounter {
          return TooManyLayers;
        }
        chain := chain + [image.diffIDs[layerCounter]];
        if sizes(chain).None? {
          LinesMissing(image, sizes, i);
          OwnedAt(image, i, layerCounter);
          return NoSuchLayer(chain);
        }
        size := sizes(chain).value;
        layerCounter := layerCounter + 1;
      }
      LinesMore(image, sizes, i, lines, size);
      lines := [Line(None, h.createdBy, size)] + lines;
    }
    return Listed(lines);
  }

  /** Without IDs, the listing is complete exactly when every layer owned by an entry is there. */
  lemma {:induction false} LinesSomeIff(image: Image, sizes: ChainID -> Option<nat>, n: nat)
    requires n <= |image.history|
    ensures Lines(image, sizes, n).Some? <==>
            forall i :: 0 <= i < n && !image.history[i].emptyLayer ==> sizes(ChainAt(image, i)).Some?
  {
    if n > 0 {
      LinesSomeIff(image, sizes, n - 1);
      assert SizeAt(image, sizes, n - 1) ==
             if image.history[n - 1].emptyLayer then Some(0) else sizes(ChainAt(image, n - 1));
    }
  }

  /** What a complete listing shows of entry `i`: nothing for an entry without a layer, and otherwise the size of the
      layer that it owns. */
  ghost predicate ShowsEntry(image: Image, sizes: ChainID -> Option<nat>, lines: seq<Line>, i: nat)
    requires i < |image.history|
  {
    && |lines| == |image.history|
    && var line := lines[|lines| - 1 - i];
       && line.createdBy == image.history[i].createdBy
       && if image.history[i].emptyLayer then line.size == 0 else sizes(ChainAt(image, i)) == Some(line.size)
  }

  lemma LinesShow(image: Image, sizes: ChainID -> Option<nat>, lines: seq<Line>, i: nat)
    requires i < |image.history| && Lines(image, sizes, |image.history|).Some?
    requires var all := Lines(image, sizes, |image.history|).value;
             |lines| == |all| && forall k :: 0 <= k < |all| ==> lines[k] == all[k].(id := lines[k].id)
    ensures ShowsEntry(image, sizes, lines, i)
  {
    var n := |image.history|;
    LinesMeaning(image, sizes, n, i);
    var all := Lines(image, sizes, n).value;
    assert lines[n - 1 - i] == all[n - 1 - i].(id := lines[n - 1 - i].id);
  }

  /** The parent links that lead to a stored image. */
  ghost function Stored(content: set<ID>, parents: map<ID, ID>): map<ID, ID> {
    map x | x in parents && parents[x] in content :: parents[x]
  }

  /** In the store no parent link leads elsewhere. */
  lemma AllStored(s: ImageStore.State)
    requires ImageStore.Indexed(s)
    ensures Stored(s.content, s.parents) == s.parents
  {
  }

  /** Puts the image's ID and those of its ancestors on the newest lines. */
  method FillIDs(lines: seq<Line>, id: ID, content: set<ID>, parents: map<ID, ID>) returns (filled: seq<Line>)
    requires forall i :: 0 <= i < |lines| ==> lines[i].id.None?
    ensures |filled| == |lines|
    ensures forall k :: 0 <= k < |lines| ==> filled[k] == lines[k].(id := AncestorAt(Stored(content, parents), id, k))
  {
    ghost var stored := Stored(content, parents);
    filled := lines;
    var current := id;
    var k := 0;
    while k < |lines|
      invariant 0 <= k <= |lines| == |filled|
      invariant AncestorAt(stored, id, k) == Some(current)
      invariant forall j :: 0 <= j < k ==> filled[j] == lines[j].(id := AncestorAt(stored, id, j))
      invariant forall j :: k <= j < |lines| ==> filled[j] == lines[j]
    {
      filled := filled[k := filled[k].(id := Some(current))];
      AncestorAtStep(stored, id, k);
      if current !in parents || parents[current] !in content {
        forall j | k < j < |lines|
          ensures AncestorAt(stored, id, j).None?
        {
          NoFurther(stored, id, k + 1, j);
        }
        return;
      }
      current := parents[current];
      k := k + 1;
    }
  }

  /** The history of a stored image: it never has too many layers, every entry that owns a layer is sized by the
      layers up to its own, and the newest lines carry the IDs of the image and its ancestors. */
  method ImageHistory(s: ImageStore.State, id: ID, sizes: ChainID -> Option<nat>) returns (listing: Listing)
    requires AllFit(s) && id in s.content
    ensures !listing.TooManyLayers?
    ensures var lines := Lines(id.config.image, sizes, |id.config.image.history|);
            && (listing.Listed? <==> lines.Some?)
            && (listing.Listed? ==>
                  && |listing.lines| == |lines.value|
                  && forall k :: 0 <= k < |lines.value| ==>
                       listing.lines[k] == lines.value[k].(id := AncestorAt(Stored(s.content, s.parents), id, k)))
    ensures var image := id.config.image;
            && (listing.Listed? <==> forall i :: 0 <= i < |image.history| && !image.history[i].emptyLayer ==>
                                       sizes(ChainAt(image, i)).Some?)
            && (listing.Listed? ==>
                  forall i :: 0 <= i < |image.history| ==> ShowsEntry(image, sizes, listing.lines, i))
  {
    var image := id.config.image;
    listing := Sizes(image, sizes);
    LinesSomeIff(image, sizes, |image.history|);
    if listing.Listed? {
      forall k | 0 <= k < |listing.lines|
        ensures listing.lines[k].id.None?
      {
        NoIDs(image, sizes, |image.history|, k);
      }
      var lines := FillIDs(listing.lines, id, s.content, s.parents);
      listing := Listed(lines);
      forall i | 0 <= i < |image.history|
        ensures ShowsEntry(image, sizes, lines, i)
      {
        LinesShow(image, sizes, lines, i);
      }
    }
  }

  lemma {:induction false} NoIDs(image: Image, sizes: ChainID -> Option<nat>, n: nat, k: nat)
    requires n <= |image.history| && Lines(image, sizes, n).Some? && k < |Lines(image, sizes, n).value|
    ensures Lines(image, sizes, n).value[k].id.None?
  {
    if n > 0 && k > 0 {
      NoIDs(image, sizes, n - 1, k - 1);
    }
  }
}
