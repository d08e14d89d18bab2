/** Image identities and configurations. Digests are ideal: an ID is the digest of exactly one configuration. */
module Images {
  import opened Values

  type DiffID = string

  /** The chain ID of a stack of layers, bottom first; [] stands for the empty chain ID. */
  type ChainID = seq<DiffID>

  datatype History = History(createdBy: string, emptyLayer: bool)

  datatype Image = Image(diffIDs: seq<DiffID>, history: seq<History>)

  /** Configuration bytes, together with what decoding them yields. */
  datatype Config = Undecodable(raw: string) | Decoded(raw: string, image: Image)

  datatype ID = Digest(config: Config)

  /** The layer an image holds a reference on; none when its chain ID is empty. */
  function LayerOf(image: Image): Option<ChainID> {
    if image.diffIDs == [] then None else Some(image.diffIDs)
  }

  /** How many history entries own a layer. */
  function NonEmpty(history: seq<History>): nat {
    if history == [] then 0
    else NonEmpty(history[..|history| - 1]) + if history[|history| - 1].emptyLayer then 0 else 1
  }

  lemma {:induction false} NonEmptyCounts(history: seq<History>)
    ensures NonEmpty(history) == |set i | 0 <= i < |history| && !history[i].emptyLayer|
  {
    if history != [] {
      var init, last := history[..|history| - 1], |history| - 1;
      NonEmptyCounts(init);
      var owners := set i | 0 <= i < |init| && !init[i].emptyLayer;
      var all := set i | 0 <= i < |history| && !history[i].emptyLayer;
      assert all == if history[last].emptyLayer then owners else owners + {last};
    }
  }

  /** The history names no more layers than the root file system has. */
  predicate Fits(image: Image) {
    NonEmpty(image.history) <= |image.diffIDs|
  }
}
