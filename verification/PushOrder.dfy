/** Pushing to a v1 registry: the order in which dependency layers and images are uploaded. */
module PushOrder {
  import opened Values

  /** A layer with everything beneath it; it stands for its own chain ID, and Nil for no layer. */
  datatype Stack = Nil | Layer(diff: string, below: Stack)

  type ImageID = string

  /** An upload: a dependency layer, or a runnable image on top of `parent`. `parent` is what its JSON names. */
  datatype Upload =
    | Dependency(layer: Stack, parent: Stack)
    | Top(image: ImageID, layer: Stack, parent: Stack)

  /** A reference in the repository; `tag` is None for digest references. */
  datatype Association = Association(tag: Option<string>, image: ImageID)

  function Parent(l: Stack): Stack {
    if l.Nil? then Nil else l.below
  }

  /** The layer and all layers beneath it. */
  function Under(l: Stack): set<Stack> {
    if l.Nil? then {} else {l} + Under(l.below)
  }

  /** The layers uploaded as dependencies. */
  function Dependencies(list: seq<Upload>): set<Stack> {
    if list == [] then {}
    else
      var last := list[|list| - 1];
      Dependencies(list[..|list| - 1]) + if last.Dependency? then {last.layer} else {}
  }

  /** After these dependencies the upload may follow: its parent is there, and it is not, if it is a dependency. */
  predicate Follows(u: Upload, before: set<Stack>) {
    && u.parent == Parent(u.layer)
    && (u.parent.Layer? ==> u.parent in before)
    && (u.Dependency? ==> u.layer !in before)
  }

  /** Parents come first and no dependency is uploaded twice. */
  predicate Ordered(list: seq<Upload>) {
    list == [] || (Ordered(list[..|list| - 1]) && Follows(list[|list| - 1], Dependencies(list[..|list| - 1])))
  }

  /** The memo holds the right uploads and contains the parent of everything it contains. */
  ghost predicate Memo(seen: map<Stack, Upload>) {
    forall l :: l in seen ==>
      l.Layer? && seen[l] == Dependency(l, l.below) && (l.below.Layer? ==> l.below in seen)
  }

  /** The dependencies still missing for `l`, bottom first. */
  function Missing(l: Stack, seen: set<Stack>): seq<Upload> {
    if l.Nil? then []
    else Missing(l.below, seen) + if l in seen then [] else [Dependency(l, l.below)]
  }

  // ---------------------------------------------------------------------------

  lemma OrderedAppend(list: seq<Upload>, u: Upload)
    requires Ordered(list) && Follows(u, Dependencies(list))
    ensures Ordered(list + [u])
    ensures Dependencies(list + [u]) == Dependencies(list) + if u.Dependency? then {u.layer} else {}
  {
    assert (list + [u])[..|list + [u]| - 1] == list;
  }

  lemma {:induction false} DependencyAt(list: seq<Upload>, l: Stack)
    ensures l in Dependencies(list) <==> exists i :: 0 <= i < |list| && list[i].Dependency? && list[i].layer == l
  {
    if list != [] {
      var init := list[..|list| - 1];
      DependencyAt(init, l);
      assert forall i :: 0 <= i < |init| ==> init[i] == list[i];
    }
  }

  /** What the order means for each upload: it names its layer's parent, that parent is uploaded as a dependency
      before it, and no earlier dependency is the same layer. */
  lemma {:induction false} OrderedMeaning(list: seq<Upload>, i: nat)
    requires Ordered(list) && i < |list|
    ensures list[i].parent == if list[i].layer.Nil? then Nil else list[i].layer.below
    ensures list[i].parent.Layer? ==> exists j :: 0 <= j < i && list[j].Dependency? && list[j].layer == list[i].parent
    ensures list[i].Dependency? ==> forall j :: 0 <= j < i && list[j].Dependency? ==> list[j].layer != list[i].layer
  {
    var init := list[..|list| - 1];
    assert forall j :: 0 <= j < |init| ==> init[j] == list[j];
    if i < |init| {
      OrderedMeaning(init, i);
    } else {
      DependencyAt(init, list[i].parent);
      DependencyAt(init, list[i].layer);
    }
  }

  /** Nothing superfluous: each dependency is followed at once by an upload that names it as its parent. */
  ghost predicate Chained(list: seq<Upload>) {
    forall i :: 0 <= i < |list| && list[i].Dependency? ==> i + 1 < |list| && NamesParent(list[i + 1], list[i].layer)
  }

  ghost predicate NamesParent(u: Upload, l: Stack) {
    u.parent == l
  }

  lemma ChainedConcat(a: seq<Upload>, b: seq<Upload>)
    requires Chained(a) && Chained(b)
    ensures Chained(a + b)
  {
    var list := a + b;
    forall i | 0 <= i < |list| && list[i].Dependency?
      ensures i + 1 < |list| && NamesParent(list[i + 1], list[i].layer)
    {
      if i < |a| {
        assert NamesParent(a[i + 1], a[i].layer);
      } else {
        assert NamesParent(b[i + 1 - |a|], b[i - |a|].layer);
      }
    }
  }

  /** What is missing of a layer that was seen before is nothing at all. */
  lemma {:induction false} SeenMissesNothing(l: Stack, seen: map<Stack, Upload>)
    requires Memo(seen) && (l in seen || l.Nil?)
    ensures Missing(l, seen.Keys) == []
    decreases l
  {
    if l.Layer? {
      SeenMissesNothing(l.below, seen);
    }
  }

  /** The missing dependencies of a layer lead up to the uploads on top of it. */
  lemma {:induction false} MissingChained(l: Stack, seen: map<Stack, Upload>, rest: seq<Upload>)
    requires Memo(seen) && rest != [] && Chained(rest) && rest[0].parent == l
    ensures Chained(Missing(l, seen.Keys) + rest)
    decreases l
  {
    if l in seen || l.Nil? {
      SeenMissesNothing(l, seen);
      NothingBefore(rest);
    } else {
      var longer := [Dependency(l, l.below)] + rest;
      forall i | 0 <= i < |longer| && longer[i].Dependency?
        ensures i + 1 < |longer| && NamesParent(longer[i + 1], longer[i].layer)
      {
        if i > 0 {
          assert NamesParent(rest[i], rest[i - 1].layer);
        }
      }
      MissingChained(l.below, seen, longer);
      Grouping(Missing(l.below, seen.Keys), [Dependency(l, l.below)], rest);
    }
  }

  lemma {:induction false} UnderClosed(l: Stack, seen: map<Stack, Upload>)
    requires Memo(seen) && l in seen
    ensures Under(l) <= seen.Keys
    decreases l
  {
    if l.below.Layer? {
      UnderClosed(l.below, seen);
    }
  }

  function Height(l: Stack): nat {
    if l.Nil? then 0 else 1 + Height(l.below)
  }

  lemma {:induction false} UnderLower(l: Stack, x: Stack)
    requires x in Under(l)
    ensures Height(x) <= Height(l)
  {
    if x != l {
      UnderLower(l.below, x);
    }
  }

  lemma {:induction false} UnderSelf(l: Stack)
    ensures l.Layer? ==> l in Under(l)
    ensures Nil !in Under(l)
  {
    if l.Layer? {
      UnderSelf(l.below);
    }
  }

  /** Appending the missing dependencies keeps the order and uploads exactly what was not yet there. */
  lemma {:induction false} MissingOrdered(list: seq<Upload>, l: Stack, seen: map<Stack, Upload>)
    requires Ordered(list) && Memo(seen) && Dependencies(list) == seen.Keys
    ensures Ordered(list + Missing(l, seen.Keys))
    ensures Dependencies(list + Missing(l, seen.Keys)) == seen.Keys + Under(l)
    decreases l
  {
    if l.Nil? {
      assert list + [] == list;
    } else {
      var lower := list + Missing(l.below, seen.Keys);
      MissingOrdered(list, l.below, seen);
      if l in seen {
        UnderClosed(l, seen);
        assert Missing(l, seen.Keys) == Missing(l.below, seen.Keys);
      } else {
        UnderSelf(l.below);
        if l in Under(l.below) {
          UnderLower(l.below, l);
        }
        OrderedAppend(lower, Dependency(l, l.below));
        assert list + Missing(l, seen.Keys) == lower + [Dependency(l, l.below)];
      }
    }
  }

  // ---------------------------------------------------------------------------

  /** Images in upload order, each once. */
  function Tops(list: seq<Upload>): seq<ImageID> {
    if list == [] then []
    else
      var rest := Tops(list[..|list| - 1]);
      if list[|list| - 1].Top? then rest + [list[|list| - 1].image] else rest
  }

  /** The tagged images in the order in which they are first mentioned. */
  function FirstMentions(associations: seq<Association>): seq<ImageID> {
    if associations == [] then []
    else
      var rest, last := FirstMentions(associations[..|associations| - 1]), associations[|associations| - 1];
      if last.tag.Some? && last.image !in rest then rest + [last.image] else rest
  }

  /** One of the first `n` associations tags the image. */
  ghost predicate Mentioned(associations: seq<Association>, n: nat, image: ImageID)
    requires n <= |associations|
  {
    exists k :: 0 <= k < n && associations[k].tag.Some? && associations[k].image == image
  }

  /** Each of them once. */
  lemma {:induction false} MentionsDistinct(associations: seq<Association>)
    ensures forall i, j :: 0 <= i < j < |FirstMentions(associations)| ==>
              FirstMentions(associations)[i] != FirstMentions(associations)[j]
    ensures forall image :: image in FirstMentions(associations) <==>
              exists i :: 0 <= i < |associations| && associations[i].tag.Some? && associations[i].image == image
  {
    if associations != [] {
      var init := associations[..|associations| - 1];
      MentionsDistinct(init);
      assert forall i :: 0 <= i < |init| ==> init[i] == associations[i];
    }
  }

  /** Of two images the one listed first is mentioned first. */
  lemma {:induction false} MentionsInOrder(associations: seq<Association>, i: nat, j: nat)
    requires i < j < |FirstMentions(associations)|
    ensures exists n :: 0 <= n <= |associations| && Mentioned(associations, n, FirstMentions(associations)[i]) &&
                        !Mentioned(associations, n, FirstMentions(associations)[j])
  {
    var init := associations[..|associations| - 1];
    var mentions, before := FirstMentions(associations), FirstMentions(init);
    forall n, image | 0 <= n <= |init|
      ensures Mentioned(init, n, image) <==> Mentioned(associations, n, image)
    {
      assert forall k :: 0 <= k < n ==> init[k] == associations[k];
    }
    if j < |before| {
      MentionsInOrder(init, i, j);
      var n :| 0 <= n <= |init| && Mentioned(init, n, before[i]) && !Mentioned(init, n, before[j]);
      assert Mentioned(associations, n, mentions[i]) && !Mentioned(associations, n, mentions[j]);
    } else {
      MentionsDistinct(init);
      assert mentions[i] in before && mentions[j] !in before;
      assert Mentioned(associations, |init|, mentions[i]) && !Mentioned(associations, |init|, mentions[j]);
    }
  }

  function TagsOf(associations: seq<Association>, image: ImageID): seq<string> {
    if associations == [] then []
    else
      var rest, last := TagsOf(associations[..|associations| - 1], image), associations[|associations| - 1];
      if last.tag.Some? && last.image == image then rest + [last.tag.value] else rest
  }

  /** The tags of an image are collected association by association, in order. */
  lemma {:induction false} TagsOfConcat(a: seq<Association>, b: seq<Association>, image: ImageID)
    ensures TagsOf(a + b, image) == TagsOf(a, image) + TagsOf(b, image)
    ensures |a| == 1 ==>
              TagsOf(a, image) == if a[0].tag.Some? && a[0].image == image then [a[0].tag.value] else []
  {
    if |a| == 1 {
      assert a[..0] == [];
    }
    if b == [] {
      assert a + b == a;
    } else {
      TagsOfConcat(a, b[..|b| - 1], image);
      assert (a + b)[..|a + b| - 1] == a + b[..|b| - 1];
    }
  }

  lemma {:induction false} TopsConcat(a: seq<Upload>, b: seq<Upload>)
    ensures Tops(a + b) == Tops(a) + Tops(b)
  {
    if b == [] {
      assert a + b == a;
    } else {
      TopsConcat(a, b[..|b| - 1]);
      assert (a + b)[..|a + b| - 1] == a + b[..|b| - 1];
    }
  }

  lemma {:induction false} MissingHasNoTops(l: Stack, seen: set<Stack>)
    ensures Tops(Missing(l, seen)) == []
  {
    if l.Layer? {
      MissingHasNoTops(l.below, seen);
      TopsConcat(Missing(l.below, seen), if l in seen then [] else [Dependency(l, l.below)]);
    }
  }

  lemma {:induction false} NoTops(list: seq<Upload>)
    requires Tops(list) == []
    ensures forall u :: u in list ==> u.Dependency?
  {
    if list != [] {
      NoTops(list[..|list| - 1]);
      assert forall u :: u in list ==> u in list[..|list| - 1] || u == list[|list| - 1];
    }
  }

  /** Every tagged image is listed with all its tags, in order. */
  ghost predicate TagsIndexed(tags: map<ImageID, seq<string>>, associations: seq<Association>) {
    && (forall image :: image in tags <==> image in FirstMentions(associations))
    && (forall image :: image in tags ==> tags[image] == TagsOf(associations, image))
  }

  lemma IndexMore(tags: map<ImageID, seq<string>>, associations: seq<Association>)
    requires associations != [] && TagsIndexed(tags, associations[..|associations| - 1])
    ensures var a := associations[|associations| - 1];
            if a.tag.None? then TagsIndexed(tags, associations)
            else
              var soFar := if a.image in tags then tags[a.image] else [];
              TagsIndexed(tags[a.image := soFar + [a.tag.value]], associations)
  {
    TagsOfUnseen(associations[..|associations| - 1], associations[|associations| - 1].image);
  }

  lemma TopsAppended(uploads: seq<Upload>, deps: seq<Upload>, top: Upload)
    requires top.Top? && Tops(deps) == []
    ensures Tops(uploads + deps + [top]) == Tops(uploads) + [top.image]
  {
    TopsConcat(uploads, deps);
    assert (uploads + deps + [top])[..|uploads + deps|] == uploads + deps;
  }

  /** Appending an image with its missing dependencies keeps the order. */
  lemma AppendImage(uploads: seq<Upload>, image: ImageID, l: Stack, seen: map<Stack, Upload>, longer: seq<Upload>)
    requires Memo(seen) && Ordered(uploads) && Dependencies(uploads) == seen.Keys
    requires longer == uploads + (Missing(Parent(l), seen.Keys) + [Top(image, l, Parent(l))])
    ensures Ordered(longer) && Tops(longer) == Tops(uploads) + [image]
    ensures Dependencies(longer) == seen.Keys + Under(Parent(l))
  {
    var deps, top := Missing(Parent(l), seen.Keys), Top(image, l, Parent(l));
    MissingOrdered(uploads, Parent(l), seen);
    UnderSelf(Parent(l));
    OrderedAppend(uploads + deps, top);
    MissingHasNoTops(Parent(l), seen.Keys);
    TopsAppended(uploads, deps, top);
    Grouping(uploads, deps, [top]);
  }

  /** And leaves nothing superfluous. */
  lemma AppendChained(uploads: seq<Upload>, image: ImageID, l: Stack, seen: map<Stack, Upload>)
    requires Memo(seen) && Chained(uploads)
    ensures Chained(uploads + (Missing(Parent(l), seen.Keys) + [Top(image, l, Parent(l))]))
  {
    MissingChained(Parent(l), seen, [Top(image, l, Parent(l))]);
    ChainedConcat(uploads, Missing(Parent(l), seen.Keys) + [Top(image, l, Parent(l))]);
  }

  lemma Grouping(a: seq<Upload>, b: seq<Upload>, c: seq<Upload>)
    ensures a + (b + c) == a + b + c
  {
  }

  /** A single tag is pushed without the memo; its own list is complete and ordered. */
  lemma SingleTagOrdered(image: ImageID, l: Stack, list: seq<Upload>)
    requires list == Missing(Parent(l), {}) + [Top(image, l, Parent(l))]
    ensures Ordered(list) && Dependencies(list) == Under(Parent(l)) && Tops(list) == [image]
  {
    var none: map<Stack, Upload> := map[];
    NoneSeen(none);
    NothingBefore(list);
    AppendImage([], image, l, none, list);
  }

  lemma SingleTagChained(image: ImageID, l: Stack)
    ensures Chained(Missing(Parent(l), {}) + [Top(image, l, Parent(l))])
  {
    var none: map<Stack, Upload> := map[];
    assert none.Keys == {};
    MissingChained(Parent(l), none, [Top(image, l, Parent(l))]);
  }

  lemma NothingBefore(list: seq<Upload>)
    ensures [] + list == list
  {
  }

  lemma NoneSeen(none: map<Stack, Upload>)
    requires none == map[]
    ensures Memo(none) && Ordered([]) && Dependencies([]) == none.Keys == {} && Tops([]) == []
  {
  }

  class Pusher {
    /** The top layer of each stored image; Nil for an image without layers. */
    const images: map<ImageID, Stack>
    /** Layers that the layer store can open. */
    const available: set<Stack>
    var seen: map<Stack, Upload>

    constructor (images: map<ImageID, Stack>, available: set<Stack>)
      ensures this.images == images && this.available == available && seen == map[]
    {
      this.images, this.available, seen := images, available, map[];
    }

    /** The uploads a layer needs; with `share` they are remembered across images. */
    method GenerateDependencyImages(l: Stack, share: bool) returns (list: seq<Upload>, parent: Stack)
      requires Memo(seen)
      modifies this
      ensures list == Missing(l, if share then old(seen.Keys) else {}) && parent == l
      ensures Memo(seen) && seen.Keys == if share then old(seen.Keys) + Under(l) else old(seen.Keys)
      decreases l
    {
      if l.Nil? {
        return [], Nil;
      }
      list, parent := GenerateDependencyImages(l.below, share);
      if share && l in seen {
        if l in Under(l.below) {
          UnderLower(l.below, l);
        }
        return list, seen[l].layer;
      }
      list := list + [Dependency(l, parent)];
      if share {
        UnderSelf(l.below);
        seen := seen[l := Dependency(l, parent)];
      }
      return list, l;
    }

    /** The uploads for one image, or None when it or its top layer cannot be opened. */
    method ImageListForTag(image: ImageID, share: bool) returns (list: Option<seq<Upload>>)
      requires Memo(seen)
      modifies this
      ensures Memo(seen)
      ensures list.Some? <==> image in images && (images[image].Layer? ==> images[image] in available)
      ensures list.Some? ==>
                var l := images[image];
                && list.value == Missing(Parent(l), if share then old(seen.Keys) else {}) + [Top(image, l, Parent(l))]
                && seen.Keys == (if share then old(seen.Keys) + Under(Parent(l)) else old(seen.Keys))
                && (!share ==> && Ordered(list.value) && Chained(list.value) && Tops(list.value) == [image]
                               && Dependencies(list.value) == Under(Parent(l)))
    {
      if image !in images {
        return None;
      }
      var l := images[image];
      if l.Layer? && l !in available {
        return None;
      }
      var deps, parent := GenerateDependencyImages(Parent(l), share);
      if !share {
        SingleTagOrdered(image, l, deps + [Top(image, l, parent)]);
        SingleTagChained(image, l);
      }
      return Some(deps + [Top(image, l, parent)]);
    }

    ghost predicate Openable(image: ImageID) {
      image in images && (images[image].Layer? ==> images[image] in available)
    }

    /** The layers that the given images need as dependencies. */
    ghost function Needed(wanted: seq<ImageID>): set<Stack> {
      set image, x | image in wanted && image in images && x in Under(Parent(images[image])) :: x
    }

    /** Every image is uploaded with its own top layer. */
    ghost predicate OwnLayers(list: seq<Upload>) {
      forall u :: u in list && u.Top? ==> u.image in images && u.layer == images[u.image]
    }

    lemma OwnAppended(uploads: seq<Upload>, image: ImageID, seen: set<Stack>)
      requires OwnLayers(uploads) && image in images
      ensures var l := images[image]; OwnLayers(uploads + (Missing(Parent(l), seen) + [Top(image, l, Parent(l))]))
    {
      var deps := Missing(Parent(images[image]), seen);
      MissingHasNoTops(Parent(images[image]), seen);
      NoTops(deps);
      var top := Top(image, images[image], Parent(images[image]));
      assert forall u :: u in uploads + (deps + [top]) ==> u in uploads || u in deps || u == top;
    }

    /** Extends the upload list by one image. */
    method AddImage(uploads: seq<Upload>, image: ImageID, ghost wanted: seq<ImageID>)
      returns (longer: Option<seq<Upload>>)
      requires Memo(seen) && Ordered(uploads) && Dependencies(uploads) == seen.Keys == Needed(wanted)
      requires Chained(uploads) && OwnLayers(uploads)
      modifies this
      ensures longer.Some? <==> Openable(image)
      ensures longer.Some? ==>
                && Memo(seen) && Ordered(longer.value) && Tops(longer.value) == Tops(uploads) + [image]
                && Dependencies(longer.value) == seen.Keys == Needed(wanted + [image])
                && Chained(longer.value) && OwnLayers(longer.value)
    {
      ghost var before := seen;
      var forTag := ImageListForTag(image, true);
      if forTag.None? {
        return None;
      }
      AppendImage(uploads, image, images[image], before, uploads + forTag.value);
      AppendChained(uploads, image, images[image], before);
      NeededMore(wanted, image);
      OwnAppended(uploads, image, before.Keys);
      return Some(uploads + forTag.value);
    }

    lemma NeededMore(wanted: seq<ImageID>, image: ImageID)
      requires image in images
      ensures Needed(wanted + [image]) == Needed(wanted) + Under(Parent(images[image]))
    {
    }

    /** All uploads for a repository: every dependency exactly once, parents first, each tagged image once. */
    method GetImageList(associations: seq<Association>)
      returns (list: Option<seq<Upload>>, tagsByImage: map<ImageID, seq<string>>)
      requires seen == map[]
      modifies this
      ensures var wanted := FirstMentions(associations);
              && (list.Some? <==> wanted != [] && forall image :: image in wanted ==> Openable(image))
              && (list.Some? ==>
                    && Ordered(list.value) && Tops(list.value) == wanted && Dependencies(list.value) == Needed(wanted)
                    && Chained(list.value) && OwnLayers(list.value)
                    && TagsIndexed(tagsByImage, associations))
    {
      tagsByImage := map[];
      var uploads: seq<Upload>, imagesSeen: set<ImageID> := [], {};
      for i := 0 to |associations|
        invariant var wanted := FirstMentions(associations[..i]);
                  && Memo(seen) && Ordered(uploads) && Dependencies(uploads) == seen.Keys == Needed(wanted)
                  && Tops(uploads) == wanted && (forall image :: image in wanted ==> Openable(image))
                  && (wanted == [] ==> uploads == []) && (forall image :: image in imagesSeen <==> image in wanted)
        invariant Chained(uploads) && OwnLayers(uploads)
        invariant TagsIndexed(tagsByImage, associations[..i])
      {
        var a := associations[i];
        ghost var wanted := FirstMentions(associations[..i]);
        assert associations[..i + 1][..i] == associations[..i];
        assert FirstMentions(associations[..i + 1]) ==
               if a.tag.Some? && a.image !in wanted then wanted + [a.image] else wanted;
        IndexMore(tagsByImage, associations[..i + 1]);
        if a.tag.Some? {
          var soFar := if a.image in tagsByImage then tagsByImage[a.image] else [];
          tagsByImage := tagsByImage[a.image := soFar + [a.tag.value]];
          if a.image !in imagesSeen {
            imagesSeen := imagesSeen + {a.image};
            var longer := AddImage(uploads, a.image, wanted);
            if longer.None? {
              MentionsPersist(associations, i + 1, a.image);
              return None, map[];
            }
            uploads := longer.value;
          }
        }
      }
      assert associations[..|associations|] == associations;
      if uploads == [] {
        return None, map[];
      }
      return Some(uploads), tagsByImage;
    }
  }

  lemma {:induction false} TagsOfUnseen(associations: seq<Association>, image: ImageID)
    ensures image !in FirstMentions(associations) ==> TagsOf(associations, image) == []
  {
    if associations != [] {
      TagsOfUnseen(associations[..|associations| - 1], image);
    }
  }

  lemma {:induction false} MentionsPersist(associations: seq<Association>, i: nat, image: ImageID)
    requires i <= |associations| && image in FirstMentions(associations[..i])
    ensures image in FirstMentions(associations)
  {
    if i == |associations| {
      assert associations[..i] == associations;
    } else {
      assert associations[..|associations| - 1][..i] == associations[..i];
      MentionsPersist(associations[..|associations| - 1], i, image);
    }
  }
}
