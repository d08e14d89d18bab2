/** The "ancestor" filter of the container list: which images descend from the given ones. */
module AncestorFilter {
  import opened Images
  import opened Forest
  import opened Values

  /** Every child of a marked image is marked. */
  ghost predicate Closed(parents: map<ID, ID>, marked: set<ID>) {
    forall c :: c in parents && parents[c] in marked ==> c in marked
  }

  lemma {:induction false} ClosedContains(parents: map<ID, ID>, marked: set<ID>, id: ID, x: ID, n: nat)
    requires Closed(parents, marked) && id in marked && Up(parents, x, n, id)
    ensures x in marked
    decreases n
  {
    if n > 0 {
      var c := LastStep(parents, x, n, id);
      ClosedContains(parents, marked, c, x, n - 1);
    }
  }

  lemma ClosedUnderDescendants(parents: map<ID, ID>, marked: set<ID>, id: ID)
    requires Closed(parents, marked) && id in marked
    ensures Descendants(parents, id) <= marked
  {
    forall x | x in Descendants(parents, id)
      ensures x in marked
    {
      var n: nat :| Up(parents, x, n, id);
      ClosedContains(parents, marked, id, x, n);
    }
  }

  class ImageFilter {
    const parents: map<ID, ID>
    var images: set<ID>

    constructor (parents: map<ID, ID>)
      ensures this.parents == parents && images == {}
    {
      this.parents, this.images := parents, {};
    }

    /** Marks the image and everything below it. */
    method Populate(id: ID)
      requires Acyclic(parents) && Closed(parents, images)
      modifies this
      ensures Closed(parents, images)
      ensures images == old(images) + Descendants(parents, id)
      decreases |Descendants(parents, id)|
    {
      if id in images {
        ClosedUnderDescendants(parents, images, id);
        return;
      }
      var todo := Children(parents, id);
      ghost var done: set<ID> := {};
      while todo != {}
        invariant Closed(parents, images)
        invariant todo + done == Children(parents, id)
        invariant forall x :: x in images <==> x in old(images) || exists c :: c in done && x in Descendants(parents, c)
        decreases todo
      {
        var c :| c in todo;
        DescendantsShrink(parents, id, c);
        Populate(c);
        todo, done := todo - {c}, done + {c};
      }
      forall x
        ensures x in images + {id} <==> x in old(images) || x in Descendants(parents, id)
      {
        DescendantsUnfold(parents, id, x);
      }
      forall c | c in done
        ensures c in images
      {
        assert Up(parents, c, 0, c) && c in Descendants(parents, c);
      }
      assert forall c :: c in parents && parents[c] == id ==> c in Children(parents, id);
      images := images + {id};
    }

    /** Folds the filter values; None stands for a value that names no image. */
    method Fold(ancestors: seq<Option<ID>>)
      requires Acyclic(parents) && images == {}
      modifies this
      ensures Closed(parents, images)
      ensures forall x :: x in images <==> exists a :: Some(a) in ancestors && x in Descendants(parents, a)
    {
      for i := 0 to |ancestors|
        invariant Closed(parents, images)
        invariant forall x :: x in images <==> exists a :: Some(a) in ancestors[..i] && x in Descendants(parents, a)
      {
        assert ancestors[..i + 1] == ancestors[..i] + [ancestors[i]];
        if ancestors[i].Some? {
          var id := ancestors[i].value;
          if id in images {
            ClosedUnderDescendants(parents, images, id);
          } else {
            Populate(id);
          }
        }
      }
      assert ancestors[..|ancestors|] == ancestors;
    }
  }
}
