/** Removing images: conflicts, untagging, and pruning up the ancestor chain. */
module ImageDelete {
  import opened Images
  import opened Forest
  import ImageStore
  import opened Values

  datatype Ref = Ref(repo: string, suffix: string, canonical: bool)

  datatype Container = Container(name: string, image: ID, running: bool)

  datatype Conflict = DependentChild | RunningContainer | ActiveReference | StoppedContainer {
    /** Is a container using the image? */
    predicate Used() {
      RunningContainer? || StoppedContainer?
    }

    /** The order in which conflicts are looked for. */
    function Rank(): nat {
      match this
      case DependentChild => 0
      case RunningContainer => 1
      case ActiveReference => 2
      case StoppedContainer => 3
    }
  }

  /** `ReferenceInUse` names a container that keeps the last reference to its image from being removed. */
  datatype Error = InConflict(conflict: Conflict) | ReferenceInUse(user: Container) | Unrecognized {
    predicate Refusal() {
      InConflict? || ReferenceInUse?
    }
  }

  const HARD := {DependentChild, RunningContainer}
  const SOFT := {ActiveReference, StoppedContainer}

  /** What deletion looks at and changes; the containers stay as they are. */
  datatype View = View(images: set<ID>, parents: map<ID, ID>, references: map<Ref, ID>)

  function RefsTo(references: map<Ref, ID>, id: ID): set<Ref> {
    set r | r in references && references[r] == id
  }

  /** Nothing stands in the way of deleting `id` once the images in `below` are gone. */
  ghost predicate Free(v: View, containers: set<Container>, id: ID, below: set<ID>, soft: bool) {
    && Children(v.parents, id) <= below
    && (forall c :: c in containers && c.image == id ==> !c.running && !soft)
    && (soft ==> RefsTo(v.references, id) == {})
  }

  /** A conflict of the given kind is there. */
  ghost predicate Present(v: View, containers: set<Container>, id: ID, conflict: Conflict) {
    match conflict
    case DependentChild => exists c :: c in v.parents && v.parents[c] == id
    case RunningContainer => exists c :: c in containers && c.image == id && c.running
    case ActiveReference => exists r :: r in v.references && v.references[r] == id
    case StoppedContainer => exists c :: c in containers && c.image == id && !c.running
  }

  /** The conflict to report: it is there, it counts, and none that is looked for earlier is there. */
  ghost predicate Reportable(v: View, containers: set<Container>, id: ID, soft: bool, conflict: Conflict) {
    && Present(v, containers, id, conflict)
    && (conflict.ActiveReference? || conflict.StoppedContainer? ==> soft)
    && (!conflict.DependentChild? ==> !Present(v, containers, id, DependentChild))
    && (conflict.ActiveReference? || conflict.StoppedContainer? ==> !Present(v, containers, id, RunningContainer))
    && (conflict.StoppedContainer? ==> !Present(v, containers, id, ActiveReference))
  }

  /** An image is free exactly when there is no conflict to report. */
  lemma FreeIff(v: View, containers: set<Container>, id: ID, soft: bool)
    ensures Free(v, containers, id, {}, soft) <==> forall c :: !Reportable(v, containers, id, soft, c)
  {
    assert Present(v, containers, id, DependentChild) <==> Children(v.parents, id) != {} by {
      assert forall c :: c in Children(v.parents, id) <==> c in v.parents && v.parents[c] == id;
    }
    assert Present(v, containers, id, ActiveReference) <==> RefsTo(v.references, id) != {} by {
      assert forall r :: r in RefsTo(v.references, id) <==> r in v.references && v.references[r] == id;
    }
    if Present(v, containers, id, DependentChild) {
      assert Reportable(v, containers, id, soft, DependentChild);
    } else if Present(v, containers, id, RunningContainer) {
      assert Reportable(v, containers, id, soft, RunningContainer);
    } else if soft && Present(v, containers, id, ActiveReference) {
      assert Reportable(v, containers, id, soft, ActiveReference);
    } else if soft && Present(v, containers, id, StoppedContainer) {
      assert Reportable(v, containers, id, soft, StoppedContainer);
    }
  }

  ghost predicate Distinct<T>(s: seq<T>) {
    forall i, j :: 0 <= i < j < |s| ==> s[i] != s[j]
  }

  /** `gone` is the start of the ancestor chain of `id`, each image free when its turn came. */
  ghost predicate Chain(v: View, containers: set<Container>, id: ID, force: bool, gone: seq<ID>) {
    && Distinct(gone)
    && (gone != [] ==> gone[0] == id && Free(v, containers, id, {}, !force))
    && (forall i :: 0 <= i < |gone| ==> gone[i] in v.images)
    && (forall i :: 0 < i < |gone| ==> Pruned(v, containers, gone, i))
  }

  /** `gone[i]` is the parent of the image before it, has no other child, and nothing refers to or uses it. */
  ghost predicate Pruned(v: View, containers: set<Container>, gone: seq<ID>, i: int)
    requires 0 < i < |gone|
  {
    && gone[i - 1] in v.parents && v.parents[gone[i - 1]] == gone[i]
    && Free(v, containers, gone[i], {gone[i - 1]}, true)
  }

  /** Pruning went on as long as it could. */
  ghost predicate Exhausted(v: View, containers: set<Container>, gone: seq<ID>)
    requires gone != []
  {
    var last := gone[|gone| - 1];
    last !in v.parents || !Free(v, containers, v.parents[last], {last}, true)
  }

  /** `v` without the images in `gone`: their links, and every reference to them, are removed; nothing else is. */
  ghost function Without(v: View, gone: set<ID>): View {
    View(v.images - gone, v.parents - gone,
         map r | r in v.references && v.references[r] !in gone :: v.references[r])
  }

  ghost function Elements(s: seq<ID>): set<ID> {
    set x | x in s
  }

  /** The images that went, and with them their links and the references to them, and nothing else. */
  ghost predicate Gone(v: View, after: View, gone: seq<ID>) {
    && (forall x :: x in after.images <==> x in v.images && x !in gone)
    && (forall x :: x in after.parents <==> x in v.parents && x !in gone)
    && (forall x :: x in after.parents ==> after.parents[x] == v.parents[x])
    && (forall r :: r in after.references <==> r in v.references && v.references[r] !in gone)
    && (forall r :: r in after.references ==> after.references[r] == v.references[r])
  }

  lemma GoneIff(v: View, after: View, gone: seq<ID>)
    ensures Gone(v, after, gone) <==> after == Without(v, Elements(gone))
  {
    if Gone(v, after, gone) {
      assert after.images == v.images - Elements(gone);
      assert after.parents == v.parents - Elements(gone);
      assert after.references == Without(v, Elements(gone)).references;
    }
  }

  /** Deleting from `id` upwards took `v` to `after`: `gone` starts the ancestor chain, and with `prune` it could
      not be any longer. */
  ghost predicate Outcome(v: View, after: View, containers: set<Container>, id: ID, force: bool, prune: bool,
                          gone: seq<ID>) {
    && Chain(v, containers, id, force, gone)
    && (gone == [] <==> id !in v.images || !Free(v, containers, id, {}, !force))
    && (gone != [] ==> && after == Without(v, Elements(gone))
                       && if prune then Exhausted(v, containers, gone) else |gone| == 1)
  }

  /** What the caller is told: a quiet call reports no conflict. A conflict leaves everything as it was, and an image
      the store does not know loses its references only. */
  ghost predicate Verdict(v: View, after: View, containers: set<Container>, id: ID, force: bool, quiet: bool,
                          err: Option<Error>) {
    if !Free(v, containers, id, {}, !force) then
      && after == v
      && if quiet then err.None?
         else err.Some? && err.value.InConflict? && Reportable(v, containers, id, !force, err.value.conflict)
    else if id !in v.images then
      after == UntagAll(v, id) && err == Some(Unrecognized)
    else
      err.None?
  }

  /** The references removed between two moments are exactly the new records, each recorded once. */
  ghost predicate Recorded(records: seq<Ref>, records': seq<Ref>, refs: set<Ref>, refs': set<Ref>) {
    && refs' <= refs && records <= records'
    && Distinct(records'[|records|..])
    && forall r :: r in refs - refs' <==> r in records'[|records|..]
  }

  lemma RecordedMore(a: seq<Ref>, b: seq<Ref>, c: seq<Ref>, x: set<Ref>, y: set<Ref>, z: set<Ref>)
    requires Recorded(a, b, x, y) && Recorded(b, c, y, z)
    ensures Recorded(a, c, x, z)
  {
    var first, second := b[|a|..], c[|b|..];
    assert c[|a|..] == first + second;
    forall i, j | 0 <= i < |first| && 0 <= j < |second|
      ensures first[i] != second[j]
    {
      assert first[i] in first && second[j] in second;
    }
  }

  /** Deleting `id` first only ever frees its parent. */
  lemma FreeAfterFirst(v: View, containers: set<Container>, id: ID, x: ID, below: set<ID>)
    requires x != id && id in v.parents
    ensures Free(v, containers, x, below, true) ==> Free(Without(v, {id}), containers, x, below, true)
    ensures Free(Without(v, {id}), containers, x, below, true) <==>
            Free(v, containers, x, if v.parents[id] == x then below + {id} else below, true)
  {
    var w := Without(v, {id});
    assert forall c :: c in Children(w.parents, x) ==> c in Children(v.parents, x) && c != id;
    assert forall c :: c in Children(v.parents, x) && c != id ==> c in Children(w.parents, x);
    assert RefsTo(w.references, x) == RefsTo(v.references, x);
  }

  /** The chain pruned from the parent extends the chain that starts at the deleted child. */
  lemma ChainExtends(v: View, containers: set<Container>, id: ID, force: bool, rest: seq<ID>)
    requires id in v.images && Free(v, containers, id, {}, !force)
    requires id in v.parents && v.parents[id] != id
    requires Chain(Without(v, {id}), containers, v.parents[id], false, rest)
    ensures Chain(v, containers, id, force, [id] + rest)
  {
    var w, gone := Without(v, {id}), [id] + rest;
    forall i | 0 < i < |gone|
      ensures Pruned(v, containers, gone, i)
    {
      assert gone[i] == rest[i - 1];
      if i == 1 {
        FreeAfterFirst(v, containers, id, gone[i], {});
        assert {} + {id} == {id};
      } else {
        assert Pruned(w, containers, rest, i - 1);
        assert gone[i - 1] == rest[i - 2] && rest[0] != rest[i - 1];
        FreeAfterFirst(v, containers, id, gone[i], {gone[i - 1]});
      }
    }
  }

  lemma ExhaustedExtends(v: View, containers: set<Container>, id: ID, rest: seq<ID>)
    requires id in v.parents && v.parents[id] != id && Children(v.parents, id) == {} && id !in rest
    requires if rest == [] then !Free(Without(v, {id}), containers, v.parents[id], {}, true)
             else Exhausted(Without(v, {id}), containers, rest)
    ensures Exhausted(v, containers, [id] + rest)
  {
    if rest == [] {
      FreeAfterFirst(v, containers, id, v.parents[id], {});
      assert {} + {id} == {id};
    } else {
      var last := rest[|rest| - 1];
      assert ([id] + rest)[|[id] + rest| - 1] == last;
      if last in v.parents {
        assert last !in Children(v.parents, id);
        FreeAfterFirst(v, containers, id, v.parents[last], {last});
      }
    }
  }

  lemma WithoutExtends(v: View, id: ID, rest: seq<ID>)
    ensures Without(Without(v, {id}), Elements(rest)) == Without(v, Elements([id] + rest))
  {
    assert Elements([id] + rest) == {id} + Elements(rest);
  }

  lemma Associative(a: seq<ID>, b: seq<ID>, c: seq<ID>)
    ensures a + b + c == a + (b + c)
  {
  }

  lemma OutcomeNone(v: View, containers: set<Container>, id: ID, force: bool, prune: bool)
    requires id !in v.images || !Free(v, containers, id, {}, !force)
    ensures forall after :: Outcome(v, after, containers, id, force, prune, [])
  {
  }

  lemma OutcomeOne(v: View, containers: set<Container>, id: ID, force: bool, prune: bool)
    requires id in v.images && Free(v, containers, id, {}, !force) && (prune ==> id !in v.parents)
    ensures Outcome(v, Without(v, {id}), containers, id, force, prune, [id])
  {
    assert Elements([id]) == {id};
  }

  lemma OutcomeExtends(v: View, w: View, after: View, containers: set<Container>, id: ID, force: bool, rest: seq<ID>)
    requires id in v.images && Free(v, containers, id, {}, !force)
    requires id in v.parents && v.parents[id] in v.images
    requires w == Without(v, {id}) && Outcome(w, after, containers, v.parents[id], false, true, rest)
    requires !Free(w, containers, v.parents[id], {}, true) ==> after == w
    ensures Outcome(v, after, containers, id, force, true, [id] + rest)
  {
    assert v.parents[id] != id by {
      assert id !in Children(v.parents, id);
    }
    ChainExtends(v, containers, id, force, rest);
    ExhaustedExtends(v, containers, id, rest);
    WithoutExtends(v, id, rest);
    assert rest == [] ==> Elements([id] + rest) == {id};
  }

  /** The store's deletion, seen as a change of view. */
  lemma DeletedView(s: ImageStore.State, references: map<Ref, ID>, id: ID)
    requires ImageStore.Indexed(s) && id in s.images && Children(s.parents, id) == {}
    ensures var t, v := ImageStore.Deleted(s, id), View(s.images.Keys, s.parents, references);
            && ImageStore.Indexed(t)
            && Without(v, {id}) == View(t.images.Keys, t.parents, Without(v, {id}).references)
  {
    ImageStore.DeletedIndexed(s, id);
    forall c | c in s.parents
      ensures s.parents[c] != id
    {
      assert c !in Children(s.parents, id);
    }
  }

  class Daemon {
    const store: ImageStore.Store
    const containers: set<Container>
    var references: map<Ref, ID>
    /** The records reported to the caller, one list for each kind. */
    var deleted: seq<ID>
    var untagged: seq<Ref>

    constructor (store: ImageStore.Store, containers: set<Container>, references: map<Ref, ID>)
      ensures this.store == store && this.containers == containers
      ensures this.references == references && deleted == [] && untagged == []
    {
      this.store, this.containers, this.references := store, containers, references;
      deleted, untagged := [], [];
    }

    ghost predicate Valid()
      reads this, store
    {
      ImageStore.Indexed(store.Snapshot())
    }

    ghost function Now(): View
      reads this, store
    {
      View(store.images.Keys, store.parents, references)
    }

    /** Does the given kind of conflict exist? */
    predicate Has(id: ID, conflict: Conflict)
      reads this, store
    {
      match conflict
      case DependentChild => id in store.images && store.images[id].children != {}
      case RunningContainer => exists c :: c in containers && c.image == id && c.running
      case ActiveReference => RefsTo(references, id) != {}
      case StoppedContainer => exists c :: c in containers && c.image == id && !c.running
    }

    function CheckConflict(id: ID, mask: set<Conflict>): (r: Option<Conflict>)
      reads this, store
      ensures r.None? <==> forall c :: c in mask ==> !Has(id, c)
      ensures r.Some? ==> r.value in mask && Has(id, r.value)
      ensures r.Some? ==> forall c :: c in mask && Has(id, c) ==> r.value.Rank() <= c.Rank()
    {
      if DependentChild in mask && Has(id, DependentChild) then Some(DependentChild)
      else if RunningContainer in mask && Has(id, RunningContainer) then Some(RunningContainer)
      else if ActiveReference in mask && Has(id, ActiveReference) then Some(ActiveReference)
      else if StoppedContainer in mask && Has(id, StoppedContainer) then Some(StoppedContainer)
      else None
    }

    predicate Dangling(id: ID)
      reads this, store
    {
      !(Has(id, ActiveReference) || Has(id, DependentChild))
    }

    /** The kinds of conflict as the store and the daemon see them. */
    lemma HasIffPresent(id: ID, conflict: Conflict)
      requires Valid()
      ensures Has(id, conflict) <==> Present(Now(), containers, id, conflict)
    {
      match conflict
      case DependentChild =>
        if c :| c in store.parents && store.parents[c] == id {
          assert c in Children(store.parents, id) && id in store.images;
        }
        if Has(id, DependentChild) {
          var c :| c in store.images[id].children;
          assert c in Children(store.parents, id);
        }
      case RunningContainer =>
      case ActiveReference =>
        if r :| r in references && references[r] == id {
          assert r in RefsTo(references, id);
        }
        if Has(id, ActiveReference) {
          var r :| r in RefsTo(references, id);
        }
      case StoppedContainer =>
    }

    /** No conflict is found exactly when the image is free, and one that is found is the one to report. */
    lemma NoConflictIffFree(id: ID, force: bool)
      requires Valid()
      ensures CheckConflict(id, if force then HARD else HARD + SOFT).None? <==> Free(Now(), containers, id, {}, !force)
      ensures var r := CheckConflict(id, if force then HARD else HARD + SOFT);
              r.Some? ==> Reportable(Now(), containers, id, !force, r.value)
    {
      var mask, soft := if force then HARD else HARD + SOFT, !force;
      forall c
        ensures Has(id, c) <==> Present(Now(), containers, id, c)
      {
        HasIffPresent(id, c);
      }
      forall c: Conflict
        ensures c in mask <==> soft || c.DependentChild? || c.RunningContainer?
      {
        match c case DependentChild => case RunningContainer => case ActiveReference => case StoppedContainer =>
      }
      FreeIff(Now(), containers, id, soft);
      var r := CheckConflict(id, mask);
      if r.None? {
        assert forall c :: !Reportable(Now(), containers, id, soft, c);
      }
    }

    method ListReferences(id: ID) returns (list: seq<Ref>)
      ensures Distinct(list) && forall r :: r in list <==> r in RefsTo(references, id)
    {
      list := [];
      var todo := RefsTo(references, id);
      while todo != {}
        invariant Distinct(list) && forall r :: r in RefsTo(references, id) <==> r in list || r in todo
        invariant forall r :: r in list ==> r !in todo
        decreases todo
      {
        var r :| r in todo;
        list, todo := list + [r], todo - {r};
      }
    }

    method RemoveReference(ref: Ref)
      requires ref in references
      modifies this
      ensures references == old(references) - {ref} && deleted == old(deleted)
      ensures Recorded(old(untagged), untagged, old(references.Keys), references.Keys)
    {
      references := references - {ref};
      untagged := untagged + [ref];
      assert untagged[|old(untagged)|..] == [ref];
    }

    method RemoveAllReferences(id: ID)
      modifies this
      ensures references == map r | r in old(references) && old(references)[r] != id :: old(references)[r]
      ensures deleted == old(deleted) && Recorded(old(untagged), untagged, old(references.Keys), references.Keys)
    {
      var list := ListReferences(id);
      for i := 0 to |list|
        invariant references == old(references) - set r | r in list[..i]
        invariant deleted == old(deleted) && Recorded(old(untagged), untagged, old(references.Keys), references.Keys)
      {
        ghost var records, refs := untagged, references.Keys;
        assert list[i] in list && list[i] !in list[..i];
        RemoveReference(list[i]);
        RecordedMore(old(untagged), records, untagged, old(references.Keys), refs, references.Keys);
        assert list[..i + 1] == list[..i] + [list[i]];
      }
      assert list[..|list|] == list;
    }

    /** Removes the image and its references; conflicts have been ruled out. */
    method Remove(id: ID) returns (ok: bool)
      requires Valid() && Children(store.parents, id) == {}
      modifies this, store
      ensures Valid()
      ensures ok <==> id in old(store.images)
      ensures ok ==> Now() == Without(old(Now()), {id})
      ensures !ok ==> store.Snapshot() == old(store.Snapshot()) && references == Without(old(Now()), {id}).references
      ensures deleted == old(deleted) + if ok then [id] else []
      ensures Recorded(old(untagged), untagged, old(references.Keys), references.Keys)
    {
      RemoveAllReferences(id);
      ok := store.Delete(id);
      if ok {
        DeletedView(old(store.Snapshot()), old(references), id);
        deleted := deleted + [id];
      }
    }

    /** Deletes one image unless something is in the way. */
    method TryDelete(id: ID, force: bool, quiet: bool) returns (err: Option<Error>, done: bool)
      requires Valid()
      modifies this, store
      ensures Valid()
      ensures done <==> id in old(store.images) && old(Free(Now(), containers, id, {}, !force))
      ensures done ==> err.None? && Now() == Without(old(Now()), {id})
      ensures !done ==> store.Snapshot() == old(store.Snapshot())
      ensures Verdict(old(Now()), Now(), containers, id, force, quiet, err)
      ensures deleted == old(deleted) + if done then [id] else []
      ensures Recorded(old(untagged), untagged, old(references.Keys), references.Keys)
    {
      var conflict := CheckConflict(id, if force then HARD else HARD + SOFT);
      NoConflictIffFree(id, force);
      if conflict.Some? {
        if quiet && (!Dangling(id) || conflict.value.Used()) {
          return None, false;
        }
        return Some(InConflict(conflict.value)), false;
      }
      done := Remove(id);
      err := if done then None else Some(Unrecognized);
    }

    /** Deletes the image unless something is in the way, then prunes upwards; `gone` lists what was deleted. */
    method DeleteHelper(id: ID, force: bool, prune: bool, quiet: bool) returns (err: Option<Error>, ghost gone: seq<ID>)
      requires Valid()
      modifies this, store
      ensures Valid()
      ensures Outcome(old(Now()), Now(), containers, id, force, prune, gone)
      ensures gone == [] ==> store.Snapshot() == old(store.Snapshot())
      ensures Verdict(old(Now()), Now(), containers, id, force, quiet, err)
      ensures deleted == old(deleted) + gone
      ensures Recorded(old(untagged), untagged, old(references.Keys), references.Keys)
      decreases store.images.Keys
    {
      gone := [];
      var parent := store.GetParent(id);
      var done;
      err, done := TryDelete(id, force, quiet);
      if !done {
        OutcomeNone(old(Now()), containers, id, force, prune);
        return;
      }
      if !prune || parent.None? {
        OutcomeOne(old(Now()), containers, id, force, prune);
        return None, [id];
      }
      ghost var w, records := Now(), untagged;
      assert parent.value in w.images by {
        assert id !in Children(old(Now()).parents, id);
      }
      ghost var rest;
      err, rest := DeleteHelper(parent.value, false, true, true);
      OutcomeExtends(old(Now()), w, Now(), containers, id, force, rest);
      gone := [id] + rest;
      Associative(old(deleted), [id], rest);
      RecordedMore(old(untagged), records, untagged, old(references.Keys), w.references.Keys, references.Keys);
    }

    method SameRepositoryTag(list: seq<Ref>, repo: string) returns (found: bool)
      ensures found <==> exists r :: r in list && !r.canonical && r.repo == repo
    {
      for i := 0 to |list|
        invariant forall r :: r in list[..i] ==> r.canonical || r.repo != repo
      {
        if !list[i].canonical && list[i].repo == repo {
          return true;
        }
      }
      return false;
    }

    /** Removes the digest references of one repository from the given list. */
    method RemoveDigests(list: seq<Ref>, repo: string)
      requires Distinct(list) && forall r :: r in list ==> r in references
      modifies this
      ensures references == old(references) - set r | r in list && r.canonical && r.repo == repo
      ensures deleted == old(deleted) && Recorded(old(untagged), untagged, old(references.Keys), references.Keys)
    {
      for i := 0 to |list|
        invariant references == old(references) - set r | r in list[..i] && r.canonical && r.repo == repo
        invariant deleted == old(deleted) && Recorded(old(untagged), untagged, old(references.Keys), references.Keys)
      {
        if list[i].canonical && list[i].repo == repo {
          ghost var records, refs := untagged, references.Keys;
          assert list[i] in list && list[i] !in list[..i];
          RemoveReference(list[i]);
          RecordedMore(old(untagged), records, untagged, old(references.Keys), refs, references.Keys);
        }
        assert list[..i + 1] == list[..i] + [list[i]];
      }
      assert list[..|list|] == list;
    }

    /** Removes the reference and, when it was the last tag of its repository, that repository's digests. */
    method Untag(id: ID, ref: Ref) returns (remaining: bool)
      requires ref in references && references[ref] == id
      modifies this
      ensures references == old(references) - Dropped(old(references), id, ref)
      ensures forall r ::
          r in references <==> r in old(references) && r != ref && !Orphaned(old(references), id, ref, r)
      ensures remaining <==> RefsTo(references, id) != {}
      ensures deleted == old(deleted) && Recorded(old(untagged), untagged, old(references.Keys), references.Keys)
    {
      RemoveReference(ref);
      var list := ListReferences(id);
      var found := SameRepositoryTag(list, ref.repo);
      if !ref.canonical && !found {
        ghost var records, tagged := untagged, references;
        RemoveDigests(list, ref.repo);
        RecordedMore(old(untagged), records, untagged, old(references.Keys), tagged.Keys, references.Keys);
      }
      list := ListReferences(id);
      assert list != [] ==> list[0] in RefsTo(references, id);
      forall r
        ensures r in Dropped(old(references), id, ref) <==> r == ref || Orphaned(old(references), id, ref, r)
      {
        DroppedIff(old(references), id, ref, r);
      }
      return list != [];
    }

    /** Some container that uses the image, if there is one. */
    method ContainerUsing(id: ID) returns (user: Option<Container>)
      ensures user.None? <==> forall c :: c in containers ==> c.image != id
      ensures user.Some? ==> user.value in containers && user.value.image == id
    {
      user := None;
      var todo := containers;
      while todo != {}
        invariant todo <= containers && forall c :: c in containers - todo ==> c.image != id
        decreases todo
      {
        var c :| c in todo;
        if c.image == id {
          return Some(c);
        }
        todo := todo - {c};
      }
    }

    /** Deletes by reference, unless it is the last one of an image in use. */
    method DeleteByReference(id: ID, ref: Ref, force: bool, prune: bool)
      returns (err: Option<Error>, ghost gone: seq<ID>)
      requires Valid() && ref in references && references[ref] == id
      modifies this, store
      ensures Valid() && (gone == [] ==> store.Snapshot() == old(store.Snapshot()))
      ensures Settled(old(Now()), Now(), containers, id, Some(ref), force, prune, err, gone)
      ensures deleted == old(deleted) + gone && Recorded(old(untagged), untagged, old(references.Keys), references.Keys)
    {
      var list := ListReferences(id);
      var single := IsSingleReference(list);
      SingleIff(references, id, list);
      if !force && single {
        var user := ContainerUsing(id);
        if user.Some? {
          SettledRefused(Now(), containers, id, ref, prune, user.value);
          return Some(ReferenceInUse(user.value)), [];
        }
      }
      err, gone := UntagAndDelete(id, ref, force, prune);
    }

    /** Untags, and goes on to delete once nothing refers to the image any more; a refusal has been ruled out. */
    method UntagAndDelete(id: ID, ref: Ref, force: bool, prune: bool)
      returns (err: Option<Error>, ghost gone: seq<ID>)
      requires Valid() && ref in references && references[ref] == id
      requires !Refused(Now(), containers, id, Some(ref), force)
      modifies this, store
      ensures Valid() && (gone == [] ==> store.Snapshot() == old(store.Snapshot()))
      ensures Settled(old(Now()), Now(), containers, id, Some(ref), force, prune, err, gone)
      ensures deleted == old(deleted) + gone && Recorded(old(untagged), untagged, old(references.Keys), references.Keys)
    {
      var remaining := Untag(id, ref);
      if remaining {
        SettledUntagged(old(Now()), Now(), containers, id, ref, force, prune);
        return None, [];
      }
      AllDropped(old(Now()), Now(), id, ref);
      ghost var records, refs := untagged, references.Keys;
      err, gone := DeleteHelper(id, force, prune, true);
      RecordedMore(old(untagged), records, untagged, old(references.Keys), refs, references.Keys);
      SettledByReference(old(Now()), Now(), containers, id, ref, force, prune, err, gone);
    }

    /** Deletes by ID: the references go first when they are all of one repository with at most one tag. */
    method DeleteByID(id: ID, force: bool, prune: bool) returns (err: Option<Error>, ghost gone: seq<ID>)
      requires Valid()
      modifies this, store
      ensures Valid() && (gone == [] ==> store.Snapshot() == old(store.Snapshot()))
      ensures Settled(old(Now()), Now(), containers, id, None, force, prune, err, gone)
      ensures deleted == old(deleted) + gone && Recorded(old(untagged), untagged, old(references.Keys), references.Keys)
    {
      var list := ListReferences(id);
      var single := IsSingleReference(list);
      SingleIff(references, id, list);
      if single {
        var conflict := CheckConflict(id, if force then HARD else HARD + SOFT - {ActiveReference});
        UntaggedConflict(id, force);
        if conflict.Some? {
          SettledConflict(Now(), containers, id, force, prune, conflict.value);
          return Some(InConflict(conflict.value)), [];
        }
        RemoveAllReferences(id);
        assert Now() == UntagAll(old(Now()), id);
      }
      ghost var records, refs := untagged, references.Keys;
      err, gone := DeleteHelper(id, force, prune, false);
      RecordedMore(old(untagged), records, untagged, old(references.Keys), refs, references.Keys);
      SettledByID(old(Now()), Now(), containers, id, force, prune, err, gone);
    }

    /** Deletes by reference (`ref`) or by ID. A refusal leaves everything as it was. */
    method ImageDelete(id: ID, ref: Option<Ref>, force: bool, prune: bool)
      returns (err: Option<Error>, ghost gone: seq<ID>)
      requires Valid() && (ref.Some? ==> ref.value in references && references[ref.value] == id)
      modifies this, store
      ensures Valid() && (gone == [] ==> store.Snapshot() == old(store.Snapshot()))
      ensures Settled(old(Now()), Now(), containers, id, ref, force, prune, err, gone)
      ensures gone != [] ==> Gone(old(Now()), Now(), gone)
      ensures deleted == old(deleted) + gone && Recorded(old(untagged), untagged, old(references.Keys), references.Keys)
    {
      if ref.Some? {
        err, gone := DeleteByReference(id, ref.value, force, prune);
      } else {
        err, gone := DeleteByID(id, force, prune);
      }
      if gone != [] {
        UntaggedGone(old(Now()), Now(), id, gone);
      }
    }

    /** The check that leaves references out finds what there would be to report if they were gone. */
    lemma UntaggedConflict(id: ID, force: bool)
      requires Valid()
      ensures CheckConflict(id, if force then HARD else HARD + SOFT - {ActiveReference}).None? <==>
              Free(UntagAll(Now(), id), containers, id, {}, !force)
      ensures var r := CheckConflict(id, if force then HARD else HARD + SOFT - {ActiveReference});
              r.Some? ==> Reportable(UntagAll(Now(), id), containers, id, !force, r.value)
    {
      var mask, soft := if force then HARD else HARD + SOFT - {ActiveReference}, !force;
      var w := UntagAll(Now(), id);
      assert !Present(w, containers, id, ActiveReference);
      forall c | c != ActiveReference
        ensures Has(id, c) <==> Present(w, containers, id, c)
      {
        HasIffPresent(id, c);
      }
      assert forall c: Conflict ::
          c in mask <==> c.DependentChild? || c.RunningContainer? || (!force && c.StoppedContainer?);
      FreeIff(w, containers, id, soft);
      var r := CheckConflict(id, mask);
      if r.None? {
        assert forall c :: !Reportable(w, containers, id, soft, c);
      }
    }
  }

  /** All references to the image are in one repository and at most one of them is a tag. */
  predicate Single(references: map<Ref, ID>, id: ID) {
    && RefsTo(references, id) != {}
    && forall r, q :: r in RefsTo(references, id) && q in RefsTo(references, id) ==>
                        r.repo == q.repo && (r == q || r.canonical || q.canonical)
  }

  /** What untagging `ref` takes away: itself, and its repository's digests once no tag of it is left. */
  function Dropped(references: map<Ref, ID>, id: ID, ref: Ref): set<Ref> {
    var tagged := exists r :: r in RefsTo(references, id) && r != ref && !r.canonical && r.repo == ref.repo;
    if ref.canonical || tagged then {ref}
    else {ref} + set r | r in RefsTo(references, id) && r.canonical && r.repo == ref.repo
  }

  /** A digest of the repository that the last tag `ref` takes with it. */
  ghost predicate Orphaned(references: map<Ref, ID>, id: ID, ref: Ref, r: Ref) {
    && r in references && references[r] == id && r.canonical && r.repo == ref.repo && !ref.canonical
    && forall q :: q in references && references[q] == id && q != ref && q.repo == ref.repo ==> q.canonical
  }

  lemma DroppedIff(references: map<Ref, ID>, id: ID, ref: Ref, r: Ref)
    ensures r in Dropped(references, id, ref) <==> r == ref || Orphaned(references, id, ref, r)
  {
    assert forall q :: q in RefsTo(references, id) <==> q in references && references[q] == id;
  }

  /** Does the call delete the image, and not only untag it or refuse? */
  ghost predicate Removes(v: View, containers: set<Container>, id: ID, ref: Option<Ref>, force: bool) {
    && id in v.images
    && (ref.Some? ==> RefsTo(v.references, id) <= Dropped(v.references, id, ref.value))
    && Free(if ref.Some? || Single(v.references, id) then UntagAll(v, id) else v, containers, id, {}, !force)
  }

  /** Is the call refused because of a conflict? */
  ghost predicate Refused(v: View, containers: set<Container>, id: ID, ref: Option<Ref>, force: bool) {
    if ref.Some? then !force && Single(v.references, id) && exists c :: c in containers && c.image == id
    else !Free(if Single(v.references, id) then UntagAll(v, id) else v, containers, id, {}, !force)
  }

  /** Does the call come to deleting an image that the store does not know? */
  ghost predicate Unknown(v: View, containers: set<Container>, id: ID, ref: Option<Ref>, force: bool) {
    && id !in v.images
    && (ref.Some? ==> RefsTo(v.references, id) <= Dropped(v.references, id, ref.value))
    && !Refused(v, containers, id, ref, force)
    && Free(if ref.Some? || Single(v.references, id) then UntagAll(v, id) else v, containers, id, {}, !force)
  }

  /** What one call did: a conflict is reported exactly when it is refused, and then nothing has changed; images go
      exactly when nothing stands in the way, up the ancestor chain; and otherwise references are untagged at most. */
  ghost predicate Settled(v: View, after: View, containers: set<Container>, id: ID, ref: Option<Ref>, force: bool,
                          prune: bool, err: Option<Error>, gone: seq<ID>) {
    && (err.Some? && err.value.Refusal() <==> Refused(v, containers, id, ref, force))
    && (err.Some? && err.value.Refusal() ==> after == v && Cause(v, containers, id, ref, force, err.value))
    && (err == Some(Unrecognized) <==> Unknown(v, containers, id, ref, force))
    && (err == Some(Unrecognized) ==> after == UntagAll(v, id))
    && (gone != [] <==> Removes(v, containers, id, ref, force))
    && (gone != [] ==> err.None? && Outcome(UntagAll(v, id), after, containers, id, force, prune, gone))
    && (err.None? && gone == [] ==>
          ref.Some? && after.references == v.references - Dropped(v.references, id, ref.value))
  }

  /** What a refusal says is so: the container uses the image, or the conflict is the one to report. */
  ghost predicate Cause(v: View, containers: set<Container>, id: ID, ref: Option<Ref>, force: bool, e: Error) {
    if ref.Some? then e.ReferenceInUse? && e.user in containers && e.user.image == id
    else e.InConflict? && Reportable(Cleared(v, id), containers, id, !force, e.conflict)
  }

  /** An image in use does not lose its last reference. */
  lemma SettledRefused(v: View, containers: set<Container>, id: ID, ref: Ref, prune: bool, user: Container)
    requires Refused(v, containers, id, Some(ref), false) && user in containers && user.image == id
    ensures Settled(v, v, containers, id, Some(ref), false, prune, Some(ReferenceInUse(user)), [])
  {
  }

  /** Once every reference is gone, a quiet deletion settles the call. */
  lemma SettledByReference(v: View, after: View, containers: set<Container>, id: ID, ref: Ref, force: bool, prune: bool,
                           err: Option<Error>, gone: seq<ID>)
    requires RefsTo(v.references, id) <= Dropped(v.references, id, ref) && !Refused(v, containers, id, Some(ref), force)
    requires UntagAll(v, id).references == v.references - Dropped(v.references, id, ref)
    requires Outcome(UntagAll(v, id), after, containers, id, force, prune, gone)
    requires Verdict(UntagAll(v, id), after, containers, id, force, true, err)
    ensures Settled(v, after, containers, id, Some(ref), force, prune, err, gone)
  {
    assert UntagAll(UntagAll(v, id), id) == UntagAll(v, id);
  }

  /** What a deletion by ID starts from. */
  ghost function Cleared(v: View, id: ID): View {
    if Single(v.references, id) then UntagAll(v, id) else v
  }

  /** A conflict that is found before the references go settles the call. */
  lemma SettledConflict(v: View, containers: set<Container>, id: ID, force: bool, prune: bool, conflict: Conflict)
    requires Single(v.references, id) && !Free(UntagAll(v, id), containers, id, {}, !force)
    requires Reportable(UntagAll(v, id), containers, id, !force, conflict)
    ensures Settled(v, v, containers, id, None, force, prune, Some(InConflict(conflict)), [])
  {
  }

  /** A deletion that is not quiet settles the call. */
  lemma SettledByID(v: View, after: View, containers: set<Container>, id: ID, force: bool, prune: bool,
                    err: Option<Error>, gone: seq<ID>)
    requires Single(v.references, id) ==> Free(UntagAll(v, id), containers, id, {}, !force)
    requires Outcome(Cleared(v, id), after, containers, id, force, prune, gone)
    requires Verdict(Cleared(v, id), after, containers, id, force, false, err)
    ensures Settled(v, after, containers, id, None, force, prune, err, gone)
  {
    assert UntagAll(UntagAll(v, id), id) == UntagAll(v, id);
    if !Single(v.references, id) && gone != [] {
      OutcomeUntagged(v, after, containers, id, force, prune, gone);
    }
  }

  /** As long as a reference is left, untagging settles the call. */
  lemma SettledUntagged(v: View, after: View, containers: set<Container>, id: ID, ref: Ref, force: bool, prune: bool)
    requires !Refused(v, containers, id, Some(ref), force) && RefsTo(after.references, id) != {}
    requires after == v.(references := v.references - Dropped(v.references, id, ref))
    ensures Settled(v, after, containers, id, Some(ref), force, prune, None, [])
  {
    StillReferred(v.references, id, Dropped(v.references, id, ref));
  }

  /** Untagging an image first makes no difference to what is left once it is gone. */
  lemma UntaggedGone(v: View, after: View, id: ID, gone: seq<ID>)
    requires id in gone && after == Without(UntagAll(v, id), Elements(gone))
    ensures Gone(v, after, gone)
  {
    GoneIff(UntagAll(v, id), after, gone);
  }

  lemma StillReferred(references: map<Ref, ID>, id: ID, dropped: set<Ref>)
    requires RefsTo(references - dropped, id) != {}
    ensures !(RefsTo(references, id) <= dropped)
  {
    var r :| r in RefsTo(references - dropped, id);
    assert r in RefsTo(references, id);
  }

  ghost function UntagAll(v: View, id: ID): View {
    v.(references := map r | r in v.references && v.references[r] != id :: v.references[r])
  }

  method IsSingleReference(refs: seq<Ref>) returns (single: bool)
    ensures single <==> && refs != []
                        && forall i, j :: 0 <= i < j < |refs| ==>
                             refs[i].repo == refs[j].repo && (refs[i].canonical || refs[j].canonical)
  {
    if |refs| <= 1 {
      return |refs| == 1;
    }
    var tag: Option<Ref> := None;
    ghost var at := 0;
    var canonical: set<string> := {};
    for i := 0 to |refs|
      invariant tag.Some? ==> 0 <= at < i && refs[at] == tag.value && !refs[at].canonical
      invariant forall j :: 0 <= j < i && !refs[j].canonical ==> tag.Some? && j == at
      invariant forall repo :: repo in canonical <==>
                  exists j :: 0 <= j < i && refs[j].canonical && refs[j].repo == repo
    {
      if refs[i].canonical {
        canonical := canonical + {refs[i].repo};
      } else if tag.None? {
        tag, at := Some(refs[i]), i;
      } else {
        return false;
      }
    }
    ghost var k := if at == 0 then 1 else 0;
    assert refs[k].canonical && refs[k].repo in canonical;
    ghost var same := forall i, j :: 0 <= i < j < |refs| ==> refs[i].repo == refs[j].repo;
    if same {
      assert forall j :: 0 <= j < |refs| ==> refs[j].repo == refs[0].repo;
      assert canonical == {refs[0].repo};
    }
    var chosen := if tag.None? then refs[0] else tag.value;
    single := |canonical| == 1 && chosen.repo in canonical;
    if single {
      Singleton(canonical, chosen.repo);
      forall j | 0 <= j < |refs|
        ensures refs[j].repo == chosen.repo
      {
        assert refs[j].canonical ==> refs[j].repo in canonical;
      }
    }
  }

  lemma Singleton(s: set<string>, x: string)
    requires |s| == 1 && x in s
    ensures s == {x}
  {
    assert |s - {x}| == 0;
  }

  lemma SingleIff(references: map<Ref, ID>, id: ID, list: seq<Ref>)
    requires Distinct(list) && forall r :: r in list <==> r in RefsTo(references, id)
    ensures Single(references, id) <==>
            && list != []
            && forall i, j :: 0 <= i < j < |list| ==>
                 list[i].repo == list[j].repo && (list[i].canonical || list[j].canonical)
  {
    if list != [] {
      assert list[0] in RefsTo(references, id);
    }
    if Single(references, id) {
      var r :| r in RefsTo(references, id);
      assert r in list;
    }
  }

  lemma AllDropped(v: View, w: View, id: ID, ref: Ref)
    requires w == v.(references := v.references - Dropped(v.references, id, ref)) && RefsTo(w.references, id) == {}
    requires ref in v.references && v.references[ref] == id
    ensures w == UntagAll(v, id) && RefsTo(v.references, id) <= Dropped(v.references, id, ref)
  {
    forall r | r in v.references && v.references[r] == id
      ensures r !in w.references
    {
      assert r !in RefsTo(w.references, id);
    }
    assert forall r :: r in Dropped(v.references, id, ref) ==> v.references[r] == id;
  }

  lemma OutcomeUntagged(v: View, after: View, containers: set<Container>, id: ID, force: bool, prune: bool,
                        gone: seq<ID>)
    requires gone != [] && Outcome(v, after, containers, id, force, prune, gone)
    ensures Outcome(UntagAll(v, id), after, containers, id, force, prune, gone)
  {
    var w := UntagAll(v, id);
    assert forall x :: x != id ==> RefsTo(w.references, x) == RefsTo(v.references, x);
    assert RefsTo(w.references, id) == {};
    forall i | 0 < i < |gone|
      ensures Pruned(w, containers, gone, i)
    {
      assert Pruned(v, containers, gone, i) && gone[0] != gone[i];
    }
    var last := gone[|gone| - 1];
    if last in v.parents {
      assert last !in Children(v.parents, id);
    }
    assert gone[0] in Elements(gone);
  }
}
