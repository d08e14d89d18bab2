/** The image store: an in-memory index over configurations and parent links kept by a backend. */
module ImageStore {
  import opened Images
  import opened Forest
  import opened Values

  /** What the store keeps in memory for an image. */
  datatype Meta = Meta(layer: Option<ChainID>, children: set<ID>)

  /** `content` and `parents` are the backend; `refs` are the layer references the store holds. */
  datatype State = State(
    images: map<ID, Meta>,
    content: set<ID>,
    parents: map<ID, ID>,
    digests: set<ID>,
    refs: multiset<ChainID>)

  /** Outcomes of foreign calls are arguments: was the layer found, was the ID added to the digest set? A Create call
      writes the backend before it takes the lock, so its two halves can also come apart: Write and then Register. */
  datatype Op =
    | Create(config: Config, layerFound: bool, digestAdded: bool)
    | Write(config: Config)
    | Register(config: Config, layerFound: bool, digestAdded: bool)
    | SetParent(id: ID, parent: ID)
    | Delete(id: ID)
  {
    predicate Registers() {
      Create? || Register?
    }
  }

  const EMPTY := State(map[], {}, map[], {}, multiset{})

  function Retain(refs: multiset<ChainID>, layer: Option<ChainID>): multiset<ChainID> {
    if layer.Some? then refs + multiset{layer.value} else refs
  }

  function Release(refs: multiset<ChainID>, layer: Option<ChainID>): multiset<ChainID> {
    if layer.Some? then refs - multiset{layer.value} else refs
  }

  function Adopt(images: map<ID, Meta>, parent: ID, child: ID): map<ID, Meta>
    requires parent in images
  {
    images[parent := images[parent].(children := images[parent].children + {child})]
  }

  function Disown(images: map<ID, Meta>, parent: Option<ID>, child: ID): map<ID, Meta> {
    if parent.Some? && parent.value in images then
      images[parent.value := images[parent.value].(children := images[parent.value].children - {child})]
    else images
  }

  /** The recorded parent of a stored image. */
  function ParentOf(content: set<ID>, parents: map<ID, ID>, id: ID): Option<ID> {
    if id in content && id in parents then Some(parents[id]) else None
  }

  /** Is a Create call refused before anything is stored? */
  predicate Refused(config: Config) {
    config.Undecodable? || !Fits(config.image)
  }

  /** A new image cannot be taken on board: its layer is missing, or the digest set does not accept its ID. */
  predicate Fails(op: Op)
    requires op.Registers() && op.config.Decoded?
  {
    (LayerOf(op.config.image).Some? && !op.layerFound) || !op.digestAdded
  }

  /** Does the call find a new image to take on board? */
  predicate Offers(s: State, op: Op) {
    op.Registers() && !Refused(op.config) && Digest(op.config) !in s.images
  }

  /** Does the call leave the configuration in the backend without an image in memory? */
  predicate Strands(s: State, op: Op) {
    || (op.Create? && Offers(s, op) && Fails(op))
    || (op.Write? && !Refused(op.config) && Digest(op.config) !in s.images)
  }

  /** The layer whose reference a call takes and never gives back. */
  function Leaked(s: State, op: Op): Option<ChainID> {
    if Offers(s, op) && Fails(op) && op.layerFound then LayerOf(op.config.image) else None
  }

  /** The half of a Create call before the lock is taken. */
  function Written(s: State, config: Config): State {
    if Refused(config) then s else s.(content := s.content + {Digest(config)})
  }

  /** The half under the lock. */
  function Registered(s: State, op: Op): State
    requires op.Registers()
  {
    var id := Digest(op.config);
    if !Offers(s, op) then s
    else if Fails(op) then s.(refs := Retain(s.refs, Leaked(s, op)))
    else
      s.(images := s.images[id := Meta(LayerOf(op.config.image), {})], digests := s.digests + {id},
         refs := Retain(s.refs, LayerOf(op.config.image)))
  }

  function Reparented(s: State, id: ID, parent: ID): State {
    if parent !in s.images then s
    else
      s.(images := Adopt(Disown(s.images, ParentOf(s.content, s.parents, id), id), parent, id),
         parents := if id in s.content then s.parents[id := parent] else s.parents)
  }

  function Deleted(s: State, id: ID): State {
    if id !in s.images then s
    else
      var parents := s.parents - s.images[id].children;
      State(Disown(s.images, ParentOf(s.content, parents, id), id) - {id}, s.content - {id}, parents - {id},
            s.digests - {id}, Release(s.refs, s.images[id].layer))
  }

  function Step(s: State, op: Op): State {
    match op
    case Create(config, _, _) => Registered(Written(s, config), op)
    case Write(config) => Written(s, config)
    case Register(_, _, _) => Registered(s, op)
    case SetParent(id, parent) => Reparented(s, id, parent)
    case Delete(id) => Deleted(s, id)
  }

  function Run(s: State, ops: seq<Op>): State {
    if ops == [] then s else Step(Run(s, ops[..|ops| - 1]), ops[|ops| - 1])
  }

  // ---------------------------------------------------------------------------
  // The index agrees with the parent links

  /** The in-memory index is exactly what the parent links in the backend say, and no parent link dangles. */
  ghost predicate Indexed(s: State) {
    && s.images.Keys <= s.content && s.parents.Keys <= s.content && s.digests == s.images.Keys
    && (forall id :: id in s.content ==> id.config.Decoded?)
    && (forall id :: id in s.images ==> s.images[id] == Meta(LayerOf(id.config.image), Children(s.parents, id)))
    && (forall c :: c in s.parents ==> s.parents[c] in s.images)
  }

  /** The configuration that a call links or takes on board is in the backend by then. */
  predicate Admissible(s: State, op: Op) {
    && (op.SetParent? && op.parent in s.images ==> op.id in s.content)
    && (op.Register? && Offers(s, op) && !Fails(op) ==> Digest(op.config) in s.content)
  }

  lemma WrittenIndexed(s: State, config: Config)
    requires Indexed(s)
    ensures Indexed(Written(s, config))
  {
  }

  /** Taking an image on board keeps the index in agreement exactly when its configuration is still in the backend. */
  lemma RegisteredIndexedIff(s: State, op: Op)
    requires Indexed(s) && op.Registers()
    ensures Indexed(Registered(s, op)) <==> (Offers(s, op) && !Fails(op) ==> Digest(op.config) in s.content)
  {
    var id := Digest(op.config);
    if Offers(s, op) && !Fails(op) {
      assert Children(s.parents, id) == {};
      assert id in Registered(s, op).images;
    }
  }

  /** An uninterrupted Create call keeps the index in agreement, whatever the foreign calls answer. */
  lemma CreatedIndexed(s: State, op: Op)
    requires Indexed(s) && op.Create?
    ensures Indexed(Step(s, op))
  {
    WrittenIndexed(s, op.config);
    RegisteredIndexedIff(Written(s, op.config), op);
  }

  /** An interrupted one need not: when the image is deleted between its two halves, the store ends up with an image
      whose configuration is gone. */
  lemma DeletedInBetween(config: Config)
    requires !Refused(config)
    ensures var id := Digest(config);
            var written := Step(Step(EMPTY, Create(config, true, true)), Write(config));
            var s := Step(Step(written, Delete(id)), Register(config, true, true));
            id in s.images && id !in s.content && !Indexed(s)
  {
    var id := Digest(config);
    var written := Step(Step(EMPTY, Create(config, true, true)), Write(config));
    var gone := Step(written, Delete(id));
    assert id in written.images && id !in gone.images && id !in gone.content;
    var s := Step(gone, Register(config, true, true));
    assert id in s.images.Keys && s.content == gone.content;
  }

  lemma ReparentedChildren(s: State, id: ID, parent: ID, p: ID)
    requires Indexed(s) && parent in s.images && p in s.images && id in s.content
    ensures Reparented(s, id, parent).images[p] ==
            Meta(LayerOf(p.config.image), Children(s.parents[id := parent], p))
  {
    var before, after := Children(s.parents, p), Children(s.parents[id := parent], p);
    assert after == if p == parent then before + {id} else before - {id};
  }

  /** Linking an image records its new parent, moves it from the children of the old one to those of the new one, and
      changes nothing else. A configuration that is not stored gets no link, but is among the children all the same. */
  lemma ReparentedMeaning(s: State, id: ID, parent: ID)
    requires parent in s.images
    ensures var t := Reparented(s, id, parent);
            && t == s.(images := t.images, parents := t.parents) && t.images.Keys == s.images.Keys
            && (forall p :: p in s.images ==> t.images[p].layer == s.images[p].layer)
            && (forall p, c :: p in s.images && c != id ==>
                  (c in t.images[p].children <==> c in s.images[p].children))
            && (id in s.content ==> id in t.parents && t.parents[id] == parent)
            && (id !in s.content ==> t.parents == s.parents)
            && (forall c :: c != id ==> (c in t.parents <==> c in s.parents))
            && (forall c :: c != id && c in s.parents ==> t.parents[c] == s.parents[c])
            && id in t.images[parent].children
    ensures var t := Reparented(s, id, parent);
            forall p :: p in s.images && p != parent ==>
              (id in t.images[p].children <==>
                 id in s.images[p].children && !(id in s.content && id in s.parents && s.parents[id] == p))
  {
  }

  lemma ReparentedIndexedIff(s: State, id: ID, parent: ID)
    requires Indexed(s) && parent in s.images
    ensures Indexed(Reparented(s, id, parent)) <==> id in s.content
  {
    var t := Reparented(s, id, parent);
    assert t.images.Keys == s.images.Keys;
    if id in s.content {
      assert t.parents == s.parents[id := parent];
      forall p | p in t.images
        ensures t.images[p] == Meta(LayerOf(p.config.image), Children(t.parents, p))
      {
        ReparentedChildren(s, id, parent, p);
      }
    } else {
      assert id in t.images[parent].children && id !in Children(t.parents, parent);
    }
  }

  lemma DeletedIndexed(s: State, id: ID)
    requires Indexed(s) && id in s.images
    ensures Indexed(Deleted(s, id))
    ensures Deleted(s, id).images.Keys == s.images.Keys - {id}
    ensures Deleted(s, id).parents == s.parents - Children(s.parents, id) - {id}
  {
    var t := Deleted(s, id);
    assert s.images[id].children == Children(s.parents, id);
    forall p | p in t.images
      ensures t.images[p].children == Children(t.parents, p)
    {
      assert p in s.images && s.images[p].children == Children(s.parents, p);
    }
  }

  /** One call keeps the index in agreement exactly when what it links or takes on board is in the backend. */
  lemma StepIndexedIff(s: State, op: Op)
    requires Indexed(s)
    ensures Indexed(Step(s, op)) <==> Admissible(s, op)
  {
    match op
    case Create(_, _, _) => CreatedIndexed(s, op);
    case Write(config) => WrittenIndexed(s, config);
    case Register(_, _, _) => RegisteredIndexedIff(s, op);
    case SetParent(id, parent) =>
      if parent in s.images {
        ReparentedIndexedIff(s, id, parent);
      }
    case Delete(id) =>
      if id in s.images {
        DeletedIndexed(s, id);
      }
  }

  ghost predicate AdmissibleRun(s: State, ops: seq<Op>) {
    forall i :: 0 <= i < |ops| ==> Admissible(Run(s, ops[..i]), ops[i])
  }

  lemma AdmissibleInit(s: State, ops: seq<Op>)
    requires ops != [] && AdmissibleRun(s, ops)
    ensures AdmissibleRun(s, ops[..|ops| - 1])
  {
    var init := ops[..|ops| - 1];
    forall i | 0 <= i < |init|
      ensures Admissible(Run(s, init[..i]), init[i])
    {
      assert init[..i] == ops[..i];
    }
  }

  lemma {:induction false} RunIndexed(s: State, ops: seq<Op>)
    requires Indexed(s) && AdmissibleRun(s, ops)
    ensures Indexed(Run(s, ops))
  {
    if ops != [] {
      var init := ops[..|ops| - 1];
      AdmissibleInit(s, ops);
      RunIndexed(s, init);
      StepIndexedIff(Run(s, init), ops[|ops| - 1]);
    }
  }

  // ---------------------------------------------------------------------------
  // Restart

  /** The images a restart reads back: decodable configurations, with children from the parent links. */
  function Rebuilt(content: set<ID>, parents: map<ID, ID>): map<ID, Meta> {
    var readable := Readable(content);
    map p | p in readable :: Meta(LayerOf(p.config.image), set c | c in readable && c in parents && parents[c] == p)
  }

  /** The first pass of a restart: every image, without its children. */
  function Childless(ids: set<ID>): map<ID, Meta>
    requires forall id :: id in ids ==> id.config.Decoded?
  {
    map id | id in ids :: Meta(LayerOf(id.config.image), {})
  }

  function Readable(content: set<ID>): set<ID> {
    set id | id in content && id.config.Decoded?
  }

  /** A restart can take the image on board: its layer, if it has one, is there, and the digest set accepts its ID. */
  predicate Loadable(id: ID, layerFound: bool, digestAdded: bool)
    requires id.config.Decoded?
  {
    (LayerOf(id.config.image).Some? ==> layerFound) && digestAdded
  }

  /** The reference taken on the layer of an image, if it was found. */
  function Taken(id: ID, layerFound: bool): multiset<ChainID>
    requires id.config.Decoded?
  {
    Retain(multiset{}, if layerFound then LayerOf(id.config.image) else None)
  }

  /** A restart that stopped at a configuration it could not load: some others have been loaded, without children, and
      the references are theirs and, if only the digest set refused, one more on its layer. */
  ghost predicate Stopped(s: State, stuck: ID, layerFound: ID -> bool, digestAdded: ID -> bool) {
    && stuck in Readable(s.content) && !Loadable(stuck, layerFound(stuck), digestAdded(stuck))
    && s.images.Keys <= Readable(s.content) - {stuck} && s.images == Childless(s.images.Keys)
    && s.digests == s.images.Keys
    && Conserved(s.refs, s.images.Keys, Taken(stuck, layerFound(stuck)))
  }

  /** A restart rebuilds the live image set and children maps exactly when no configuration is stranded. */
  lemma RestartAgreesIff(s: State)
    requires Indexed(s)
    ensures s.images == Rebuilt(s.content, s.parents) <==> s.content == s.images.Keys
  {
    var rebuilt := Rebuilt(s.content, s.parents);
    assert rebuilt.Keys == s.content;
    forall p | p in s.images
      ensures s.images[p] == rebuilt[p]
    {
      assert s.images[p].children == rebuilt[p].children;
    }
  }

  /** Configurations in the backend that have no image in memory. */
  ghost function Stranded(s: State): set<ID> {
    s.content - s.images.Keys
  }

  /** How a call changes the set of stranded configurations. */
  ghost predicate StrandsAsStated(s: State, op: Op, t: State) {
    Stranded(t) ==
    if Strands(s, op) then Stranded(s) + {Digest(op.config)}
    else if Offers(s, op) && !Fails(op) then Stranded(s) - {Digest(op.config)}
    else Stranded(s)
  }

  lemma CreatedStranded(s: State, op: Op)
    requires op.Registers() || op.Write?
    ensures StrandsAsStated(s, op, Step(s, op))
  {
    if op.Create? {
      assert Offers(Written(s, op.config), op) == Offers(s, op);
    }
  }

  lemma DeletedStranded(s: State, id: ID)
    ensures Stranded(Deleted(s, id)) == Stranded(s)
  {
    if id in s.images {
      assert Deleted(s, id).images.Keys == s.images.Keys - {id} && Deleted(s, id).content == s.content - {id};
    }
  }

  /** Every call changes that set exactly as stated. */
  lemma StepStranded(s: State, op: Op)
    ensures StrandsAsStated(s, op, Step(s, op))
  {
    if op.Delete? {
      DeletedStranded(s, op.id);
    } else if op.SetParent? {
      assert Step(s, op).images.Keys == s.images.Keys;
    } else {
      CreatedStranded(s, op);
    }
  }

  /** What a call does to a configuration: strand it, take it on board as a new image, or neither. */
  datatype Mark = Stranding | Taking | Neither

  function MarkOf(s: State, op: Op, id: ID): Mark {
    if Strands(s, op) && Digest(op.config) == id then Stranding
    else if Offers(s, op) && !Fails(op) && Digest(op.config) == id then Taking
    else Neither
  }

  /** What each call of a run does to it. */
  function Trace(s: State, ops: seq<Op>, id: ID): seq<Mark> {
    if ops == [] then []
    else Trace(s, ops[..|ops| - 1], id) + [MarkOf(Run(s, ops[..|ops| - 1]), ops[|ops| - 1], id)]
  }

  lemma {:induction false} TraceLength(s: State, ops: seq<Op>, id: ID)
    ensures |Trace(s, ops, id)| == |ops|
  {
    if ops != [] {
      TraceLength(s, ops[..|ops| - 1], id);
    }
  }

  lemma {:induction false} TraceAt(s: State, ops: seq<Op>, id: ID, i: nat)
    requires i < |ops|
    ensures |Trace(s, ops, id)| == |ops| && Trace(s, ops, id)[i] == MarkOf(Run(s, ops[..i]), ops[i], id)
  {
    var init := ops[..|ops| - 1];
    TraceLength(s, init, id);
    if i < |init| {
      TraceAt(s, init, id, i);
      assert init[..i] == ops[..i];
    }
  }

  /** Stranded at the start or by some call, and taken on board by no later one. */
  ghost predicate Stays(start: bool, marks: seq<Mark>) {
    || (start && forall j :: 0 <= j < |marks| ==> !marks[j].Taking?)
    || exists i :: 0 <= i < |marks| && marks[i].Stranding? && forall j :: i < j < |marks| ==> !marks[j].Taking?
  }

  ghost predicate StaysStranded(s: State, ops: seq<Op>, id: ID) {
    Stays(id in Stranded(s), Trace(s, ops, id))
  }

  lemma StaysMore(start: bool, marks: seq<Mark>, mark: Mark)
    ensures Stays(start, marks + [mark]) <==> mark.Stranding? || (Stays(start, marks) && !mark.Taking?)
  {
    var more, n := marks + [mark], |marks|;
    assert more[n] == mark && forall j :: 0 <= j < n ==> more[j] == marks[j];
    if i :| 0 <= i < n && marks[i].Stranding? && forall j :: i < j < n ==> !marks[j].Taking? {
      assert more[i].Stranding?;
    }
    if i :| 0 <= i < |more| && more[i].Stranding? && forall j :: i < j < |more| ==> !more[j].Taking? {
      assert i < n ==> marks[i].Stranding?;
    }
  }

  lemma MarkedStranded(s: State, op: Op, id: ID)
    ensures id in Stranded(Step(s, op)) <==>
            MarkOf(s, op, id).Stranding? || (id in Stranded(s) && !MarkOf(s, op, id).Taking?)
  {
    StepStranded(s, op);
  }

  /** From any state and over any run, a configuration is stranded in the end exactly when it was at the start or some
      call stranded it, and no later call took it on board. */
  lemma {:induction false} RunStrandedIff(s: State, ops: seq<Op>, id: ID)
    ensures id in Stranded(Run(s, ops)) <==> StaysStranded(s, ops, id)
  {
    if ops != [] {
      var init, last := ops[..|ops| - 1], |ops| - 1;
      RunStrandedIff(s, init, id);
      MarkedStranded(Run(s, init), ops[last], id);
      StaysMore(id in Stranded(s), Trace(s, init, id), MarkOf(Run(s, init), ops[last], id));
    }
  }

  /** A run without a call that strands its configuration strands nothing new. */
  lemma {:induction false} RunStrandsNothing(s: State, ops: seq<Op>)
    requires forall i :: 0 <= i < |ops| ==> !Strands(Run(s, ops[..i]), ops[i])
    ensures Stranded(Run(s, ops)) <= Stranded(s)
  {
    if ops != [] {
      var init := ops[..|ops| - 1];
      forall i | 0 <= i < |init|
        ensures !Strands(Run(s, init[..i]), init[i])
      {
        assert init[..i] == ops[..i];
      }
      RunStrandsNothing(s, init);
      StepStranded(Run(s, init), ops[|ops| - 1]);
    }
  }

  /** A Create call whose layer is missing strands its configuration: the next restart brings up an image that the live
      store does not have. */
  lemma MissingLayerStrands(config: Config)
    requires !Refused(config) && LayerOf(config.image).Some?
    ensures var s := Step(EMPTY, Create(config, false, true));
            s.images == map[] && Digest(config) in Rebuilt(s.content, s.parents)
  {
    var s := Step(EMPTY, Create(config, false, true));
    assert Digest(config) in Readable(s.content);
  }

  /** After a run that keeps the index in agreement, a restart rebuilds exactly the live images and children if and only
      if nothing stays stranded. */
  lemma RunSurvivesRestartIff(s: State, ops: seq<Op>)
    requires Indexed(s) && AdmissibleRun(s, ops)
    ensures var t := Run(s, ops);
            t.images == Rebuilt(t.content, t.parents) <==> forall id :: !StaysStranded(s, ops, id)
  {
    var t := Run(s, ops);
    RunIndexed(s, ops);
    RestartAgreesIff(t);
    forall id
      ensures id in Stranded(t) <==> StaysStranded(s, ops, id)
    {
      RunStrandedIff(s, ops, id);
    }
    assert t.content == t.images.Keys + Stranded(t);
  }

  /** The backend holds decodable configurations only, and no link of a configuration that is gone. */
  ghost predicate Backed(s: State) {
    s.parents.Keys <= s.content && forall id :: id in s.content ==> id.config.Decoded?
  }

  /** That is so over every run, whatever becomes of the index in memory. */
  lemma {:induction false} RunBacked(s: State, ops: seq<Op>)
    requires Backed(s)
    ensures Backed(Run(s, ops))
  {
    if ops != [] {
      RunBacked(s, ops[..|ops| - 1]);
      StepBacked(Run(s, ops[..|ops| - 1]), ops[|ops| - 1]);
    }
  }

  lemma StepBacked(s: State, op: Op)
    requires Backed(s)
    ensures Backed(Step(s, op))
  {
    if op.Delete? && op.id in s.images {
      var t := Deleted(s, op.id);
      assert t.content == s.content - {op.id} && t.parents.Keys <= s.parents.Keys - {op.id};
    }
  }

  /** A restart after any run strands nothing, and brings the index in agreement exactly when no parent link leads to a
      configuration that is gone. */
  lemma RestartedIndexedIff(t: State)
    requires Backed(t) && t.images == Rebuilt(t.content, t.parents) && t.digests == t.images.Keys
    ensures Stranded(t) == {}
    ensures Indexed(t) <==> forall c :: c in t.parents ==> t.parents[c] in t.content
  {
    assert t.images.Keys == t.content;
    forall p | p in t.images
      ensures t.images[p].children == Children(t.parents, p)
    {
    }
  }

  /** After a run that kept the index in agreement, that is always so: whatever the run has stranded is taken on board,
      and no live image is lost. */
  lemma RestartedIndexed(s: State, t: State)
    requires Indexed(s) && t.content == s.content && t.parents == s.parents
    requires t.images == Rebuilt(t.content, t.parents) && t.digests == t.images.Keys
    ensures Indexed(t) && Stranded(t) == {} && s.images.Keys <= t.images.Keys
  {
    RestartedIndexedIff(t);
  }

  // ---------------------------------------------------------------------------
  // Layer references

  /** The images that sit on the given chain ID. */
  ghost function Users(images: set<ID>, c: ChainID): set<ID> {
    set id | id in images && id.config.Decoded? && id.config.image.diffIDs == c != []
  }

  ghost predicate Balanced(refs: multiset<ChainID>, images: set<ID>, leaked: multiset<ChainID>, c: ChainID) {
    refs[c] == |Users(images, c)| + leaked[c]
  }

  ghost predicate Conserved(refs: multiset<ChainID>, images: set<ID>, leaked: multiset<ChainID>) {
    forall c :: Balanced(refs, images, leaked, c)
  }

  function LeakedBy(s: State, ops: seq<Op>): multiset<ChainID> {
    if ops == [] then multiset{}
    else Retain(LeakedBy(s, ops[..|ops| - 1]), Leaked(Run(s, ops[..|ops| - 1]), ops[|ops| - 1]))
  }

  lemma UsersAdd(images: set<ID>, id: ID, c: ChainID)
    requires id !in images && id.config.Decoded?
    ensures |Users(images + {id}, c)| == |Users(images, c)| + if LayerOf(id.config.image) == Some(c) then 1 else 0
  {
    if LayerOf(id.config.image) == Some(c) {
      assert Users(images + {id}, c) == Users(images, c) + {id};
    } else {
      assert Users(images + {id}, c) == Users(images, c);
    }
  }

  /** Taking one image on board with one reference on its layer keeps every balance. */
  lemma RetainConserved(refs: multiset<ChainID>, images: set<ID>, leaked: multiset<ChainID>, id: ID)
    requires Conserved(refs, images, leaked) && id !in images && id.config.Decoded?
    ensures Conserved(Retain(refs, LayerOf(id.config.image)), images + {id}, leaked)
  {
    forall c
      ensures Balanced(Retain(refs, LayerOf(id.config.image)), images + {id}, leaked, c)
    {
      assert Balanced(refs, images, leaked, c);
      UsersAdd(images, id, c);
    }
  }

  lemma ReleaseConserved(refs: multiset<ChainID>, images: set<ID>, leaked: multiset<ChainID>, id: ID)
    requires Conserved(refs, images, leaked) && id in images && id.config.Decoded?
    ensures Conserved(Release(refs, LayerOf(id.config.image)), images - {id}, leaked)
  {
    forall c
      ensures Balanced(Release(refs, LayerOf(id.config.image)), images - {id}, leaked, c)
    {
      assert Balanced(refs, images, leaked, c);
      assert images - {id} + {id} == images;
      UsersAdd(images - {id}, id, c);
    }
  }

  lemma LeakConserved(refs: multiset<ChainID>, images: set<ID>, leaked: multiset<ChainID>, layer: Option<ChainID>)
    requires Conserved(refs, images, leaked)
    ensures Conserved(Retain(refs, layer), images, Retain(leaked, layer))
  {
    forall c
      ensures Balanced(Retain(refs, layer), images, Retain(leaked, layer), c)
    {
      assert Balanced(refs, images, leaked, c);
    }
  }

  /** Every image in memory holds the reference on the layer it sits on. */
  ghost predicate Layered(s: State) {
    forall id :: id in s.images ==> id.config.Decoded? && s.images[id].layer == LayerOf(id.config.image)
  }

  lemma RegisteredConserved(s: State, op: Op, leaked: multiset<ChainID>)
    requires op.Registers() && Layered(s) && Conserved(s.refs, s.images.Keys, leaked)
    ensures var t := Registered(s, op); Layered(t) && Conserved(t.refs, t.images.Keys, Retain(leaked, Leaked(s, op)))
  {
    if Offers(s, op) {
      if Fails(op) {
        LeakConserved(s.refs, s.images.Keys, leaked, Leaked(s, op));
      } else {
        RetainConserved(s.refs, s.images.Keys, leaked, Digest(op.config));
        assert Registered(s, op).images.Keys == s.images.Keys + {Digest(op.config)};
      }
    }
  }

  lemma DeletedConserved(s: State, id: ID, leaked: multiset<ChainID>)
    requires Layered(s) && Conserved(s.refs, s.images.Keys, leaked)
    ensures Layered(Deleted(s, id)) && Conserved(Deleted(s, id).refs, Deleted(s, id).images.Keys, leaked)
  {
    if id in s.images {
      assert Deleted(s, id).images.Keys == s.images.Keys - {id};
      ReleaseConserved(s.refs, s.images.Keys, leaked, id);
    }
  }

  lemma StepConserved(s: State, op: Op, leaked: multiset<ChainID>)
    requires Layered(s) && Conserved(s.refs, s.images.Keys, leaked)
    ensures var t := Step(s, op); Layered(t) && Conserved(t.refs, t.images.Keys, Retain(leaked, Leaked(s, op)))
  {
    match op
    case Create(config, _, _) => RegisteredConserved(Written(s, config), op, leaked);
    case Write(_) =>
    case Register(_, _, _) => RegisteredConserved(s, op, leaked);
    case SetParent(_, _) => assert Step(s, op).images.Keys == s.images.Keys;
    case Delete(id) => DeletedConserved(s, id, leaked);
  }

  /** In every state reached from an empty or restarted store, the references held on a chain ID are one per image
      on it, plus those leaked by calls whose digest-set insertion failed. */
  lemma {:induction false} RunConserved(s: State, ops: seq<Op>)
    requires Layered(s) && Conserved(s.refs, s.images.Keys, multiset{})
    ensures var t := Run(s, ops); Layered(t) && Conserved(t.refs, t.images.Keys, LeakedBy(s, ops))
  {
    if ops != [] {
      var init := ops[..|ops| - 1];
      RunConserved(s, init);
      StepConserved(Run(s, init), ops[|ops| - 1], LeakedBy(s, init));
    }
  }

  /** A failed digest-set insertion leaks: a reference is held on the layer, and no image is there. */
  lemma FailedInsertionLeaks(config: Config)
    requires !Refused(config) && LayerOf(config.image).Some?
    ensures var s := Step(EMPTY, Create(config, true, false));
            s.images == map[] && s.refs[LayerOf(config.image).value] == 1
  {
    assert Leaked(Written(EMPTY, config), Create(config, true, false)) == LayerOf(config.image);
  }

  // ---------------------------------------------------------------------------
  // Cycles

  /** Does the call link a stored image below itself? */
  ghost predicate Loops(s: State, op: Op) {
    op.SetParent? && op.parent in s.images && op.id in s.content && Above(s.parents, op.parent, op.id)
  }

  /** A call keeps the forest free of cycles exactly when it does not put an image below itself. */
  lemma StepAcyclicIff(s: State, op: Op)
    requires Acyclic(s.parents)
    ensures Acyclic(Step(s, op).parents) <==> !Loops(s, op)
  {
    if op.SetParent? {
      RelinkAcyclicIff(s.parents, op.id, op.parent);
    } else {
      AcyclicSubset(Step(s, op).parents, s.parents);
    }
  }

  /** Over a whole run, the forest stays free of cycles as long as no call puts an image below itself. */
  lemma {:induction false} RunAcyclic(s: State, ops: seq<Op>)
    requires Acyclic(s.parents)
    requires forall i :: 0 <= i < |ops| ==> !Loops(Run(s, ops[..i]), ops[i])
    ensures Acyclic(Run(s, ops).parents)
  {
    if ops != [] {
      var init := ops[..|ops| - 1];
      forall i | 0 <= i < |init|
        ensures !Loops(Run(s, init[..i]), init[i])
      {
        assert init[..i] == ops[..i];
      }
      RunAcyclic(s, init);
      StepAcyclicIff(Run(s, init), ops[|ops| - 1]);
    }
  }

  /** An empty store meets everything that the run lemmas ask of the state a run starts from. */
  lemma EmptyStart()
    ensures Indexed(EMPTY) && Stranded(EMPTY) == {} && Conserved(EMPTY.refs, EMPTY.images.Keys, multiset{})
    ensures Acyclic(EMPTY.parents) && Layered(EMPTY)
  {
    assert forall c :: Users({}, c) == {} && Balanced(EMPTY.refs, EMPTY.images.Keys, multiset{}, c);
    assert forall x: ID, n: nat :: n > 0 ==> !Up(map[], x, n, x);
  }

  // ---------------------------------------------------------------------------
  // The store object

  class Store {
    var images: map<ID, Meta>
    var content: set<ID>
    var parents: map<ID, ID>
    var digests: set<ID>
    var refs: multiset<ChainID>

    ghost function Snapshot(): State
      reads this
    {
      State(images, content, parents, digests, refs)
    }

    constructor ()
      ensures Snapshot() == EMPTY
    {
      images, content, parents, digests, refs := map[], {}, map[], {}, multiset{};
    }

    function GetParent(id: ID): Option<ID>
      reads this
    {
      ParentOf(content, parents, id)
    }

    /** Reads the backend after a restart, when nothing is in memory yet and no references are held. */
    method Restore(layerFound: ID -> bool, digestAdded: ID -> bool) returns (ok: bool, ghost stuck: Option<ID>)
      requires images == map[] && digests == {} && refs == multiset{}
      modifies this
      ensures content == old(content) && parents == old(parents)
      ensures ok <==> forall id :: id in content && id.config.Decoded? ==>
                        (id.config.image.diffIDs != [] ==> layerFound(id)) && digestAdded(id)
      ensures ok ==> images == Rebuilt(content, parents) && digests == images.Keys
      ensures ok ==> Layered(Snapshot()) && Conserved(refs, images.Keys, multiset{})
      ensures !ok ==> stuck.Some? && Stopped(Snapshot(), stuck.value, layerFound, digestAdded)
    {
      ok, stuck := Walk(layerFound, digestAdded);
      if ok {
        FillChildren();
      }
    }

    /** The first pass of a restart; `stuck` is the configuration that ended it early. */
    method Walk(layerFound: ID -> bool, digestAdded: ID -> bool) returns (ok: bool, ghost stuck: Option<ID>)
      requires images == map[] && digests == {} && refs == multiset{}
      modifies this
      ensures content == old(content) && parents == old(parents)
      ensures ok <==> forall id :: id in Readable(content) ==> Loadable(id, layerFound(id), digestAdded(id))
      ensures ok ==> images == Childless(Readable(content)) && digests == images.Keys
      ensures ok ==> Conserved(refs, images.Keys, multiset{})
      ensures !ok ==> stuck.Some? && Stopped(Snapshot(), stuck.value, layerFound, digestAdded)
    {
      var todo := content;
      stuck := None;
      ghost var walked: set<ID> := {};
      while todo != {}
        invariant content == old(content) && parents == old(parents)
        invariant walked == content - todo && todo <= content
        invariant images == Childless(Readable(walked)) && digests == images.Keys
        invariant Conserved(refs, images.Keys, multiset{})
        invariant forall id :: id in Readable(walked) ==> Loadable(id, layerFound(id), digestAdded(id))
        decreases todo
      {
        var id :| id in todo;
        assert Readable(walked + {id}) == Readable(walked) + if id.config.Decoded? then {id} else {};
        if id.config.Decoded? {
          var loaded := Load(id, layerFound(id), digestAdded(id));
          if !loaded {
            assert id in Readable(content) && images.Keys == Readable(walked);
            return false, Some(id);
          }
        }
        todo, walked := todo - {id}, walked + {id};
      }
      assert walked == content;
      ok := true;
    }

    /** The first pass of a restart, for one configuration. */
    method Load(id: ID, layerFound: bool, digestAdded: bool) returns (ok: bool)
      requires id.config.Decoded? && id !in images && Conserved(refs, images.Keys, multiset{})
      modifies this
      ensures content == old(content) && parents == old(parents)
      ensures ok <==> Loadable(id, layerFound, digestAdded)
      ensures ok ==> images == old(images)[id := Meta(LayerOf(id.config.image), {})] && digests == old(digests) + {id}
      ensures !ok ==> images == old(images) && digests == old(digests)
      ensures Conserved(refs, images.Keys, if ok then multiset{} else Taken(id, layerFound))
    {
      var layer := LayerOf(id.config.image);
      if layer.Some? && !layerFound {
        return false;
      }
      RetainConserved(refs, images.Keys, multiset{}, id);
      LeakConserved(refs, images.Keys, multiset{}, layer);
      refs := Retain(refs, layer);
      if !digestAdded {
        return false;
      }
      digests := digests + {id};
      images := images[id := Meta(layer, {})];
      assert images.Keys == old(images.Keys) + {id};
      return true;
    }

    /** The second pass of a restart. */
    method FillChildren()
      requires images == Childless(Readable(content))
      modifies this`images
      ensures images == Rebuilt(content, parents) && images.Keys == old(images.Keys)
    {
      var todo := images.Keys;
      ghost var walked: set<ID> := {};
      while todo != {}
        invariant todo !! walked && todo + walked == Readable(content)
        invariant images.Keys == Readable(content)
        invariant forall p :: p in images ==>
                    images[p] == Meta(LayerOf(p.config.image), set c | c in walked && c in parents && parents[c] == p)
        decreases todo
      {
        var id :| id in todo;
        todo, walked := todo - {id}, walked + {id};
        var parent := GetParent(id);
        if parent.Some? && parent.value in images {
          images := Adopt(images, parent.value, id);
        }
      }
      assert walked == Readable(content);
    }

    /** The first half of a Create call: checks the configuration and writes it to the backend. */
    method Write(config: Config) returns (ok: bool)
      modifies this
      ensures Snapshot() == Written(old(Snapshot()), config) && ok == !Refused(config)
      ensures ok <==> config.Decoded? && NonEmpty(config.image.history) <= |config.image.diffIDs|
    {
      if config.Undecodable? {
        return false;
      }
      var layerCounter := CountLayers(config.image.history);
      if layerCounter > |config.image.diffIDs| {
        return false;
      }
      content := content + {Digest(config)};
      return true;
    }

    /** The second half, under the lock. */
    method Register(config: Config, layerFound: bool, digestAdded: bool) returns (r: Option<ID>)
      requires !Refused(config)
      modifies this
      ensures var op := Op.Register(config, layerFound, digestAdded);
              && Snapshot() == Registered(old(Snapshot()), op)
              && r == if Offers(old(Snapshot()), op) && Fails(op) then None else Some(Digest(config))
    {
      var id := Digest(config);
      if id in images {
        return Some(id);
      }
      var layer := LayerOf(config.image);
      if layer.Some? {
        if !layerFound {
          return None;
        }
        refs := Retain(refs, layer);
      }
      images := images[id := Meta(layer, {})];
      if !digestAdded {
        images := images - {id};
        assert images == old(images);
        return None;
      }
      digests := digests + {id};
      return Some(id);
    }

    method Create(config: Config, layerFound: bool, digestAdded: bool) returns (r: Option<ID>)
      modifies this
      ensures var op := Op.Create(config, layerFound, digestAdded);
              && Snapshot() == Step(old(Snapshot()), op)
              && r == if Refused(config) || Strands(old(Snapshot()), op) then None else Some(Digest(config))
      ensures r.Some? <==>
              && config.Decoded? && NonEmpty(config.image.history) <= |config.image.diffIDs|
              && (Digest(config) in old(images) || ((config.image.diffIDs != [] ==> layerFound) && digestAdded))
      ensures r.Some? ==> r.value == Digest(config) && r.value in images && r.value in content
      ensures forall id :: id != Digest(config) || r.None? ==>
                (id in images <==> id in old(images)) && (id in images ==> images[id] == old(images)[id])
    {
      var ok := Write(config);
      if !ok {
        return None;
      }
      r := Register(config, layerFound, digestAdded);
    }

    method SetParent(id: ID, parent: ID) returns (ok: bool)
      modifies this
      ensures Snapshot() == Reparented(old(Snapshot()), id, parent)
      ensures ok <==> parent in old(images) && id in content
    {
      if parent !in images {
        return false;
      }
      images := Disown(images, GetParent(id), id);
      images := Adopt(images, parent, id);
      if id !in content {
        return false;
      }
      parents := parents[id := parent];
      return true;
    }

    method Delete(id: ID) returns (ok: bool)
      modifies this
      ensures Snapshot() == Deleted(old(Snapshot()), id)
      ensures ok <==> id in old(images)
    {
      if id !in images {
        return false;
      }
      var meta := images[id];
      parents := parents - meta.children;
      images := Disown(images, GetParent(id), id);
      digests := digests - {id};
      images := images - {id};
      content, parents := content - {id}, parents - {id};
      refs := Release(refs, meta.layer);
      return true;
    }
  }

  /** The number of history entries that own a layer. */
  method CountLayers(history: seq<History>) returns (n: nat)
    ensures n == NonEmpty(history) == |set i | 0 <= i < |history| && !history[i].emptyLayer|
  {
    n := 0;
    for i := 0 to |history|
      invariant n == NonEmpty(history[..i])
    {
      assert history[..i + 1][..i] == history[..i];
      if !history[i].emptyLayer {
        n := n + 1;
      }
    }
    assert history[..|history|] == history;
    NonEmptyCounts(history);
  }
}
