/** Assembling a container's mounts from the defaults and the user's mounts. */
module Mounts {
  import opened MountPaths
  import opened Values

  /** Unset also stands for a propagation mode that is not known. */
  datatype Propagation = Unset | Private | RPrivate | Shared | RShared | Slave | RSlave {
    predicate IsShared() {
      Shared? || RShared?
    }

    predicate IsSlave() {
      Slave? || RSlave?
    }

    function Word(): seq<string> {
      match this
      case Unset => []
      case Private => ["private"]
      case RPrivate => ["rprivate"]
      case Shared => ["shared"]
      case RShared => ["rshared"]
      case Slave => ["slave"]
      case RSlave => ["rslave"]
    }
  }

  datatype UserMount = UserMount(source: string, destination: string, writable: bool, propagation: Propagation)

  datatype Mount = Mount(destination: string, source: string, kind: string, options: seq<string>)

  /** What the host says about mount sources, and the merged options of each tmpfs mount (None: invalid). */
  datatype Host = Host(
    shared: string -> bool, sharedOrSlave: string -> bool, tmpfsOptions: string -> Option<seq<string>>)

  datatype Flags = Flags(readonlyRoot: bool, privileged: bool, remapped: bool)

  // ---------------------------------------------------------------------------
  // What the result should be

  function Destinations(user: seq<UserMount>): set<string> {
    set i | 0 <= i < |user| :: user[i].destination
  }

  ghost predicate DistinctUser(user: seq<UserMount>) {
    forall i, j :: 0 <= i < j < |user| ==> user[i].destination != user[j].destination
  }

  ghost predicate Distinct(mounts: seq<Mount>) {
    forall i, j :: 0 <= i < j < |mounts| ==> mounts[i].destination != mounts[j].destination
  }

  predicate Overridden(m: Mount, taken: set<string>) {
    m.destination in taken || ("/dev" in taken && "/dev/" <= m.destination)
  }

  /** The default mounts that no user mount replaces. */
  function Kept(defaults: seq<Mount>, taken: set<string>): seq<Mount> {
    if defaults == [] then []
    else
      var rest := Kept(defaults[..|defaults| - 1], taken);
      if Overridden(defaults[|defaults| - 1], taken) then rest else rest + [defaults[|defaults| - 1]]
  }

  /** The mount made for a user mount, if the host allows it. */
  function Made(u: UserMount, h: Host): Option<Mount> {
    if u.source == "tmpfs" then
      var options := h.tmpfsOptions(u.destination);
      if options.None? then None else Some(Mount(u.destination, u.source, "tmpfs", options.value))
    else if u.propagation.IsShared() && !h.shared(u.source) then None
    else if u.propagation.IsSlave() && !h.sharedOrSlave(u.source) then None
    else
      Some(Mount(u.destination, u.source, "bind",
                 ["rbind"] + (if u.writable then [] else ["ro"]) + u.propagation.Word()))
  }

  ghost predicate AllMade(user: seq<UserMount>, h: Host) {
    forall i :: 0 <= i < |user| ==> Made(user[i], h).Some?
  }

  function AllOf(user: seq<UserMount>, h: Host): (mounts: seq<Mount>)
    requires AllMade(user, h)
    ensures |mounts| == |user| && forall i :: 0 <= i < |user| ==> mounts[i] == Made(user[i], h).value
  {
    if user == [] then []
    else AllOf(user[..|user| - 1], h) + [Made(user[|user| - 1], h).value]
  }

  ghost predicate Wants(user: seq<UserMount>, shared: bool) {
    exists i :: 0 <= i < |user| && user[i].source != "tmpfs" &&
                if shared then user[i].propagation.IsShared() else user[i].propagation.IsSlave()
  }

  /** The weakest strengthening of the root's propagation that serves every shared and slave user mount. */
  ghost function RootFor(root: Propagation, user: seq<UserMount>): Propagation {
    if Wants(user, true) then (if root.IsShared() then root else Shared)
    else if Wants(user, false) then (if root.IsShared() || root.IsSlave() then root else RSlave)
    else root
  }

  const NEVER_READ_ONLY := {"/proc", "/dev/pts", "/dev/mqueue"}

  function WithoutRO(options: seq<string>): seq<string> {
    if options == [] then []
    else WithoutRO(options[..|options| - 1]) + if options[|options| - 1] == "ro" then [] else [options[|options| - 1]]
  }

  /** Read-only and privileged adjustments of one mount. */
  function MadeReadOnly(m: Mount, taken: set<string>, f: Flags): Mount {
    if f.readonlyRoot && m.destination !in NEVER_READ_ONLY && m.destination !in taken && "ro" !in m.options
    then m.(options := m.options + ["ro"]) else m
  }

  function SysCleared(m: Mount, f: Flags): Mount {
    if f.privileged && !f.readonlyRoot && m.destination == "/sys" then m.(options := WithoutRO(m.options)) else m
  }

  function CgroupCleared(m: Mount, f: Flags): Mount {
    if (f.remapped || f.privileged) && m.kind == "cgroup" then m.(options := WithoutRO(m.options)) else m
  }

  function Adjusted(m: Mount, taken: set<string>, f: Flags): Mount {
    CgroupCleared(SysCleared(MadeReadOnly(m, taken, f), f), f)
  }

  // ---------------------------------------------------------------------------
  // Consequences

  lemma {:induction false} WithoutROMeaning(options: seq<string>)
    ensures "ro" !in WithoutRO(options)
    ensures forall o :: o != "ro" ==> (o in WithoutRO(options) <==> o in options)
  {
    if options != [] {
      WithoutROMeaning(options[..|options| - 1]);
    }
  }

  /** A user's read-only bind mount stays read-only, except that a privileged container on a writable root gets a
      writable /sys. */
  lemma ReadOnlyBindStaysIff(u: UserMount, h: Host, taken: set<string>, f: Flags)
    requires u.source != "tmpfs" && Made(u, h).Some? && !u.writable
    ensures "ro" in Adjusted(Made(u, h).value, taken, f).options <==>
            !(f.privileged && !f.readonlyRoot && u.destination == "/sys")
  {
    var m := Made(u, h).value;
    assert m.options[1] == "ro";
    WithoutROMeaning(m.options);
  }

  /** The host allows a user mount: a shared one has a shared source, a slave one a shared or slave source, and the
      options of a tmpfs are valid. */
  ghost predicate Allowed(u: UserMount, h: Host) {
    if u.source == "tmpfs" then h.tmpfsOptions(u.destination).Some?
    else
      && (u.propagation in {Shared, RShared} ==> h.shared(u.source))
      && (u.propagation in {Slave, RSlave} ==> h.sharedOrSlave(u.source))
  }

  /** The option is the name of the propagation. */
  ghost predicate Names(option: string, p: Propagation) {
    || (option == "private" && p.Private?) || (option == "rprivate" && p.RPrivate?)
    || (option == "shared" && p.Shared?) || (option == "rshared" && p.RShared?)
    || (option == "slave" && p.Slave?) || (option == "rslave" && p.RSlave?)
  }

  /** The mount is what the user asked for: the source, the kind, read-only exactly when asked for, and the
      propagation. Only a privileged container on a writable root gets a writable /sys instead. */
  ghost predicate AsAsked(u: UserMount, f: Flags, h: Host, m: Mount) {
    var cleared := f.privileged && !f.readonlyRoot && u.destination == "/sys";
    && m.destination == u.destination && m.source == u.source
    && if u.source == "tmpfs" then
         && m.kind == "tmpfs" && h.tmpfsOptions(u.destination).Some?
         && forall o :: o in m.options <==> o in h.tmpfsOptions(u.destination).value && !(cleared && o == "ro")
       else
         && m.kind == "bind"
         && ("ro" in m.options <==> !u.writable && !cleared)
         && forall o :: o != "ro" ==> (o in m.options <==> o == "rbind" || Names(o, u.propagation))
  }

  /** The mount is the default mount, read-only if that was, or if the root is and the mount can be; a privileged
      container on a writable root has a writable /sys, and control groups are writable with remapped users too. */
  ghost predicate FromDefault(d: Mount, f: Flags, m: Mount) {
    && m.destination == d.destination && m.source == d.source && m.kind == d.kind
    && (forall o :: o != "ro" ==> (o in m.options <==> o in d.options))
    && ("ro" in m.options <==>
          && ("ro" in d.options || (f.readonlyRoot && d.destination !in {"/proc", "/dev/pts", "/dev/mqueue"}))
          && !(f.privileged && !f.readonlyRoot && d.destination == "/sys")
          && !((f.remapped || f.privileged) && d.kind == "cgroup"))
  }

  lemma MadeIffAllowed(u: UserMount, h: Host)
    ensures Made(u, h).Some? <==> Allowed(u, h)
  {
  }

  lemma AllMadeIff(user: seq<UserMount>, h: Host)
    ensures AllMade(user, h) <==> forall i :: 0 <= i < |user| ==> Allowed(user[i], h)
  {
    forall i | 0 <= i < |user|
      ensures Made(user[i], h).Some? <==> Allowed(user[i], h)
    {
      MadeIffAllowed(user[i], h);
    }
  }

  lemma WordNames(p: Propagation)
    ensures "ro" !in p.Word()
    ensures forall o :: o in p.Word() <==> Names(o, p)
  {
    assert |"ro"| == 2 && |"private"| == 7 && |"rprivate"| == 8 && |"shared"| == 6 && |"rshared"| == 7;
    assert |"slave"| == 5 && |"rslave"| == 6;
  }

  /** Every mount made for a user's bind mount has the options that were asked for. */
  lemma BindOptions(u: UserMount, h: Host)
    requires u.source != "tmpfs" && Made(u, h).Some?
    ensures var options := Made(u, h).value.options;
            && ("ro" in options <==> !u.writable)
            && forall o :: o != "ro" ==> (o in options <==> o == "rbind" || Names(o, u.propagation))
  {
    var ro, word: seq<string> := if u.writable then [] else ["ro"], u.propagation.Word();
    assert |"ro"| == 2 && |"rbind"| == 5;
    WordNames(u.propagation);
    assert forall o :: o in ["rbind"] + ro + word <==> o == "rbind" || o in ro || o in word;
  }

  lemma MadeAsAsked(u: UserMount, h: Host, taken: set<string>, f: Flags)
    requires Made(u, h).Some? && u.destination in taken
    ensures AsAsked(u, f, h, Adjusted(Made(u, h).value, taken, f))
  {
    var m := Made(u, h).value;
    assert |"bind"| == 4 && |"tmpfs"| == 5 && |"cgroup"| == 6;
    assert Adjusted(m, taken, f) == SysCleared(m, f);
    WithoutROMeaning(m.options);
    if u.source != "tmpfs" {
      BindOptions(u, h);
    }
  }

  lemma KeptFromDefault(d: Mount, taken: set<string>, f: Flags)
    requires d.destination !in taken
    ensures FromDefault(d, f, Adjusted(d, taken, f))
  {
    var r := MadeReadOnly(d, taken, f);
    assert forall o :: o in d.options + ["ro"] <==> o in d.options || o == "ro";
    WithoutROMeaning(r.options);
    var s := SysCleared(r, f);
    WithoutROMeaning(s.options);
  }

  /** With a read-only root every default mount ends up read-only, except the writable ones and cleared cgroups. */
  lemma DefaultsReadOnlyIff(m: Mount, taken: set<string>, f: Flags)
    requires f.readonlyRoot && m.destination !in taken && m.destination !in NEVER_READ_ONLY
    ensures "ro" in Adjusted(m, taken, f).options <==> !((f.remapped || f.privileged) && m.kind == "cgroup")
  {
    var r := MadeReadOnly(m, taken, f);
    assert "ro" in r.options by {
      if "ro" !in m.options {
        assert r.options[|m.options|] == "ro";
      }
    }
    WithoutROMeaning(r.options);
  }

  lemma {:induction false} KeptMeaning(defaults: seq<Mount>, taken: set<string>)
    ensures forall m :: m in Kept(defaults, taken) <==>
                        && m in defaults && m.destination !in taken
                        && !("/dev" in taken && "/dev/" <= m.destination)
  {
    if defaults != [] {
      KeptMeaning(defaults[..|defaults| - 1], taken);
      assert defaults == defaults[..|defaults| - 1] + [defaults[|defaults| - 1]];
    }
  }

  lemma {:induction false} KeptDistinct(defaults: seq<Mount>, taken: set<string>)
    requires Distinct(defaults)
    ensures Distinct(Kept(defaults, taken))
  {
    if defaults != [] {
      var init, last := defaults[..|defaults| - 1], defaults[|defaults| - 1];
      var kept := Kept(init, taken);
      KeptDistinct(init, taken);
      KeptMeaning(init, taken);
      forall i | 0 <= i < |kept|
        ensures kept[i].destination != last.destination
      {
        assert kept[i] in kept;
        var j :| 0 <= j < |init| && init[j] == kept[i];
        assert defaults[j].destination != defaults[|defaults| - 1].destination;
      }
    }
  }

  /** Distinct defaults and distinct user mounts give distinct mounts. */
  lemma AssembledDistinct(defaults: seq<Mount>, user: seq<UserMount>, h: Host)
    requires Distinct(defaults) && DistinctUser(user) && AllMade(user, h)
    ensures Distinct(Kept(defaults, Destinations(user)) + AllOf(user, h))
  {
    var kept := Kept(defaults, Destinations(user));
    KeptMeaning(defaults, Destinations(user));
    KeptDistinct(defaults, Destinations(user));
    var made := AllOf(user, h);
    assert forall j :: 0 <= j < |user| ==> made[j].destination == user[j].destination;
    assert forall j :: 0 <= j < |user| ==> user[j].destination in Destinations(user);
    assert forall i :: 0 <= i < |kept| ==> kept[i] in kept;
    assert forall i, j :: 0 <= i < |kept| && 0 <= j < |made| ==> kept[i].destination != made[j].destination;
    DistinctConcat(kept, made);
  }

  lemma DistinctConcat(a: seq<Mount>, b: seq<Mount>)
    requires Distinct(a) && Distinct(b)
    requires forall i, j :: 0 <= i < |a| && 0 <= j < |b| ==> a[i].destination != b[j].destination
    ensures Distinct(a + b)
  {
  }

  /** What sorting by path depth leaves. */
  ghost predicate SortedByParts(user: seq<UserMount>) {
    forall i, j :: 0 <= i < j < |user| ==> Parts(user[i].destination) <= Parts(user[j].destination)
  }

  /** What the order by path depth does not keep apart: two mounts on one directory, the root and a top-level
      directory, and pairs with a relative destination. */
  ghost predicate Uncovered(later: string, earlier: string) {
    SamePlace(later, earlier) || RootOver(later, earlier) || RelativeOver(later, earlier)
  }

  /** Sorted mounts hide each other in these cases and in no other. */
  lemma SortedHidesIff(user: seq<UserMount>, i: nat, j: nat)
    requires SortedByParts(user) && i < j < |user|
    ensures Hides(user[j].destination, user[i].destination) <==> Uncovered(user[j].destination, user[i].destination)
  {
    HidesInOrderIff(user[i].destination, user[j].destination);
  }

  /** The root's propagation after one more user mount. */
  function Strengthened(root: Propagation, u: UserMount): Propagation {
    if u.source == "tmpfs" then root
    else if u.propagation.IsShared() then (if root.IsShared() then root else Shared)
    else if u.propagation.IsSlave() && !root.IsShared() && !root.IsSlave() then RSlave
    else root
  }

  lemma RootGrows(root: Propagation, user: seq<UserMount>, u: UserMount)
    ensures RootFor(root, user + [u]) == Strengthened(RootFor(root, user), u)
  {
    var more := user + [u];
    assert more[|user|] == u;
    assert forall i :: 0 <= i < |user| ==> more[i] == user[i];
    assert Wants(more, true) == (Wants(user, true) || (u.source != "tmpfs" && u.propagation.IsShared()));
    assert Wants(more, false) == (Wants(user, false) || (u.source != "tmpfs" && u.propagation.IsSlave()));
  }

  /** The propagation chosen for the root is at least as strong as each user mount requires. */
  lemma RootServesAll(root: Propagation, user: seq<UserMount>, i: nat)
    requires i < |user| && user[i].source != "tmpfs"
    ensures user[i].propagation.IsShared() ==> RootFor(root, user).IsShared()
    ensures user[i].propagation.IsSlave() ==> RootFor(root, user).IsShared() || RootFor(root, user).IsSlave()
  {
  }

  /** Private below slave below shared. */
  function Level(p: Propagation): nat {
    if p.IsShared() then 2 else if p.IsSlave() then 1 else 0
  }

  /** A root with this propagation is strong enough for every user mount. */
  ghost predicate Serves(p: Propagation, user: seq<UserMount>) {
    (Wants(user, true) ==> Level(p) == 2) && (Wants(user, false) ==> Level(p) >= 1)
  }

  /** No weaker one than the chosen would do: any propagation that serves all mounts and does not fall below what the
      root had is at least as strong. */
  lemma RootWeakest(root: Propagation, user: seq<UserMount>, p: Propagation)
    ensures Serves(RootFor(root, user), user) && Level(root) <= Level(RootFor(root, user))
    ensures Serves(p, user) && Level(root) <= Level(p) ==> Level(RootFor(root, user)) <= Level(p)
    ensures Serves(root, user) ==> RootFor(root, user) == root
    ensures RootFor(root, user) in {root, Shared, RSlave}
  {
  }

  /** A privileged container on a writable root gets a writable /sys, although the user asked for a read-only one. */
  lemma PrivilegedSysWritable(source: string, h: Host)
    requires source != "tmpfs"
    ensures var u, f := UserMount(source, "/sys", false, Unset), Flags(false, true, false);
            && Made(u, h) == Some(Mount("/sys", source, "bind", ["rbind", "ro"]))
            && "ro" !in Adjusted(Made(u, h).value, {"/sys"}, f).options
  {
    var u, f := UserMount(source, "/sys", false, Unset), Flags(false, true, false);
    assert ["rbind"] + ["ro"] + [] == ["rbind", "ro"];
    ReadOnlyBindStaysIff(u, h, {"/sys"}, f);
  }

  // ---------------------------------------------------------------------------

  class Spec {
    var mounts: seq<Mount>
    var root: Propagation
    var hiddenPaths: bool

    constructor (mounts: seq<Mount>, root: Propagation)
      ensures this.mounts == mounts && this.root == root && hiddenPaths
    {
      this.mounts, this.root, hiddenPaths := mounts, root, true;
    }

    method DropOverridden(taken: set<string>)
      modifies this`mounts
      ensures mounts == Kept(old(mounts), taken)
    {
      var defaults: seq<Mount> := [];
      for i := 0 to |mounts|
        invariant defaults == Kept(mounts[..i], taken)
      {
        assert mounts[..i + 1][..i] == mounts[..i];
        if mounts[i].destination !in taken {
          if "/dev" in taken && "/dev/" <= mounts[i].destination {
            continue;
          }
          defaults := defaults + [mounts[i]];
        }
      }
      assert mounts[..|mounts|] == mounts;
      mounts := defaults;
    }

    method HasDestination(destination: string) returns (found: bool)
      ensures found <==> exists i :: 0 <= i < |mounts| && mounts[i].destination == destination
    {
      for i := 0 to |mounts|
        invariant forall j :: 0 <= j < i ==> mounts[j].destination != destination
      {
        if mounts[i].destination == destination {
          return true;
        }
      }
      return false;
    }

    /** Appends one user mount and strengthens the root's propagation for it. */
    method Add(u: UserMount, h: Host) returns (ok: bool)
      modifies this`mounts, this`root
      ensures ok <==>
              Made(u, h).Some? && forall i :: 0 <= i < |old(mounts)| ==> old(mounts)[i].destination != u.destination
      ensures ok ==> mounts == old(mounts) + [Made(u, h).value]
      ensures ok ==> root == Strengthened(old(root), u)
    {
      var duplicate := HasDestination(u.destination);
      if duplicate {
        return false;
      }
      if u.source == "tmpfs" {
        var merged := h.tmpfsOptions(u.destination);
        if merged.None? {
          return false;
        }
        mounts := mounts + [Mount(u.destination, u.source, "tmpfs", merged.value)];
        return true;
      }
      if u.propagation.IsShared() {
        if !h.shared(u.source) {
          return false;
        }
        if !root.IsShared() {
          root := Shared;
        }
      } else if u.propagation.IsSlave() {
        if !h.sharedOrSlave(u.source) {
          return false;
        }
        if !root.IsShared() && !root.IsSlave() {
          root := RSlave;
        }
      }
      var opts := ["rbind"];
      if !u.writable {
        opts := opts + ["ro"];
      }
      if u.propagation != Unset {
        opts := opts + u.propagation.Word();
      }
      assert opts == ["rbind"] + (if u.writable then [] else ["ro"]) + u.propagation.Word();
      mounts := mounts + [Mount(u.destination, u.source, "bind", opts)];
      return true;
    }

    method AddAll(user: seq<UserMount>, h: Host) returns (ok: bool)
      requires forall m :: m in mounts ==> m.destination !in Destinations(user)
      modifies this`mounts, this`root
      ensures ok <==> DistinctUser(user) && AllMade(user, h)
      ensures ok ==> mounts == old(mounts) + AllOf(user, h) && root == RootFor(old(root), user)
    {
      for i := 0 to |user|
        invariant Added(old(mounts), user, h, i, mounts) && root == RootFor(old(root), user[..i])
      {
        ghost var before := mounts;
        ok := Add(user[i], h);
        if !ok {
          Rejected(old(mounts), user, h, i, before);
          return;
        }
        RootStep(old(root), user, i);
        Accepted(old(mounts), user, h, i, before);
      }
      assert user[..|user|] == user;
      ok := true;
    }

    method Adjust(taken: set<string>, f: Flags)
      modifies this
      ensures AdjustedAll(mounts, old(mounts), taken, f)
      ensures root == old(root) && hiddenPaths == (old(hiddenPaths) && !f.privileged)
    {
      if f.readonlyRoot {
        for i := 0 to |mounts|
          invariant |mounts| == |old(mounts)| && root == old(root) && hiddenPaths == old(hiddenPaths)
          invariant forall j :: 0 <= j < |mounts| ==>
                      mounts[j] == if j < i then MadeReadOnly(old(mounts)[j], taken, f) else old(mounts)[j]
        {
          var m := mounts[i];
          if m.destination !in NEVER_READ_ONLY && m.destination !in taken && "ro" !in m.options {
            mounts := mounts[i := m.(options := m.options + ["ro"])];
          }
        }
      }
      if f.privileged {
        if !f.readonlyRoot {
          for i := 0 to |mounts|
            invariant |mounts| == |old(mounts)| && root == old(root) && hiddenPaths == old(hiddenPaths)
            invariant forall j :: 0 <= j < |mounts| ==>
                        mounts[j] == if j < i then SysCleared(old(mounts)[j], f) else old(mounts)[j]
          {
            if mounts[i].destination == "/sys" {
              var options := ClearReadOnly(mounts[i].options);
              mounts := mounts[i := mounts[i].(options := options)];
            }
          }
        }
        hiddenPaths := false;
      }
      ghost var before := mounts;
      if f.remapped || f.privileged {
        for i := 0 to |mounts|
          invariant |mounts| == |before| && root == old(root) && hiddenPaths == (old(hiddenPaths) && !f.privileged)
          invariant forall j :: 0 <= j < |mounts| ==>
                      mounts[j] == if j < i then CgroupCleared(before[j], f) else before[j]
        {
          if mounts[i].kind == "cgroup" {
            var options := ClearReadOnly(mounts[i].options);
            mounts := mounts[i := mounts[i].(options := options)];
          }
        }
      }
    }

    /** Puts the user's mounts over the defaults; afterwards come the read-only and privileged adjustments. */
    method SetMounts(user: seq<UserMount>, f: Flags, h: Host) returns (ok: bool)
      modifies this
      ensures ok <==> DistinctUser(user) && AllMade(user, h)
      ensures ok <==> DistinctUser(user) && forall i :: 0 <= i < |user| ==> Allowed(user[i], h)
      ensures ok ==> AdjustedAll(mounts, Kept(old(mounts), Destinations(user)) + AllOf(user, h), Destinations(user), f)
      ensures ok ==> AsExpected(Kept(old(mounts), Destinations(user)), user, f, h, mounts)
      ensures ok ==> root == RootFor(old(root), user) && hiddenPaths == (old(hiddenPaths) && !f.privileged)
    {
      ok := Assemble(user, f, h);
      AllMadeIff(user, h);
      if ok {
        AdjustedAsExpected(old(mounts), user, f, h, mounts);
      }
    }

    /** The three parts in turn. */
    method Assemble(user: seq<UserMount>, f: Flags, h: Host) returns (ok: bool)
      modifies this
      ensures ok <==> DistinctUser(user) && AllMade(user, h)
      ensures ok ==> Assembled(old(mounts), user, f, h, mounts)
      ensures ok ==> root == RootFor(old(root), user) && hiddenPaths == (old(hiddenPaths) && !f.privileged)
    {
      var taken := Destinations(user);
      DropOverridden(taken);
      KeptMeaning(old(mounts), taken);
      ok := AddAll(user, h);
      if ok {
        Adjust(taken, f);
      }
    }
  }

  /** Each mount is the adjusted form of the mount at its place in `all`. */
  ghost predicate AdjustedAll(mounts: seq<Mount>, all: seq<Mount>, taken: set<string>, f: Flags) {
    |mounts| == |all| && forall i :: 0 <= i < |all| ==> mounts[i] == Adjusted(all[i], taken, f)
  }

  /** First the kept defaults, in their order, and then the user's mounts in the user's order, each as it should be. */
  ghost predicate AsExpected(kept: seq<Mount>, user: seq<UserMount>, f: Flags, h: Host, mounts: seq<Mount>) {
    && |mounts| == |kept| + |user|
    && (forall i :: 0 <= i < |kept| ==> FromDefault(kept[i], f, mounts[i]))
    && (forall i :: 0 <= i < |user| ==> AsAsked(user[i], f, h, mounts[|kept| + i]))
  }

  lemma AdjustedAt(a: seq<Mount>, b: seq<Mount>, taken: set<string>, f: Flags, mounts: seq<Mount>, i: nat)
    requires AdjustedAll(mounts, a + b, taken, f) && i < |a| + |b|
    ensures |mounts| == |a| + |b| && mounts[i] == Adjusted(if i < |a| then a[i] else b[i - |a|], taken, f)
  {
  }

  lemma DefaultAt(defaults: seq<Mount>, user: seq<UserMount>, f: Flags, h: Host, mounts: seq<Mount>, i: nat)
    requires Assembled(defaults, user, f, h, mounts) && i < |Kept(defaults, Destinations(user))|
    ensures i < |mounts| && FromDefault(Kept(defaults, Destinations(user))[i], f, mounts[i])
  {
    var taken, kept := Destinations(user), Kept(defaults, Destinations(user));
    KeptMeaning(defaults, taken);
    assert kept[i] in kept;
    AdjustedAt(kept, AllOf(user, h), taken, f, mounts, i);
    KeptFromDefault(kept[i], taken, f);
  }

  lemma UserAt(defaults: seq<Mount>, user: seq<UserMount>, f: Flags, h: Host, mounts: seq<Mount>, i: nat)
    requires Assembled(defaults, user, f, h, mounts) && i < |user|
    ensures var n := |Kept(defaults, Destinations(user))|;
            |mounts| == n + |user| && AsAsked(user[i], f, h, mounts[n + i])
  {
    var taken, kept := Destinations(user), Kept(defaults, Destinations(user));
    AdjustedAt(kept, AllOf(user, h), taken, f, mounts, |kept| + i);
    MadeAsAsked(user[i], h, taken, f);
  }

  lemma AdjustedAsExpected(defaults: seq<Mount>, user: seq<UserMount>, f: Flags, h: Host, mounts: seq<Mount>)
    requires Assembled(defaults, user, f, h, mounts)
    ensures AsExpected(Kept(defaults, Destinations(user)), user, f, h, mounts)
  {
    var kept := Kept(defaults, Destinations(user));
    forall i | 0 <= i < |kept|
      ensures FromDefault(kept[i], f, mounts[i])
    {
      DefaultAt(defaults, user, f, h, mounts, i);
    }
    forall i | 0 <= i < |user|
      ensures AsAsked(user[i], f, h, mounts[|kept| + i])
    {
      UserAt(defaults, user, f, h, mounts, i);
    }
  }

  /** The assembled mounts end with the user's mounts in the user's order, and have distinct destinations if the
      defaults had. */
  lemma AssembledSound(defaults: seq<Mount>, user: seq<UserMount>, f: Flags, h: Host, mounts: seq<Mount>)
    requires Assembled(defaults, user, f, h, mounts)
    ensures forall i :: 0 <= i < |user| ==> mounts[|mounts| - |user| + i].destination == user[i].destination
    ensures Distinct(defaults) ==> Distinct(mounts)
  {
    var all := Kept(defaults, Destinations(user)) + AllOf(user, h);
    SameDestinations(mounts, all, Destinations(user), f);
    forall i | 0 <= i < |user|
      ensures mounts[|mounts| - |user| + i].destination == user[i].destination
    {
      UserPart(Kept(defaults, Destinations(user)), user, h, i);
    }
    if Distinct(defaults) {
      AssembledDistinct(defaults, user, h);
    }
  }

  // ---------------------------------------------------------------------------
  // What the assembled mounts hide

  /** Something mounted later hides what is mounted at this place of the list. */
  ghost predicate HiddenAt(places: seq<string>, i: nat)
    requires i < |places|
  {
    exists j :: i < j < |places| && Hides(places[j], places[i])
  }

  /** No mount hides an earlier one. */
  ghost predicate NestedInOrder(places: seq<string>) {
    forall i, j :: 0 <= i < j < |places| ==> !Hides(places[j], places[i])
  }

  function Places(mounts: seq<Mount>): (places: seq<string>)
    ensures |places| == |mounts| && forall i :: 0 <= i < |mounts| ==> places[i] == mounts[i].destination
  {
    seq(|mounts|, i requires 0 <= i < |mounts| => mounts[i].destination)
  }

  function UserPlaces(user: seq<UserMount>): (places: seq<string>)
    ensures |places| == |user| && forall i :: 0 <= i < |user| ==> places[i] == user[i].destination
  {
    seq(|user|, i requires 0 <= i < |user| => user[i].destination)
  }

  lemma {:induction false} KeptNested(defaults: seq<Mount>, taken: set<string>)
    requires NestedInOrder(Places(defaults))
    ensures NestedInOrder(Places(Kept(defaults, taken)))
  {
    if defaults != [] {
      var init, last := defaults[..|defaults| - 1], defaults[|defaults| - 1];
      var kept := Kept(init, taken);
      InitNested(defaults);
      KeptNested(init, taken);
      KeptMeaning(init, taken);
      forall i | 0 <= i < |kept|
        ensures !Hides(last.destination, kept[i].destination)
      {
        assert kept[i] in kept;
        var j :| 0 <= j < |init| && init[j] == kept[i];
        assert !Hides(Places(defaults)[|defaults| - 1], Places(defaults)[j]);
      }
      MoreNested(kept, last);
    }
  }

  lemma InitNested(mounts: seq<Mount>)
    requires mounts != [] && NestedInOrder(Places(mounts))
    ensures NestedInOrder(Places(mounts[..|mounts| - 1]))
  {
    var init := mounts[..|mounts| - 1];
    assert forall i :: 0 <= i < |init| ==> Places(init)[i] == Places(mounts)[i];
  }

  lemma MoreNested(mounts: seq<Mount>, last: Mount)
    requires NestedInOrder(Places(mounts))
    requires forall i :: 0 <= i < |mounts| ==> !Hides(last.destination, mounts[i].destination)
    ensures NestedInOrder(Places(mounts + [last]))
  {
    var more := mounts + [last];
    assert forall i :: 0 <= i < |mounts| ==> Places(more)[i] == Places(mounts)[i];
  }

  /** The assembled list: adjusted defaults that were kept, and then adjusted user mounts. */
  ghost predicate Assembled(defaults: seq<Mount>, user: seq<UserMount>, f: Flags, h: Host, mounts: seq<Mount>) {
    && DistinctUser(user) && AllMade(user, h)
    && AdjustedAll(mounts, Kept(defaults, Destinations(user)) + AllOf(user, h), Destinations(user), f)
  }

  /** Its places are those of the kept defaults followed by the user's. */
  lemma AssembledPlaces(defaults: seq<Mount>, user: seq<UserMount>, f: Flags, h: Host, mounts: seq<Mount>)
    requires Assembled(defaults, user, f, h, mounts)
    ensures Places(mounts) == Places(Kept(defaults, Destinations(user))) + UserPlaces(user)
  {
    var kept, made := Kept(defaults, Destinations(user)), AllOf(user, h);
    SameDestinations(mounts, kept + made, Destinations(user), f);
    assert Places(mounts) == Places(kept + made);
    PlacesConcat(kept, made);
    PlacesMade(user, h);
  }

  lemma PlacesConcat(a: seq<Mount>, b: seq<Mount>)
    ensures Places(a + b) == Places(a) + Places(b)
  {
  }

  lemma PlacesMade(user: seq<UserMount>, h: Host)
    requires AllMade(user, h)
    ensures Places(AllOf(user, h)) == UserPlaces(user)
  {
    forall i | 0 <= i < |user|
      ensures AllOf(user, h)[i].destination == user[i].destination
    {
      assert Made(user[i], h).Some?;
    }
  }

  lemma HiddenFirst(a: seq<string>, b: seq<string>, i: nat)
    requires NestedInOrder(a) && i < |a|
    ensures HiddenAt(a + b, i) <==> exists k :: 0 <= k < |b| && Hides(b[k], a[i])
  {
    if HiddenAt(a + b, i) {
      var j :| i < j < |a + b| && Hides((a + b)[j], (a + b)[i]);
      assert j >= |a| && (a + b)[j] == b[j - |a|];
    }
    if k :| 0 <= k < |b| && Hides(b[k], a[i]) {
      assert (a + b)[|a| + k] == b[k];
    }
  }

  lemma HiddenSecond(a: seq<string>, b: seq<string>, k: nat)
    requires k < |b|
    ensures HiddenAt(a + b, |a| + k) <==> HiddenAt(b, k)
  {
    if HiddenAt(a + b, |a| + k) {
      var j :| |a| + k < j < |a + b| && Hides((a + b)[j], (a + b)[|a| + k]);
      assert (a + b)[j] == b[j - |a|];
    }
    if HiddenAt(b, k) {
      var j :| k < j < |b| && Hides(b[j], b[k]);
      assert (a + b)[|a| + j] == b[j];
    }
  }

  /** A kept default is hidden exactly when the user mounts something on one of its ancestor directories. */
  lemma DefaultHiddenIff(defaults: seq<Mount>, user: seq<UserMount>, f: Flags, h: Host, mounts: seq<Mount>, i: nat)
    requires Assembled(defaults, user, f, h, mounts) && NestedInOrder(Places(defaults))
    requires i < |Kept(defaults, Destinations(user))|
    ensures i < |mounts| && (HiddenAt(Places(mounts), i) <==>
              exists k :: 0 <= k < |user| && Hides(user[k].destination, mounts[i].destination))
  {
    var a, b := Places(Kept(defaults, Destinations(user))), UserPlaces(user);
    AssembledPlaces(defaults, user, f, h, mounts);
    KeptNested(defaults, Destinations(user));
    HiddenFirst(a, b, i);
    assert mounts[i].destination == Places(mounts)[i] == a[i];
    assert forall k :: 0 <= k < |user| ==> b[k] == user[k].destination;
  }

  /** A user mount is hidden exactly when a later one is on the same directory, on the root over a top-level directory,
      or above it with one of the two being relative. */
  lemma UserHiddenIff(defaults: seq<Mount>, user: seq<UserMount>, f: Flags, h: Host, mounts: seq<Mount>, k: nat)
    requires Assembled(defaults, user, f, h, mounts) && SortedByParts(user) && k < |user|
    ensures |user| <= |mounts| && (HiddenAt(Places(mounts), |mounts| - |user| + k) <==>
              exists j :: k < j < |user| && Uncovered(user[j].destination, user[k].destination))
  {
    var a, b := Places(Kept(defaults, Destinations(user))), UserPlaces(user);
    AssembledPlaces(defaults, user, f, h, mounts);
    assert |mounts| == |Places(mounts)| == |a| + |user|;
    HiddenSecond(a, b, k);
    SortedHidden(user, k);
  }

  lemma SortedHidden(user: seq<UserMount>, k: nat)
    requires SortedByParts(user) && k < |user|
    ensures HiddenAt(UserPlaces(user), k) <==>
            exists j :: k < j < |user| && Uncovered(user[j].destination, user[k].destination)
  {
    var places := UserPlaces(user);
    if HiddenAt(places, k) {
      var j :| k < j < |places| && Hides(places[j], places[k]);
      SortedHidesIff(user, k, j);
      assert Uncovered(user[j].destination, user[k].destination);
    }
    if j :| k < j < |user| && Uncovered(user[j].destination, user[k].destination) {
      SortedHidesIff(user, k, j);
      assert Hides(places[j], places[k]);
    }
  }

  /** All destinations are absolute and written as cleaning writes them. */
  ghost predicate CleanDestinations(user: seq<UserMount>) {
    forall i :: 0 <= i < |user| ==> Rooted(user[i].destination) && Clean(user[i].destination) == user[i].destination
  }

  /** With clean absolute destinations, which a caller can check, only the root can hide an accepted user mount. */
  lemma CleanUserHiddenIff(defaults: seq<Mount>, user: seq<UserMount>, f: Flags, h: Host, mounts: seq<Mount>, k: nat)
    requires Assembled(defaults, user, f, h, mounts) && SortedByParts(user) && k < |user| && CleanDestinations(user)
    ensures |user| <= |mounts| && (HiddenAt(Places(mounts), |mounts| - |user| + k) <==>
              exists j :: k < j < |user| && RootOver(user[j].destination, user[k].destination))
  {
    UserHiddenIff(defaults, user, f, h, mounts, k);
    forall j | k < j < |user|
      ensures Uncovered(user[j].destination, user[k].destination) <==>
              RootOver(user[j].destination, user[k].destination)
    {
      CleanSamePlaceIff(user[j].destination, user[k].destination);
    }
  }

  /** A bind mount and a tmpfs on the same directory, the latter with a trailing slash. */
  function Twice(path: string, source: string, writable: bool): seq<UserMount> {
    [UserMount(source, path, writable, Unset), UserMount("tmpfs", path + "/", true, Unset)]
  }

  lemma TwicePlaces(path: string, source: string, writable: bool)
    requires path != ""
    ensures UserPlaces(Twice(path, source, writable)) == [path, path + "/"]
    ensures SortedByParts(Twice(path, source, writable)) && path != path + "/" && Hides(path + "/", path)
  {
    TrailingSlashSamePlace(path);
  }

  /** They are accepted together, under two destinations, and the one that comes later hides the other. */
  lemma TrailingSlashHides(path: string, source: string, writable: bool, h: Host, f: Flags, mounts: seq<Mount>)
    requires path != "" && Assembled([], Twice(path, source, writable), f, h, mounts)
    ensures SortedByParts(Twice(path, source, writable))
    ensures |mounts| == 2 && mounts[0].destination != mounts[1].destination && HiddenAt(Places(mounts), 0)
  {
    TwicePlaces(path, source, writable);
    AssembledPlaces([], Twice(path, source, writable), f, h, mounts);
    assert Kept([], Destinations(Twice(path, source, writable))) == [];
    assert Places(mounts) == [] + [path, path + "/"] == [path, path + "/"];
    assert Hides(Places(mounts)[1], Places(mounts)[0]);
  }

  // ---------------------------------------------------------------------------
  // The mounts that every container starts from

  const DEFAULT_PROC := Mount("/proc", "proc", "proc", ["nosuid", "noexec", "nodev"])
  const DEFAULT_DEV := Mount("/dev", "tmpfs", "tmpfs", ["nosuid", "strictatime", "mode=755"])
  const DEFAULT_PTS :=
    Mount("/dev/pts", "devpts", "devpts", ["nosuid", "noexec", "newinstance", "ptmxmode=0666", "mode=0620", "gid=5"])
  const DEFAULT_SYS := Mount("/sys", "sysfs", "sysfs", ["nosuid", "noexec", "nodev", "ro"])
  const DEFAULT_CGROUP := Mount("/sys/fs/cgroup", "cgroup", "cgroup", ["ro", "nosuid", "noexec", "nodev"])
  const DEFAULT_MQUEUE := Mount("/dev/mqueue", "mqueue", "mqueue", ["nosuid", "noexec", "nodev"])
  const DEFAULT_MOUNTS := [DEFAULT_PROC, DEFAULT_DEV, DEFAULT_PTS, DEFAULT_SYS, DEFAULT_CGROUP, DEFAULT_MQUEUE]

  /** The names in the destinations of the defaults. */
  datatype Layout = Layout(
    proc: string, dev: string, pts: string, sys: string, fs: string, cgroup: string, mqueue: string)
  {
    predicate Proper() {
      && Plain(proc) && Plain(dev) && Plain(pts) && Plain(sys) && Plain(fs) && Plain(cgroup) && Plain(mqueue)
      && proc != dev && proc != sys && dev != sys && pts != mqueue
    }

    /** The destinations in the order of the defaults. */
    function Order(): seq<string> {
      ["/" + proc, "/" + dev, "/" + dev + "/" + pts, "/" + sys, "/" + sys + "/" + fs + "/" + cgroup,
       "/" + dev + "/" + mqueue]
    }

    /** The same when the user has replaced `sys`. */
    function Replaced(): seq<string> {
      ["/" + proc, "/" + dev, "/" + dev + "/" + pts, "/" + sys + "/" + fs + "/" + cgroup, "/" + dev + "/" + mqueue,
       "/" + sys]
    }
  }

  const LAYOUT := Layout("proc", "dev", "pts", "sys", "fs", "cgroup", "mqueue")

  lemma LayoutProper()
    ensures LAYOUT.Proper()
  {
    assert |"proc"| == 4 && |"dev"| == |"sys"| == |"pts"| == 3 && |"mqueue"| == 6;
    assert "dev"[0] != "sys"[0];
  }

  lemma OrderPlaces(n: Layout)
    requires n.Proper()
    ensures Place("/" + n.proc) == [n.proc] && Place("/" + n.dev) == [n.dev] && Place("/" + n.sys) == [n.sys]
    ensures Place("/" + n.dev + "/" + n.pts) == [n.dev, n.pts]
    ensures Place("/" + n.dev + "/" + n.mqueue) == [n.dev, n.mqueue]
    ensures Place("/" + n.sys + "/" + n.fs + "/" + n.cgroup) == [n.sys, n.fs, n.cgroup]
  {
    OneName(n.proc);
    OneName(n.dev);
    OneName(n.sys);
    TwoNames(n.dev, n.pts);
    TwoNames(n.dev, n.mqueue);
    ThreeNames(n.sys, n.fs, n.cgroup);
  }

  lemma NotPrefix<T>(a: seq<T>, b: seq<T>, k: nat)
    requires k < |a| && (k >= |b| || a[k] != b[k])
    ensures !(a <= b)
  {
  }

  lemma OrderNested(n: Layout)
    requires n.Proper()
    ensures NestedInOrder(n.Order())
  {
    OrderPlaces(n);
    var places := n.Order();
    var names := [[n.proc], [n.dev], [n.dev, n.pts], [n.sys], [n.sys, n.fs, n.cgroup], [n.dev, n.mqueue]];
    assert forall i :: 0 <= i < 6 ==> Place(places[i]) == names[i];
    forall i, j | 0 <= i < j < |places|
      ensures !Hides(places[j], places[i])
    {
      NotPrefix(names[j], names[i], if names[j][0] == names[i][0] then 1 else 0);
    }
  }

  lemma DefaultOrder()
    ensures Places(DEFAULT_MOUNTS) == LAYOUT.Order()
  {
    assert "/" + "proc" == "/proc" && "/" + "dev" == "/dev" && "/" + "sys" == "/sys";
    assert "/" + "dev" + "/" + "pts" == "/dev/pts" && "/" + "dev" + "/" + "mqueue" == "/dev/mqueue";
    assert "/" + "sys" + "/" + "fs" + "/" + "cgroup" == "/sys/fs/cgroup";
  }

  /** The defaults are on different directories, and none hides an earlier one. */
  lemma DefaultsNested()
    ensures Distinct(DEFAULT_MOUNTS) && NestedInOrder(Places(DEFAULT_MOUNTS))
  {
    LayoutProper();
    DefaultOrder();
    OrderNested(LAYOUT);
    DistinctPlaces(DEFAULT_MOUNTS);
  }

  lemma DistinctPlaces(mounts: seq<Mount>)
    requires NestedInOrder(Places(mounts))
    ensures Distinct(mounts)
  {
    forall i, j | 0 <= i < j < |mounts|
      ensures mounts[i].destination != mounts[j].destination
    {
      assert !Hides(Places(mounts)[j], Places(mounts)[i]);
    }
  }

  lemma ReplacedHidden(n: Layout, i: nat)
    requires n.Proper() && i < |n.Replaced()|
    ensures HiddenAt(n.Replaced(), i) <==> i == 3
  {
    OrderPlaces(n);
    var places := n.Replaced();
    var names := [[n.proc], [n.dev], [n.dev, n.pts], [n.sys, n.fs, n.cgroup], [n.dev, n.mqueue], [n.sys]];
    assert forall i :: 0 <= i < 6 ==> Place(places[i]) == names[i];
    if i == 3 {
      assert names[5] <= names[3];
      assert Hides(places[5], places[3]);
    } else {
      forall j | i < j < |places|
        ensures !Hides(places[j], places[i])
      {
        NotPrefix(names[j], names[i], if names[j][0] == names[i][0] then 1 else 0);
      }
    }
  }

  /** A user mount on /sys replaces the default one there, but not the control groups below it, which it then hides. */
  lemma SysHidesCgroups(u: UserMount, f: Flags, h: Host, mounts: seq<Mount>, i: nat)
    requires u.destination == "/sys" && Assembled(DEFAULT_MOUNTS, [u], f, h, mounts) && i < |mounts|
    ensures Places(mounts) == LAYOUT.Replaced() && mounts[3].destination == "/sys/fs/cgroup"
    ensures HiddenAt(Places(mounts), i) <==> i == 3
  {
    SysPlaces(u, f, h, mounts);
    LayoutProper();
    ReplacedHidden(LAYOUT, i);
  }

  lemma SysPlaces(u: UserMount, f: Flags, h: Host, mounts: seq<Mount>)
    requires u.destination == "/sys" && Assembled(DEFAULT_MOUNTS, [u], f, h, mounts)
    ensures Places(mounts) == LAYOUT.Replaced() && mounts[3].destination == "/sys/fs/cgroup"
  {
    assert [u][0].destination == "/sys";
    assert Destinations([u]) == {"/sys"};
    SysReplaced();
    AssembledPlaces(DEFAULT_MOUNTS, [u], f, h, mounts);
    assert UserPlaces([u]) == ["/sys"];
    assert "/" + "proc" == "/proc" && "/" + "dev" == "/dev" && "/" + "sys" == "/sys";
    assert "/" + "dev" + "/" + "pts" == "/dev/pts" && "/" + "dev" + "/" + "mqueue" == "/dev/mqueue";
    assert "/" + "sys" + "/" + "fs" + "/" + "cgroup" == "/sys/fs/cgroup";
  }

  lemma SysReplaced()
    ensures Places(Kept(DEFAULT_MOUNTS, {"/sys"})) == ["/proc", "/dev", "/dev/pts", "/sys/fs/cgroup", "/dev/mqueue"]
  {
    var d := DEFAULT_MOUNTS;
    assert d[..5][..4] == d[..4] && d[..4][..3] == d[..3] && d[..3][..2] == d[..2] && d[..2][..1] == d[..1];
    assert d[..1][..0] == [] && d[..1][0] == DEFAULT_PROC;
    assert Kept(d[..1], {"/sys"}) == [DEFAULT_PROC];
    assert Kept(d[..2], {"/sys"}) == [DEFAULT_PROC, DEFAULT_DEV];
    assert Kept(d[..3], {"/sys"}) == [DEFAULT_PROC, DEFAULT_DEV, DEFAULT_PTS];
    assert d[..4][3] == DEFAULT_SYS && Kept(d[..4], {"/sys"}) == [DEFAULT_PROC, DEFAULT_DEV, DEFAULT_PTS];
    assert "/sys/fs/cgroup" != "/sys" by { assert |"/sys/fs/cgroup"| != |"/sys"|; }
    assert Kept(d[..5], {"/sys"}) == [DEFAULT_PROC, DEFAULT_DEV, DEFAULT_PTS, DEFAULT_CGROUP];
    assert Kept(d, {"/sys"}) == [DEFAULT_PROC, DEFAULT_DEV, DEFAULT_PTS, DEFAULT_CGROUP, DEFAULT_MQUEUE];
  }

  lemma UserPart(kept: seq<Mount>, user: seq<UserMount>, h: Host, i: nat)
    requires AllMade(user, h) && i < |user|
    ensures (kept + AllOf(user, h))[|kept| + i].destination == user[i].destination
  {
    assert Made(user[i], h).Some?;
  }

  lemma SameDestinations(mounts: seq<Mount>, all: seq<Mount>, taken: set<string>, f: Flags)
    requires AdjustedAll(mounts, all, taken, f)
    ensures forall i :: 0 <= i < |all| ==> mounts[i].destination == all[i].destination
    ensures Distinct(all) ==> Distinct(mounts)
  {
    forall i | 0 <= i < |all|
      ensures mounts[i].destination == all[i].destination
    {
      assert mounts[i] == Adjusted(all[i], taken, f);
    }
  }

  method ClearReadOnly(options: seq<string>) returns (cleared: seq<string>)
    ensures cleared == WithoutRO(options)
  {
    cleared := [];
    for i := 0 to |options|
      invariant cleared == WithoutRO(options[..i])
    {
      assert options[..i + 1][..i] == options[..i];
      if options[i] != "ro" {
        cleared := cleared + [options[i]];
      }
    }
    assert options[..|options|] == options;
  }

  /** The first `i` user mounts have been added to those kept. */
  ghost predicate Added(kept: seq<Mount>, user: seq<UserMount>, h: Host, i: nat, mounts: seq<Mount>)
    requires i <= |user|
  {
    DistinctUser(user[..i]) && AllMade(user[..i], h) && mounts == kept + AllOf(user[..i], h)
  }

  lemma RootStep(root: Propagation, user: seq<UserMount>, i: nat)
    requires i < |user|
    ensures RootFor(root, user[..i + 1]) == Strengthened(RootFor(root, user[..i]), user[i])
  {
    assert user[..i + 1] == user[..i] + [user[i]];
    RootGrows(root, user[..i], user[i]);
  }

  /** A user mount that is accepted extends the list. */
  lemma Accepted(kept: seq<Mount>, user: seq<UserMount>, h: Host, i: nat, before: seq<Mount>)
    requires i < |user| && Added(kept, user, h, i, before) && Made(user[i], h).Some?
    requires forall j :: 0 <= j < |before| ==> before[j].destination != user[i].destination
    ensures Added(kept, user, h, i + 1, before + [Made(user[i], h).value])
  {
    forall j | 0 <= j < i
      ensures user[j].destination != user[i].destination
    {
      assert before[|kept| + j] == Made(user[..i][j], h).value;
    }
    assert user[..i + 1][..i] == user[..i];
  }

  /** When a user mount is refused, it repeats an earlier destination or the host does not allow it. */
  lemma Rejected(kept: seq<Mount>, user: seq<UserMount>, h: Host, i: nat, before: seq<Mount>)
    requires i < |user| && Added(kept, user, h, i, before)
    requires forall m :: m in kept ==> m.destination !in Destinations(user)
    requires Made(user[i], h).None? || exists j :: 0 <= j < |before| && before[j].destination == user[i].destination
    ensures !(DistinctUser(user) && AllMade(user, h))
  {
    assert user[i].destination in Destinations(user);
    assert forall j :: 0 <= j < |kept| ==> kept[j] in kept;
    if Made(user[i], h).Some? {
      var j :| 0 <= j < |before| && before[j].destination == user[i].destination;
      assert j >= |kept|;
      assert before[j] == Made(user[..i][j - |kept|], h).value;
    }
  }
}
