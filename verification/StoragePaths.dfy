/** Canonical absolute paths, the hierarchy test of the maintenance journal, and the
    roots it is allowed to touch. */
module StoragePaths {

  import opened Wrappers

  /** One path component. `Trash` is the reserved quarantine directory `.trash`; `Parked`
      is the deterministic quarantine name built from a target name, an operation
      identifier and a target index. */
  datatype Component =
    | Named(text: string)
    | Trash
    | Parked(base: Component, operation: nat, index: nat)

  /** A normalised absolute path: an anchor (drive, empty on POSIX) and its components. */
  datatype Path = Path(anchor: string, parts: seq<Component>)

  function Child(parent: Path, name: Component): Path {
    Path(parent.anchor, parent.parts + [name])
  }

  /** `inner` is `outer` or lies below it. */
  ghost predicate Within(inner: Path, outer: Path) {
    inner.anchor == outer.anchor && outer.parts <= inner.parts
  }

  /** The longest common run of leading components: what `commonpath` computes. */
  function CommonParts(left: seq<Component>, right: seq<Component>): seq<Component> {
    if left == [] || right == [] || left[0] != right[0] then []
    else [left[0]] + CommonParts(left[1..], right[1..])
  }

  /** `commonpath`: there is none across anchors (a ValueError in the source). */
  function CommonPath(left: Path, right: Path): Option<Path> {
    if left.anchor != right.anchor then None
    else Some(Path(left.anchor, CommonParts(left.parts, right.parts)))
  }

  predicate Overlap(left: Path, right: Path) {
    match CommonPath(left, right)
    case None => false
    case Some(common) => common == left || common == right
  }

  lemma {:induction false} CommonPartsIsGreatest(left: seq<Component>, right: seq<Component>, other: seq<Component>)
    ensures CommonParts(left, right) <= left && CommonParts(left, right) <= right
    ensures other <= left && other <= right ==> other <= CommonParts(left, right)
  {
    if left != [] && right != [] && left[0] == right[0] {
      var rest := if other == [] then [] else other[1..];
      CommonPartsIsGreatest(left[1..], right[1..], rest);
      if other <= left && other <= right && other != [] {
        assert rest <= left[1..] && rest <= right[1..];
        assert other == [other[0]] + rest;
      }
    }
  }

  /** The `commonpath` test is exactly "one path equals, contains or lies within the other". */
  lemma {:induction false} OverlapIsContainment(left: Path, right: Path)
    ensures Overlap(left, right) <==> Within(left, right) || Within(right, left)
  {
    CommonPartsIsGreatest(left.parts, right.parts, left.parts);
    CommonPartsIsGreatest(left.parts, right.parts, right.parts);
  }

  /** Roots accepted for maintenance targets: the three trusted roots below the data root and
      the direct children of the jobs root that are not its quarantine. */
  predicate AuthorizedRoot(data: Path, root: Path) {
    || root in TrustedRoots(data)
    || exists c: Component | c in root.parts :: c != Trash && c != Named("") && root == Child(JobsRoot(data), c)
  }

  function JobsRoot(data: Path): Path { Child(data, Named("jobs")) }

  function TrustedRoots(data: Path): set<Path> {
    {JobsRoot(data), Child(data, Named("completed")), Child(data, Named("release-kits"))}
  }

  /** What the two path families need: a root has a last component, and it is not `.trash`. */
  predicate ProperRoot(root: Path) {
    |root.parts| > 0 && Last(root.parts) != Trash
  }

  lemma AuthorizedRootsAreProper(data: Path, root: Path)
    requires AuthorizedRoot(data, root)
    ensures ProperRoot(root)
  {
  }

  /** Where an operation parks the target called `name` of `root`. */
  function ParkingPlace(root: Path, name: Component, operation: nat, index: nat): Path {
    Child(Child(root, Trash), Parked(name, operation, index))
  }

  /** Parking places are unique to an operation and an index, and never an original path. */
  lemma ParkingPlacesAreUnique(r1: Path, n1: Component, o1: nat, i1: nat, r2: Path, n2: Component, o2: nat, i2: nat)
    requires ProperRoot(r2)
    ensures ParkingPlace(r1, n1, o1, i1) == ParkingPlace(r2, n2, o2, i2) ==> o1 == o2 && i1 == i2
    ensures ParkingPlace(r1, n1, o1, i1) != Child(r2, n2)
  {
    var parked := ParkingPlace(r1, n1, o1, i1).parts;
    var other := ParkingPlace(r2, n2, o2, i2).parts;
    var original := Child(r2, n2).parts;
    assert parked[|parked| - 1] == Parked(n1, o1, i1) && parked[|parked| - 2] == Trash;
    assert other[|other| - 1] == Parked(n2, o2, i2);
    assert original[|original| - 2] == Last(r2.parts);
  }

  /** Two targets of one operation can only be nested when one of them is a job workspace and
      the other is a child of that workspace: `begin` rejects duplicates but not this pair.
      No handler builds it, since each uses roots from one of the two families only. */
  lemma NestedTargets(data: Path, r1: Path, n1: Component, r2: Path, n2: Component)
    requires AuthorizedRoot(data, r1) && AuthorizedRoot(data, r2)
    requires n1 != Trash && n2 != Trash
    ensures Within(Child(r2, n2), Child(r1, n1)) <==>
              Child(r1, n1) == Child(r2, n2) || (r1 == JobsRoot(data) && r2 == Child(r1, n1))
  {
    var outer := Child(r1, n1).parts;
    var inner := Child(r2, n2).parts;
    if Within(Child(r2, n2), Child(r1, n1)) && Child(r1, n1) != Child(r2, n2) {
      assert |outer| == |inner| ==> outer == inner;
      assert |data.parts| + 2 <= |outer| && |inner| <= |data.parts| + 3;
      assert r2.parts == inner[..|outer|] == outer;
      assert r1.parts == outer[..|outer| - 1] == r2.parts[..|r2.parts| - 1];
      assert r1.parts == JobsRoot(data).parts;
    }
    if r1 == JobsRoot(data) && r2 == Child(r1, n1) {
      assert outer == inner[..|outer|];
    }
  }
}
