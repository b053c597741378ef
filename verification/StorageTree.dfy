/** Byte and file accounting of a quarantined tree, and what an interrupted recursive removal
    does to the check that guards a retry. */
module StorageTree {

  import opened Wrappers

  datatype Tree = File(size: nat) | Dir(children: seq<Tree>)

  lemma NothingToCount()
    ensures BytesOf([]) == 0 && FilesOf([]) == 0 && NodesOf([]) == 0
  {
  }

  lemma Pushed(trees: seq<Tree>, t: Tree)
    ensures BytesOf(trees + [t]) == BytesOf(trees) + Bytes(t)
    ensures FilesOf(trees + [t]) == FilesOf(trees) + Files(t)
    ensures NodesOf(trees + [t]) == NodesOf(trees) + Nodes(t)
    ensures trees == [] ==> trees + [t] == [t]
  {
    SumsSplit(trees, [t]);
  }

  lemma DirSums(t: Tree)
    requires t.Dir?
    ensures Bytes(t) == BytesOf(t.children) && Files(t) == FilesOf(t.children) && Nodes(t) == 1 + NodesOf(t.children)
  {
  }

  lemma NextEntry(trees: seq<Tree>, i: nat)
    requires i < |trees|
    ensures BytesOf(trees[i..]) == Bytes(trees[i]) + BytesOf(trees[i + 1..])
    ensures FilesOf(trees[i..]) == Files(trees[i]) + FilesOf(trees[i + 1..])
    ensures NodesOf(trees[i..]) == Nodes(trees[i]) + NodesOf(trees[i + 1..])
    ensures trees[i].File? ==> Bytes(trees[i]) == trees[i].size && Files(trees[i]) == 1
    ensures trees[|trees|..] == [] && BytesOf([]) == 0 && FilesOf([]) == 0 && NodesOf([]) == 0
  {
    assert trees[i..][0] == trees[i] && trees[i..][1..] == trees[i + 1..];
  }

  /** The traversal of `_tree_usage`: a work list of directories and two running totals. The
      caller's answer is `Bytes(tree)` and `Files(tree)`. */
  method TreeUsage(tree: Tree) returns (bytes: nat, files: nat)
    ensures bytes == Bytes(tree) && files == Files(tree)
  {
    if tree.File? {
      return tree.size, 1;
    }
    hide Bytes, Files, Nodes, BytesOf, FilesOf, NodesOf;
    var pending := [tree];
    bytes, files := 0, 0;
    NothingToCount();
    Pushed([], tree);
    while pending != []
      invariant forall t | t in pending :: t.Dir?
      invariant bytes + BytesOf(pending) == Bytes(tree)
      invariant files + FilesOf(pending) == Files(tree)
      decreases NodesOf(pending)
    {
      var current := pending[|pending| - 1];
      var rest := pending[..|pending| - 1];
      assert pending == rest + [current];
      Pushed(rest, current);
      DirSums(current);
      pending := rest;
      var i := 0;
      assert current.children[0..] == current.children;
      while i < |current.children|
        invariant 0 <= i <= |current.children|
        invariant forall t | t in pending :: t.Dir?
        invariant bytes + BytesOf(pending) + BytesOf(current.children[i..]) == Bytes(tree)
        invariant files + FilesOf(pending) + FilesOf(current.children[i..]) == Files(tree)
        invariant NodesOf(pending) + NodesOf(current.children[i..]) <= NodesOf(rest) + NodesOf(current.children)
      {
        var entry := current.children[i];
        NextEntry(current.children, i);
        if entry.Dir? {
          Pushed(pending, entry);
          pending := pending + [entry];
        } else {
          bytes := bytes + entry.size;
          files := files + 1;
        }
        i := i + 1;
      }
    }
  }

  function Bytes(tree: Tree): nat {
    match tree
    case File(size) => size
    case Dir(children) => BytesOf(children)
  }

  function BytesOf(trees: seq<Tree>): nat {
    if trees == [] then 0 else Bytes(trees[0]) + BytesOf(trees[1..])
  }

  function Files(tree: Tree): nat {
    match tree
    case File(_) => 1
    case Dir(children) => FilesOf(children)
  }

  function FilesOf(trees: seq<Tree>): nat {
    if trees == [] then 0 else Files(trees[0]) + FilesOf(trees[1..])
  }

  ghost function Nodes(tree: Tree): nat {
    match tree
    case File(_) => 1
    case Dir(children) => 1 + NodesOf(children)
  }

  ghost function NodesOf(trees: seq<Tree>): nat {
    if trees == [] then 0 else Nodes(trees[0]) + NodesOf(trees[1..])
  }

  lemma {:induction false} SumsSplit(a: seq<Tree>, b: seq<Tree>)
    ensures BytesOf(a + b) == BytesOf(a) + BytesOf(b)
    ensures FilesOf(a + b) == FilesOf(a) + FilesOf(b)
    ensures NodesOf(a + b) == NodesOf(a) + NodesOf(b)
  {
    if a == [] {
      assert a + b == b;
    } else {
      assert (a + b)[0] == a[0] && (a + b)[1..] == a[1..] + b;
      SumsSplit(a[1..], b);
    }
  }

  /** One unlink or rmdir of a recursive removal, anywhere in the tree: a file, or an empty
      directory, disappears from the directory that holds it. */
  ghost predicate Removal(before: Tree, after: Tree) {
    match (before, after)
    case (Dir(old_), Dir(new_)) =>
      || (exists i | 0 <= i < |old_| :: Removable(old_[i]) && new_ == old_[..i] + old_[i + 1..])
      || (exists i | 0 <= i < |old_| && i < |new_| :: Removal(old_[i], new_[i]) && new_ == old_[..i] + [new_[i]] + old_[i + 1..])
    case _ => false
  }

  predicate Removable(tree: Tree) { tree.File? || tree.children == [] }

  /** A removal interrupted after any number of unlinks: `steps` are the successive trees. */
  ghost predicate PartialRemoval(steps: seq<Tree>) {
    |steps| > 0 && forall k | 0 <= k < |steps| - 1 :: Removal(steps[k], steps[k + 1])
  }

  /** The sizes of the files below a tree, with multiplicity. */
  ghost function Contents(tree: Tree): multiset<nat> {
    match tree
    case File(size) => multiset{size}
    case Dir(children) => ContentsOf(children)
  }

  ghost function ContentsOf(trees: seq<Tree>): multiset<nat> {
    if trees == [] then multiset{} else Contents(trees[0]) + ContentsOf(trees[1..])
  }

  lemma {:induction false} ContentsSplit(a: seq<Tree>, b: seq<Tree>)
    ensures ContentsOf(a + b) == ContentsOf(a) + ContentsOf(b)
  {
    if a == [] {
      assert a + b == b;
    } else {
      assert (a + b)[0] == a[0] && (a + b)[1..] == a[1..] + b;
      ContentsSplit(a[1..], b);
    }
  }

  /** The accounting counts the files exactly. */
  lemma {:induction false} FilesCountsContents(tree: Tree)
    ensures Files(tree) == |Contents(tree)|
    decreases tree, 1
  {
    if tree.Dir? {
      FilesOfCountsContents(tree.children);
    }
  }

  lemma {:induction false} FilesOfCountsContents(trees: seq<Tree>)
    ensures FilesOf(trees) == |ContentsOf(trees)|
    decreases trees, 0
  {
    if trees != [] {
      FilesCountsContents(trees[0]);
      FilesOfCountsContents(trees[1..]);
    }
  }

  lemma SplitAt(trees: seq<Tree>, i: nat)
    requires i < |trees|
    ensures FilesOf(trees) == FilesOf(trees[..i]) + Files(trees[i]) + FilesOf(trees[i + 1..])
    ensures ContentsOf(trees) == ContentsOf(trees[..i]) + Contents(trees[i]) + ContentsOf(trees[i + 1..])
    ensures BytesOf(trees) == BytesOf(trees[..i]) + Bytes(trees[i]) + BytesOf(trees[i + 1..])
  {
    var tail := trees[i..];
    assert trees == trees[..i] + tail && tail[0] == trees[i] && tail[1..] == trees[i + 1..];
    ContentsSplit(trees[..i], tail);
    SumsSplit(trees[..i], tail);
  }

  /** What can become of a tree while it is being removed: nothing that counts has changed, or
      files are missing. */
  ghost predicate Untouched(before: Tree, after: Tree) {
    Contents(after) == Contents(before) && Bytes(after) == Bytes(before)
  }

  ghost predicate Reduced(before: Tree, after: Tree) {
    Files(after) < Files(before)
  }

  lemma RemovalHere(before: Tree, after: Tree, i: nat)
    requires before.Dir? && after.Dir? && i < |before.children| && Removable(before.children[i])
    requires after.children == before.children[..i] + before.children[i + 1..]
    ensures Untouched(before, after) || Reduced(before, after)
  {
    var old_ := before.children;
    SplitAt(old_, i);
    ContentsSplit(old_[..i], old_[i + 1..]);
    SumsSplit(old_[..i], old_[i + 1..]);
    if old_[i].Dir? {
      assert Contents(old_[i]) == multiset{} && Bytes(old_[i]) == 0;
    } else {
      assert Files(old_[i]) == 1;
    }
  }

  lemma RemovalBelow(before: Tree, after: Tree, i: nat)
    requires before.Dir? && after.Dir? && i < |before.children| && i < |after.children|
    requires after.children == before.children[..i] + [after.children[i]] + before.children[i + 1..]
    requires Untouched(before.children[i], after.children[i]) || Reduced(before.children[i], after.children[i])
    ensures Untouched(before, after) || Reduced(before, after)
  {
    var old_, new_ := before.children, after.children;
    SplitAt(old_, i);
    SplitAt(new_, i);
    assert new_[..i] == old_[..i] && new_[i + 1..] == old_[i + 1..];
  }

  /** One removal either takes a file away or leaves every file and byte in place. */
  lemma {:induction false} RemovalTakesFilesOrNothing(before: Tree, after: Tree)
    requires Removal(before, after)
    ensures Untouched(before, after) || Reduced(before, after)
    decreases before
  {
    var old_, new_ := before.children, after.children;
    if i :| 0 <= i < |old_| && Removable(old_[i]) && new_ == old_[..i] + old_[i + 1..] {
      RemovalHere(before, after, i);
    } else {
      var i :| 0 <= i < |old_| && i < |new_| && Removal(old_[i], new_[i]) && new_ == old_[..i] + [new_[i]] + old_[i + 1..];
      RemovalTakesFilesOrNothing(old_[i], new_[i]);
      RemovalBelow(before, after, i);
    }
  }

  lemma {:induction false} PartialRemovalTakesFilesOrNothing(steps: seq<Tree>)
    requires PartialRemoval(steps)
    ensures Untouched(steps[0], Last(steps)) || Reduced(steps[0], Last(steps))
  {
    if |steps| > 1 {
      var shorter := steps[..|steps| - 1];
      assert PartialRemoval(shorter) by {
        forall k | 0 <= k < |shorter| - 1 ensures Removal(shorter[k], shorter[k + 1]) {
          assert Removal(steps[k], steps[k + 1]);
        }
      }
      PartialRemovalTakesFilesOrNothing(shorter);
      RemovalTakesFilesOrNothing(steps[|steps| - 2], steps[|steps| - 1]);
      FilesCountsContents(steps[0]);
      FilesCountsContents(Last(shorter));
      FilesCountsContents(Last(steps));
      assert Last(shorter) == steps[|steps| - 2] && shorter[0] == steps[0];
    }
  }

  /** After an interrupted removal the usage check of a retry passes exactly when every file is
      still there: a tree that lost only empty directories is retried, a tree that lost a file
      is refused for good. */
  lemma RetryIsPossibleIffNoFileWasRemoved(steps: seq<Tree>)
    requires PartialRemoval(steps)
    ensures Bytes(Last(steps)) == Bytes(steps[0]) && Files(Last(steps)) == Files(steps[0])
       <==> Contents(Last(steps)) == Contents(steps[0])
  {
    PartialRemovalTakesFilesOrNothing(steps);
    FilesCountsContents(steps[0]);
    FilesCountsContents(Last(steps));
  }

  lemma FirstFileRemoved()
    ensures Removal(Dir([File(1), File(2)]), Dir([File(2)]))
  {
    var old_, new_ := [File(1), File(2)], [File(2)];
    assert Removable(old_[0]) && new_ == old_[..0] + old_[0 + 1..];
  }

  lemma OneOfTwoIsLeft()
    ensures Files(Dir([File(1), File(2)])) == 2 && Files(Dir([File(2)])) == 1
  {
    assert [File(1), File(2)][1..] == [File(2)];
    assert [File(2)][1..] == [];
  }

  /** The documented retry after a crash does fail on this tree: one of its two files is gone. */
  lemma HalfDeletedTreeIsRefused()
    ensures var before, after := Dir([File(1), File(2)]), Dir([File(2)]);
            PartialRemoval([before, after]) && (Bytes(after), Files(after)) != (Bytes(before), Files(before))
  {
    hide Removal;
    FirstFileRemoved();
    OneOfTwoIsLeft();
  }
}
