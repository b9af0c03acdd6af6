// The parent-chain walk shared by Department (both controllers) and Product
// Category: starting from a record's parent, follow the stored parent links
// with a set of names already seen (the record's own name first) and report
// a cycle as soon as a name comes round again.  The stored links are a map
// from a record's name to its parent's name, "" meaning no parent; a name
// that is not stored has no parent.

module Hierarchy {

  /** The parent of `x` as stored, "" when there is none. */
  function Next(parentOf: map<string, string>, x: string): (r: string)
    ensures x == "" || x !in parentOf ==> r == ""
  {
    if x != "" && x in parentOf then parentOf[x] else ""
  }

  /** The `j`-th ancestor along the chain starting at `x` (the 0-th is `x`). */
  function Iter(parentOf: map<string, string>, x: string, j: nat): string
    decreases j
  {
    if j == 0 then x else Iter(parentOf, Next(parentOf, x), j - 1)
  }

  /** Along the chain from `x`, the `j`-th name is a real name that is in `seen` or appeared earlier in the chain. */
  ghost predicate HitAt(parentOf: map<string, string>, seen: set<string>, x: string, j: nat)
  {
    var y := Iter(parentOf, x, j);
    y != "" && (y in seen || exists i :: 0 <= i < j && Iter(parentOf, x, i) == y)
  }

  /** The chain from `x` comes round to a name it has already passed (or one of `seen`). */
  ghost predicate Revisits(parentOf: map<string, string>, seen: set<string>, x: string)
  {
    exists j: nat :: HitAt(parentOf, seen, x, j)
  }

  /** What is left of the walk: stored names not yet seen, plus one while the walk is on a name. */
  function Remaining(parentOf: map<string, string>, seen: set<string>, x: string): nat
  {
    |parentOf.Keys - seen| + (if x == "" then 0 else 1)
  }

  lemma RemainingDrops(parentOf: map<string, string>, seen: set<string>, x: string)
    requires x != "" && x !in seen
    ensures Remaining(parentOf, seen + {x}, Next(parentOf, x)) < Remaining(parentOf, seen, x)
  {
    var K := parentOf.Keys;
    if x in K {
      assert K - seen == (K - (seen + {x})) + {x};
    } else {
      assert K - seen == K - (seen + {x});
    }
  }

  /** The walk as the source performs it: true when a cycle is detected. */
  function Walk(parentOf: map<string, string>, seen: set<string>, x: string): bool
    decreases Remaining(parentOf, seen, x)
  {
    if x == "" then false
    else if x in seen then true
    else
      RemainingDrops(parentOf, seen, x);
      Walk(parentOf, seen + {x}, Next(parentOf, x))
  }

  /** The walk reports a cycle exactly when the chain revisits a name. */
  lemma {:induction false} WalkMeans(parentOf: map<string, string>, seen: set<string>, x: string)
    ensures Walk(parentOf, seen, x) <==> Revisits(parentOf, seen, x)
    decreases Remaining(parentOf, seen, x)
  {
    if x == "" {
      forall j: nat ensures !HitAt(parentOf, seen, x, j) {
        EmptyChain(parentOf, j);
      }
    } else if x in seen {
      assert HitAt(parentOf, seen, x, 0);
    } else {
      var n := Next(parentOf, x);
      RemainingDrops(parentOf, seen, x);
      WalkMeans(parentOf, seen + {x}, n);
      if Walk(parentOf, seen, x) {
        var j: nat :| HitAt(parentOf, seen + {x}, n, j);
        ShiftHit(parentOf, seen, x, j);
      } else {
        forall j: nat ensures !HitAt(parentOf, seen, x, j) {
          if j > 0 && HitAt(parentOf, seen, x, j) {
            UnshiftHit(parentOf, seen, x, j);
          }
        }
      }
    }
  }

  lemma {:induction false} EmptyChain(parentOf: map<string, string>, j: nat)
    ensures Iter(parentOf, "", j) == ""
  {
    if j > 0 {
      EmptyChain(parentOf, j - 1);
    }
  }

  /** A revisit one step further along from `x`'s parent is a revisit from `x`. */
  lemma ShiftHit(parentOf: map<string, string>, seen: set<string>, x: string, j: nat)
    requires x != ""
    requires HitAt(parentOf, seen + {x}, Next(parentOf, x), j)
    ensures HitAt(parentOf, seen, x, j + 1)
  {
    var n := Next(parentOf, x);
    var y := Iter(parentOf, n, j);
    assert Iter(parentOf, x, j + 1) == y;
    if y in seen {
    } else if y == x {
      assert Iter(parentOf, x, 0) == y;
    } else {
      var i :| 0 <= i < j && Iter(parentOf, n, i) == y;
      assert Iter(parentOf, x, i + 1) == y;
    }
  }

  /** A revisit from `x` at a later step is a revisit from `x`'s parent one step earlier. */
  lemma UnshiftHit(parentOf: map<string, string>, seen: set<string>, x: string, j: nat)
    requires x != "" && j > 0
    requires HitAt(parentOf, seen, x, j)
    ensures HitAt(parentOf, seen + {x}, Next(parentOf, x), j - 1)
  {
    var n := Next(parentOf, x);
    var y := Iter(parentOf, x, j);
    assert Iter(parentOf, n, j - 1) == y;
    if y !in seen {
      var i :| 0 <= i < j && Iter(parentOf, x, i) == y;
      if i > 0 {
        assert Iter(parentOf, n, i - 1) == y;
      }
    }
  }

  /**
   * `_validate_no_circular_reference` / `_prevent_circular_reference`: walk
   * from `parent` with `self` already seen; true when the walk meets a name
   * twice.  No cycle means no ancestor of the record is the record itself.
   */
  method DetectCycle(parentOf: map<string, string>, self: string, parent: string) returns (cyclic: bool)
    ensures cyclic <==> Revisits(parentOf, {self}, parent)
    ensures self != "" && !cyclic ==> forall j: nat :: Iter(parentOf, parent, j) != self
  {
    var seen := {self};
    var current := parent;
    while current != ""
      invariant Walk(parentOf, seen, current) == Walk(parentOf, {self}, parent)
      decreases Remaining(parentOf, seen, current)
    {
      if current in seen {
        cyclic := true;
        WalkMeans(parentOf, {self}, parent);
        return;
      }
      RemainingDrops(parentOf, seen, current);
      seen := seen + {current};
      current := Next(parentOf, current);
    }
    cyclic := false;
    WalkMeans(parentOf, {self}, parent);
    if self != "" {
      forall j: nat ensures Iter(parentOf, parent, j) != self {
        if Iter(parentOf, parent, j) == self {
          assert HitAt(parentOf, {self}, parent, j);
        }
      }
    }
  }

  /** A record whose parent is itself, or whose grandparent is itself, is caught. */
  lemma ShortCyclesCaught(parentOf: map<string, string>, self: string, parent: string)
    requires self != "" && parent != ""
    requires parent == self || (parent in parentOf && parentOf[parent] == self)
    ensures Walk(parentOf, {self}, parent)
  {
    WalkMeans(parentOf, {self}, parent);
    if parent == self {
      assert HitAt(parentOf, {self}, parent, 0);
    } else {
      assert Iter(parentOf, parent, 1) == self;
      assert HitAt(parentOf, {self}, parent, 1);
    }
  }
}
