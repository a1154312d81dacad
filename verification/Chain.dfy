/**
 The chain as the workers see it. A block hash commits to the whole history behind it, so
 the model lets a block stand for its own hash: two equal hashes have equal ancestors.
 The canonical chain is named by its tip, and `tips` lists the tips in the order in which
 they were canonical; an index into `tips` is a point in time.
 */
module Chain {
  datatype Block<P> = Genesis(payload: P) | Child(parent: Block<P>, payload: P)

  function Height<P>(b: Block<P>): nat {
    if b.Genesis? then 0 else Height(b.parent) + 1
  }

  /** `b` is on the branch that ends in `tip`. */
  predicate On<P(==)>(b: Block<P>, tip: Block<P>) {
    b == tip || (tip.Child? && On(b, tip.parent))
  }

  /** The block that the branch of `tip` has at height `n`. */
  function At<P>(tip: Block<P>, n: nat): (b: Block<P>)
    requires n <= Height(tip)
    ensures Height(b) == n
  {
    if Height(tip) == n then tip else At(tip.parent, n)
  }

  /**
   A block that stopped being canonical never becomes canonical again: the blocks of one
   branch are canonical during one uninterrupted stretch of time.
   */
  ghost predicate NoRevival<P(!new)>(tips: seq<Block<P>>) {
    forall b: Block<P>, i: nat, j: nat, k: nat ::
      i <= j <= k < |tips| && On(b, tips[i]) && On(b, tips[k]) ==> On(b, tips[j])
  }

  ghost predicate CanonicalAt<P(!new)>(b: Block<P>, tips: seq<Block<P>>, time: nat) {
    time < |tips| && On(b, tips[time])
  }

  lemma {:induction false} OnHeight<P>(b: Block<P>, tip: Block<P>)
    requires On(b, tip)
    ensures Height(b) <= Height(tip)
    ensures Height(b) == Height(tip) ==> b == tip
  {
    if b != tip {
      OnHeight(b, tip.parent);
    }
  }

  lemma {:induction false} OnTransitive<P>(a: Block<P>, b: Block<P>, tip: Block<P>)
    requires On(a, b) && On(b, tip)
    ensures On(a, tip)
  {
    if b != tip {
      OnTransitive(a, b, tip.parent);
    }
  }

  lemma {:induction false} AtIsOn<P>(tip: Block<P>, n: nat)
    requires n <= Height(tip)
    ensures On(At(tip, n), tip)
  {
    if Height(tip) != n {
      AtIsOn(tip.parent, n);
    }
  }

  /** A branch has one block per height, so the lower of two of its blocks is behind the other. */
  lemma {:induction false} OneBranch<P>(a: Block<P>, b: Block<P>, tip: Block<P>)
    requires On(a, tip) && On(b, tip) && Height(a) <= Height(b)
    ensures On(a, b)
  {
    if b != tip {
      if a == tip {
        OnHeight(b, tip);
      } else {
        OneBranch(a, b, tip.parent);
      }
    }
  }

  /** Two blocks of one branch at one height are the same block. */
  lemma SameHeight<P>(a: Block<P>, b: Block<P>, tip: Block<P>)
    requires On(a, tip) && On(b, tip) && Height(a) == Height(b)
    ensures a == b
  {
    OneBranch(a, b, tip);
    OnHeight(a, b);
  }

  /** Once seen canonical at `i` and again at `k`, a block was canonical at every time between. */
  lemma CanonicalBetween<P(!new)>(b: Block<P>, tips: seq<Block<P>>, i: nat, j: nat, k: nat)
    requires NoRevival(tips) && i <= j <= k
    requires CanonicalAt(b, tips, i) && CanonicalAt(b, tips, k)
    ensures CanonicalAt(b, tips, j)
  {
    hide On;
    assert On(b, tips[i]) && On(b, tips[k]);
  }
}
