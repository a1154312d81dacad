/** Who may act for the escrow, as its ownership and manager events have it. */
module EscrowAuthority {
  import opened Logs

  type Address = nat

  const ZERO_ADDRESS: Address := 0

  datatype Kind = Owner | GoalManager

  datatype AuthorityChange = AuthorityChange(kind: Kind, address: Address, enabled: bool, at: Stamp)

  type Rows = map<(Kind, Address), Stamp>

  function Apply(rows: Rows, c: AuthorityChange): Rows {
    var kept := if c.kind.Owner? then map k | k in rows && !k.0.Owner? :: rows[k] else rows;
    if c.enabled && c.address != ZERO_ADDRESS then kept[(c.kind, c.address) := c.at]
    else if c.kind.Owner? then kept
    else map k | k in kept && k != (c.kind, c.address) :: kept[k]
  }

  function ApplyAll(changes: seq<AuthorityChange>): Rows {
    if changes == [] then map[] else Apply(ApplyAll(changes[..|changes| - 1]), changes[|changes| - 1])
  }

  predicate Grants(c: AuthorityChange, kind: Kind, address: Address) {
    c.kind == kind && c.address == address && c.enabled && address != ZERO_ADDRESS
  }

  /** The change settles the matter for this address: a new owner does so for every address. */
  predicate Concerns(c: AuthorityChange, kind: Kind, address: Address) {
    c.kind == kind && (kind.Owner? || c.address == address)
  }

  predicate LastWord(changes: seq<AuthorityChange>, j: nat, kind: Kind, address: Address) {
    && j < |changes| && Concerns(changes[j], kind, address)
    && forall k :: j < k < |changes| ==> !Concerns(changes[k], kind, address)
  }

  /** An address has an authority exactly when the last change that concerns it grants it. */
  lemma {:induction false} AuthorityIsLastWord(changes: seq<AuthorityChange>, kind: Kind, address: Address)
    ensures (kind, address) in ApplyAll(changes) <==>
      exists j: nat :: LastWord(changes, j, kind, address) && Grants(changes[j], kind, address)
    ensures forall j: nat :: LastWord(changes, j, kind, address) && Grants(changes[j], kind, address) ==>
      ApplyAll(changes)[(kind, address)] == changes[j].at
  {
    if changes != [] {
      var n := |changes| - 1;
      var before := changes[..n];
      AuthorityIsLastWord(before, kind, address);
      if Concerns(changes[n], kind, address) {
        assert LastWord(changes, n, kind, address);
      } else {
        assert forall j: nat :: LastWord(changes, j, kind, address) <==> LastWord(before, j, kind, address);
      }
    }
  }

  /** There is never more than one owner. */
  lemma {:induction false} OneOwner(changes: seq<AuthorityChange>, a: Address, b: Address)
    requires (Owner, a) in ApplyAll(changes) && (Owner, b) in ApplyAll(changes)
    ensures a == b
  {
    if changes != [] && !changes[|changes| - 1].kind.Owner? {
      OneOwner(changes[..|changes| - 1], a, b);
    }
  }

  class ChainAuthorities {
    var rows: Rows
    /** The changes so far. */
    ghost var changes: seq<AuthorityChange>

    ghost predicate Valid()
      reads this
    {
      rows == ApplyAll(changes)
    }

    constructor ()
      ensures Valid() && changes == []
    {
      rows := map[];
      changes := [];
    }

    /** Decides exactly what the change concerns; everyone else keeps what they had, since when they had it. */
    method ApplyAuthorityChange(c: AuthorityChange)
      requires Valid()
      modifies this
      ensures Valid() && changes == old(changes) + [c]
      ensures forall kind, address: Address :: Concerns(c, kind, address) ==>
        ((kind, address) in rows <==> Grants(c, kind, address))
      ensures forall kind, address: Address :: !Concerns(c, kind, address) ==>
        ((kind, address) in rows <==> (kind, address) in old(rows))
      ensures forall k :: k in rows ==> rows[k] == if Grants(c, k.0, k.1) then c.at else old(rows)[k]
    {
      changes := changes + [c];
      assert changes[..|changes| - 1] == old(changes);
      if c.kind.Owner? {
        rows := map k | k in rows && !k.0.Owner? :: rows[k];
      }
      if !c.enabled || c.address == ZERO_ADDRESS {
        if !c.kind.Owner? {
          rows := map k | k in rows && k != (c.kind, c.address) :: rows[k];
        }
        return;
      }
      rows := rows[(c.kind, c.address) := c.at];
    }
  }
}
