/** What one request and one service move, over their whole life, at each account, as a function of
    the stored record alone. Nothing here mentions a balance. */
module Flows {
  import opened Types
  import opened Addresses

  /** `n` posted to account `x`, seen from account `a`. */
  function Post(x: Address, a: Address, n: int): int {
    if a == x then n else 0
  }

  /** The provider-side vouchers, in filing order. */
  function Supporters(vs: seq<Voucher>): seq<Voucher>
  {
    if vs == [] then []
    else
      var last := vs[|vs| - 1];
      Supporters(vs[..|vs| - 1]) + (if last.supportsProvider then [last] else [])
  }

  /** The challenger-side vouchers, in filing order. */
  function Opponents(vs: seq<Voucher>): seq<Voucher>
  {
    if vs == [] then []
    else
      var last := vs[|vs| - 1];
      Opponents(vs[..|vs| - 1]) + (if last.supportsProvider then [] else [last])
  }

  /** Total of the vouchers' bonds. */
  function Bonds(vs: seq<Voucher>): (n: nat) {
    if vs == [] then 0 else Bonds(vs[..|vs| - 1]) + vs[|vs| - 1].bond.amount
  }

  /** What `a` gets when each voucher is paid its bond plus `extra`. */
  function PayAt(vs: seq<Voucher>, extra: int, a: Address): int {
    if vs == [] then 0
    else PayAt(vs[..|vs| - 1], extra, a)
         + Post(vs[|vs| - 1].voucher, a, vs[|vs| - 1].bond.amount + extra)
  }

  /** What an open request has locked in escrow. */
  function Locked(r: Request): nat {
    r.escrow.amount + r.BondAmount() + r.ChallengeAmount() + Bonds(r.vouchers)
  }

  /** The losing side's stakes when a challenge is dismissed. */
  function RewardPool(r: Request): nat {
    r.ChallengeAmount() + Bonds(Opponents(r.vouchers))
  }

  /** One recipient's part of the pool; the recipients are the owner and each supporter. */
  function Share(r: Request): nat {
    RewardPool(r) / (|Supporters(r.vouchers)| + 1)
  }

  /** The owner's part of the pool: what the supporters' shares leave. */
  function OwnerCut(r: Request): int {
    RewardPool(r) - Share(r) * |Supporters(r.vouchers)|
  }

  /** What `a` put into the request, in whichever roles it has. */
  function PaidIn(r: Request, owner: Address, a: Address): int {
    Post(r.requester, a, r.escrow.amount)
    + Post(owner, a, r.BondAmount())
    + (if r.challenges != [] then Post(r.challenges[0].challenger, a, r.ChallengeAmount()) else 0)
    + PayAt(r.vouchers, 0, a)
  }

  /** What `a` holds or has received because of the request: escrow holds it all while it is open. */
  function PaidOut(r: Request, owner: Address, a: Address): int {
    match r.status
    case Pending | Submitted | Challenged => Post(ESCROW, a, Locked(r))
    case Refunded => PaidIn(r, owner, a)
    case Finalized =>
      if r.challenges == [] then Post(owner, a, r.escrow.amount + r.BondAmount())
      else Post(owner, a, r.escrow.amount + r.BondAmount() + OwnerCut(r))
           + PayAt(Supporters(r.vouchers), Share(r), a)
    case Slashed =>
      Post(r.requester, a, r.escrow.amount)
      + (if r.challenges != [] then
           Post(r.challenges[0].challenger, a, r.BondAmount() + r.ChallengeAmount())
         else 0)
      + Post(TREASURY, a, Bonds(Supporters(r.vouchers)))
      + PayAt(Opponents(r.vouchers), 0, a)
  }

  /** Net movement at `a` caused by the request so far. */
  function Flow(r: Request, owner: Address, a: Address): int {
    PaidOut(r, owner, a) - PaidIn(r, owner, a)
  }

  /** Net movement at `a` caused by the service: `forfeited` went to the treasury, `svc.bond` is
      still locked. */
  function ServiceFlow(svc: Service, forfeited: int, a: Address): int {
    Post(ESCROW, a, svc.bond.amount) + Post(TREASURY, a, forfeited)
    - Post(svc.owner, a, svc.bond.amount + forfeited)
  }

  lemma {:induction false} SideMembers(vs: seq<Voucher>)
    ensures forall v :: v in Supporters(vs) <==> v in vs && v.supportsProvider
    ensures forall v :: v in Opponents(vs) <==> v in vs && !v.supportsProvider
  {
    if vs != [] {
      SideMembers(vs[..|vs| - 1]);
      assert vs == vs[..|vs| - 1] + [vs[|vs| - 1]];
    }
  }

  lemma PayAtAppend(vs: seq<Voucher>, v: Voucher, extra: int, a: Address)
    ensures PayAt(vs + [v], extra, a) == PayAt(vs, extra, a) + Post(v.voucher, a, v.bond.amount + extra)
  {
    assert (vs + [v])[..|vs|] == vs;
  }

  lemma SidesAppend(vs: seq<Voucher>, v: Voucher)
    ensures Bonds(vs + [v]) == Bonds(vs) + v.bond.amount
    ensures Supporters(vs + [v]) == Supporters(vs) + (if v.supportsProvider then [v] else [])
    ensures Opponents(vs + [v]) == Opponents(vs) + (if v.supportsProvider then [] else [v])
  {
    assert (vs + [v])[..|vs|] == vs;
  }

  /** Every voucher is on one side, so both sides' bonds and payments add up to all of them. */
  lemma {:induction false} SidesPartition(vs: seq<Voucher>, a: Address)
    ensures Bonds(vs) == Bonds(Supporters(vs)) + Bonds(Opponents(vs))
    ensures PayAt(vs, 0, a) == PayAt(Supporters(vs), 0, a) + PayAt(Opponents(vs), 0, a)
    ensures |vs| == |Supporters(vs)| + |Opponents(vs)|
  {
    if vs != [] {
      var rest, v := vs[..|vs| - 1], vs[|vs| - 1];
      SidesPartition(rest, a);
      PayAtAppend(Supporters(rest), v, 0, a);
      PayAtAppend(Opponents(rest), v, 0, a);
      SidesAppend(Supporters(rest), v);
      SidesAppend(Opponents(rest), v);
      assert Supporters(rest) + [] == Supporters(rest) && Opponents(rest) + [] == Opponents(rest);
    }
  }

  /** Accounts that filed none of the vouchers are paid nothing. */
  lemma {:induction false} PayAtStranger(vs: seq<Voucher>, extra: int, a: Address)
    requires forall v :: v in vs ==> v.voucher != a
    ensures PayAt(vs, extra, a) == 0
  {
    if vs != [] {
      PayAtStranger(vs[..|vs| - 1], extra, a);
    }
  }
}
