/** The in-memory map of cash challenges: set by generateOtpChallenge, deleted by the collection that uses it. */
module Otp {
  import opened Values

  datatype Challenge = Challenge(otpCode: nat, expiresAt: Instant)

  datatype DeskOp = Issue(x: Uuid, challenge: Challenge) | Take(x: Uuid, code: nat, now: Instant)

  const OTP_TTL_MS: int := 300_000

  predicate Accepted(m: map<Uuid, Challenge>, x: Uuid, code: nat, now: Instant) {
    x in m && now <= m[x].expiresAt && code == m[x].otpCode
  }

  function DeskStep(m: map<Uuid, Challenge>, op: DeskOp): map<Uuid, Challenge> {
    match op
    case Issue(x, challenge) => m[x := challenge]
    case Take(x, code, now) => if Accepted(m, x, code, now) then m - {x} else m
  }

  function RunDesk(m: map<Uuid, Challenge>, ops: seq<DeskOp>): map<Uuid, Challenge>
    decreases |ops|
  {
    if ops == [] then m else RunDesk(DeskStep(m, ops[0]), ops[1..])
  }

  lemma {:induction false} RunDeskConcat(m: map<Uuid, Challenge>, a: seq<DeskOp>, b: seq<DeskOp>)
    ensures RunDesk(m, a + b) == RunDesk(RunDesk(m, a), b)
    decreases |a|
  {
    if a == [] {
      assert a + b == b;
    } else {
      assert (a + b)[1..] == a[1..] + b;
      RunDeskConcat(DeskStep(m, a[0]), a[1..], b);
    }
  }

  function Issued(ops: seq<DeskOp>, x: Uuid): nat {
    if ops == [] then 0 else (if ops[0].Issue? && ops[0].x == x then 1 else 0) + Issued(ops[1..], x)
  }

  function Used(m: map<Uuid, Challenge>, ops: seq<DeskOp>, x: Uuid): nat
    decreases |ops|
  {
    if ops == [] then 0
    else (if ops[0].Take? && ops[0].x == x && Accepted(m, x, ops[0].code, ops[0].now) then 1 else 0)
         + Used(DeskStep(m, ops[0]), ops[1..], x)
  }

  /** Every challenge authorises at most one collection, in whatever order requests arrive. */
  lemma {:induction false} OneUsePerChallenge(m: map<Uuid, Challenge>, ops: seq<DeskOp>, x: Uuid)
    ensures Used(m, ops, x) <= Issued(ops, x) + (if x in m then 1 else 0)
    decreases |ops|
  {
    if ops != [] {
      OneUsePerChallenge(DeskStep(m, ops[0]), ops[1..], x);
    }
  }
}
