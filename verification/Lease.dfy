/** `poll_exit_with_lease` (`janus/src/workflow/mod.rs:50-55, 986-1015`): a pane
    is polled every 200 ms and the claim's lease renewed every 10 s. All times
    are milliseconds. */
module Lease {
  import opened Wrappers

  const POLL_INTERVAL: nat := 200
  const LEASE_EXTEND_INTERVAL: nat := 10_000
  const LEASE_EXTEND_BY: nat := 30_000
  const TURNS: nat := 50

  datatype Pane = Alive | Exited(code: int) | PollError

  /** One turn of the loop, as the environment plays it: what the poll answers
      and takes, and how a renewal, if one is due, goes. The lease is extended
      at some moment inside the call. */
  datatype Turn = Turn(pane: Pane, pollMs: nat, renewOk: bool, requestMs: nat, replyMs: nat)

  datatype PollResult = Code(code: int) | Failed | StillRunning

  /** Polling and renewing take at most `slow` in every turn. */
  predicate Prompt(turns: seq<Turn>, slow: nat) {
    forall t | t in turns :: t.pollMs + t.requestMs + t.replyMs <= slow
  }

  /** The turn renews the lease: every fiftieth one. */
  predicate Renews(i: nat) {
    i % TURNS == TURNS - 1
  }

  /** The pane is alive, and if the lease is renewed in that turn, that succeeds. */
  predicate GoesOn(turns: seq<Turn>, i: nat)
    requires i < |turns|
  {
    turns[i].pane == Alive && (i % 50 == 49 ==> turns[i].renewOk)
  }

  /** The `i`-th turn is the first that does not go on. */
  ghost predicate EndsAt(turns: seq<Turn>, i: nat) {
    i < |turns| && !GoesOn(turns, i) && forall j: nat | j < i :: GoesOn(turns, j)
  }

  /** The first turn that does not go on decides: an exit is its code, a failed
      poll or renewal is a failure. */
  ghost predicate Decided(turns: seq<Turn>, r: PollResult) {
    match r
    case StillRunning => forall i: nat | i < |turns| :: GoesOn(turns, i)
    case Code(code) => exists i: nat :: EndsAt(turns, i) && turns[i].pane == Exited(code)
    case Failed => exists i: nat :: EndsAt(turns, i) && !turns[i].pane.Exited?
  }

  /** A moment at which the claim is used, and when its lease runs out. */
  datatype Moment = Moment(now: int, lease: int)

  predicate InTime(moments: seq<Moment>) {
    forall k | 0 <= k < |moments| :: moments[k].now < moments[k].lease
  }

  /** How long `n` turns can take. */
  function Longest(n: nat, slow: nat): nat {
    n * (POLL_INTERVAL + slow)
  }

  lemma OneTurnLess(n: nat, slow: nat)
    requires n > 0
    ensures Longest(n, slow) == Longest(n - 1, slow) + POLL_INTERVAL + slow
  {
  }

  lemma NextTurn(i: nat)
    ensures Renews(i) ==> (i + 1) % TURNS == 0 && (i + 1) / TURNS == i / TURNS + 1
    ensures !Renews(i) ==> (i + 1) % TURNS == i % TURNS + 1 && (i + 1) / TURNS == i / TURNS
  {
  }

  /** However long the pane lives, the lease is never expired at a poll; and not
      at a renewal either if one call more fits into the thirty seconds. */
  method PollExitWithLease(turns: seq<Turn>, start: int, granted: int, slow: nat)
      returns (r: PollResult, ghost polls: seq<Moment>, ghost renewals: seq<Moment>)
    requires Prompt(turns, slow) && Longest(TURNS, slow) < LEASE_EXTEND_BY
    requires granted - start > Longest(TURNS, slow)
    ensures Decided(turns, r)
    ensures InTime(polls) && |polls| <= |turns| && (r.StillRunning? ==> |polls| == |turns|)
    ensures r.StillRunning? ==> |renewals| == |turns| / TURNS
    ensures Longest(TURNS, slow) + slow < LEASE_EXTEND_BY ==> InTime(renewals)
  {
    hide Longest, Renews;
    polls, renewals := [], [];
    var now, lease := start, granted;
    var sinceExtend := 0;
    var i := 0;
    ghost var done := 0;   // turns since the last renewal
    ghost var roomy := Longest(TURNS, slow) + slow < LEASE_EXTEND_BY;
    OneTurnLess(TURNS, slow);
    while i < |turns|
      invariant 0 <= i <= |turns| && done == i % TURNS && sinceExtend == done * POLL_INTERVAL
      invariant forall j: nat | j < i :: GoesOn(turns, j)
      invariant |polls| == i && InTime(polls) && |renewals| == i / TURNS && (roomy ==> InTime(renewals))
      invariant lease - now > Longest(TURNS - 1 - done, slow) + POLL_INTERVAL
      invariant roomy ==> lease - now > Longest(TURNS - done, slow)
    {
      var t := turns[i];
      polls := polls + [Moment(now, lease)];
      assert !GoesOn(turns, i) ==> EndsAt(turns, i);
      match t.pane {
        case Exited(code) => return Code(code), polls, renewals;
        case PollError => return Failed, polls, renewals;
        case Alive =>
      }
      now := now + t.pollMs + POLL_INTERVAL;
      sinceExtend := sinceExtend + POLL_INTERVAL;
      OneTurnLess(TURNS - done, slow);
      NextTurn(i);
      DueExactly(i, sinceExtend);
      if sinceExtend >= LEASE_EXTEND_INTERVAL {
        now := now + t.requestMs;
        renewals := renewals + [Moment(now, lease)];
        if !t.renewOk {
          return Failed, polls, renewals;
        }
        lease := now + LEASE_EXTEND_BY;
        now := now + t.replyMs;
        sinceExtend := 0;
        done := 0;
        OneTurnLess(TURNS, slow);
      } else {
        OneTurnLess(TURNS - 1 - done, slow);
        done := done + 1;
      }
      i := i + 1;
    }
    return StillRunning, polls, renewals;
  }

  lemma DueExactly(i: nat, sinceExtend: nat)
    requires sinceExtend == (i % TURNS + 1) * POLL_INTERVAL
    ensures sinceExtend >= LEASE_EXTEND_INTERVAL <==> Renews(i)
  {
  }

  /** The premise in numbers: polling and renewing must stay below 400 ms. */
  lemma PromptEnough(slow: nat)
    ensures Longest(TURNS, slow) < LEASE_EXTEND_BY <==> slow < 400
    ensures Longest(TURNS, slow) + slow < LEASE_EXTEND_BY <==> slow <= 392
  {
  }
}
