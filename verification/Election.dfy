/** Controller election as steps over the shared store (`election.rs`). */
module Election {
  import opened Types
  import opened Protocol

  /** A registration: the revision that created it and the lease it is attached to. */
  datatype Candidate = Candidate(created: nat, lease: LeaseId)

  /** What a campaigner last read: its registration, with no earlier one present. */
  datatype Turn = Turn(controller: ControllerId, created: nat)

  datatype Win = Win(controller: ControllerId, lease: LeaseId, created: nat)

  /** The election records, the leases, what each campaigner (named by its lease) last read, the
      campaigners that gave up their leadership, and the history of won elections. */
  datatype Ballot = Ballot(
    revision: nat,
    candidates: map<ControllerId, Candidate>,
    active: Option<Authority>,
    granted: set<LeaseId>,
    alive: set<LeaseId>,
    turns: map<LeaseId, Turn>,
    retired: set<LeaseId>,
    wins: seq<Win>)

  datatype Move =
    | Grant(lease: LeaseId)
    | Enter(controller: ControllerId, lease: LeaseId)
    | Look(controller: ControllerId, lease: LeaseId)
    | Take(controller: ControllerId, lease: LeaseId)
    | Relinquish(lease: LeaseId)
    | DropCandidate(controller: ControllerId, lease: LeaseId)
    | DropActive(lease: LeaseId)
    | Kill(lease: LeaseId)
    | Write(controller: ControllerId, lease: LeaseId)

  /** A lease that can never win again: expired, or given up by its holder. */
  predicate Spent(b: Ballot, lease: LeaseId) {
    lease in b.granted && (lease !in b.alive || lease in b.retired)
  }

  ghost predicate Permitted(b: Ballot, m: Move) {
    match m
    case Grant(lease) => lease !in b.granted
    case Enter(c, lease) => lease in b.alive && c !in b.candidates
    case Look(c, lease) =>
      c in b.candidates && forall d | d in b.candidates :: b.candidates[c].created <= b.candidates[d].created
    case Take(c, lease) =>
      && lease in b.alive && lease !in b.retired && lease in b.turns && b.turns[lease].controller == c
      && b.active.None?
      && c in b.candidates && b.candidates[c] == Candidate(b.turns[lease].created, lease)
    case Relinquish(lease) => lease in b.granted && exists w :: w in b.wins && w.lease == lease
    case DropCandidate(c, lease) => c in b.candidates && b.candidates[c].lease == lease && Spent(b, lease)
    case DropActive(lease) => b.active.Some? && b.active.value.lease == lease && Spent(b, lease)
    case Kill(lease) => lease in b.alive
    case Write(c, lease) => b.active == Some(Authority(c, lease))
  }

  function Moved(b: Ballot, m: Move): Ballot {
    match m
    case Grant(lease) => b.(granted := b.granted + {lease}, alive := b.alive + {lease})
    case Enter(c, lease) =>
      b.(revision := b.revision + 1, candidates := b.candidates[c := Candidate(b.revision + 1, lease)])
    case Look(c, lease) =>
      if c in b.candidates then b.(turns := b.turns[lease := Turn(c, b.candidates[c].created)]) else b
    case Take(c, lease) =>
      if lease in b.turns then
        b.(revision := b.revision + 1, active := Some(Authority(c, lease)),
           wins := b.wins + [Win(c, lease, b.turns[lease].created)])
      else b
    case Relinquish(lease) => b.(retired := b.retired + {lease})
    case DropCandidate(c, _) => b.(revision := b.revision + 1, candidates := b.candidates - {c})
    case DropActive(_) => b.(revision := b.revision + 1, active := None)
    case Kill(lease) => b.(alive := b.alive - {lease})
    case Write(_, _) => b.(revision := b.revision + 1)
  }

  ghost predicate Fresh(b: Ballot) {
    b.candidates == map[] && b.active == None && b.granted == {} && b.alive == {} && b.turns == map[]
        && b.retired == {} && b.wins == []
  }

  ghost predicate Campaign(ballots: seq<Ballot>, moves: seq<Move>) {
    && |ballots| == |moves| + 1 && Fresh(ballots[0])
    && forall k | 0 <= k < |moves| :: Follows(ballots, moves, k)
  }

  ghost predicate Follows(ballots: seq<Ballot>, moves: seq<Move>, k: nat)
    requires k < |moves| && |ballots| == |moves| + 1
  {
    Permitted(ballots[k], moves[k]) && ballots[k + 1] == Moved(ballots[k], moves[k])
  }

  // The invariant.

  ghost predicate Registrations(b: Ballot) {
    && b.alive <= b.granted
    && (forall c | c in b.candidates :: b.candidates[c].created <= b.revision && b.candidates[c].lease in b.granted)
    && (forall c, d | c in b.candidates && d in b.candidates && b.candidates[c].created == b.candidates[d].created ::
          c == d)
  }

  /** Nobody registered can precede a registration that once had no predecessor. */
  ghost predicate TurnsHold(b: Ballot) {
    forall l | l in b.turns ::
      b.turns[l].created <= b.revision && forall d | d in b.candidates :: b.turns[l].created <= b.candidates[d].created
  }

  /** Every registration is later than an election already won, unless it is the winner's own. */
  ghost predicate After(b: Ballot, w: Win) {
    && w.created <= b.revision && w.lease in b.granted
    && (forall d | d in b.candidates ::
          w.created < b.candidates[d].created
              || (w.created == b.candidates[d].created && w.lease == b.candidates[d].lease))
    && (Spent(b, w.lease) || (b.active.Some? && b.active.value.lease == w.lease))
  }

  ghost predicate Ordered(wins: seq<Win>) {
    forall j, k | 0 <= j < k < |wins| :: wins[j].created < wins[k].created && wins[j].lease != wins[k].lease
  }

  ghost predicate BallotInv(b: Ballot) {
    && Registrations(b) && TurnsHold(b) && Ordered(b.wins)
    && (forall w | w in b.wins :: After(b, w))
    && (b.active.Some? ==> exists w ::
                             w in b.wins && w.lease == b.active.value.lease
                                 && w.controller == b.active.value.controller)
  }

  /** The winner of an election has the smallest create revision of all registered candidates. */
  lemma WinnerIsFirst(b: Ballot, c: ControllerId, lease: LeaseId)
    requires BallotInv(b) && Permitted(b, Take(c, lease))
    ensures forall d | d in b.candidates && d != c :: b.candidates[c].created < b.candidates[d].created
  {
  }

  lemma NewWinIsLater(b: Ballot, c: ControllerId, lease: LeaseId, w: Win)
    requires BallotInv(b) && Permitted(b, Take(c, lease)) && w in b.wins
    ensures w.created < b.turns[lease].created && w.lease != lease && Spent(b, w.lease)
  {
    assert After(b, w);
  }

  lemma TakeKeepsWins(b: Ballot, c: ControllerId, lease: LeaseId)
    requires BallotInv(b) && Permitted(b, Take(c, lease))
    ensures var d := Moved(b, Take(c, lease));
            Ordered(d.wins) && forall w | w in d.wins :: After(d, w)
  {
    var d := Moved(b, Take(c, lease));
    var mine := Win(c, lease, b.turns[lease].created);
    forall j, k | 0 <= j < k < |d.wins|
      ensures d.wins[j].created < d.wins[k].created && d.wins[j].lease != d.wins[k].lease
    {
      if k == |b.wins| {
        assert b.wins[j] in b.wins;
        NewWinIsLater(b, c, lease, b.wins[j]);
      }
    }
    forall w | w in d.wins
      ensures After(d, w)
    {
      if w in b.wins {
        NewWinIsLater(b, c, lease, w);
        assert After(b, w);
      } else {
        assert w == mine;
        WinnerIsFirst(b, c, lease);
      }
    }
  }

  lemma WinsKept(b: Ballot, m: Move, w: Win)
    requires BallotInv(b) && Permitted(b, m) && !m.Take? && w in b.wins
    ensures After(Moved(b, m), w)
  {
    assert After(b, w);
    hide TurnsHold;
  }

  lemma RegistrationsKept(b: Ballot, m: Move)
    requires BallotInv(b) && Permitted(b, m)
    ensures Registrations(Moved(b, m)) && TurnsHold(Moved(b, m))
  {
  }

  lemma BallotInvKept(b: Ballot, m: Move)
    requires BallotInv(b) && Permitted(b, m)
    ensures BallotInv(Moved(b, m))
  {
    var d := Moved(b, m);
    RegistrationsKept(b, m);
    if m.Take? {
      TakeKeepsWins(b, m.controller, m.lease);
      assert d.wins[|b.wins|] in d.wins;
    } else {
      hide Registrations, TurnsHold, After;
      forall w | w in d.wins
        ensures After(d, w)
      {
        WinsKept(b, m, w);
      }
    }
  }

  lemma {:induction false} CampaignKeepsInv(ballots: seq<Ballot>, moves: seq<Move>, k: nat)
    requires Campaign(ballots, moves) && k <= |moves|
    ensures BallotInv(ballots[k])
  {
    if k > 0 {
      CampaignKeepsInv(ballots, moves, k - 1);
      assert Follows(ballots, moves, k - 1);
      hide BallotInv;
      BallotInvKept(ballots[k - 1], moves[k - 1]);
    }
  }

  /** FIFO over whole runs: at its winning transaction a winner precedes every other registered
      candidate, though predecessors are checked only when the candidates are read. */
  lemma ElectionIsFifo(ballots: seq<Ballot>, moves: seq<Move>, k: nat)
    requires Campaign(ballots, moves) && k < |moves| && moves[k].Take?
    ensures var b, c := ballots[k], moves[k].controller;
            c in b.candidates && forall d | d in b.candidates && d != c ::
                                   b.candidates[c].created < b.candidates[d].created
  {
    assert Follows(ballots, moves, k);
    CampaignKeepsInv(ballots, moves, k);
    assert Follows(ballots, moves, k);
    hide BallotInv;
    WinnerIsFirst(ballots[k], moves[k].controller, moves[k].lease);
  }

  /** Winning create revisions increase, and no lease wins twice. */
  lemma WinsIncrease(ballots: seq<Ballot>, moves: seq<Move>, k: nat)
    requires Campaign(ballots, moves) && k <= |moves|
    ensures Ordered(ballots[k].wins)
  {
    CampaignKeepsInv(ballots, moves, k);
  }

  /** No deadlock: whoever is first in line with a lease that is still good can win as soon as there is no
      active record, an active record whose lease is spent can be dropped, and its holder can always give it up. */
  lemma FirstInLineCanWin(ballots: seq<Ballot>, moves: seq<Move>, k: nat, c: ControllerId)
    requires Campaign(ballots, moves) && k <= |moves| && c in ballots[k].candidates
    requires forall d | d in ballots[k].candidates ::
               ballots[k].candidates[c].created <= ballots[k].candidates[d].created
    ensures var b, lease := ballots[k], ballots[k].candidates[c].lease;
            && (b.active.Some? && Spent(b, b.active.value.lease) ==>
                  Permitted(b, DropActive(b.active.value.lease))
                  && Moved(b, DropActive(b.active.value.lease)).active == None)
            && (b.active.Some? ==> var held := b.active.value.lease;
                  Permitted(b, Relinquish(held)) && Permitted(Moved(b, Relinquish(held)), DropActive(held)))
            && (Spent(b, lease) ==>
                  Permitted(b, DropCandidate(c, lease)) && c !in Moved(b, DropCandidate(c, lease)).candidates)
            && (b.active.None? && !Spent(b, lease) ==>
                  && Permitted(b, Look(c, lease)) && Permitted(Moved(b, Look(c, lease)), Take(c, lease))
                  && Moved(Moved(b, Look(c, lease)), Take(c, lease)).active == Some(Authority(c, lease)))
  {
    CampaignKeepsInv(ballots, moves, k);
    hide TurnsHold, After, Ordered;
  }

  // Superseded authority.

  ghost predicate Holds(b: Ballot, lease: LeaseId) {
    b.active.Some? && b.active.value.lease == lease
  }

  /** The active record changes hands only when its lease is spent. */
  lemma LossMeansSpent(b: Ballot, m: Move, lease: LeaseId)
    requires BallotInv(b) && Permitted(b, m) && Holds(b, lease) && !Holds(Moved(b, m), lease)
    ensures Spent(Moved(b, m), lease)
  {
  }

  lemma SpentNeverTakes(b: Ballot, m: Move, lease: LeaseId)
    requires Permitted(b, m) && Spent(b, lease) && !Holds(b, lease)
    ensures Spent(Moved(b, m), lease) && !Holds(Moved(b, m), lease)
  {
  }

  lemma {:induction false} SpentForGood(ballots: seq<Ballot>, moves: seq<Move>, j: nat, k: nat, lease: LeaseId)
    requires Campaign(ballots, moves) && j <= k <= |moves| && Spent(ballots[j], lease) && !Holds(ballots[j], lease)
    ensures Spent(ballots[k], lease) && !Holds(ballots[k], lease)
  {
    if j < k {
      SpentForGood(ballots, moves, j, k - 1, lease);
      assert Follows(ballots, moves, k - 1);
      SpentNeverTakes(ballots[k - 1], moves[k - 1], lease);
    }
  }

  lemma {:induction false} FirstLoss(ballots: seq<Ballot>, moves: seq<Move>, i: nat, j: nat, lease: LeaseId)
    requires Campaign(ballots, moves) && i <= j <= |moves| && Holds(ballots[i], lease) && !Holds(ballots[j], lease)
    ensures Spent(ballots[j], lease)
  {
    assert Follows(ballots, moves, j - 1);
    if Holds(ballots[j - 1], lease) {
      CampaignKeepsInv(ballots, moves, j - 1);
      hide BallotInv;
      LossMeansSpent(ballots[j - 1], moves[j - 1], lease);
    } else {
      FirstLoss(ballots, moves, i, j - 1, lease);
      SpentNeverTakes(ballots[j - 1], moves[j - 1], lease);
    }
  }

  /** A superseded authority never writes again, even if the same controller is elected anew: its
      writes carry the old lease, which is never again that of the active record. */
  lemma SupersededNeverWrites(ballots: seq<Ballot>, moves: seq<Move>, i: nat, j: nat, k: nat, lease: LeaseId)
    requires Campaign(ballots, moves) && i <= j <= k < |moves|
    requires Holds(ballots[i], lease) && !Holds(ballots[j], lease)
    requires moves[k].Write?
    ensures moves[k].lease != lease
  {
    FirstLoss(ballots, moves, i, j, lease);
    SpentForGood(ballots, moves, j, k, lease);
    assert Follows(ballots, moves, k);
  }
}
