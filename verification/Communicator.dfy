/** Communicator.allgather as n processes over one FIFO queue for each ordered pair of ranks. A step is
    one `put` or one `get`, in any interleaving; every rank calls allgather `rounds` times. */
module Communicator {

  type Value = int

  /** A rank in its `round`-th call: below n, `turn` is the rank it puts to next; from n on, `turn - n`
      is the rank it gets from next. */
  datatype Rank = Rank(round: nat, turn: nat, gathered: seq<Value>, results: seq<seq<Value>>)

  /** `given(r, k)` is what rank r passes to its k-th call. */
  datatype Setting = Setting(n: nat, rounds: nat, given: (nat, nat) -> Value)

  datatype State = State(ranks: seq<Rank>, queues: map<(nat, nat), seq<Value>>)

  function Initial(c: Setting): State {
    State(seq(c.n, _ => Rank(0, 0, [], [])),
          map a, b | 0 <= a < c.n && 0 <= b < c.n && a != b :: (a, b) := [])
  }

  predicate Shaped(c: Setting, s: State) {
    && |s.ranks| == c.n
    && forall a, b :: 0 <= a < c.n && 0 <= b < c.n && a != b ==> (a, b) in s.queues
  }

  predicate Enabled(c: Setting, s: State, r: nat) {
    && Shaped(c, s) && r < c.n && s.ranks[r].round < c.rounds && s.ranks[r].turn < 2 * c.n
    && (s.ranks[r].turn >= c.n && s.ranks[r].turn - c.n != r ==> s.queues[(s.ranks[r].turn - c.n, r)] != [])
  }

  /** The value got from rank `other`, when there is one; a rank takes its own without a queue. */
  function Got(c: Setting, s: State, r: nat): Value
    requires Enabled(c, s, r) && s.ranks[r].turn >= c.n
  {
    var other := s.ranks[r].turn - c.n;
    if other == r then c.given(r, s.ranks[r].round) else s.queues[(other, r)][0]
  }

  function Step(c: Setting, s: State, r: nat): (s': State)
    requires Enabled(c, s, r)
    ensures |s'.ranks| == c.n
  {
    var p := s.ranks[r];
    if p.turn < c.n then
      var queues :=
        if p.turn == r then s.queues
        else s.queues[(r, p.turn) := s.queues[(r, p.turn)] + [c.given(r, p.round)]];
      State(s.ranks[r := p.(turn := p.turn + 1)], queues)
    else
      var other := p.turn - c.n;
      var gathered := p.gathered + [Got(c, s, r)];
      var queues := if other == r then s.queues else s.queues[(other, r) := s.queues[(other, r)][1..]];
      var p' :=
        if other == c.n - 1 then Rank(p.round + 1, 0, [], p.results + [gathered])
        else p.(turn := p.turn + 1, gathered := gathered);
      State(s.ranks[r := p'], queues)
  }

  /** The ranks named in `order` take their steps, one after the other. */
  ghost predicate Schedule(c: Setting, order: seq<nat>)
    decreases |order|, 0
  {
    order == [] || (Schedule(c, order[..|order| - 1]) && Enabled(c, After(c, order[..|order| - 1]), order[|order| - 1]))
  }

  ghost function After(c: Setting, order: seq<nat>): (s: State)
    requires Schedule(c, order)
    ensures |s.ranks| == c.n
    decreases |order|, 1
  {
    if order == [] then Initial(c) else Step(c, After(c, order[..|order| - 1]), order[|order| - 1])
  }

  // ----- What every reachable state satisfies ----------------------------------------------

  function Vector(c: Setting, round: nat, k: nat): (v: seq<Value>)
    ensures |v| == k && forall i :: 0 <= i < k ==> v[i] == c.given(i, round)
  {
    seq(k, i requires i >= 0 => c.given(i, round))
  }

  /** What rank `a` passed to its calls number `from` up to `to`. */
  function Between(c: Setting, a: nat, from: nat, to: nat): (v: seq<Value>)
    requires from <= to
    ensures |v| == to - from && forall i :: 0 <= i < |v| ==> v[i] == c.given(a, from + i)
  {
    seq(to - from, i requires i >= 0 => c.given(a, from + i))
  }

  function Sent(s: State, a: nat, b: nat): nat
    requires a < |s.ranks|
  {
    s.ranks[a].round + if s.ranks[a].turn > b then 1 else 0
  }

  function Received(c: Setting, s: State, a: nat, b: nat): nat
    requires b < |s.ranks|
  {
    s.ranks[b].round + if s.ranks[b].turn > c.n + a then 1 else 0
  }

  ghost predicate RankOk(c: Setting, p: Rank) {
    && p.round <= c.rounds && p.turn < 2 * c.n
    && (p.round == c.rounds ==> p.turn == 0)
    && p.gathered == Vector(c, p.round, if p.turn < c.n then 0 else p.turn - c.n)
    && |p.results| == p.round
    && forall k :: 0 <= k < p.round ==> p.results[k] == Vector(c, k, c.n)
  }

  /** Every queue holds exactly what was put and not yet got, oldest first. */
  ghost predicate QueueOk(c: Setting, s: State, a: nat, b: nat)
    requires Shaped(c, s) && a < c.n && b < c.n && a != b
  {
    Received(c, s, a, b) <= Sent(s, a, b) && s.queues[(a, b)] == Between(c, a, Received(c, s, a, b), Sent(s, a, b))
  }

  ghost predicate Inv(c: Setting, s: State) {
    && Shaped(c, s)
    && (forall r :: 0 <= r < c.n ==> RankOk(c, s.ranks[r]))
    && forall a, b :: 0 <= a < c.n && 0 <= b < c.n && a != b ==> QueueOk(c, s, a, b)
  }

  lemma InitialInv(c: Setting)
    ensures Inv(c, Initial(c))
  {
  }

  lemma RankStep(c: Setting, s: State, r: nat)
    requires Inv(c, s) && Enabled(c, s, r)
    ensures RankOk(c, Step(c, s, r).ranks[r])
  {
    var p := s.ranks[r];
    if p.turn >= c.n {
      var other := p.turn - c.n;
      if other != r {
        assert QueueOk(c, s, other, r);
      }
      assert Got(c, s, r) == c.given(other, p.round);
      assert p.gathered + [Got(c, s, r)] == Vector(c, p.round, other + 1);
    }
  }

  lemma PutStep(c: Setting, s: State, a: nat, b: nat)
    requires Shaped(c, s) && a < c.n && b < c.n && a != b && QueueOk(c, s, a, b)
    requires Enabled(c, s, a) && s.ranks[a].turn == b
    ensures QueueOk(c, Step(c, s, a), a, b)
  {
    var s' := Step(c, s, a);
    assert s'.queues[(a, b)] == s.queues[(a, b)] + [c.given(a, s.ranks[a].round)];
    assert s'.queues[(a, b)] == Between(c, a, Received(c, s', a, b), Sent(s', a, b));
  }

  lemma GetStep(c: Setting, s: State, a: nat, b: nat)
    requires Shaped(c, s) && a < c.n && b < c.n && a != b && QueueOk(c, s, a, b)
    requires Enabled(c, s, b) && s.ranks[b].turn == c.n + a
    ensures QueueOk(c, Step(c, s, b), a, b)
  {
    var s' := Step(c, s, b);
    assert s'.queues[(a, b)] == s.queues[(a, b)][1..];
    assert s'.queues[(a, b)] == Between(c, a, Received(c, s', a, b), Sent(s', a, b));
  }

  lemma OtherStep(c: Setting, s: State, r: nat, a: nat, b: nat)
    requires Shaped(c, s) && a < c.n && b < c.n && a != b && QueueOk(c, s, a, b)
    requires Enabled(c, s, r) && !(r == a && s.ranks[r].turn == b) && !(r == b && s.ranks[r].turn == c.n + a)
    ensures QueueOk(c, Step(c, s, r), a, b)
  {
    assert Step(c, s, r).queues[(a, b)] == s.queues[(a, b)];
  }

  lemma QueueStep(c: Setting, s: State, r: nat, a: nat, b: nat)
    requires Inv(c, s) && Enabled(c, s, r) && a < c.n && b < c.n && a != b
    ensures QueueOk(c, Step(c, s, r), a, b)
  {
    assert QueueOk(c, s, a, b);
    hide QueueOk, Step;
    if r == a && s.ranks[r].turn == b {
      PutStep(c, s, a, b);
    } else if r == b && s.ranks[r].turn == c.n + a {
      GetStep(c, s, a, b);
    } else {
      OtherStep(c, s, r, a, b);
    }
  }

  lemma StepInv(c: Setting, s: State, r: nat)
    requires Inv(c, s) && Enabled(c, s, r)
    ensures Inv(c, Step(c, s, r))
  {
    RankStep(c, s, r);
    forall a, b | 0 <= a < c.n && 0 <= b < c.n && a != b
      ensures QueueOk(c, Step(c, s, r), a, b)
    {
      QueueStep(c, s, r, a, b);
    }
  }

  lemma {:induction false} ReachableInv(c: Setting, order: seq<nat>)
    requires Schedule(c, order)
    ensures Inv(c, After(c, order))
  {
    if order == [] {
      InitialInv(c);
    } else {
      ReachableInv(c, order[..|order| - 1]);
      StepInv(c, After(c, order[..|order| - 1]), order[|order| - 1]);
    }
  }

  // ----- The theorems ----------------------------------------------------------------------

  /** Under every interleaving, each rank's k-th call returns the k-th contributions in rank order. */
  lemma AllgatherIsCorrect(c: Setting, order: seq<nat>, r: nat, k: nat)
    requires Schedule(c, order) && r < c.n && k < |After(c, order).ranks[r].results|
    ensures |After(c, order).ranks[r].results[k]| == c.n
    ensures forall other :: 0 <= other < c.n ==> After(c, order).ranks[r].results[k][other] == c.given(other, k)
  {
    ReachableInv(c, order);
    assert RankOk(c, After(c, order).ranks[r]);
  }

  predicate Behind(p: Rank, q: Rank) {
    p.round < q.round || (p.round == q.round && p.turn <= q.turn)
  }

  lemma {:induction false} Slowest(ranks: seq<Rank>) returns (r: nat)
    requires ranks != []
    ensures r < |ranks| && forall i :: 0 <= i < |ranks| ==> Behind(ranks[r], ranks[i])
  {
    if |ranks| == 1 {
      r := 0;
    } else {
      var last := |ranks| - 1;
      r := Slowest(ranks[..last]);
      assert forall i :: 0 <= i < last ==> ranks[..last][i] == ranks[i];
      if !Behind(ranks[r], ranks[last]) {
        r := last;
      }
    }
  }

  /** No reachable state is stuck: while a rank has calls left, some rank can take a step. */
  lemma NeverStuck(c: Setting, order: seq<nat>, waiting: nat)
    requires Schedule(c, order) && waiting < c.n && After(c, order).ranks[waiting].round < c.rounds
    ensures exists r :: Enabled(c, After(c, order), r)
  {
    ReachableInv(c, order);
    var s := After(c, order);
    var r := Slowest(s.ranks);
    assert RankOk(c, s.ranks[r]) && Behind(s.ranks[r], s.ranks[waiting]);
    var other := s.ranks[r].turn - c.n;
    if 0 <= other && other != r {
      assert QueueOk(c, s, other, r) && Behind(s.ranks[r], s.ranks[other]);
      assert Sent(s, other, r) > Received(c, s, other, r);
    }
    assert Enabled(c, s, r);
  }

  /** The steps a rank takes in `rounds` calls, and those it has taken. */
  function Quota(c: Setting, rounds: nat): nat {
    rounds * (2 * c.n)
  }

  function Taken(c: Setting, p: Rank): nat {
    Quota(c, p.round) + p.turn
  }

  function Progress(c: Setting, ranks: seq<Rank>): nat {
    if ranks == [] then 0 else Progress(c, ranks[..|ranks| - 1]) + Taken(c, ranks[|ranks| - 1])
  }

  function Most(c: Setting, count: nat): nat {
    if count == 0 then 0 else Most(c, count - 1) + Quota(c, c.rounds)
  }

  lemma {:induction false} MostIsProduct(c: Setting, count: nat)
    ensures Most(c, count) == count * Quota(c, c.rounds)
  {
    if count > 0 {
      MostIsProduct(c, count - 1);
      hide Quota;
      assert count * Quota(c, c.rounds) == (count - 1) * Quota(c, c.rounds) + Quota(c, c.rounds);
    }
  }

  lemma {:induction false} ProgressAt(c: Setting, ranks: seq<Rank>, r: nat, p: Rank)
    requires r < |ranks|
    ensures Progress(c, ranks[r := p]) - Taken(c, p) == Progress(c, ranks) - Taken(c, ranks[r])
  {
    hide Taken;
    var last := |ranks| - 1;
    if r < last {
      ProgressAt(c, ranks[..last], r, p);
      assert ranks[r := p][..last] == ranks[..last][r := p];
    } else {
      assert ranks[r := p][..last] == ranks[..last];
    }
  }

  lemma {:induction false} NoProgress(c: Setting, ranks: seq<Rank>)
    requires forall p <- ranks :: p.round == 0 && p.turn == 0
    ensures Progress(c, ranks) == 0
  {
    if ranks != [] {
      NoProgress(c, ranks[..|ranks| - 1]);
    }
  }

  lemma {:induction false} ProgressBound(c: Setting, ranks: seq<Rank>)
    requires forall p <- ranks :: RankOk(c, p)
    ensures Progress(c, ranks) <= Most(c, |ranks|)
    ensures Progress(c, ranks) == Most(c, |ranks|) <==> forall p <- ranks :: p.round == c.rounds
  {
    if ranks != [] {
      hide RankOk, Quota, Taken;
      var init, p := ranks[..|ranks| - 1], ranks[|ranks| - 1];
      ProgressBound(c, init);
      RankBound(c, p);
      assert ranks == init + [p];
    }
  }

  lemma OneRound(c: Setting, round: nat)
    ensures Quota(c, round + 1) == Quota(c, round) + 2 * c.n
  {
  }

  lemma {:induction false} MoreRounds(c: Setting, round: nat, rounds: nat)
    requires round < rounds
    ensures Quota(c, round) + 2 * c.n <= Quota(c, rounds)
    decreases rounds
  {
    OneRound(c, rounds - 1);
    hide Quota;
    if round < rounds - 1 {
      MoreRounds(c, round, rounds - 1);
    }
  }

  lemma RankBound(c: Setting, p: Rank)
    requires RankOk(c, p)
    ensures Taken(c, p) <= Quota(c, c.rounds)
    ensures Taken(c, p) == Quota(c, c.rounds) <==> p.round == c.rounds
  {
    hide Quota;
    if p.round < c.rounds {
      MoreRounds(c, p.round, c.rounds);
    }
  }

  lemma StepProgress(c: Setting, s: State, r: nat)
    requires Inv(c, s) && Enabled(c, s, r)
    ensures Progress(c, Step(c, s, r).ranks) == Progress(c, s.ranks) + 1
  {
    hide Quota, Inv, Progress;
    var p, p' := s.ranks[r], Step(c, s, r).ranks[r];
    ProgressAt(c, s.ranks, r, p');
    OneRound(c, p.round);
  }

  lemma {:induction false} StepsAreProgress(c: Setting, order: seq<nat>)
    requires Schedule(c, order)
    ensures Progress(c, After(c, order).ranks) == |order|
  {
    if order == [] {
      NoProgress(c, Initial(c).ranks);
    } else {
      var init := order[..|order| - 1];
      StepsAreProgress(c, init);
      ReachableInv(c, init);
      StepProgress(c, After(c, init), order[|order| - 1]);
    }
  }

  /** Every run is finite, and the runs that cannot be continued are exactly those in which every rank
      has returned from all its calls. */
  lemma EveryRunEnds(c: Setting, order: seq<nat>)
    requires Schedule(c, order)
    ensures |order| <= c.n * Quota(c, c.rounds)
    ensures |order| == c.n * Quota(c, c.rounds) <==>
            forall r :: 0 <= r < c.n ==> |After(c, order).ranks[r].results| == c.rounds
    ensures (exists r :: Enabled(c, After(c, order), r)) <==> |order| < c.n * Quota(c, c.rounds)
  {
    ReachableInv(c, order);
    StepsAreProgress(c, order);
    var s := After(c, order);
    ProgressBound(c, s.ranks);
    MostIsProduct(c, c.n);
    hide Quota, Progress;
    assert forall r :: 0 <= r < c.n ==> RankOk(c, s.ranks[r]) && s.ranks[r] in s.ranks;
    if exists r :: 0 <= r < c.n && s.ranks[r].round < c.rounds {
      var r :| 0 <= r < c.n && s.ranks[r].round < c.rounds;
      NeverStuck(c, order, r);
    }
  }
}
