/**
 * The model builder: the nested loops that emit one linear constraint per
 * slot, per ordered team pair and per team, in that order, over the 0/1
 * decisions. A constraint is kept as data -- which decisions it sums, how
 * the sum is compared, and the bound -- as the solver receives it.
 */
module ModelBuilder {
  import opened Inputs
  import opened Schedule

  datatype Relation = AtMost | Exactly

  /** The sum of the decisions the filter selects, compared with bound. */
  datatype Constraint = Constraint(sum: Filter, rel: Relation, bound: nat)

  /** Assignment S satisfies constraint c. */
  predicate Holds(S: set<Triple>, c: Constraint) {
    match c.rel
    case AtMost => |Selected(S, c.sum)| <= c.bound
    case Exactly => |Selected(S, c.sum)| == c.bound
  }

  predicate AllHold(S: set<Triple>, cs: seq<Constraint>) {
    forall n :: 0 <= n < |cs| ==> Holds(S, cs[n])
  }

  /** Constraint 1 for the slots below c: each is used at most once. */
  function SlotConstraints(c: nat): seq<Constraint> {
    if c == 0 then [] else SlotConstraints(c - 1) + [Constraint(AtSlot(c - 1), AtMost, 1)]
  }

  /** The one constraint emitted for the ordered pair (i, j): constraint 2,
    * 3 or 4, whichever applies first. */
  function PairConstraintOf(l: League, i: nat, j: nat): Constraint
    requires i < l.NumTeams() && j < l.NumTeams()
  {
    if i == j then Constraint(Ordered(i, j), Exactly, 0)
    else if l.divisions[i] != l.divisions[j] then Constraint(Ordered(i, j), Exactly, 0)
    else Constraint(EitherOrder(i, j), Exactly, 1)
  }

  /** The pair constraints of row i for the second teams below b. */
  function PairRow(l: League, i: nat, b: nat): seq<Constraint>
    requires i < l.NumTeams() && b <= l.NumTeams()
  {
    if b == 0 then [] else PairRow(l, i, b - 1) + [PairConstraintOf(l, i, b - 1)]
  }

  /** The pair constraints of the rows below a. */
  function PairRows(l: League, a: nat): seq<Constraint>
    requires a <= l.NumTeams()
  {
    if a == 0 then [] else PairRows(l, a - 1) + PairRow(l, a - 1, l.NumTeams())
  }

  /** Constraint 5 for the teams below c: each takes part in g games. */
  function TeamConstraints(g: nat, c: nat): seq<Constraint> {
    if c == 0 then [] else TeamConstraints(g, c - 1) + [Constraint(Involving(c - 1), Exactly, g)]
  }

  /** The whole constraint set, in emission order. */
  function ModelConstraints(l: League, g: nat): seq<Constraint> {
    SlotConstraints(l.NumSlots()) + PairRows(l, l.NumTeams()) + TeamConstraints(g, l.NumTeams())
  }

  /** Emits the constraints as the model-building loops do. */
  method BuildConstraints(l: League, g: nat) returns (prob: seq<Constraint>)
    ensures prob == ModelConstraints(l, g)
    ensures |prob| == l.NumSlots() + l.NumTeams() * l.NumTeams() + l.NumTeams()
    ensures forall S :: IsAssignment(S, l.NumTeams(), l.NumSlots()) ==>
              (AllHold(S, prob) <==> ValidSchedule(l, g, S))
  {
    var n, m := l.NumTeams(), l.NumSlots();
    prob := [];
    var k := 0;
    while k < m
      invariant k <= m
      invariant prob == SlotConstraints(k)
    {
      prob := prob + [Constraint(AtSlot(k), AtMost, 1)];
      k := k + 1;
    }
    var i := 0;
    while i < n
      invariant i <= n
      invariant prob == SlotConstraints(m) + PairRows(l, i)
    {
      var j := 0;
      while j < n
        invariant j <= n
        invariant prob == SlotConstraints(m) + PairRows(l, i) + PairRow(l, i, j)
      {
        var constraint;
        if i == j {
          constraint := Constraint(Ordered(i, j), Exactly, 0);
        } else if l.divisions[i] != l.divisions[j] {
          constraint := Constraint(Ordered(i, j), Exactly, 0);
        } else {
          constraint := Constraint(EitherOrder(i, j), Exactly, 1);
        }
        prob := prob + [constraint];
        j := j + 1;
      }
      i := i + 1;
    }
    var t := 0;
    while t < n
      invariant t <= n
      invariant prob == SlotConstraints(m) + PairRows(l, n) + TeamConstraints(g, t)
    {
      prob := prob + [Constraint(Involving(t), Exactly, g)];
      t := t + 1;
    }
    ModelSize(l, g);
    forall S | IsAssignment(S, n, m) ensures AllHold(S, prob) <==> ValidSchedule(l, g, S) {
      ModelMeaning(l, g, S);
    }
  }

  lemma AllHoldConcat(S: set<Triple>, xs: seq<Constraint>, ys: seq<Constraint>)
    ensures AllHold(S, xs + ys) <==> AllHold(S, xs) && AllHold(S, ys)
  {
    if AllHold(S, xs) && AllHold(S, ys) {
      forall n | 0 <= n < |xs + ys| ensures Holds(S, (xs + ys)[n]) {
        if n >= |xs| {
          assert (xs + ys)[n] == ys[n - |xs|];
        }
      }
    }
    if AllHold(S, xs + ys) {
      forall n | 0 <= n < |xs| ensures Holds(S, xs[n]) {
        assert (xs + ys)[n] == xs[n];
      }
      forall n | 0 <= n < |ys| ensures Holds(S, ys[n]) {
        assert (xs + ys)[|xs| + n] == ys[n];
      }
    }
  }

  lemma AllHoldAppend(S: set<Triple>, xs: seq<Constraint>, c: Constraint)
    ensures AllHold(S, xs + [c]) <==> AllHold(S, xs) && Holds(S, c)
  {
    AllHoldConcat(S, xs, [c]);
    assert AllHold(S, [c]) <==> Holds(S, [c][0]);
  }

  lemma {:induction false} SlotConstraintsMeaning(S: set<Triple>, c: nat)
    ensures |SlotConstraints(c)| == c
    ensures AllHold(S, SlotConstraints(c)) <==> forall k :: 0 <= k < c ==> |Selected(S, AtSlot(k))| <= 1
  {
    if c > 0 {
      SlotConstraintsMeaning(S, c - 1);
      AllHoldAppend(S, SlotConstraints(c - 1), Constraint(AtSlot(c - 1), AtMost, 1));
    }
  }

  lemma {:induction false} PairRowMeaning(l: League, S: set<Triple>, i: nat, b: nat)
    requires i < l.NumTeams() && b <= l.NumTeams()
    ensures |PairRow(l, i, b)| == b
    ensures AllHold(S, PairRow(l, i, b)) <==> forall j :: 0 <= j < b ==> PairConstraint(l, S, i, j)
  {
    if b > 0 {
      PairRowMeaning(l, S, i, b - 1);
      AllHoldAppend(S, PairRow(l, i, b - 1), PairConstraintOf(l, i, b - 1));
      assert Holds(S, PairConstraintOf(l, i, b - 1)) <==> PairConstraint(l, S, i, b - 1);
    }
  }

  lemma {:induction false} PairRowsMeaning(l: League, S: set<Triple>, a: nat)
    requires a <= l.NumTeams()
    ensures |PairRows(l, a)| == a * l.NumTeams()
    ensures AllHold(S, PairRows(l, a)) <==>
      forall i, j :: 0 <= i < a && 0 <= j < l.NumTeams() ==> PairConstraint(l, S, i, j)
  {
    if a > 0 {
      PairRowsMeaning(l, S, a - 1);
      PairRowMeaning(l, S, a - 1, l.NumTeams());
      AllHoldConcat(S, PairRows(l, a - 1), PairRow(l, a - 1, l.NumTeams()));
    }
  }

  lemma {:induction false} TeamConstraintsMeaning(S: set<Triple>, g: nat, c: nat)
    ensures |TeamConstraints(g, c)| == c
    ensures AllHold(S, TeamConstraints(g, c)) <==> forall t :: 0 <= t < c ==> |Selected(S, Involving(t))| == g
  {
    if c > 0 {
      TeamConstraintsMeaning(S, g, c - 1);
      AllHoldAppend(S, TeamConstraints(g, c - 1), Constraint(Involving(c - 1), Exactly, g));
    }
  }

  /** The model has one constraint per slot, per ordered pair and per team. */
  lemma ModelSize(l: League, g: nat)
    ensures |ModelConstraints(l, g)| == l.NumSlots() + l.NumTeams() * l.NumTeams() + l.NumTeams()
  {
    SlotConstraintsMeaning({}, l.NumSlots());
    PairRowsMeaning(l, {}, l.NumTeams());
    TeamConstraintsMeaning({}, g, l.NumTeams());
  }

  /** An assignment satisfies every emitted constraint exactly when it is a
    * valid schedule. */
  lemma ModelMeaning(l: League, g: nat, S: set<Triple>)
    ensures AllHold(S, ModelConstraints(l, g)) <==> ValidSchedule(l, g, S)
  {
    var slots, pairs, teams := SlotConstraints(l.NumSlots()), PairRows(l, l.NumTeams()), TeamConstraints(g, l.NumTeams());
    SlotConstraintsMeaning(S, l.NumSlots());
    PairRowsMeaning(l, S, l.NumTeams());
    TeamConstraintsMeaning(S, g, l.NumTeams());
    AllHoldConcat(S, slots, pairs);
    AllHoldConcat(S, slots + pairs, teams);
  }
}
