/** What every fair run brings about: the induction once and for all. */
module ReloadProgress {
  import opened Common
  import opened ReloadProtocol
  import opened ReloadTheorems
  import opened ReloadFairness

  /** Something to be brought about: while it is open, how far it is and who must move next;
      and the steps that settle it. */
  datatype Errand = Errand(
    open: State -> bool,
    way: State -> Wait,
    agent: State -> Agent,
    settles: (State, Step) -> bool)

  /** The step settles it; or brings it nearer; or leaves it as near, and to the same agent. */
  ghost predicate Advances(g: Errand, s: State, e: Step)
    requires Enabled(s, e)
  {
    g.settles(s, e)
    || (g.open(Do(s, e))
        && (Nearer(g.way(Do(s, e)), g.way(s))
            || (g.way(Do(s, e)) == g.way(s) && g.agent(Do(s, e)) == g.agent(s) && !MovedBy(e, g.agent(s)))))
  }

  ghost predicate GoesOn(g: Errand) {
    && (forall s: State, e: Step :: Inv(s) && g.open(s) && Enabled(s, e) ==> Advances(g, s, e))
    && (forall s: State :: Inv(s) && g.open(s) ==> CanMove(s, g.agent(s)))
  }

  ghost predicate SettledAt(states: nat -> State, steps: nat -> Option<Step>, g: Errand, m: nat) {
    steps(m).Some? && Enabled(states(m), steps(m).value) && g.settles(states(m), steps(m).value)
  }

  ghost predicate Nearing(g: Errand, s: State, t: State, o: Option<Step>) {
    g.open(t) && (Nearer(g.way(t), g.way(s))
                  || (g.way(t) == g.way(s) && g.agent(t) == g.agent(s) && !Moves(o, g.agent(s))))
  }

  lemma Moment(states: nat -> State, steps: nat -> Option<Step>, g: Errand, n: nat)
    requires Endless(states, steps) && GoesOn(g) && g.open(states(n))
    ensures SettledAt(states, steps, g, n) || Nearing(g, states(n), states(n + 1), steps(n))
    ensures CanMove(states(n), g.agent(states(n)))
  {
    NextMoment(states, steps, n);
    Along(states, steps, n);
    var s, o, t := states(n), steps(n), states(n + 1);
    assert Inv(s);
    hide Inv;
    hide OwnChannels;
    hide Endless;
    hide CanMove;
    hide Nearer;
    match o
    case None =>
    case Some(e) => assert Advances(g, s, e);
  }

  lemma Until(states: nat -> State, steps: nat -> Option<Step>, g: Errand, n: nat, m: nat, a: Agent) returns (k: nat)
    requires Endless(states, steps) && GoesOn(g) && g.open(states(n)) && n <= m
    requires a == g.agent(states(n)) && Settled(states, steps, a, m)
    ensures k >= n
    ensures SettledAt(states, steps, g, k) || (g.open(states(k)) && Nearer(g.way(states(k)), g.way(states(n))))
    decreases m - n
  {
    k := n;
    Moment(states, steps, g, n);
    assert Moves(steps(m), a) || !CanMove(states(m), a);
    assert SettledAt(states, steps, g, n) || Nearing(g, states(n), states(n + 1), steps(n));
    hide Endless;
    hide GoesOn;
    hide Settled;
    hide SettledAt;
    hide Nearer;
    hide CanMove;
    hide Moves;
    if SettledAt(states, steps, g, n) { return; }
    if Nearer(g.way(states(n + 1)), g.way(states(n))) { return n + 1; }
    k := Until(states, steps, g, n + 1, m, a);
  }

  lemma {:induction false} Comes(states: nat -> State, steps: nat -> Option<Step>, g: Errand, n: nat, w: Wait)
    returns (m: nat)
    requires Endless(states, steps) && Fair(states, steps) && GoesOn(g) && g.open(states(n)) && w == g.way(states(n))
    ensures m >= n && SettledAt(states, steps, g, m)
    decreases w.phase, w.level, w.pos, w.place, w.stage, w.left, w.outbox
  {
    var a := g.agent(states(n));
    assert SettledFrom(states, steps, a, n);
    var j: nat :| j >= n && Settled(states, steps, a, j);
    hide *;
    m := Until(states, steps, g, n, j, a);
    if !SettledAt(states, steps, g, m) {
      NearerSpelledOut(g.way(states(m)), w);
      m := Comes(states, steps, g, m, g.way(states(m)));
    }
  }

  /** Whatever goes on is settled, in every fair run. */
  lemma EveryErrandIsSettled(states: nat -> State, steps: nat -> Option<Step>, g: Errand, n: nat)
    requires Endless(states, steps) && Fair(states, steps) && GoesOn(g) && g.open(states(n))
    ensures exists m: nat :: m >= n && SettledAt(states, steps, g, m)
  {
    var m := Comes(states, steps, g, n, g.way(states(n)));
  }
}
