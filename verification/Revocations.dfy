/** When a revocation that overlaps other transactions kills a family. */
module Revocations {
  import opened Collections
  import opened LoginProtocol

  ghost predicate DeadFamily(st: State, f: FamilyId) {
    forall t :: t in st.tokens && st.tokens[t].family == f ==> !st.tokens[t].active
  }

  /** A bulk update that began on the rows of `start` and is about to commit with `rows` set
      inactive: it has gone through every row of the family that was active when it began,
      and leaves out one only because it found it inactive by then; rows committed since it
      began it does not see. */
  ghost predicate WentThrough(start: State, now: State, rows: set<TokenId>, f: FamilyId) {
    && (forall t :: t in start.tokens && start.tokens[t].family == f && start.tokens[t].active && t in now.tokens ==>
          t in rows || !now.tokens[t].active)
    && (forall t :: t in rows && t in now.tokens && now.tokens[t].family == f ==> t in start.tokens)
  }

  // ----- what a run keeps of a token and of a family -----

  ghost predicate OnlyDied(st: State, st': State, t: TokenId)
    requires t in st.tokens
  {
    t in st'.tokens && SameButActive(st.tokens[t], st'.tokens[t])
  }

  lemma ActionOnlyKills(st: State, a: Action, t: TokenId)
    requires PhasesSound(st) && Enabled(st, a) && t in st.tokens
    ensures OnlyDied(st, Apply(st, a), t)
  {
    if a.Commit? { assert PhaseSound(st, PhaseOf(st, a.client)); }
  }

  lemma {:induction false} RunOnlyKills(run: seq<Action>, more: seq<Action>, t: TokenId)
    requires After(run).Some? && After(run + more).Some? && t in After(run).value.tokens
    ensures OnlyDied(After(run).value, After(run + more).value, t)
    decreases |more|
  {
    if more == [] {
      assert run + more == run;
    } else {
      var front := more[..|more| - 1];
      assert (run + more)[..|run + more| - 1] == run + front;
      RunOnlyKills(run, front, t);
      RunsKeep(run + front);
      ActionOnlyKills(After(run + front).value, more[|more| - 1], t);
    }
  }

  lemma IssuedStep(st: State, a: Action, f: FamilyId)
    requires PhasesSound(st) && Enabled(st, a) && f in st.history.issued
    ensures f in Apply(st, a).history.issued && st.history.issued[f] <= Apply(st, a).history.issued[f]
  {
    if a.Commit? { assert PhaseSound(st, PhaseOf(st, a.client)); }
  }

  lemma {:induction false} IssuedOnlyGrows(run: seq<Action>, more: seq<Action>, f: FamilyId)
    requires After(run).Some? && After(run + more).Some? && f in After(run).value.history.issued
    ensures f in After(run + more).value.history.issued
    ensures After(run).value.history.issued[f] <= After(run + more).value.history.issued[f]
    decreases |more|
  {
    if more == [] {
      assert run + more == run;
    } else {
      var front := more[..|more| - 1];
      assert (run + more)[..|run + more| - 1] == run + front;
      IssuedOnlyGrows(run, front, f);
      RunsKeep(run + front);
      IssuedStep(After(run + front).value, more[|more| - 1], f);
    }
  }

  // ----- the family after the commit -----

  /** Every token the family had when the update began is inactive once it commits. */
  lemma OldTokensDie(start: State, now: State, c: ClientId, f: FamilyId, t: TokenId)
    requires PhaseOf(now, c).Revoking? && WentThrough(start, now, PhaseOf(now, c).rows, f)
    requires t in start.tokens && start.tokens[t].family == f && OnlyDied(start, now, t)
    ensures t in Apply(now, Commit(c)).tokens && !Apply(now, Commit(c)).tokens[t].active
  {
  }

  /** A token the family got since is as it was before the commit. */
  lemma NewTokensStay(start: State, now: State, c: ClientId, f: FamilyId, t: TokenId)
    requires PhaseOf(now, c).Revoking? && WentThrough(start, now, PhaseOf(now, c).rows, f)
    requires t in now.tokens && now.tokens[t].family == f && t !in start.tokens
    ensures t in Apply(now, Commit(c)).tokens && Apply(now, Commit(c)).tokens[t] == now.tokens[t]
  {
  }

  /** If the family has grown, its last token is one it got since. */
  lemma GrownChainEndsNew(start: State, now: State, f: FamilyId, issued0: seq<TokenId>, chain: seq<TokenId>)
    requires IsChain(start, f, issued0) && IsChain(now, f, chain) && issued0 < chain
    ensures chain[|chain| - 1] !in start.tokens || start.tokens[chain[|chain| - 1]].family != f
  {
    forall i | 0 <= i < |issued0| ensures issued0[i] != chain[|chain| - 1] {
      assert issued0[i] == chain[i];
    }
  }

  lemma LastDecides(now: State, f: FamilyId, chain: seq<TokenId>)
    requires IsChain(now, f, chain) && !now.tokens[chain[|chain| - 1]].active
    ensures DeadFamily(now, f)
  {
    forall t | t in now.tokens && now.tokens[t].family == f ensures !now.tokens[t].active {
      assert t in chain;
    }
  }

  lemma DeadStaysDead(now: State, c: ClientId, f: FamilyId)
    requires PhaseOf(now, c).Revoking? && DeadFamily(now, f)
    ensures DeadFamily(Apply(now, Commit(c)), f)
  {
  }

  lemma UngrownDies(run: seq<Action>, more: seq<Action>, c: ClientId, f: FamilyId)
    requires After(run).Some? && After(run + more).Some? && f in After(run).value.history.issued
    requires var start, now := After(run).value, After(run + more).value;
             && PhaseOf(now, c).Revoking? && WentThrough(start, now, PhaseOf(now, c).rows, f)
             && f in now.history.issued && now.history.issued[f] == start.history.issued[f]
             && IsChain(start, f, start.history.issued[f]) && IsChain(now, f, start.history.issued[f])
    ensures DeadFamily(Apply(After(run + more).value, Commit(c)), f)
  {
    var start, now := After(run).value, After(run + more).value;
    var chain := start.history.issued[f];
    forall t | t in now.tokens && now.tokens[t].family == f ensures !Apply(now, Commit(c)).tokens[t].active {
      assert t in chain;
      var i :| 0 <= i < |chain| && chain[i] == t;
      RunOnlyKills(run, more, t);
      OldTokensDie(start, now, c, f, t);
    }
  }

  lemma GrownSurvives(run: seq<Action>, more: seq<Action>, c: ClientId, f: FamilyId)
    requires After(run).Some? && After(run + more).Some? && f in After(run).value.history.issued
    requires var start, now := After(run).value, After(run + more).value;
             && PhaseOf(now, c).Revoking? && WentThrough(start, now, PhaseOf(now, c).rows, f)
             && f in now.history.issued && start.history.issued[f] < now.history.issued[f]
             && IsChain(start, f, start.history.issued[f]) && IsChain(now, f, now.history.issued[f])
             && now.tokens[now.history.issued[f][|now.history.issued[f]| - 1]].active
    ensures !DeadFamily(Apply(After(run + more).value, Commit(c)), f)
  {
    var start, now := After(run).value, After(run + more).value;
    var chain := now.history.issued[f];
    var last := chain[|chain| - 1];
    GrownChainEndsNew(start, now, f, start.history.issued[f], chain);
    if last in start.tokens { RunOnlyKills(run, more, last); }
    NewTokensStay(start, now, c, f, last);
  }

  /** Exactly when an overlapping revocation kills the family: unless a rotation of the family
      has committed since the update began and its token is still active at the commit. */
  lemma OverlappingRevocationKillsExactlyWhen(run: seq<Action>, more: seq<Action>, c: ClientId, f: FamilyId)
    requires After(run).Some? && After(run + more).Some? && f in After(run).value.history.issued
    requires var now := After(run + more).value;
             PhaseOf(now, c).Revoking? && WentThrough(After(run).value, now, PhaseOf(now, c).rows, f)
    ensures f in After(run + more).value.history.issued && After(run + more).value.history.issued[f] != []
    ensures var now := After(run + more).value;
            var last := now.history.issued[f][|now.history.issued[f]| - 1];
            && last in now.tokens
            && (DeadFamily(Apply(now, Commit(c)), f) <==>
                  !(CommittedRotations(run + more, f) > CommittedRotations(run, f) && now.tokens[last].active))
  {
    var start, now := After(run).value, After(run + more).value;
    IssuedOnlyGrows(run, more, f);
    FamiliesAreChains(run, f);
    FamiliesAreChains(run + more, f);
    var issued0, chain := start.history.issued[f], now.history.issued[f];
    if !now.tokens[chain[|chain| - 1]].active {
      LastDecides(now, f, chain);
      DeadStaysDead(now, c, f);
    } else if |chain| == |issued0| {
      assert chain == issued0;
      UngrownDies(run, more, c, f);
    } else {
      GrownSurvives(run, more, c, f);
    }
  }
}
