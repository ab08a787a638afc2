/**
 What redelivery of status updates can change. A crash between the commit of
 an update and its ack makes the broker deliver it again, at any later point.
 */
module Redelivery {
  import opened Wrappers
  import opened Status
  import opened StatusConsumer

  // One deployment's deliveries: a first one, or one of an update that was applied before.
  datatype Delivery = First(update: Params) | Again(update: Params)

  function Run(rule: Rule, r: Row, ds: seq<Delivery>): Row {
    if ds == [] then r else Moved(rule, Run(rule, r, ds[..|ds| - 1]), ds[|ds| - 1].update)
  }

  // The updates that were applied.
  function Committed(rule: Rule, r: Row, ds: seq<Delivery>): set<Params> {
    if ds == [] then {}
    else
      var shorter, p := ds[..|ds| - 1], ds[|ds| - 1].update;
      Committed(rule, r, shorter) + if rule(Run(rule, r, shorter).status, p.status) then {p} else {}
  }

  /** Only what was applied is delivered again. */
  predicate Possible(rule: Rule, r: Row, ds: seq<Delivery>) {
    ds != [] ==>
      var shorter, last := ds[..|ds| - 1], ds[|ds| - 1];
      Possible(rule, r, shorter) && (last.Again? ==> last.update in Committed(rule, r, shorter))
  }

  function Originals(ds: seq<Delivery>): seq<Params> {
    if ds == [] then []
    else
      var before, last := Originals(ds[..|ds| - 1]), ds[|ds| - 1];
      if last.First? then before + [last.update] else before
  }

  /** Every update delivered once. */
  function Once(ps: seq<Params>): seq<Delivery> {
    seq(|ps|, i requires 0 <= i < |ps| => First(ps[i]))
  }

  lemma OnceStep(rule: Rule, r: Row, ps: seq<Params>, p: Params)
    ensures Run(rule, r, Once(ps + [p])) == Moved(rule, Run(rule, r, Once(ps)), p)
    ensures Committed(rule, r, Once(ps + [p])) ==
              Committed(rule, r, Once(ps)) + if rule(Run(rule, r, Once(ps)).status, p.status) then {p} else {}
  {
    assert Once(ps + [p])[..|ps|] == Once(ps);
  }

  lemma {:induction false} OnceIsPossible(rule: Rule, r: Row, ps: seq<Params>)
    ensures Possible(rule, r, Once(ps)) && Originals(Once(ps)) == ps
  {
    if ps != [] {
      OnceIsPossible(rule, r, ps[..|ps| - 1]);
      assert Once(ps)[..|ps| - 1] == Once(ps[..|ps| - 1]);
    }
  }

  // ---------- Any rule that never goes back ----------

  function Rank(s: Status): nat {
    match s case Pending => 0 case Building => 1 case _ => 2
  }

  ghost predicate NeverBack(rule: Rule) {
    && (forall s, t | rule(s, t) :: Rank(s) <= Rank(t))
    && (forall s, t | rule(s, t) && s.Terminal() :: s == t)
  }

  predicate Behind(p: Params, r: Row) {
    Rank(p.status) <= Rank(r.status) && (p.status.Terminal() ==> p.status == r.status)
  }

  lemma {:induction false} CommittedIsBehind(rule: Rule, r: Row, ds: seq<Delivery>)
    requires NeverBack(rule)
    ensures forall p | p in Committed(rule, r, ds) :: Behind(p, Run(rule, r, ds))
  {
    if ds != [] {
      CommittedIsBehind(rule, r, ds[..|ds| - 1]);
    }
  }

  /** Under such a rule redelivery never changes the final status. */
  lemma {:induction false} RedeliveryConverges(rule: Rule, r: Row, ds: seq<Delivery>)
    requires NeverBack(rule) && Possible(rule, r, ds)
    ensures Run(rule, r, ds).status == Run(rule, r, Once(Originals(ds))).status
  {
    if ds != [] {
      var shorter, last := ds[..|ds| - 1], ds[|ds| - 1];
      RedeliveryConverges(rule, r, shorter);
      if last.First? {
        OnceStep(rule, r, Originals(shorter), last.update);
      } else {
        CommittedIsBehind(rule, r, shorter);
        assert Behind(last.update, Run(rule, r, shorter));
      }
    }
  }

  // ---------- The rule in force ----------

  ghost predicate StatusConverges(r: Row, ps: seq<Params>) {
    forall ds | Possible(ACTUAL, r, ds) && Originals(ds) == ps ::
      Run(ACTUAL, r, ds).status == Run(ACTUAL, r, Once(ps)).status
  }

  predicate Settled(r: Row, ps: seq<Params>) {
    r.status.Terminal() || exists i | 0 <= i < |ps| :: ps[i].status.Terminal()
  }

  predicate OneStatus(ps: seq<Params>) {
    forall i, j | 0 <= i < j < |ps| :: ps[i].status == ps[j].status
  }

  // Both runs finished alike, or neither finished.
  predicate Alike(s: Status, t: Status) {
    s == t || (!s.Terminal() && !t.Terminal())
  }

  lemma {:induction false} RunsStayAlike(r: Row, ds: seq<Delivery>)
    requires Possible(ACTUAL, r, ds)
    ensures var a, b := Run(ACTUAL, r, ds).status, Run(ACTUAL, r, Once(Originals(ds))).status;
            && Alike(a, b) && (b.Terminal() <==> Settled(r, Originals(ds)))
            && forall p | p in Committed(ACTUAL, r, ds) && p.status.Terminal() :: p.status == a
    ensures forall p | p in Committed(ACTUAL, r, ds) :: p in Originals(ds)
  {
    if ds != [] {
      var shorter, last := ds[..|ds| - 1], ds[|ds| - 1];
      RunsStayAlike(r, shorter);
      if last.First? {
        SettledStep(r, Originals(shorter), last.update);
        OnceStep(ACTUAL, r, Originals(shorter), last.update);
      }
    }
  }

  lemma SettledStep(r: Row, ps: seq<Params>, p: Params)
    ensures Settled(r, ps + [p]) <==> Settled(r, ps) || p.status.Terminal()
  {
    if exists i | 0 <= i < |ps| :: ps[i].status.Terminal() {
      var i :| 0 <= i < |ps| && ps[i].status.Terminal();
      assert (ps + [p])[i].status.Terminal();
    }
    assert (ps + [p])[|ps|] == p;
  }

  lemma {:induction false} OneStatusConverges(r: Row, ds: seq<Delivery>)
    requires Possible(ACTUAL, r, ds) && OneStatus(Originals(ds))
    ensures Run(ACTUAL, r, ds).status == Run(ACTUAL, r, Once(Originals(ds))).status
  {
    if ds != [] {
      var shorter, last := ds[..|ds| - 1], ds[|ds| - 1];
      assert OneStatus(Originals(shorter)) by {
        assert forall i | 0 <= i < |Originals(shorter)| :: Originals(shorter)[i] == Originals(ds)[i];
      }
      OneStatusConverges(r, shorter);
      if last.First? {
        OnceStep(ACTUAL, r, Originals(shorter), last.update);
      } else {
        RunsStayAlike(r, shorter);
        LastStatus(r, shorter);
        assert last.update in Originals(shorter);
      }
    }
  }

  /** With one status throughout, that status is reached by the first update or never. */
  lemma {:induction false} LastStatus(r: Row, ds: seq<Delivery>)
    requires Possible(ACTUAL, r, ds) && OneStatus(Originals(ds))
    ensures forall p | p in Committed(ACTUAL, r, ds) :: p in Originals(ds) && p.status == Run(ACTUAL, r, ds).status
  {
    if ds != [] {
      var shorter, last := ds[..|ds| - 1], ds[|ds| - 1];
      assert forall i | 0 <= i < |Originals(shorter)| :: Originals(shorter)[i] == Originals(ds)[i];
      LastStatus(r, shorter);
      forall p | p in Committed(ACTUAL, r, ds) ensures p in Originals(ds) && p.status == Run(ACTUAL, r, ds).status {
        var ps := Originals(ds);
        assert last.update in ps;
        assert p in ps;
        var i, j :| 0 <= i < |ps| && 0 <= j < |ps| && ps[i] == p && ps[j] == last.update;
        assert ps[i].status == ps[j].status;
      }
    }
  }

  lemma {:induction false} UnsettledAppliesAll(r: Row, ps: seq<Params>)
    requires !Settled(r, ps)
    ensures !Run(ACTUAL, r, Once(ps)).status.Terminal()
    ensures forall p | p in ps :: p in Committed(ACTUAL, r, Once(ps))
    ensures ps != [] ==> Run(ACTUAL, r, Once(ps)).status == ps[|ps| - 1].status
  {
    if ps != [] {
      var shorter, last := ps[..|ps| - 1], ps[|ps| - 1];
      assert ps == shorter + [last];
      SettledStep(r, shorter, last);
      UnsettledAppliesAll(r, shorter);
      OnceStep(ACTUAL, r, shorter, last);
    }
  }

  /** Under the rule in force redelivery is harmless exactly when some status is terminal or all are the same. */
  lemma StatusConvergesExactly(r: Row, ps: seq<Params>)
    ensures StatusConverges(r, ps) <==> Settled(r, ps) || OneStatus(ps)
  {
    if Settled(r, ps) || OneStatus(ps) {
      forall ds | Possible(ACTUAL, r, ds) && Originals(ds) == ps
        ensures Run(ACTUAL, r, ds).status == Run(ACTUAL, r, Once(ps)).status
      {
        if Settled(r, ps) {
          RunsStayAlike(r, ds);
        } else {
          OneStatusConverges(r, ds);
        }
      }
    } else {
      var i, j :| 0 <= i < j < |ps| && ps[i].status != ps[j].status;
      var once, end := Once(ps), ps[|ps| - 1].status;
      var odd := if ps[i].status != end then ps[i] else ps[j];
      UnsettledAppliesAll(r, ps);
      OnceIsPossible(ACTUAL, r, ps);
      var ds := once + [Again(odd)];
      assert ds[..|once|] == once;
      assert Possible(ACTUAL, r, ds) && Originals(ds) == ps;
      assert Run(ACTUAL, r, ds).status == odd.status;
    }
  }

  /**
   The updates of the worker never say pending, so they always converge in
   status: the only step back that the rule in force allows is not among them.
   */
  lemma WorkerUpdatesConverge(r: Row, ps: seq<Params>)
    requires forall p | p in ps :: FromWorker(p)
    ensures StatusConverges(r, ps)
  {
    StatusConvergesExactly(r, ps);
    hide StatusConverges;
    if !Settled(r, ps) {
      forall i | 0 <= i < |ps| ensures ps[i].status.Building? {
        assert ps[i] in ps && !ps[i].status.Terminal();
      }
    }
  }

  // ---------- Whole rows ----------

  /** The updates a worker sends: never pending, and url and text only with a final status. */
  predicate FromWorker(p: Params) {
    !p.status.Pending? && (p.status.Building? ==> p.outputUrl == "" && p.errorMessage == "")
  }

  predicate AgreeTexts(s: string, t: string) { s == "" || t == "" || s == t }

  predicate Agree(p: Params, q: Params) {
    AgreeTexts(p.outputUrl, q.outputUrl) && AgreeTexts(p.errorMessage, q.errorMessage)
  }

  ghost predicate Agreeing(ps: set<Params>) {
    forall p, q | p in ps && q in ps :: Agree(p, q)
  }

  ghost predicate RowConverges(r: Row, ps: seq<Params>) {
    forall ds | Possible(ACTUAL, r, ds) && Originals(ds) == ps :: Run(ACTUAL, r, ds) == Run(ACTUAL, r, Once(ps))
  }

  /** What was applied changes nothing when it is applied again. */
  lemma {:induction false} AppliedAgainIsNoOp(r: Row, ds: seq<Delivery>)
    requires Possible(ACTUAL, r, ds) && forall p | p in Originals(ds) :: FromWorker(p)
    requires Agreeing(Committed(ACTUAL, r, Once(Originals(ds))))
    ensures Run(ACTUAL, r, ds) == Run(ACTUAL, r, Once(Originals(ds)))
    ensures Committed(ACTUAL, r, ds) == Committed(ACTUAL, r, Once(Originals(ds)))
    ensures forall p | p in Committed(ACTUAL, r, ds) ::
              FromWorker(p) && Moved(ACTUAL, Run(ACTUAL, r, ds), p) == Run(ACTUAL, r, ds)
  {
    if ds != [] {
      var shorter, last := ds[..|ds| - 1], ds[|ds| - 1];
      if last.First? {
        OnceStep(ACTUAL, r, Originals(shorter), last.update);
        assert Originals(ds) == Originals(shorter) + [last.update];
        assert last.update in Originals(ds);
        assert forall p | p in Originals(shorter) :: p in Originals(ds);
        AppliedAgainIsNoOp(r, shorter);
        var a, b := Run(ACTUAL, r, shorter), Run(ACTUAL, r, ds);
        forall p | p in Committed(ACTUAL, r, ds) ensures FromWorker(p) && Moved(ACTUAL, b, p) == b {
          if a != b {
            NoOpStays(a, last.update, p);
          }
        }
      } else {
        AppliedAgainIsNoOp(r, shorter);
      }
    }
  }

  lemma NoOpStays(a: Row, p: Params, q: Params)
    requires FromWorker(p) && FromWorker(q) && ACTUAL(a.status, p.status) && Agree(p, q)
    requires q == p || Moved(ACTUAL, a, q) == a
    ensures Moved(ACTUAL, Moved(ACTUAL, a, p), q) == Moved(ACTUAL, a, p)
  {}

  /** Applied final updates fix the status, and the last non-empty url and text stay. */
  lemma {:induction false} LastWordStays(r: Row, ps: seq<Params>)
    requires forall p | p in ps :: FromWorker(p)
    ensures var done, end := Committed(ACTUAL, r, Once(ps)), Run(ACTUAL, r, Once(ps));
            && (forall p | p in done :: FromWorker(p) && (p.status.Terminal() ==> p.status == end.status))
            && ((exists p | p in done :: p.outputUrl != "") ==> exists p | p in done :: p.outputUrl == end.outputUrl)
            && ((exists p | p in done :: p.errorMessage != "") ==> exists p | p in done :: p.errorMessage == end.errorMessage)
  {
    if ps != [] {
      var shorter, last := ps[..|ps| - 1], ps[|ps| - 1];
      assert ps == shorter + [last];
      LastWordStays(r, shorter);
      OnceStep(ACTUAL, r, shorter, last);
    }
  }

  /**
   For the worker's updates the whole row is safe from redelivery exactly when
   the applied ones agree: an applied update with another url or text than the
   last one overwrites it when it is delivered again.
   */
  lemma RowConvergesExactly(r: Row, ps: seq<Params>)
    requires forall p | p in ps :: FromWorker(p)
    ensures RowConverges(r, ps) <==> Agreeing(Committed(ACTUAL, r, Once(ps)))
  {
    var once := Once(ps);
    var done, end := Committed(ACTUAL, r, once), Run(ACTUAL, r, once);
    if Agreeing(done) {
      forall ds | Possible(ACTUAL, r, ds) && Originals(ds) == ps
        ensures Run(ACTUAL, r, ds) == end
      {
        AppliedAgainIsNoOp(r, ds);
      }
    } else {
      var p, q :| p in done && q in done && !Agree(p, q);
      LastWordStays(r, ps);
      var odd := if Moved(ACTUAL, end, p) != end then p else q;
      assert Moved(ACTUAL, end, odd) != end;
      OnceIsPossible(ACTUAL, r, ps);
      var ds := once + [Again(odd)];
      assert ds[..|once|] == once;
      assert Possible(ACTUAL, r, ds) && Originals(ds) == ps;
    }
  }
}
