/** The refund's UPDATE: what goes back into which package. */
module RefundFacts {
  import opened Sums
  import opened Tables
  import opened CreditRules

  lemma AllocatedStep(rows: seq<Allocation>, p: PackageId, held: set<JobId>, j: JobId)
    requires rows != []
    ensures var last := rows[|rows| - 1];
      var init := rows[..|rows| - 1];
      && AllocatedOn(rows, p, held)
           == AllocatedOn(init, p, held) + (if last.package == p && last.job in held then last.credits else 0)
      && AllocatedTo(rows, j) == AllocatedTo(init, j) + (if last.job == j then last.credits else 0)
  {
    assert rows == rows[..|rows| - 1] + [rows[|rows| - 1]];
    AllocatedAppend(rows[..|rows| - 1], rows[|rows| - 1], p, held, j);
  }

  lemma RestorableStep(ps: seq<Package>, rows: seq<Allocation>, j: JobId, at: Instant)
    requires rows != [] && RowsInTable(rows, |ps|)
    ensures var last := rows[|rows| - 1];
      Restorable(ps, rows, j, at) == Restorable(ps, rows[..|rows| - 1], j, at)
        + (if last.job == j && Active(ps[last.package], at) then last.credits else 0)
  {
    var n := |rows| - 1;
    assert RestoredParts(ps, rows, j, at)[..n] == RestoredParts(ps, rows[..n], j, at);
  }

  /** Only `remaining` of still active packages can change, and CHECK (remaining <= granted) survives. */
  lemma {:induction false} RestoreShape(ps: seq<Package>, rows: seq<Allocation>, j: JobId, at: Instant)
    requires RowsInTable(rows, |ps|)
    ensures var qs := Restore(ps, rows, j, at);
      && (forall i :: 0 <= i < |ps| ==> qs[i] == ps[i].(remaining := qs[i].remaining))
      && (forall i :: 0 <= i < |ps| && !Active(ps[i], at) ==> qs[i] == ps[i])
      && (forall i :: 0 <= i < |ps| && ps[i].remaining <= ps[i].granted ==> qs[i].remaining <= qs[i].granted)
  {
    if rows != [] {
      RestoreShape(ps, rows[..|rows| - 1], j, at);
    }
  }

  /** When what the job took from a package still fits under its grant, LEAST does not clip: the
      package gets back exactly that, or nothing when it has expired. */
  lemma {:induction false} RestoreExact(ps: seq<Package>, rows: seq<Allocation>, j: JobId, at: Instant, p: PackageId)
    requires RowsInTable(rows, |ps|) && p < |ps|
    requires ps[p].remaining + AllocatedOn(rows, p, {j}) <= ps[p].granted
    ensures Restore(ps, rows, j, at)[p].remaining
         == ps[p].remaining + (if Active(ps[p], at) then AllocatedOn(rows, p, {j}) else 0)
  {
    if rows != [] {
      AllocatedStep(rows, p, {j}, j);
      RestoreExact(ps, rows[..|rows| - 1], j, at, p);
      RestoreShape(ps, rows[..|rows| - 1], j, at);
    }
  }

  predicate FitsUnderGrants(ps: seq<Package>, rows: seq<Allocation>, j: JobId) {
    forall p :: 0 <= p < |ps| ==> ps[p].remaining + AllocatedOn(rows, p, {j}) <= ps[p].granted
  }

  lemma FitsStep(ps: seq<Package>, rows: seq<Allocation>, j: JobId)
    requires rows != [] && FitsUnderGrants(ps, rows, j)
    ensures FitsUnderGrants(ps, rows[..|rows| - 1], j)
  {
    forall p | 0 <= p < |ps|
      ensures ps[p].remaining + AllocatedOn(rows[..|rows| - 1], p, {j}) <= ps[p].granted
    {
      AllocatedStep(rows, p, {j}, j);
    }
  }

  /** Credits put into an active package that has room for them can all be spent. */
  lemma FillAddsUp(ps: seq<Package>, i: PackageId, c: nat, u: UserId, at: Instant)
    requires i < |ps| && ps[i].owner == u && Active(ps[i], at) && ps[i].remaining + c <= ps[i].granted
    ensures ActiveSum(ps[i := ps[i].(remaining := Min(ps[i].granted, ps[i].remaining + c))], u, at) == ActiveSum(ps, u, at) + c
  {
    ActiveSumUpdate(ps, i, ps[i].(remaining := Min(ps[i].granted, ps[i].remaining + c)), u, at);
  }

  /** Before the last allocation row is restored its package has room for it. */
  lemma RoomForLast(ps: seq<Package>, rows: seq<Allocation>, j: JobId, at: Instant)
    requires rows != [] && RowsInTable(rows, |ps|) && rows[|rows| - 1].job == j
    requires Active(ps[rows[|rows| - 1].package], at)
    requires ps[rows[|rows| - 1].package].remaining + AllocatedOn(rows, rows[|rows| - 1].package, {j}) <= ps[rows[|rows| - 1].package].granted
    ensures var (qs, a) := (Restore(ps, rows[..|rows| - 1], j, at), rows[|rows| - 1]);
      qs[a.package].remaining + a.credits <= ps[a.package].granted
  {
    var a := rows[|rows| - 1];
    AllocatedStep(rows, a.package, {j}, j);
    RestoreExact(ps, rows[..|rows| - 1], j, at, a.package);
  }

  /** The last allocation row puts its credits back unless its package has ended. */
  lemma LastRowAddsUp(ps: seq<Package>, rows: seq<Allocation>, j: JobId, u: UserId, at: Instant)
    requires rows != [] && RowsInTable(rows, |ps|)
    requires ps[rows[|rows| - 1].package].remaining + AllocatedOn(rows, rows[|rows| - 1].package, {j}) <= ps[rows[|rows| - 1].package].granted
    requires rows[|rows| - 1].job == j ==> ps[rows[|rows| - 1].package].owner == u
    ensures var (init, a) := (rows[..|rows| - 1], rows[|rows| - 1]);
      ActiveSum(Restore(ps, rows, j, at), u, at) == ActiveSum(Restore(ps, init, j, at), u, at)
        + (if a.job == j && Active(ps[a.package], at) then a.credits else 0)
  {
    var (init, a) := (rows[..|rows| - 1], rows[|rows| - 1]);
    RestoreShape(ps, init, j, at);
    if a.job == j && Active(ps[a.package], at) {
      RoomForLast(ps, rows, j, at);
      FillAddsUp(Restore(ps, init, j, at), a.package, a.credits, u, at);
    }
  }

  /** The sum of the RETURNING column is what the owner's usable credits grow by. */
  lemma {:induction false} RestoreAddsUp(ps: seq<Package>, rows: seq<Allocation>, j: JobId, u: UserId, at: Instant)
    requires RowsInTable(rows, |ps|) && FitsUnderGrants(ps, rows, j)
    requires forall i :: 0 <= i < |rows| && rows[i].job == j ==> ps[rows[i].package].owner == u
    ensures ActiveSum(Restore(ps, rows, j, at), u, at) == ActiveSum(ps, u, at) + Restorable(ps, rows, j, at)
  {
    if rows != [] {
      FitsStep(ps, rows, j);
      RestoreAddsUp(ps, rows[..|rows| - 1], j, u, at);
      RestorableStep(ps, rows, j, at);
      assert ps[rows[|rows| - 1].package].remaining + AllocatedOn(rows, rows[|rows| - 1].package, {j}) <= ps[rows[|rows| - 1].package].granted;
      LastRowAddsUp(ps, rows, j, u, at);
    }
  }

  lemma RestoreSparesOthers(ps: seq<Package>, rows: seq<Allocation>, j: JobId, u: UserId, at: Instant, v: UserId, x: Instant)
    requires RowsInTable(rows, |ps|) && v != u
    requires forall i :: 0 <= i < |rows| && rows[i].job == j ==> ps[rows[i].package].owner == u
    ensures ActiveSum(Restore(ps, rows, j, at), v, x) == ActiveSum(ps, v, x)
  {
    RestoreShape(ps, rows, j, at);
    forall i | 0 <= i < |ps| ensures Share(Restore(ps, rows, j, at)[i], v, x) == Share(ps[i], v, x) {
      if ps[i].owner != u { RestoreElsewhere(ps, rows, j, at, i); }
    }
    SharesDecide(Restore(ps, rows, j, at), ps, v, v, x, x);
  }

  lemma {:induction false} RestoreElsewhere(ps: seq<Package>, rows: seq<Allocation>, j: JobId, at: Instant, p: PackageId)
    requires RowsInTable(rows, |ps|) && p < |ps|
    requires forall i :: 0 <= i < |rows| && rows[i].job == j ==> rows[i].package != p
    ensures Restore(ps, rows, j, at)[p] == ps[p]
  {
    if rows != [] {
      RestoreElsewhere(ps, rows[..|rows| - 1], j, at, p);
    }
  }

  /** A refund never restores more than the job took. */
  lemma RestorableAtMost(ps: seq<Package>, rows: seq<Allocation>, j: JobId, at: Instant)
    requires RowsInTable(rows, |ps|)
    ensures Restorable(ps, rows, j, at) <= AllocatedTo(rows, j)
  {
    TotalAtMost(RestoredParts(ps, rows, j, at), PartsOf(rows, j));
  }
}
