/** A modification confirmed at the current revision implies a fully confirmed vehicle, so the
    overview and the fitment check agree on when a check may run. */
module VehicleFacts {
  import opened Tables
  import opened VehicleRules

  /** What is bound to the current revision was bound while the vehicle was fully confirmed, and a
      confirmed binding is complete. */
  predicate BindingSound(v: Vehicle) {
    v.mapping.Some? && v.mapping.value.revision.Some? ==>
      var m := v.mapping.value;
      && m.revision.value <= v.revision && m.state.Some?
      && (m.revision.value == v.revision ==> StateOf(v) == ConfirmedReady)
      && (m.state == Some(ConfirmedState) ==>
            m.source.Some? && m.selected.Some? && m.generationSlug.Some? && m.modificationSlug.Some?)
  }

  /** A confirmed binding names the vehicle in the provider's terms. */
  predicate SlugsKnown(v: Vehicle) {
    v.mapping.Some? && v.mapping.value.revision.Some? && v.mapping.value.state == Some(ConfirmedState) ==> BaseSlugs(v.mapping.value)
  }

  /** `v` is `seen` or came later: revisions only grow, and while the revision is the same so are the
      confirmed vehicle fields. */
  predicate Later(seen: Vehicle, v: Vehicle) {
    && seen.revision <= v.revision
    && (seen.revision == v.revision ==> v.cores == seen.cores && v.legacyConfirmed == seen.legacyConfirmed)
  }

  lemma SameCoresSameState(seen: Vehicle, v: Vehicle)
    requires v.cores == seen.cores && v.legacyConfirmed == seen.legacyConfirmed
    ensures StateOf(v) == StateOf(seen)
  {
  }

  // ------------------------------------------------------------------ the steps

  lemma LookupKeeps(seen: Vehicle, v: Vehicle, variants: seq<Candidate>, requireConfirmation: bool)
    requires BindingSound(v) && Later(seen, v)
    ensures var v' := Lookup(seen, v, variants, requireConfirmation).1;
      BindingSound(v') && Later(v, v')
  {
    var v' := Lookup(seen, v, variants, requireConfirmation).1;
    if seen.revision == v.revision { SameCoresSameState(seen, v); }
    SameCoresSameState(v, v');
  }

  lemma ApplyKeeps(seen: Vehicle, v: Vehicle, expected: nat, wanted: Variant, variants: seq<Candidate>)
    requires BindingSound(v)
    ensures var v' := Apply(seen, v, expected, wanted, variants).1;
      BindingSound(v') && Later(v, v')
  {
    SameCoresSameState(v, Apply(seen, v, expected, wanted, variants).1);
  }

  lemma ReplaceKeeps(seen: Vehicle, v: Vehicle, expected: nat, from: Variant, wanted: Variant, variants: seq<Candidate>)
    requires BindingSound(v)
    ensures var v' := Replace(seen, v, expected, from, wanted, variants).1;
      BindingSound(v') && Later(v, v')
  {
    SameCoresSameState(v, Replace(seen, v, expected, from, wanted, variants).1);
  }

  /** Every write to the confirmed fields bumps the revision and so unbinds the modification. */
  lemma SaveKeeps(v: Vehicle, r: SaveRequest, found: Option<Catalogue>)
    requires BindingSound(v)
    ensures var v' := Save(v, r, found).1;
      BindingSound(v') && Later(v, v') && (v' != v ==> v'.revision == v.revision + 1 && ModificationOf(v') == NoModification)
  {
  }

  // ---------------------------------------------------------------- what save does

  /** A save confirms what it says: afterwards the submitted confirmed fields hold the catalogue's
      values and count as confirmed, and changed fields that were not confirmed do not. */
  lemma SaveConfirms(v: Vehicle, r: SaveRequest, found: Option<Catalogue>, f: Core)
    requires WellFormedRequest(r) && Save(v, r, found).0 == Written
    ensures var v' := Save(v, r, found).1;
      && (f in r.confirmed ==>
            found.Some? && CellOf(v'.cores, f) == Cell(NewValue(v, r, found, f), Some(true)))
      && (CellOf(v'.cores, f).value != CellOf(v.cores, f).value && f !in r.confirmed ==> CellOf(v'.cores, f).confirmed != Some(true))
      && (CellOf(v'.cores, f).value == CellOf(v.cores, f).value && CellOf(v.cores, f).confirmed == Some(true) ==>
            CellOf(v'.cores, f).confirmed == Some(true))
  {
  }

  /** Confirming all four fields in one successful save makes the vehicle ready for a lookup. */
  lemma SaveMakesReady(v: Vehicle, r: SaveRequest, found: Option<Catalogue>)
    requires WellFormedRequest(r) && Save(v, r, found).0 == Written
    requires r.confirmed == {Make, Model, Year, Market}
    requires found.Some? ==> found.value.make != "" && found.value.model != "" && found.value.year != "" && found.value.region != ""
    ensures StateOf(Save(v, r, found).1) == ConfirmedReady
  {
    var v' := Save(v, r, found).1;
    forall f: Core ensures CellConfirmed(CellOf(v'.cores, f), v'.legacyConfirmed) {
      SaveConfirms(v, r, found, f);
      assert f in r.confirmed;
      assert NewValue(v, r, found, f).Some? && NewValue(v, r, found, f).value != "";
    }
    assert !Missing(CellOf(v'.cores, Make).value);
  }

  /** A core change drops the provider binding and the descriptive columns; without one a confirmed
      selection's columns are protected from the request. */
  lemma SaveGuardsSelection(v: Vehicle, r: SaveRequest, found: Option<Catalogue>)
    requires Save(v, r, found).0 == Written
    ensures var v' := Save(v, r, found).1;
      var changed := exists f: Core :: CellOf(v'.cores, f).value != CellOf(v.cores, f).value;
      && (changed ==> v'.generation.None? && v'.modification.None? && v'.body.None?)
      && (changed && v'.mapping.Some? ==> v'.mapping.value.revision.None? && v'.mapping.value.selected.None?)
      && (!changed && ModificationOf(v).ConfirmedModification? ==>
            v'.generation == v.generation && v'.modification == v.modification && v'.body == v.body && v'.mapping == v.mapping)
  {
    var v' := Save(v, r, found).1;
    var cat := if NeedsCatalogue(v, r) then found else None;
    assert v' == SavedRow(v, r, cat);
    assert forall f: Core :: CellOf(v'.cores, f).value == NewValue(v, r, cat, f);
    if CoreChanges(v, r, cat) {
      var f: Core :| Changes(v, r, cat, f);
      assert CellOf(v'.cores, f).value != CellOf(v.cores, f).value;
    }
  }

  // ------------------------------------------------------------------ agreement

  lemma RimsAgree(r: Rim)
    ensures RimStateOf(r) == RimReady <==> RimGiven(r)
  {
    if RimGiven(r) {
      assert RimFieldStateOf(r[0]) == RimConfirmed;
      assert forall i :: 0 <= i < 6 ==> RimFieldStateOf(r[i]) == RimConfirmed;
    }
    if RimStateOf(r) == RimReady {
      forall i | 0 <= i < 6 ensures r[i].present && r[i].confirmed { assert RimFieldStateOf(r[i]) == RimConfirmed; }
    }
  }

  /** In every sound state the check accepts exactly when the overview proposes it and the mapping
      names make, model and region in the provider's terms. */
  lemma GuardsAgreeIff(v: Vehicle, s: Setup)
    requires BindingSound(v)
    ensures CheckGuards(v, s) == Accepted
       <==> NextActionOf(v, s) == RunStandardCheck && v.mapping.Some? && BaseSlugs(v.mapping.value)
  {
    RimsAgree(s.front);
    RimsAgree(s.rear);
  }

  /** With the provider's slugs known, the overview and the check agree. */
  lemma GuardsAgree(v: Vehicle, s: Setup)
    requires BindingSound(v) && SlugsKnown(v)
    ensures CheckGuards(v, s) == Accepted <==> NextActionOf(v, s) == RunStandardCheck
  {
    GuardsAgreeIff(v, s);
  }

  // ------------------------------------------------------------------ histories

  datatype Event =
    | SaveOne(request: SaveRequest, found: Option<Catalogue>)
    | LookupOne(readAt: nat, variants: seq<Candidate>, requireConfirmation: bool)
    | ApplyOne(readAt: nat, expected: nat, wanted: Variant, variants: seq<Candidate>)
    | ReplaceOne(readAt: nat, expected: nat, from: Variant, wanted: Variant, variants: seq<Candidate>)

  function ReadAt(e: Event, now: nat): nat {
    if e.SaveOne? then now else e.readAt
  }

  function After(seen: Vehicle, v: Vehicle, e: Event): Vehicle {
    match e
    case SaveOne(r, found) => Save(v, r, found).1
    case LookupOne(_, variants, require) => Lookup(seen, v, variants, require).1
    case ApplyOne(_, expected, wanted, variants) => Apply(seen, v, expected, wanted, variants).1
    case ReplaceOne(_, expected, from, wanted, variants) => Replace(seen, v, expected, from, wanted, variants).1
  }

  /** A row as it is inserted: no binding yet. */
  predicate Inserted(v: Vehicle) {
    v.mapping.Some? ==> v.mapping.value.revision.None?
  }

  predicate StepsAt(vs: seq<Vehicle>, es: seq<Event>, i: nat)
    requires |vs| == |es| + 1 && i < |es|
  {
    ReadAt(es[i], i) <= i && vs[i + 1] == After(vs[ReadAt(es[i], i)], vs[i], es[i])
  }

  /** Any number of requests, each of which may have read the row long before it writes. */
  predicate History(vs: seq<Vehicle>, es: seq<Event>) {
    |vs| == |es| + 1 && Inserted(vs[0]) && forall i :: 0 <= i < |es| ==> StepsAt(vs, es, i)
  }

  lemma StepKeeps(seen: Vehicle, v: Vehicle, e: Event)
    requires BindingSound(v) && Later(seen, v)
    ensures BindingSound(After(seen, v, e)) && Later(v, After(seen, v, e))
  {
    match e
    case SaveOne(r, found) => SaveKeeps(v, r, found);
    case LookupOne(_, variants, require) => LookupKeeps(seen, v, variants, require);
    case ApplyOne(_, expected, wanted, variants) => ApplyKeeps(seen, v, expected, wanted, variants);
    case ReplaceOne(_, expected, from, wanted, variants) => ReplaceKeeps(seen, v, expected, from, wanted, variants);
  }

  lemma LaterComposes(a: Vehicle, b: Vehicle, c: Vehicle)
    requires Later(a, b) && Later(b, c)
    ensures Later(a, c)
  {
  }

  lemma {:induction false} HistoryKeeps(vs: seq<Vehicle>, es: seq<Event>, i: nat, n: nat)
    requires History(vs, es) && i <= n < |vs|
    ensures BindingSound(vs[n]) && Later(vs[i], vs[n])
    decreases n, i
  {
    if n > 0 {
      assert StepsAt(vs, es, n - 1);
      var e := es[n - 1];
      HistoryKeeps(vs, es, ReadAt(e, n - 1), n - 1);
      StepKeeps(vs[ReadAt(e, n - 1)], vs[n - 1], e);
      if i < n {
        HistoryKeeps(vs, es, i, n - 1);
        LaterComposes(vs[i], vs[n - 1], vs[n]);
      }
    }
  }

  /** In every history: a modification confirmed at the current revision means that the vehicle still
      is fully confirmed, and the check accepts exactly when the overview proposes it, provided the
      mapping has the provider's base slugs. */
  lemma ConfirmedMeansReady(vs: seq<Vehicle>, es: seq<Event>, n: nat, s: Setup)
    requires History(vs, es) && n < |vs|
    ensures ModificationOf(vs[n]).ConfirmedModification? ==> StateOf(vs[n]) == ConfirmedReady
    ensures CheckGuards(vs[n], s) == Accepted
       <==> NextActionOf(vs[n], s) == RunStandardCheck && vs[n].mapping.Some? && BaseSlugs(vs[n].mapping.value)
  {
    HistoryKeeps(vs, es, n, n);
    GuardsAgreeIff(vs[n], s);
  }

  // --------------------------------------------------- when slugs are non-empty

  predicate NonEmptySlugs(variants: seq<Candidate>) {
    forall i :: 0 <= i < |variants| ==>
      variants[i].variant.makeSlug != "" && variants[i].variant.modelSlug != "" && variants[i].variant.region != ""
  }

  predicate ProviderNamesVehicles(e: Event) {
    match e
    case SaveOne(_, _) => true
    case LookupOne(_, variants, _) => NonEmptySlugs(variants)
    case ApplyOne(_, _, _, variants) => NonEmptySlugs(variants)
    case ReplaceOne(_, _, _, _, variants) => NonEmptySlugs(variants)
  }

  lemma BaseIsKnown(mapping: Option<Mapping>, variants: seq<Candidate>)
    requires NonEmptySlugs(variants) && variants != []
    ensures BaseSlugs(BaseMapping(mapping, variants))
  {
    assert variants[0].variant.makeSlug != "";
  }

  lemma StepKeepsSlugs(seen: Vehicle, v: Vehicle, e: Event)
    requires SlugsKnown(v) && ProviderNamesVehicles(e)
    ensures SlugsKnown(After(seen, v, e))
  {
    match e
    case SaveOne(r, found) =>
    case LookupOne(_, variants, require) => if variants != [] { BaseIsKnown(v.mapping, variants); }
    case ApplyOne(_, _, _, variants) => if variants != [] { BaseIsKnown(v.mapping, variants); }
    case ReplaceOne(_, _, _, _, variants) =>
  }

  lemma {:induction false} HistoryKeepsSlugs(vs: seq<Vehicle>, es: seq<Event>, n: nat)
    requires History(vs, es) && n < |vs| && forall i :: 0 <= i < |es| ==> ProviderNamesVehicles(es[i])
    ensures SlugsKnown(vs[n])
  {
    if n > 0 {
      HistoryKeepsSlugs(vs, es, n - 1);
      assert StepsAt(vs, es, n - 1);
      StepKeepsSlugs(vs[ReadAt(es[n - 1], n - 1)], vs[n - 1], es[n - 1]);
    }
  }

  /** In every state reached through the endpoints, with a provider that names its vehicles, the next
      action is to run the check exactly when the check's own guards accept. */
  lemma NextActionAgrees(vs: seq<Vehicle>, es: seq<Event>, n: nat, s: Setup)
    requires History(vs, es) && n < |vs| && forall i :: 0 <= i < |es| ==> ProviderNamesVehicles(es[i])
    ensures NextActionOf(vs[n], s) == RunStandardCheck <==> CheckGuards(vs[n], s) == Accepted
  {
    HistoryKeeps(vs, es, n, n);
    HistoryKeepsSlugs(vs, es, n);
    GuardsAgree(vs[n], s);
  }

  // -------------------------------------------------------- when a slug is empty

  const CONFIRMED_CELL := Cell(Some("x"), Some(true))
  const REGIONLESS := Variant("make", "model", "", "generation", "modification", "body", "market", "g", "m")

  /** A row as inserted after the user confirmed all four fields. */
  function ConfirmedVehicle(): Vehicle {
    Vehicle(Cores(CONFIRMED_CELL, CONFIRMED_CELL, CONFIRMED_CELL, CONFIRMED_CELL), false, None, None, None, None, 1, 0)
  }

  function ReadySetup(): Setup {
    var rim := seq(6, _ => RimCell(true, true, true));
    Setup(rim, rim, false)
  }

  predicate Disagree(v: Vehicle, s: Setup) {
    NextActionOf(v, s) == RunStandardCheck && CheckGuards(v, s) == VariantRequired
  }

  /** The overview and the check part ways: one lookup, answered with a single complete candidate
      whose region is empty, and the overview proposes a check that is then refused. */
  lemma EmptySlugsBreakAgreement()
    ensures exists vs, es :: History(vs, es) && |vs| == 2 && Disagree(vs[1], ReadySetup())
  {
    var v := ConfirmedVehicle();
    var e := LookupOne(0, [Candidate(REGIONLESS, true)], false);
    var v' := After(v, v, e);
    var vs, es := [v, v'], [e];
    assert !Missing(CellOf(v.cores, Make).value);
    assert StateOf(v) == ConfirmedReady;
    SameCoresSameState(v, v');
    assert StepsAt(vs, es, 0);
    RimsAgree(ReadySetup().front);
    assert History(vs, es);
    assert Disagree(vs[1], ReadySetup());
  }
}
