/** When the vehicle endpoints answer what and which row they leave, in terms of the rows alone. */
module VehicleAnswers {
  import opened Tables
  import opened VehicleRules

  // ----------------------------------------------------------- what a row says

  /** A provider answer waits for the user's choice, at the current revision. */
  predicate Pending(v: Vehicle) {
    v.mapping.Some? && v.mapping.value.revision == Some(v.revision) && v.mapping.value.state == Some(SuggestedState)
  }

  /** A variant is chosen, at the current revision. */
  predicate Chosen(v: Vehicle) {
    && v.mapping.Some? && v.mapping.value.revision == Some(v.revision) && v.mapping.value.state == Some(ConfirmedState)
    && v.mapping.value.source.Some? && v.mapping.value.selected.Some?
  }

  function Choice(v: Vehicle): Variant
    requires Chosen(v)
  {
    v.mapping.value.selected.value
  }

  lemma ModificationAnswers(v: Vehicle)
    ensures ModificationOf(v) == if Pending(v) then SuggestedModification
                                 else if Chosen(v) then ConfirmedModification(v.mapping.value.source.value, Choice(v))
                                 else NoModification
  {
  }

  /** All four fields are given and confirmed, by their own mark or, without one, by the row's. */
  predicate FullyConfirmed(v: Vehicle) {
    forall f: Core ::
      var c := CellOf(v.cores, f);
      Given(c.value) && (c.confirmed == Some(true) || (c.confirmed.None? && v.legacyConfirmed))
  }

  lemma StateAnswers(v: Vehicle)
    ensures StateOf(v) == ConfirmedReady <==> FullyConfirmed(v)
    ensures StateOf(v) == VehicleEmpty <==> forall f: Core :: !Given(CellOf(v.cores, f).value)
  {
    assert forall f: Core :: Missing(CellOf(v.cores, f).value) <==> !Given(CellOf(v.cores, f).value);
    if FullyConfirmed(v) {
      assert Given(CellOf(v.cores, Make).value);
    }
    if StateOf(v) == ConfirmedReady {
      forall f: Core
        ensures var c := CellOf(v.cores, f);
          Given(c.value) && (c.confirmed == Some(true) || (c.confirmed.None? && v.legacyConfirmed))
      {
        assert CellConfirmed(CellOf(v.cores, f), v.legacyConfirmed);
      }
    }
  }

  // --------------------------------------------------------- what a write leaves

  predicate Given(s: Option<string>) {
    s.Some? && s.value != ""
  }

  function Text(s: string): Option<string> {
    if s == "" then None else Some(s)
  }

  /** The provider's names of make, model and region. */
  datatype Slugs = Slugs(make: Option<string>, model: Option<string>, region: Option<string>)

  function SlugsOf(m: Mapping): Slugs {
    Slugs(m.makeSlug, m.modelSlug, m.region)
  }

  /** Those already in the row if all three are there, or else those of the first candidate. */
  function KnownSlugs(v: Vehicle, variants: seq<Candidate>): Slugs {
    if v.mapping.Some? && Given(v.mapping.value.makeSlug) && Given(v.mapping.value.modelSlug) && Given(v.mapping.value.region)
    then SlugsOf(v.mapping.value)
    else if variants == [] then Slugs(None, None, None)
    else var c := variants[0].variant; Slugs(Text(c.makeSlug), Text(c.modelSlug), Text(c.region))
  }

  lemma KnownSlugsIs(v: Vehicle, variants: seq<Candidate>)
    ensures SlugsOf(BaseMapping(v.mapping, variants)) == KnownSlugs(v, variants)
  {
  }

  /** `v'` is `v` bound to the variant `c`: its labels, its slugs and the variant itself, chosen by
      `source` at the current revision; vehicle fields and revision are not touched. */
  predicate BoundTo(v: Vehicle, v': Vehicle, c: Variant, source: SelectionSource, slugs: Slugs) {
    && v' == v.(generation := Some(c.generation), modification := Some(c.modification), body := Text(c.body),
                mapping := v'.mapping, mappingRevision := v'.mappingRevision)
    && Chosen(v') && Choice(v') == c && v'.mapping.value.source == Some(source)
    && SlugsOf(v'.mapping.value) == slugs
    && v'.mapping.value.generationSlug == Some(c.generationSlug)
    && v'.mapping.value.modificationSlug == Some(c.modificationSlug)
  }

  /** `v'` is `v` without a chosen variant, and with a choice offered or not. */
  predicate Unbound(v: Vehicle, v': Vehicle, offered: bool, slugs: Slugs) {
    && v' == v.(generation := None, modification := None, body := None, mapping := v'.mapping, mappingRevision := v'.mappingRevision)
    && v'.mapping.Some? && SlugsOf(v'.mapping.value) == slugs && !Chosen(v')
    && (if offered then Pending(v') else v'.mapping.value.revision.None?)
    && v'.mapping.value.generationSlug.None? && v'.mapping.value.modificationSlug.None? && v'.mapping.value.selected.None?
  }

  /** A write bumps the counter, and happens only when something else changes. */
  predicate WritesOnce(v: Vehicle, r: Outcome, v': Vehicle) {
    if r == AsItWas then v' == v
    else r == Written && v'.mappingRevision == v.mappingRevision + 1 && v'.(mappingRevision := v.mappingRevision) != v
  }

  // --------------------------------------------------------------------- lookup

  /** A lookup binds a single complete answer, unless the user is to confirm it, offers a choice when
      there is anything to choose from, and otherwise leaves nothing bound. A vehicle that was not
      fully confirmed when it was read, or has changed since, is not touched. */
  lemma LookupAnswers(seen: Vehicle, v: Vehicle, variants: seq<Candidate>, requireConfirmation: bool)
    ensures var (r, v') := Lookup(seen, v, variants, requireConfirmation);
      var single := |variants| == 1 && !requireConfirmation;
      if !FullyConfirmed(seen) then (r, v') == (VehicleNotReady, v)
      else if v.revision != seen.revision then (r, v') == (RevisionConflict, v)
      else if single && !variants[0].complete then (r, v') == (CandidateNotCurrent, v)
      else
        && WritesOnce(v, r, v')
        && (if single then BoundTo(v, v', variants[0].variant, WheelSizeSingle, KnownSlugs(v, variants))
            else Unbound(v, v', variants != [], KnownSlugs(v, variants)))
  {
    StateAnswers(seen);
    KnownSlugsIs(v, variants);
  }

  // ------------------------------------------------------------ apply and replace

  predicate HasLabels(c: Variant, wanted: Variant) {
    c.generation == wanted.generation && c.modification == wanted.modification && c.body == wanted.body && c.market == wanted.market
  }

  predicate HasIdentity(c: Variant, wanted: Variant) {
    && c.makeSlug == wanted.makeSlug && c.modelSlug == wanted.modelSlug && c.region == wanted.region
    && c.generationSlug == wanted.generationSlug && c.modificationSlug == wanted.modificationSlug
  }

  /** `k` is the first candidate that matches, or their number if none does. */
  predicate FirstMatch(variants: seq<Candidate>, matches: Variant -> bool, k: nat) {
    && k <= |variants| && (k < |variants| ==> matches(variants[k].variant))
    && forall i :: 0 <= i < k ==> !matches(variants[i].variant)
  }

  lemma {:induction false} FindLabelsIs(variants: seq<Candidate>, wanted: Variant)
    ensures FirstMatch(variants, c => HasLabels(c, wanted), FindLabels(variants, wanted))
  {
    if variants != [] && !SameLabels(variants[0].variant, wanted) {
      FindLabelsIs(variants[1..], wanted);
    }
  }

  lemma {:induction false} FindSelectionIs(variants: seq<Candidate>, wanted: Variant)
    ensures FirstMatch(variants, c => HasIdentity(c, wanted), FindSelection(variants, wanted))
  {
    if variants != [] && !SameSelection(variants[0].variant, wanted) {
      FindSelectionIs(variants[1..], wanted);
    }
  }

  predicate ChosenLike(v: Vehicle, wanted: Variant) {
    Chosen(v) && HasLabels(Choice(v), wanted)
  }

  /** Applying a variant writes exactly when the client's revision is the row's, then and now, a choice
      is pending, then and now, and the first candidate with the requested labels is complete; the row
      is then bound to that candidate. Asking again for what is chosen changes nothing; every other
      request is refused, by the first test that fails. */
  lemma ApplyAnswers(seen: Vehicle, v: Vehicle, expected: nat, wanted: Variant, variants: seq<Candidate>, k: nat)
    requires FirstMatch(variants, c => HasLabels(c, wanted), k)
    ensures var (r, v') := Apply(seen, v, expected, wanted, variants);
      var found := k < |variants| && variants[k].complete;
      && (r == Written <==> seen.revision == expected == v.revision && Pending(seen) && Pending(v) && found)
      && (r == AsItWas <==> seen.revision == expected == v.revision && ChosenLike(seen, wanted) && ChosenLike(v, wanted))
      && (r == CandidateNotCurrent <==> seen.revision == expected && Pending(seen) && !found)
      && (r == RevisionConflict <==>
            seen.revision != expected || (v.revision != expected && (ChosenLike(seen, wanted) || (Pending(seen) && found))))
      && r in {Written, AsItWas, CandidateNotCurrent, RevisionConflict, SelectionNotPending}
      && (if r == Written
          then BoundTo(v, v', variants[k].variant, UserChoice, KnownSlugs(v, variants)) && v'.mappingRevision == v.mappingRevision + 1
          else v' == v)
  {
    FindLabelsIs(variants, wanted);
    KnownSlugsIs(v, variants);
    assert FindLabels(variants, wanted) == k;
    ModificationAnswers(seen);
    ModificationAnswers(v);
  }

  predicate ChosenAs(v: Vehicle, wanted: Variant) {
    Chosen(v) && HasIdentity(Choice(v), wanted)
  }

  function OwnSlugs(c: Variant): Slugs {
    Slugs(Some(c.makeSlug), Some(c.modelSlug), Some(c.region))
  }

  /** Replacing writes exactly when the client's revision is the row's, then and now, the variant it
      replaces is the chosen one, then and now, the new one is another, and the first candidate of that
      identity is complete; the row is then bound to that candidate and named by it. */
  lemma ReplaceAnswers(seen: Vehicle, v: Vehicle, expected: nat, from: Variant, wanted: Variant, variants: seq<Candidate>, k: nat)
    requires FirstMatch(variants, c => HasIdentity(c, wanted), k)
    ensures var (r, v') := Replace(seen, v, expected, from, wanted, variants);
      var found := k < |variants| && variants[k].complete;
      && (r == Written <==>
            seen.revision == expected == v.revision && ChosenAs(seen, from) && ChosenAs(v, from) && !HasIdentity(from, wanted) && found)
      && (r == AsItWas <==>
            seen.revision == expected == v.revision && ChosenAs(seen, from) && ChosenAs(v, from) && HasIdentity(from, wanted))
      && (r == SelectionRequired <==> seen.revision == expected && !Chosen(seen))
      && (r == CandidateNotCurrent <==> seen.revision == expected && ChosenAs(seen, from) && !HasIdentity(from, wanted) && !found)
      && (r == RevisionConflict <==>
            seen.revision != expected
            || (v.revision != expected && ChosenAs(seen, from) && (HasIdentity(from, wanted) || found)))
      && r in {Written, AsItWas, SelectionRequired, CandidateNotCurrent, RevisionConflict, SelectionConflict}
      && (if r == Written
          then BoundTo(v, v', variants[k].variant, UserChoice, OwnSlugs(variants[k].variant)) && v'.mappingRevision == v.mappingRevision + 1
               && v'.mapping.value.spread == Some(variants[k].variant)
          else v' == v)
  {
    FindSelectionIs(variants, wanted);
    assert FindSelection(variants, wanted) == k;
    ModificationAnswers(seen);
    ModificationAnswers(v);
  }

  // ------------------------------------------------------------------------ save

  /** What a field would hold if the request were taken literally. */
  function Literal(v: Vehicle, r: SaveRequest, f: Core): Option<string> {
    if Asked(r, f).Some? then Asked(r, f).value else CellOf(v.cores, f).value
  }

  function Named(cat: Catalogue, f: Core): string {
    match f
    case Make => cat.make
    case Model => cat.model
    case Year => cat.year
    case Market => cat.region
  }

  /** The catalogue is asked when all four fields would be given and the request changes one of them,
      confirms one, or submits one again that is not confirmed yet. */
  predicate AsksCatalogue(v: Vehicle, r: SaveRequest) {
    && (forall f: Core :: Given(Literal(v, r, f)))
    && (|| r.confirmed != {}
        || exists f: Core :: Literal(v, r, f) != CellOf(v.cores, f).value
             || (Asked(r, f).Some? && CellOf(v.cores, f).confirmed != Some(true)))
  }

  lemma AsksCatalogueIs(v: Vehicle, r: SaveRequest)
    ensures NeedsCatalogue(v, r) <==> AsksCatalogue(v, r)
  {
    assert forall f: Core :: NewValue(v, r, None, f) == Literal(v, r, f);
    assert forall f: Core :: Missing(NewValue(v, r, None, f)) <==> !Given(Literal(v, r, f));
    if AsksCatalogue(v, r) && r.confirmed == {} {
      var f: Core :| Literal(v, r, f) != CellOf(v.cores, f).value || (Asked(r, f).Some? && CellOf(v.cores, f).confirmed != Some(true));
      assert Given(Literal(v, r, f));
      assert Changes(v, r, None, f) || Reconfirms(v, r, None, f);
    }
    if NeedsCatalogue(v, r) && r.confirmed == {} {
      if CoreChanges(v, r, None) {
        var f: Core :| Changes(v, r, None, f);
        assert Literal(v, r, f) != CellOf(v.cores, f).value;
      } else {
        var f: Core :| Reconfirms(v, r, None, f);
        assert Asked(r, f).Some? && CellOf(v.cores, f).confirmed != Some(true);
      }
    }
  }

  /** The cell a save leaves: the value as the catalogue spells it, if it was asked; confirmed when the
      request confirms it or submits the stored value again, no longer confirmed when it changes without
      that, and as it was otherwise. */
  predicate CellAfter(v: Vehicle, r: SaveRequest, cat: Option<Catalogue>, f: Core, c: Cell) {
    var was := CellOf(v.cores, f);
    && c.value == (if cat.Some? then Some(Named(cat.value, f)) else Literal(v, r, f))
    && c.confirmed == (
         if c.value.None? then (if was.value.None? then was.confirmed else None)
         else if f in r.confirmed || (c.value == was.value && Asked(r, f).Some?) then Some(true)
         else if c.value != was.value then Some(false)
         else was.confirmed)
  }

  /** A descriptive column afterwards. */
  predicate ColumnAfter(v: Vehicle, changed: bool, asked: Option<Option<string>>, was: Option<string>, now: Option<string>) {
    now == if changed then None else if Chosen(v) && !Pending(v) then was else if asked.Some? then asked.value else was
  }

  /** The row a save leaves, up to the bookkeeping columns. */
  predicate RowAfter(v: Vehicle, r: SaveRequest, cat: Option<Catalogue>, v': Vehicle) {
    var changed := exists f: Core :: CellOf(v'.cores, f).value != CellOf(v.cores, f).value;
    && (forall f: Core :: CellAfter(v, r, cat, f, CellOf(v'.cores, f)))
    && ColumnAfter(v, changed, r.generation, v.generation, v'.generation)
    && ColumnAfter(v, changed, r.modification, v.modification, v'.modification)
    && ColumnAfter(v, changed, r.body, v.body, v'.body)
    && v'.mapping == (
         if v.mapping.Some? && !changed then v.mapping
         else if cat.Some? then Some(EMPTY_MAPPING.(makeSlug := Some(cat.value.makeSlug), modelSlug := Some(cat.value.modelSlug),
                                                    region := Some(cat.value.region)))
         else None)
  }

  predicate SameContent(v: Vehicle, v': Vehicle) {
    v'.cores == v.cores && v'.generation == v.generation && v'.modification == v.modification && v'.body == v.body && v'.mapping == v.mapping
  }

  lemma SavedCells(v: Vehicle, r: SaveRequest, cat: Option<Catalogue>, f: Core)
    requires WellFormedRequest(r)
    ensures CellAfter(v, r, cat, f, CellOf(NewCores(v, r, cat), f))
    ensures Confirms(v, r, cat, f) ==> CellOf(NewCores(v, r, cat), f) != CellOf(v.cores, f)
  {
  }

  lemma SavedRowAnswers(v: Vehicle, r: SaveRequest, cat: Option<Catalogue>)
    requires WellFormedRequest(r)
    ensures RowAfter(v, r, cat, SavedRow(v, r, cat))
  {
    var s := SavedRow(v, r, cat);
    forall f: Core ensures CellAfter(v, r, cat, f, CellOf(s.cores, f)) { SavedCells(v, r, cat, f); }
    assert forall f: Core :: CellOf(s.cores, f).value == NewValue(v, r, cat, f);
    ModificationAnswers(v);
    if CoreChanges(v, r, cat) {
      var f: Core :| Changes(v, r, cat, f);
      assert CellOf(s.cores, f).value != CellOf(v.cores, f).value;
    }
  }

  lemma SaveWritesIff(v: Vehicle, r: SaveRequest, cat: Option<Catalogue>)
    requires WellFormedRequest(r)
    ensures SaveWrites(v, r, cat) <==> !SameContent(v, SavedRow(v, r, cat))
  {
    var s := SavedRow(v, r, cat);
    assert forall f: Core :: CellOf(s.cores, f).value == NewValue(v, r, cat, f);
    if CoreChanges(v, r, cat) {
      var f: Core :| Changes(v, r, cat, f);
      assert CellOf(s.cores, f).value != CellOf(v.cores, f).value;
    }
    if exists f: Core :: Confirms(v, r, cat, f) {
      var f: Core :| Confirms(v, r, cat, f);
      SavedCells(v, r, cat, f);
    }
    if !SaveWrites(v, r, cat) {
      assert forall f: Core :: !Changes(v, r, cat, f) && !Confirms(v, r, cat, f);
      assert forall f: Core :: CellOf(s.cores, f) == CellOf(v.cores, f);
      assert s.cores == v.cores by {
        assert CellOf(s.cores, Make) == CellOf(v.cores, Make) && CellOf(s.cores, Model) == CellOf(v.cores, Model);
        assert CellOf(s.cores, Year) == CellOf(v.cores, Year) && CellOf(s.cores, Market) == CellOf(v.cores, Market);
      }
    }
  }

  /** Which answer a save gives and which row it leaves. It writes exactly when it gets past the tests
      and the row would differ in more than its counters. */
  lemma SaveAnswers(v: Vehicle, r: SaveRequest, found: Option<Catalogue>)
    requires WellFormedRequest(r)
    ensures var (o, v') := Save(v, r, found);
      if r.expected != v.revision then (o, v') == (RevisionConflict, v)
      else if AsksNothing(r) then (o, v') == (AsItWas, v)
      else if !Given(Literal(v, r, Make)) || !Given(Literal(v, r, Model)) then (o, v') == (MakeAndModelRequired, v)
      else if AsksCatalogue(v, r) && found.None? then (o, v') == (NotInCatalogue, v)
      else if r.confirmed != {} && !AsksCatalogue(v, r) then (o, v') == (DetailsRequired, v)
      else exists s ::
        && RowAfter(v, r, if AsksCatalogue(v, r) then found else None, s)
        && (if SameContent(v, s) then (o, v') == (AsItWas, v)
            else o == Written && SameContent(s, v') && v'.revision == v.revision + 1)
  {
    AsksCatalogueIs(v, r);
    SavedRowAnswers(v, r, if AsksCatalogue(v, r) then found else None);
    SaveWritesIff(v, r, if AsksCatalogue(v, r) then found else None);
  }

  // --------------------------------------------------------------- the projections

  predicate AllGiven(r: Rim) {
    forall i :: 0 <= i < 6 ==> r[i].present && r[i].confirmed
  }

  /** The overview's word for a rim: nothing known, something missing, everything confirmed, or not yet. */
  lemma RimAnswers(r: Rim)
    ensures RimStateOf(r) == (
      if forall i :: 0 <= i < 6 ==> !r[i].present then RimEmpty
      else if exists i :: 0 <= i < 6 && !r[i].present then RimPartial
      else if AllGiven(r) then RimReady
      else RimUnconfirmed)
  {
    assert forall i :: 0 <= i < 6 ==> (RimFieldStateOf(r[i]) == RimMissing <==> !r[i].present);
    assert forall i :: 0 <= i < 6 ==> (RimFieldStateOf(r[i]) == RimConfirmed <==> r[i].present && r[i].confirmed);
    if AllGiven(r) { assert r[0].present; }
  }

  /** The chosen variant came from the provider or the user, not from a recognised picture. */
  predicate ChosenForCheck(v: Vehicle) {
    Chosen(v) && v.mapping.value.source != Some(VehicleRecognition)
  }

  predicate RimsGiven(s: Setup) {
    AllGiven(s.front) && (s.staggered ==> AllGiven(s.rear))
  }

  /** The next action is the first thing that is missing: vehicle fields, variant, rims; the rear rim
      counts only for a staggered set. */
  lemma NextActionAnswers(v: Vehicle, s: Setup)
    ensures NextActionOf(v, s) == if !FullyConfirmed(v) then CompleteVehicleDetails
                                  else if !ChosenForCheck(v) then SelectVehicleVariant
                                  else if !RimsGiven(s) then CompleteRimSpecs
                                  else RunStandardCheck
  {
    StateAnswers(v);
    ModificationAnswers(v);
    RimAnswers(s.front);
    RimAnswers(s.rear);
    if AllGiven(s.front) { assert s.front[0].present; }
    if AllGiven(s.rear) { assert s.rear[0].present; }
  }

  /** The check asks for the provider's five names and a current choice, and then for the rims. */
  lemma CheckAnswers(v: Vehicle, s: Setup)
    ensures var bound := v.mapping.Some? && var m := v.mapping.value;
      && m.makeSlug.Some? && m.modelSlug.Some? && m.region.Some? && m.generationSlug.Some? && m.modificationSlug.Some?
      && m.revision == Some(v.revision) && m.state == Some(ConfirmedState)
      && (m.source == Some(WheelSizeSingle) || m.source == Some(UserChoice));
      CheckGuards(v, s) == if !bound then VariantRequired else if !RimsGiven(s) then RimSpecsRequired else Accepted
  {
  }
}
