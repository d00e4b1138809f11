/** The vehicle of a fitment job: confirmed fields, the provider modification bound to a revision of
    them, and the endpoints that write either. */
module VehicleRules {
  import opened Tables

  datatype Core = Make | Model | Year | Market

  /** A column and its provenance; without provenance the aggregate flag of the row decides. */
  datatype Cell = Cell(value: Option<string>, confirmed: Option<bool>)

  datatype Cores = Cores(make: Cell, model: Cell, year: Cell, market: Cell)

  /** A provider variant, reduced to the keys a selection must have. */
  datatype Variant = Variant(
    makeSlug: string, modelSlug: string, region: string, generation: string, modification: string,
    body: string, market: string, generationSlug: string, modificationSlug: string)

  /** A variant as the provider answers it; `complete` when no selection key is missing. */
  datatype Candidate = Candidate(variant: Variant, complete: bool)

  datatype SelectionSource = WheelSizeSingle | UserChoice | VehicleRecognition

  datatype BoundState = SuggestedState | ConfirmedState

  /** `provider_mappings["wheel_size"]`; None is an absent key. `spread` stands for the keys a
      replacement copies to the top level. */
  datatype Mapping = Mapping(
    makeSlug: Option<string>, modelSlug: Option<string>, region: Option<string>,
    generationSlug: Option<string>, modificationSlug: Option<string>,
    state: Option<BoundState>, source: Option<SelectionSource>, revision: Option<nat>,
    selected: Option<Variant>, spread: Option<Variant>)

  const EMPTY_MAPPING := Mapping(None, None, None, None, None, None, None, None, None, None)

  datatype Vehicle = Vehicle(
    cores: Cores, legacyConfirmed: bool,
    generation: Option<string>, modification: Option<string>, body: Option<string>,
    mapping: Option<Mapping>, revision: nat, mappingRevision: nat)

  // ------------------------------------------------------------- pure projections

  function CellOf(c: Cores, f: Core): Cell {
    match f
    case Make => c.make
    case Model => c.model
    case Year => c.year
    case Market => c.market
  }

  predicate Missing(value: Option<string>) {
    value.None? || value.value == ""
  }

  predicate CellConfirmed(c: Cell, legacyConfirmed: bool) {
    !Missing(c.value) && (if c.confirmed.Some? then c.confirmed.value else legacyConfirmed)
  }

  datatype VehicleState = VehicleEmpty | Unconfirmed | ConfirmedIncomplete | ConfirmedReady

  /** `_vehicle_state_from_row` */
  function StateOf(v: Vehicle): VehicleState {
    if forall f: Core :: Missing(CellOf(v.cores, f).value) then VehicleEmpty
    else if forall f: Core :: CellConfirmed(CellOf(v.cores, f), v.legacyConfirmed) then ConfirmedReady
    else if exists f: Core :: CellConfirmed(CellOf(v.cores, f), v.legacyConfirmed) then ConfirmedIncomplete
    else Unconfirmed
  }

  datatype Modification =
    | NoModification
    | SuggestedModification
    | ConfirmedModification(source: SelectionSource, selected: Variant)

  /** `_modification_from_row`: only what is bound to the current revision counts. */
  function ModificationOf(v: Vehicle): Modification {
    if v.mapping.None? || v.mapping.value.revision != Some(v.revision) then NoModification
    else
      var m := v.mapping.value;
      if m.state == Some(SuggestedState) then SuggestedModification
      else if m.state != Some(ConfirmedState) || m.source.None? || m.selected.None? then NoModification
      else ConfirmedModification(m.source.value, m.selected.value)
  }

  function NonEmpty(s: string): Option<string> {
    if s == "" then None else Some(s)
  }

  function Kept(s: Option<string>): Option<string> {
    if Missing(s) then None else s
  }

  predicate BaseSlugs(m: Mapping) {
    m.makeSlug.Some? && m.modelSlug.Some? && m.region.Some?
  }

  /** `_base_wheel_size_mapping` */
  function BaseMapping(mapping: Option<Mapping>, variants: seq<Candidate>): Mapping {
    var m := if mapping.Some? then mapping.value else EMPTY_MAPPING;
    var own := EMPTY_MAPPING.(makeSlug := Kept(m.makeSlug), modelSlug := Kept(m.modelSlug), region := Kept(m.region));
    if BaseSlugs(own) then own
    else if variants != [] then
      var first := variants[0].variant;
      EMPTY_MAPPING.(makeSlug := NonEmpty(first.makeSlug), modelSlug := NonEmpty(first.modelSlug), region := NonEmpty(first.region))
    else EMPTY_MAPPING
  }

  /** `_variant_selection_matches`: by provider identity, never by labels. */
  predicate SameSelection(a: Variant, b: Variant) {
    && a.makeSlug == b.makeSlug && a.modelSlug == b.modelSlug && a.region == b.region
    && a.generationSlug == b.generationSlug && a.modificationSlug == b.modificationSlug
  }

  predicate SameLabels(a: Variant, b: Variant) {
    a.generation == b.generation && a.modification == b.modification && a.body == b.body && a.market == b.market
  }

  // ------------------------------------------------------------------ selections

  datatype Outcome =
    | Written
    | AsItWas
    | VehicleNotReady
    | RevisionConflict
    | CandidateNotCurrent
    | SelectionNotPending
    | SelectionRequired
    | SelectionConflict
    | MakeAndModelRequired
    | NotInCatalogue
    | DetailsRequired

  function Bound(base: Mapping, state: BoundState, revision: nat): Mapping {
    base.(state := Some(state), revision := Some(revision))
  }

  function Selected(base: Mapping, c: Variant, source: SelectionSource, revision: nat): Mapping {
    Bound(base, ConfirmedState, revision).(
      generationSlug := Some(c.generationSlug), modificationSlug := Some(c.modificationSlug),
      source := Some(source), selected := Some(c))
  }

  function WithSelection(v: Vehicle, m: Mapping, c: Variant): Vehicle {
    v.(generation := Some(c.generation), modification := Some(c.modification), body := NonEmpty(c.body),
       mapping := Some(m), mappingRevision := v.mappingRevision + 1)
  }

  function WithoutSelection(v: Vehicle, m: Mapping): Vehicle {
    v.(generation := None, modification := None, body := None, mapping := Some(m), mappingRevision := v.mappingRevision + 1)
  }

  /** Nothing is written when only the write counter would change. */
  function IfChanged(v: Vehicle, v': Vehicle): (Outcome, Vehicle) {
    if v'.(mappingRevision := v.mappingRevision) == v then (AsItWas, v) else (Written, v')
  }

  /** `_persist_lookup_outcome` */
  function PersistLookup(v: Vehicle, expected: nat, variants: seq<Candidate>, requireConfirmation: bool): (Outcome, Vehicle) {
    var base := BaseMapping(v.mapping, variants);
    if v.revision != expected then (RevisionConflict, v)
    else if |variants| == 1 && !requireConfirmation then
      var c := variants[0];
      if !c.complete then (CandidateNotCurrent, v)
      else IfChanged(v, WithSelection(v, Selected(base, c.variant, WheelSizeSingle, expected), c.variant))
    else if variants != [] then IfChanged(v, WithoutSelection(v, Bound(base, SuggestedState, expected)))
    else IfChanged(v, WithoutSelection(v, base))
  }

  /** `find_fitment_vehicle_variants`: `seen` is the row read before the provider was asked. */
  function Lookup(seen: Vehicle, v: Vehicle, variants: seq<Candidate>, requireConfirmation: bool): (Outcome, Vehicle) {
    if StateOf(seen) != ConfirmedReady then (VehicleNotReady, v)
    else PersistLookup(v, seen.revision, variants, requireConfirmation)
  }

  /** First candidate with the requested labels, or the number of candidates. */
  function FindLabels(variants: seq<Candidate>, wanted: Variant): (i: nat)
    ensures i <= |variants| && (i < |variants| ==> SameLabels(variants[i].variant, wanted))
  {
    if variants == [] || SameLabels(variants[0].variant, wanted) then 0 else 1 + FindLabels(variants[1..], wanted)
  }

  function FindSelection(variants: seq<Candidate>, wanted: Variant): (i: nat)
    ensures i <= |variants| && (i < |variants| ==> SameSelection(variants[i].variant, wanted))
  {
    if variants == [] || SameSelection(variants[0].variant, wanted) then 0 else 1 + FindSelection(variants[1..], wanted)
  }

  /** `apply_fitment_vehicle_variant`; `wanted` carries the requested labels. */
  function Apply(seen: Vehicle, v: Vehicle, expected: nat, wanted: Variant, variants: seq<Candidate>): (Outcome, Vehicle) {
    var before, now := ModificationOf(seen), ModificationOf(v);
    if seen.revision != expected then (RevisionConflict, v)
    else if before.ConfirmedModification? && SameLabels(before.selected, wanted) then
      if v.revision != expected then (RevisionConflict, v)
      else if now.ConfirmedModification? && SameLabels(now.selected, wanted) then (AsItWas, v)
      else (SelectionNotPending, v)
    else if before != SuggestedModification then (SelectionNotPending, v)
    else
      var i := FindLabels(variants, wanted);
      if i == |variants| || !variants[i].complete then (CandidateNotCurrent, v)
      else if v.revision != expected then (RevisionConflict, v)
      else if now != SuggestedModification then (SelectionNotPending, v)
      else
        var c := variants[i].variant;
        (Written, WithSelection(v, Selected(BaseMapping(v.mapping, variants), c, UserChoice, expected), c))
  }

  /** `replace_fitment_vehicle_variant`: from the selection the client saw to a new one. */
  function Replace(seen: Vehicle, v: Vehicle, expected: nat, from: Variant, wanted: Variant, variants: seq<Candidate>): (Outcome, Vehicle) {
    var before, now := ModificationOf(seen), ModificationOf(v);
    if seen.revision != expected then (RevisionConflict, v)
    else if !before.ConfirmedModification? then (SelectionRequired, v)
    else if !SameSelection(before.selected, from) then (SelectionConflict, v)
    else if SameSelection(before.selected, wanted) then
      if v.revision != expected then (RevisionConflict, v)
      else if now.ConfirmedModification? && SameSelection(now.selected, from) && SameSelection(now.selected, wanted)
      then (AsItWas, v) else (SelectionConflict, v)
    else
      var i := FindSelection(variants, wanted);
      if i == |variants| || !variants[i].complete then (CandidateNotCurrent, v)
      else if v.revision != expected then (RevisionConflict, v)
      else if !now.ConfirmedModification? || !SameSelection(now.selected, from) then (SelectionConflict, v)
      else if SameSelection(now.selected, wanted) then (AsItWas, v)
      else
        var c := variants[i].variant;
        var base := BaseMapping(v.mapping, variants).(
          makeSlug := Some(c.makeSlug), modelSlug := Some(c.modelSlug), region := Some(c.region), spread := Some(c));
        (Written, WithSelection(v, Selected(base, c, UserChoice, expected), c))
  }

  // ------------------------------------------------------------------------ save

  /** The fields a save request sets, None where it leaves one out; confirmed fields are among them. */
  datatype SaveRequest = SaveRequest(
    expected: nat, make: Option<Option<string>>, model: Option<Option<string>>, year: Option<Option<string>>,
    market: Option<Option<string>>, body: Option<Option<string>>, generation: Option<Option<string>>,
    modification: Option<Option<string>>, confirmed: set<Core>)

  /** The catalogue's canonical values and slugs. */
  datatype Catalogue = Catalogue(
    make: string, model: string, year: string, region: string, makeSlug: string, modelSlug: string)

  function Asked(r: SaveRequest, f: Core): Option<Option<string>> {
    match f
    case Make => r.make
    case Model => r.model
    case Year => r.year
    case Market => r.market
  }

  predicate AsksNothing(r: SaveRequest) {
    (forall f: Core :: Asked(r, f).None?) && r.body.None? && r.generation.None? && r.modification.None?
  }

  /** Request validation: a confirmed field is a submitted, non-null one. */
  predicate WellFormedRequest(r: SaveRequest) {
    forall f :: f in r.confirmed ==> Asked(r, f).Some? && Asked(r, f).value.Some?
  }

  function Value(asked: Option<Option<string>>, was: Option<string>): Option<string> {
    if asked.Some? then asked.value else was
  }

  /** The value a core field would get, before or after the catalogue's spelling. */
  function NewValue(v: Vehicle, r: SaveRequest, cat: Option<Catalogue>, f: Core): Option<string> {
    if cat.Some? then
      match f
      case Make => Some(cat.value.make)
      case Model => Some(cat.value.model)
      case Year => Some(cat.value.year)
      case Market => Some(cat.value.region)
    else Value(Asked(r, f), CellOf(v.cores, f).value)
  }

  predicate Changes(v: Vehicle, r: SaveRequest, cat: Option<Catalogue>, f: Core) {
    NewValue(v, r, cat, f) != CellOf(v.cores, f).value
  }

  predicate CoreChanges(v: Vehicle, r: SaveRequest, cat: Option<Catalogue>) {
    exists f: Core :: Changes(v, r, cat, f)
  }

  predicate AlreadyConfirmed(v: Vehicle, f: Core) {
    CellOf(v.cores, f).confirmed == Some(true)
  }

  /** `_confirmation_payload`: submitting the stored value again confirms it. */
  predicate Reconfirms(v: Vehicle, r: SaveRequest, cat: Option<Catalogue>, f: Core) {
    Asked(r, f).Some? && NewValue(v, r, cat, f).Some? && !Changes(v, r, cat, f) && !AlreadyConfirmed(v, f)
  }

  predicate NeedsCatalogue(v: Vehicle, r: SaveRequest) {
    && (forall f: Core :: !Missing(NewValue(v, r, None, f)))
    && (CoreChanges(v, r, None) || (exists f: Core :: Reconfirms(v, r, None, f)) || r.confirmed != {})
  }

  /** Whether the field ends up confirmed by this request. */
  predicate Confirms(v: Vehicle, r: SaveRequest, cat: Option<Catalogue>, f: Core) {
    || Reconfirms(v, r, cat, f)
    || (f in r.confirmed && (Changes(v, r, cat, f) || !AlreadyConfirmed(v, f)))
  }

  function NewCell(v: Vehicle, r: SaveRequest, cat: Option<Catalogue>, f: Core): Cell {
    var value := NewValue(v, r, cat, f);
    var edited := if !Changes(v, r, cat, f) then CellOf(v.cores, f).confirmed else if value.None? then None else Some(false);
    Cell(value, if !Confirms(v, r, cat, f) then edited else if value.None? then None else Some(true))
  }

  function NewCores(v: Vehicle, r: SaveRequest, cat: Option<Catalogue>): Cores {
    Cores(NewCell(v, r, cat, Make), NewCell(v, r, cat, Model), NewCell(v, r, cat, Year), NewCell(v, r, cat, Market))
  }

  predicate AllConfirmed(c: Cores) {
    forall f: Core :: !Missing(CellOf(c, f).value) && CellOf(c, f).confirmed == Some(true)
  }

  /** A descriptive column: dropped with the vehicle, protected by a confirmed modification. */
  function NewText(v: Vehicle, coreChanges: bool, asked: Option<Option<string>>, was: Option<string>): Option<string> {
    if coreChanges then None
    else if ModificationOf(v).ConfirmedModification? then was
    else Value(asked, was)
  }

  function NewMapping(v: Vehicle, coreChanges: bool, cat: Option<Catalogue>): Option<Mapping> {
    var kept := if coreChanges then None else v.mapping;
    if kept.Some? || cat.None? then kept
    else Some(EMPTY_MAPPING.(makeSlug := Some(cat.value.makeSlug), modelSlug := Some(cat.value.modelSlug), region := Some(cat.value.region)))
  }

  /** The row a save would leave, were it to write. */
  function SavedRow(v: Vehicle, r: SaveRequest, cat: Option<Catalogue>): Vehicle {
    var cores, changes := NewCores(v, r, cat), CoreChanges(v, r, cat);
    var mapping := NewMapping(v, changes, cat);
    Vehicle(cores, AllConfirmed(cores),
      NewText(v, changes, r.generation, v.generation), NewText(v, changes, r.modification, v.modification),
      NewText(v, changes, r.body, v.body), mapping, v.revision + 1,
      v.mappingRevision + (if mapping != v.mapping then 1 else 0))
  }

  predicate SaveWrites(v: Vehicle, r: SaveRequest, cat: Option<Catalogue>) {
    var s := SavedRow(v, r, cat);
    || CoreChanges(v, r, cat) || s.generation != v.generation || s.modification != v.modification || s.body != v.body
    || (exists f: Core :: Confirms(v, r, cat, f)) || s.mapping != v.mapping
  }

  /** The vehicle part of `save_fitment_details`; `found` is the catalogue's answer, None for no data. */
  function Save(v: Vehicle, r: SaveRequest, found: Option<Catalogue>): (Outcome, Vehicle) {
    if r.expected != v.revision then (RevisionConflict, v)
    else if AsksNothing(r) then (AsItWas, v)
    else if Missing(NewValue(v, r, None, Make)) || Missing(NewValue(v, r, None, Model)) then (MakeAndModelRequired, v)
    else if NeedsCatalogue(v, r) && found.None? then (NotInCatalogue, v)
    else
      var cat := if NeedsCatalogue(v, r) then found else None;
      if r.confirmed != {} && cat.None? then (DetailsRequired, v)
      else if SaveWrites(v, r, cat) then (Written, SavedRow(v, r, cat))
      else (AsItWas, v)
  }

  // ------------------------------------------------------------- rims and guards

  /** One critical field of a rim: value, confirmation, and whether a user entered it. */
  datatype RimCell = RimCell(present: bool, confirmed: bool, userEntered: bool)

  /** Bolt count, PCD, center bore, diameter, width, offset. */
  type Rim = r: seq<RimCell> | |r| == 6 witness seq(6, _ => RimCell(false, false, false))

  datatype RimFieldState = RimMissing | RimSuggested | RimEntered | RimConfirmed

  function RimFieldStateOf(c: RimCell): RimFieldState {
    if !c.present then RimMissing
    else if c.confirmed then RimConfirmed
    else if c.userEntered then RimEntered
    else RimSuggested
  }

  datatype RimState = RimEmpty | RimPartial | RimUnconfirmed | RimReady

  /** `_rim_setup_state_from_states` */
  function RimStateOf(r: Rim): RimState {
    if forall i :: 0 <= i < 6 ==> RimFieldStateOf(r[i]) == RimMissing then RimEmpty
    else if exists i :: 0 <= i < 6 && RimFieldStateOf(r[i]) == RimMissing then RimPartial
    else if forall i :: 0 <= i < 6 ==> RimFieldStateOf(r[i]) == RimConfirmed then RimReady
    else RimUnconfirmed
  }

  datatype Setup = Setup(front: Rim, rear: Rim, staggered: bool)

  datatype NextAction = CompleteVehicleDetails | SelectVehicleVariant | CompleteRimSpecs | RunStandardCheck

  /** `_provider_readiness_from_row` */
  predicate ProviderReady(v: Vehicle) {
    var m := ModificationOf(v);
    m.ConfirmedModification? && (m.source == WheelSizeSingle || m.source == UserChoice)
  }

  /** `_fitment_next_action_from_row` */
  function NextActionOf(v: Vehicle, s: Setup): NextAction {
    if StateOf(v) != ConfirmedReady then CompleteVehicleDetails
    else if !ProviderReady(v) then SelectVehicleVariant
    else if RimStateOf(s.front) != RimReady then CompleteRimSpecs
    else if s.staggered && RimStateOf(s.rear) != RimReady then CompleteRimSpecs
    else RunStandardCheck
  }

  datatype Guard = Accepted | VariantRequired | RimSpecsRequired

  /** `_has_current_confirmed_modification` */
  predicate HasCurrentModification(m: Mapping, revision: nat) {
    && m.revision == Some(revision) && m.state == Some(ConfirmedState)
    && (m.source == Some(WheelSizeSingle) || m.source == Some(UserChoice))
  }

  predicate RimGiven(r: Rim) {
    forall i :: 0 <= i < 6 ==> r[i].present && r[i].confirmed
  }

  /** The guards of `create_check` on the same rows. */
  function CheckGuards(v: Vehicle, s: Setup): Guard {
    var m := if v.mapping.Some? then v.mapping.value else EMPTY_MAPPING;
    if !BaseSlugs(m) || m.generationSlug.None? || m.modificationSlug.None? || !HasCurrentModification(m, v.revision)
    then VariantRequired
    else if !RimGiven(s.front) || (s.staggered && !RimGiven(s.rear)) then RimSpecsRequired
    else Accepted
  }
}
