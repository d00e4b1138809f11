/** The endpoints that write a vehicle row, as they run, proved to compute the functions of
    `VehicleRules`. */
module VehicleService {
  import opened Tables
  import opened VehicleRules

  const CORE_FIELDS := [Make, Model, Year, Market]

  class VehicleRow {
    var row: Vehicle

    constructor (v: Vehicle)
      ensures row == v
    {
      row := v;
    }

    /** UPDATE vehicle_identities ... WHERE revision = expected */
    method WriteSelection(target: Mapping, generation: Option<string>, modification: Option<string>, body: Option<string>)
      modifies this
      ensures row == old(row).(generation := generation, modification := modification, body := body,
                               mapping := Some(target), mappingRevision := old(row).mappingRevision + 1)
    {
      row := row.(generation := generation, modification := modification, body := body);
      row := row.(mapping := Some(target), mappingRevision := row.mappingRevision + 1);
    }

    /** `_persist_lookup_outcome` */
    method PersistLookupOutcome(expected: nat, variants: seq<Candidate>, requireConfirmation: bool) returns (r: Outcome)
      modifies this
      ensures (r, row) == PersistLookup(old(row), expected, variants, requireConfirmation)
    {
      if row.revision != expected {
        return RevisionConflict;
      }
      var target := BaseMapping(row.mapping, variants);
      var generation, modification, body: Option<string> := None, None, None;
      if |variants| == 1 && !requireConfirmation {
        if !variants[0].complete {
          return CandidateNotCurrent;
        }
        var c := variants[0].variant;
        target := target.(generationSlug := Some(c.generationSlug), modificationSlug := Some(c.modificationSlug));
        target := target.(state := Some(ConfirmedState), source := Some(WheelSizeSingle));
        target := target.(revision := Some(expected), selected := Some(c));
        generation, modification, body := Some(c.generation), Some(c.modification), NonEmpty(c.body);
      } else if variants != [] {
        target := target.(state := Some(SuggestedState), revision := Some(expected));
      }
      var mappingChanged := row.mapping != Some(target);
      var fieldsChanged := row.generation != generation || row.modification != modification || row.body != body;
      if !mappingChanged && !fieldsChanged {
        return AsItWas;
      }
      WriteSelection(target, generation, modification, body);
      r := Written;
    }

    /** `apply_fitment_vehicle_variant`; `seen` is what its first transaction read. */
    method ApplyVariant(seen: Vehicle, expected: nat, wanted: Variant, variants: seq<Candidate>) returns (r: Outcome)
      modifies this
      ensures (r, row) == Apply(seen, old(row), expected, wanted, variants)
    {
      if seen.revision != expected {
        return RevisionConflict;
      }
      var before := ModificationOf(seen);
      if before.ConfirmedModification? && SameLabels(before.selected, wanted) {
        if row.revision != expected {
          return RevisionConflict;
        }
        var now := ModificationOf(row);
        if !now.ConfirmedModification? || !SameLabels(now.selected, wanted) {
          return SelectionNotPending;
        }
        return AsItWas;
      }
      if before != SuggestedModification {
        return SelectionNotPending;
      }
      var i := 0;
      while i < |variants| && !SameLabels(variants[i].variant, wanted)
        invariant i <= |variants| && FindLabels(variants, wanted) == i + FindLabels(variants[i..], wanted)
      {
        assert variants[i..][1..] == variants[i + 1..];
        i := i + 1;
      }
      if i == |variants| || !variants[i].complete {
        return CandidateNotCurrent;
      }
      if row.revision != expected {
        return RevisionConflict;
      }
      if ModificationOf(row) != SuggestedModification {
        return SelectionNotPending;
      }
      var c := variants[i].variant;
      var target := BaseMapping(row.mapping, variants);
      target := target.(generationSlug := Some(c.generationSlug), modificationSlug := Some(c.modificationSlug));
      target := target.(state := Some(ConfirmedState), source := Some(UserChoice));
      target := target.(revision := Some(expected), selected := Some(c));
      WriteSelection(target, Some(c.generation), Some(c.modification), NonEmpty(c.body));
      r := Written;
    }

    /** `replace_fitment_vehicle_variant` */
    method ReplaceVariant(seen: Vehicle, expected: nat, from: Variant, wanted: Variant, variants: seq<Candidate>) returns (r: Outcome)
      modifies this
      ensures (r, row) == Replace(seen, old(row), expected, from, wanted, variants)
    {
      if seen.revision != expected {
        return RevisionConflict;
      }
      var before := ModificationOf(seen);
      if !before.ConfirmedModification? {
        return SelectionRequired;
      }
      if !SameSelection(before.selected, from) {
        return SelectionConflict;
      }
      if SameSelection(before.selected, wanted) {
        if row.revision != expected {
          return RevisionConflict;
        }
        var now := ModificationOf(row);
        if !now.ConfirmedModification? || !(SameSelection(now.selected, from) && SameSelection(now.selected, wanted)) {
          return SelectionConflict;
        }
        return AsItWas;
      }
      var i := 0;
      while i < |variants| && !SameSelection(variants[i].variant, wanted)
        invariant i <= |variants| && FindSelection(variants, wanted) == i + FindSelection(variants[i..], wanted)
      {
        assert variants[i..][1..] == variants[i + 1..];
        i := i + 1;
      }
      if i == |variants| || !variants[i].complete {
        return CandidateNotCurrent;
      }
      if row.revision != expected {
        return RevisionConflict;
      }
      var now := ModificationOf(row);
      if !now.ConfirmedModification? || !SameSelection(now.selected, from) {
        return SelectionConflict;
      }
      if SameSelection(now.selected, wanted) {
        return AsItWas;
      }
      var c := variants[i].variant;
      var target := BaseMapping(row.mapping, variants);
      target := target.(makeSlug := Some(c.makeSlug), modelSlug := Some(c.modelSlug), region := Some(c.region));
      target := target.(generationSlug := Some(c.generationSlug), modificationSlug := Some(c.modificationSlug));
      target := target.(spread := Some(c), state := Some(ConfirmedState), source := Some(UserChoice));
      target := target.(revision := Some(expected), selected := Some(c));
      WriteSelection(target, Some(c.generation), Some(c.modification), NonEmpty(c.body));
      r := Written;
    }

    /** Values and provenance field by field: edits first, confirmations over them. */
    static method MergeProvenance(v: Vehicle, request: SaveRequest, catalogue: Option<Catalogue>)
      returns (cores: Cores, confirms: bool)
      ensures cores == NewCores(v, request, catalogue)
      ensures confirms <==> exists f: Core :: Confirms(v, request, catalogue, f)
    {
      var cells: map<Core, Cell> := map[];
      confirms := false;
      for i := 0 to |CORE_FIELDS|
        invariant forall k :: 0 <= k < i ==> CORE_FIELDS[k] in cells && cells[CORE_FIELDS[k]] == NewCell(v, request, catalogue, CORE_FIELDS[k])
        invariant confirms <==> exists k :: 0 <= k < i && Confirms(v, request, catalogue, CORE_FIELDS[k])
      {
        var f := CORE_FIELDS[i];
        var value, meta := NewValue(v, request, catalogue, f), CellOf(v.cores, f).confirmed;
        if Changes(v, request, catalogue, f) {
          meta := if value.None? then None else Some(false);
        }
        if Confirms(v, request, catalogue, f) {
          meta := if value.None? then None else Some(true);
          confirms := true;
        }
        cells := cells[f := Cell(value, meta)];
      }
      AllFour(v, request, catalogue);
      cores := Cores(cells[CORE_FIELDS[0]], cells[CORE_FIELDS[1]], cells[CORE_FIELDS[2]], cells[CORE_FIELDS[3]]);
    }

    /** The vehicle part of `save_fitment_details`. The catalogue is asked only when it is needed. */
    method SaveDetails(request: SaveRequest, found: Option<Catalogue>) returns (r: Outcome)
      modifies this
      ensures (r, row) == Save(old(row), request, found)
    {
      if request.expected != row.revision {
        return RevisionConflict;
      }
      if AsksNothing(request) {
        return AsItWas;
      }
      if Missing(NewValue(row, request, None, Make)) || Missing(NewValue(row, request, None, Model)) {
        return MakeAndModelRequired;
      }
      var catalogue: Option<Catalogue> := None;
      if NeedsCatalogue(row, request) {
        if found.None? {
          return NotInCatalogue;
        }
        catalogue := found;
      }
      if request.confirmed != {} && catalogue.None? {
        return DetailsRequired;
      }
      var before := row;
      var changed := CoreChanges(before, request, catalogue);
      var cores, confirms := MergeProvenance(before, request, catalogue);
      var generation := NewText(before, changed, request.generation, before.generation);
      var modification := NewText(before, changed, request.modification, before.modification);
      var body := NewText(before, changed, request.body, before.body);
      var mapping := NewMapping(before, changed, catalogue);
      var textChanged := generation != before.generation || modification != before.modification || body != before.body;
      if !changed && !textChanged && !confirms && mapping == before.mapping {
        return AsItWas;
      }
      row := row.(cores := cores, legacyConfirmed := AllConfirmed(cores));
      row := row.(generation := generation, modification := modification, body := body, mapping := mapping);
      row := row.(mappingRevision := row.mappingRevision + (if mapping != before.mapping then 1 else 0), revision := row.revision + 1);
      r := Written;
    }
  }

  /** The four fields are all there are. */
  lemma AllFour(v: Vehicle, r: SaveRequest, cat: Option<Catalogue>)
    ensures (exists k :: 0 <= k < 4 && Confirms(v, r, cat, CORE_FIELDS[k])) <==> exists f: Core :: Confirms(v, r, cat, f)
  {
    if exists f: Core :: Confirms(v, r, cat, f) {
      var f: Core :| Confirms(v, r, cat, f);
      var k := match f case Make => 0 case Model => 1 case Year => 2 case Market => 3;
      assert CORE_FIELDS[k] == f;
    }
  }
}
