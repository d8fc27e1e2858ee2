/** Post-processing of the raw hits of a token-classification (NER) model:
    confidence and label filtering, token clean-up, and grouping the kept
    terms by type for the report. The tagging model itself is a parameter. */
module MedicalNer {
  import opened Strings
  import opened Sequences
  import opened Results

  /** One raw hit of the NER pipeline: its label (`entity`), the token text
      (`word`), the confidence and the character span. */
  datatype RawEntity = RawEntity(entity: string, word: string, score: real, start: int, end: int)

  /** One kept medical term. */
  datatype MedicalEntity = MedicalEntity(term: string, entityType: string, score: real, start: int, end: int)

  /** The tagging model loaded by `pipeline("ner", model=...)`: a function of
      the text. */
  datatype Tagger = Tagger(run: string -> seq<RawEntity>)

  const DefaultModelName: string := "Jean-Baptiste/roberta-large-ner-english"
  const DefaultThreshold: real := 0.7
  /** The byte-level BPE marker for a leading space, 'Ġ'. */
  const SpaceMarker: char := '\U{0120}'
  const NoEntitiesMessage: string := "No significant medical entities detected."

  /** The labels treated as medical. */
  predicate IsMedicalLabel(tag: string) {
    tag == "MISC" || tag == "ORG" || tag == "I-MISC" || tag == "B-MISC"
  }

  /** The token text with every 'Ġ' removed. */
  function CleanWord(word: string): string {
    RemoveAll(word, [SpaceMarker])
  }

  /** Whether a raw hit survives the filter. */
  predicate Keeps(e: RawEntity, threshold: real) {
    e.score >= threshold && IsMedicalLabel(e.entity) && |CleanWord(e.word)| > 2
  }

  /** The output record built for a kept hit. */
  function ToMedical(e: RawEntity): MedicalEntity {
    MedicalEntity(CleanWord(e.word), e.entity, e.score, e.start, e.end)
  }

  /** The kept hits, converted, in input order. */
  function Filtered(entities: seq<RawEntity>, threshold: real): seq<MedicalEntity>
    decreases |entities|
  {
    if |entities| == 0 then []
    else
      var last := entities[|entities| - 1];
      Filtered(entities[..|entities| - 1], threshold) + (if Keeps(last, threshold) then [ToMedical(last)] else [])
  }

  /** The input positions of the kept hits, in increasing order. */
  function KeptIndices(entities: seq<RawEntity>, threshold: real): seq<nat>
    decreases |entities|
  {
    if |entities| == 0 then []
    else
      var n := |entities| - 1;
      KeptIndices(entities[..n], threshold) + (if Keeps(entities[n], threshold) then [n] else [])
  }

  /** `filter_medical_entities`: a single pass that appends every kept hit. */
  method FilterMedicalEntities(entities: seq<RawEntity>, threshold: real := DefaultThreshold) returns (medical: seq<MedicalEntity>)
    ensures medical == Filtered(entities, threshold)
    ensures |medical| <= |entities|
  {
    medical := [];
    var i := 0;
    while i < |entities|
      invariant 0 <= i <= |entities|
      invariant medical == Filtered(entities[..i], threshold)
      invariant |medical| <= i
    {
      var entity := entities[i];
      assert entities[..i + 1][..i] == entities[..i];
      if entity.score >= threshold {
        if entity.entity == "MISC" || entity.entity == "ORG" || entity.entity == "I-MISC" || entity.entity == "B-MISC" {
          var word := CleanWord(entity.word);
          if |word| > 2 {
            medical := medical + [MedicalEntity(word, entity.entity, entity.score, entity.start, entity.end)];
          }
        }
      }
      i := i + 1;
    }
    assert entities[..|entities|] == entities;
  }

  /** Everything the filter outputs passed the threshold, carries a medical
      label as its type, and has a cleaned term longer than two characters
      with no 'Ġ' left in it. */
  lemma {:induction false} FilteredSound(entities: seq<RawEntity>, threshold: real)
    ensures forall m :: m in Filtered(entities, threshold) ==>
      && m.score >= threshold
      && IsMedicalLabel(m.entityType)
      && |m.term| > 2
      && SpaceMarker !in m.term
    decreases |entities|
  {
    if |entities| > 0 {
      var last := entities[|entities| - 1];
      FilteredSound(entities[..|entities| - 1], threshold);
      RemoveCharacter(last.word, SpaceMarker);
    }
  }

  /** One output per kept position, and no more than the input. */
  lemma {:induction false} KeptIndicesLength(entities: seq<RawEntity>, threshold: real)
    ensures |KeptIndices(entities, threshold)| == |Filtered(entities, threshold)| <= |entities|
    decreases |entities|
  {
    if |entities| > 0 {
      KeptIndicesLength(entities[..|entities| - 1], threshold);
    }
  }

  /** The k-th output is the conversion of the hit at the k-th kept position,
      and that hit passes the filter. */
  lemma {:induction false} KeptIndicesSound(entities: seq<RawEntity>, threshold: real)
    ensures |KeptIndices(entities, threshold)| == |Filtered(entities, threshold)|
    ensures forall k :: 0 <= k < |KeptIndices(entities, threshold)| ==>
      && KeptIndices(entities, threshold)[k] < |entities|
      && Keeps(entities[KeptIndices(entities, threshold)[k]], threshold)
      && Filtered(entities, threshold)[k] == ToMedical(entities[KeptIndices(entities, threshold)[k]])
    decreases |entities|
  {
    KeptIndicesLength(entities, threshold);
    if |entities| > 0 {
      var n := |entities| - 1;
      var init := entities[..n];
      KeptIndicesSound(init, threshold);
      var prev := KeptIndices(init, threshold);
      assert forall k :: 0 <= k < |prev| ==> prev[k] < n && entities[prev[k]] == init[prev[k]];
    }
  }

  /** The kept positions increase. */
  lemma {:induction false} KeptIndicesIncreasing(entities: seq<RawEntity>, threshold: real)
    ensures forall k :: 0 <= k < |KeptIndices(entities, threshold)| ==>
      KeptIndices(entities, threshold)[k] < |entities|
    ensures forall k, l :: 0 <= k < l < |KeptIndices(entities, threshold)| ==>
      KeptIndices(entities, threshold)[k] < KeptIndices(entities, threshold)[l]
    decreases |entities|
  {
    if |entities| > 0 {
      KeptIndicesIncreasing(entities[..|entities| - 1], threshold);
    }
  }

  /** Every position whose hit passes the filter is kept. */
  lemma {:induction false} KeptIndicesComplete(entities: seq<RawEntity>, threshold: real)
    ensures forall j :: 0 <= j < |entities| && Keeps(entities[j], threshold) ==>
      j in KeptIndices(entities, threshold)
    decreases |entities|
  {
    if |entities| > 0 {
      var n := |entities| - 1;
      var init := entities[..n];
      KeptIndicesComplete(init, threshold);
      forall j | 0 <= j < |entities| && Keeps(entities[j], threshold)
        ensures j in KeptIndices(entities, threshold)
      {
        if j < n {
          assert init[j] == entities[j];
        }
      }
    }
  }

  /** The output is exactly the kept hits of the input, converted, in input
      order: the k-th output comes from input position `KeptIndices[k]`,
      these positions increase, and every kept position is among them.
      Term, label, score and span are copied from that hit. */
  lemma FilteredIsOrderedSelection(entities: seq<RawEntity>, threshold: real)
    ensures |KeptIndices(entities, threshold)| == |Filtered(entities, threshold)| <= |entities|
    ensures forall k :: 0 <= k < |KeptIndices(entities, threshold)| ==>
      && KeptIndices(entities, threshold)[k] < |entities|
      && Keeps(entities[KeptIndices(entities, threshold)[k]], threshold)
      && Filtered(entities, threshold)[k] == ToMedical(entities[KeptIndices(entities, threshold)[k]])
    ensures forall k, l :: 0 <= k < l < |KeptIndices(entities, threshold)| ==>
      KeptIndices(entities, threshold)[k] < KeptIndices(entities, threshold)[l]
    ensures forall j :: 0 <= j < |entities| && Keeps(entities[j], threshold) ==>
      j in KeptIndices(entities, threshold)
  {
    KeptIndicesLength(entities, threshold);
    KeptIndicesSound(entities, threshold);
    KeptIndicesIncreasing(entities, threshold);
    KeptIndicesComplete(entities, threshold);
  }

  /** `MedicalNER`: the NER model is loaded lazily on first use. */
  class MedicalNER {
    const modelName: string
    var nerModel: Option<Tagger>

    constructor (modelName: string := DefaultModelName)
      ensures this.modelName == modelName && nerModel == None
    {
      this.modelName := modelName;
      nerModel := None;
    }

    /** `load_model`: loads only when no model is loaded yet. `loader` stands
        for `pipeline("ner", model=name)`; `None` is a raise, which is
        reported as `ok == false` and leaves the field unset. */
    method LoadModel(loader: string -> Option<Tagger>) returns (ok: bool)
      modifies this`nerModel
      ensures old(nerModel).Some? ==> ok && nerModel == old(nerModel)
      ensures old(nerModel).None? ==> nerModel == loader(modelName) && ok == loader(modelName).Some?
    {
      ok := true;
      if nerModel.None? {
        nerModel := loader(modelName);
        ok := nerModel.Some?;
      }
    }

    /** `extract_entities`: the raw hits of the (lazily loaded) model, or the
        loader's failure. */
    method ExtractEntities(text: string, loader: string -> Option<Tagger>) returns (r: Result<seq<RawEntity>>)
      modifies this`nerModel
      ensures old(nerModel).Some? ==> nerModel == old(nerModel)
      ensures old(nerModel).None? ==> nerModel == loader(modelName)
      ensures r.Success? <==> nerModel.Some?
      ensures r.Success? ==> r.value == nerModel.value.run(text)
    {
      var ok := LoadModel(loader);
      if !ok {
        return Failure("Error loading NER model");
      }
      r := Success(nerModel.value.run(text));
    }

    /** `extract_medical_entities`: the filter applied to the raw hits. */
    method ExtractMedicalEntities(text: string, loader: string -> Option<Tagger>, threshold: real := DefaultThreshold)
      returns (r: Result<seq<MedicalEntity>>)
      modifies this`nerModel
      ensures old(nerModel).Some? ==> nerModel == old(nerModel)
      ensures old(nerModel).None? ==> nerModel == loader(modelName)
      ensures r.Success? <==> nerModel.Some?
      ensures r.Success? ==> r.value == Filtered(nerModel.value.run(text), threshold)
    {
      var all :- ExtractEntities(text, loader);
      var medical := FilterMedicalEntities(all, threshold);
      return Success(medical);
    }
  }

  // ---------------------------------------------------------------------------
  // format_entities_for_report
  // ---------------------------------------------------------------------------

  /** The `type` of every entity, in order. */
  function Types(entities: seq<MedicalEntity>): seq<string>
    decreases |entities|
  {
    if |entities| == 0 then []
    else Types(entities[..|entities| - 1]) + [entities[|entities| - 1].entityType]
  }

  /** The terms of the entities of type `t`, in order, repetitions included:
      the list `entity_groups[t]`. */
  function TermsOfType(entities: seq<MedicalEntity>, t: string): seq<string>
    decreases |entities|
  {
    if |entities| == 0 then []
    else
      var last := entities[|entities| - 1];
      TermsOfType(entities[..|entities| - 1], t) + (if last.entityType == t then [last.term] else [])
  }

  /** The line for type `t`: "TYPE: term1, term2, ...", each term once. */
  function GroupLine(entities: seq<MedicalEntity>, t: string): string {
    t + ": " + Join(", ", Distinct(TermsOfType(entities, t)))
  }

  /** One line per distinct type, in the order types are first seen. */
  function GroupLines(entities: seq<MedicalEntity>): (lines: seq<string>)
    ensures |lines| == |Distinct(Types(entities))|
  {
    var types := Distinct(Types(entities));
    seq(|types|, k requires 0 <= k < |types| => GroupLine(entities, types[k]))
  }

  /** The text `format_entities_for_report` returns. */
  function EntitiesReport(entities: seq<MedicalEntity>): string {
    if |entities| == 0 then NoEntitiesMessage else Join("\n", GroupLines(entities))
  }

  /** The grouping loop of `format_entities_for_report`: the dictionary
      `entity_groups`, as its keys in insertion order and its contents. */
  method GroupByType(entities: seq<MedicalEntity>) returns (order: seq<string>, groups: map<string, seq<string>>)
    ensures order == Distinct(Types(entities))
    ensures forall t :: t in groups <==> t in order
    ensures forall t :: t in groups ==> groups[t] == TermsOfType(entities, t)
  {
    order := [];
    groups := map[];
    var i := 0;
    while i < |entities|
      invariant 0 <= i <= |entities|
      invariant order == Distinct(Types(entities[..i]))
      invariant forall t :: t in groups <==> t in order
      invariant forall t :: t in groups ==> groups[t] == TermsOfType(entities[..i], t)
    {
      var entity := entities[i];
      assert entities[..i + 1][..i] == entities[..i];
      if entity.entityType !in groups {
        DistinctMembers(Types(entities[..i]));
        TermsOfTypeAbsent(entities[..i], entity.entityType);
        groups := groups[entity.entityType := []];
        order := order + [entity.entityType];
      }
      groups := groups[entity.entityType := groups[entity.entityType] + [entity.term]];
      forall t
        ensures TermsOfType(entities[..i + 1], t)
          == TermsOfType(entities[..i], t) + (if entity.entityType == t then [entity.term] else [])
      {
      }
      i := i + 1;
    }
    assert entities[..|entities|] == entities;
  }

  /** The de-duplication loop: `unique_terms` keeps each term once, at its
      first occurrence. */
  method UniqueTerms(terms: seq<string>) returns (uniqueTerms: seq<string>)
    ensures uniqueTerms == Distinct(terms)
  {
    uniqueTerms := [];
    var j := 0;
    while j < |terms|
      invariant 0 <= j <= |terms|
      invariant uniqueTerms == Distinct(terms[..j])
    {
      assert terms[..j + 1][..j] == terms[..j];
      if terms[j] !in uniqueTerms {
        uniqueTerms := uniqueTerms + [terms[j]];
      }
      j := j + 1;
    }
    assert terms[..|terms|] == terms;
  }

  /** `format_entities_for_report`: group by type, then write one line per
      group with its terms de-duplicated, and join the lines. */
  method FormatEntitiesForReport(entities: seq<MedicalEntity>) returns (text: string)
    ensures text == EntitiesReport(entities)
    ensures |entities| == 0 ==> text == NoEntitiesMessage
  {
    if |entities| == 0 {
      return NoEntitiesMessage;
    }
    var order, groups := GroupByType(entities);
    var lines: seq<string> := [];
    var k := 0;
    while k < |order|
      invariant 0 <= k <= |order|
      invariant |lines| == k
      invariant forall j :: 0 <= j < k ==> lines[j] == GroupLine(entities, order[j])
    {
      var t := order[k];
      var uniqueTerms := UniqueTerms(groups[t]);
      ghost var line := t + ": " + Join(", ", uniqueTerms);
      assert line == GroupLine(entities, t);
      lines := lines + [t + ": " + Join(", ", uniqueTerms)];
      k := k + 1;
    }
    ghost var expected := GroupLines(entities);
    assert |lines| == |expected|;
    forall j | 0 <= j < |lines|
      ensures lines[j] == expected[j]
    {
    }
    assert lines == expected;
    text := Join("\n", lines);
  }

  /** A type that no entity has has no terms. */
  lemma {:induction false} TermsOfTypeAbsent(entities: seq<MedicalEntity>, t: string)
    requires t !in Types(entities)
    ensures TermsOfType(entities, t) == []
    decreases |entities|
  {
    if |entities| > 0 {
      TermsOfTypeAbsent(entities[..|entities| - 1], t);
    }
  }

  lemma {:induction false} TypesMembers(entities: seq<MedicalEntity>)
    ensures |Types(entities)| == |entities|
    ensures forall i :: 0 <= i < |entities| ==> Types(entities)[i] == entities[i].entityType
    decreases |entities|
  {
    if |entities| > 0 {
      TypesMembers(entities[..|entities| - 1]);
    }
  }

  /** A term is in group `t` exactly when some entity of type `t` has it. */
  lemma {:induction false} TermsOfTypeMembers(entities: seq<MedicalEntity>, t: string)
    ensures forall x :: x in TermsOfType(entities, t) <==>
      exists i :: 0 <= i < |entities| && entities[i].entityType == t && entities[i].term == x
    decreases |entities|
  {
    if |entities| > 0 {
      var n := |entities| - 1;
      TermsOfTypeMembers(entities[..n], t);
      forall x | x in TermsOfType(entities, t)
        ensures exists i :: 0 <= i < |entities| && entities[i].entityType == t && entities[i].term == x
      {
        if x in TermsOfType(entities[..n], t) {
          var i :| 0 <= i < n && entities[..n][i].entityType == t && entities[..n][i].term == x;
          assert entities[i] == entities[..n][i];
        }
      }
      forall x | exists i :: 0 <= i < |entities| && entities[i].entityType == t && entities[i].term == x
        ensures x in TermsOfType(entities, t)
      {
        var i :| 0 <= i < |entities| && entities[i].entityType == t && entities[i].term == x;
        if i < n {
          assert entities[..n][i] == entities[i];
        }
      }
    }
  }

  /** Every entity is reported: its type has a line, and its term is listed
      on that line. */
  lemma EntitiesReportComplete(entities: seq<MedicalEntity>)
    ensures forall i :: 0 <= i < |entities| ==>
      && entities[i].entityType in Distinct(Types(entities))
      && entities[i].term in Distinct(TermsOfType(entities, entities[i].entityType))
  {
    TypesMembers(entities);
    DistinctMembers(Types(entities));
    forall i | 0 <= i < |entities|
      ensures entities[i].entityType in Distinct(Types(entities))
      ensures entities[i].term in Distinct(TermsOfType(entities, entities[i].entityType))
    {
      assert Types(entities)[i] == entities[i].entityType;
      TermsOfTypeMembers(entities, entities[i].entityType);
      DistinctMembers(TermsOfType(entities, entities[i].entityType));
    }
  }

  /** Every term listed on the line of type `t` belongs to an entity of
      type `t`, and no term is listed twice on that line. */
  lemma GroupLineTermsSound(entities: seq<MedicalEntity>, t: string)
    ensures forall x :: x in Distinct(TermsOfType(entities, t)) ==>
      exists i :: 0 <= i < |entities| && entities[i].entityType == t && entities[i].term == x
    ensures forall a, b :: 0 <= a < b < |Distinct(TermsOfType(entities, t))| ==>
      Distinct(TermsOfType(entities, t))[a] != Distinct(TermsOfType(entities, t))[b]
  {
    TermsOfTypeMembers(entities, t);
    DistinctMembers(TermsOfType(entities, t));
    DistinctNoDuplicates(TermsOfType(entities, t));
  }

  /** The lines are for distinct types, exactly the types present, in the
      order in which each type is first seen. */
  lemma GroupTypesFirstSeen(entities: seq<MedicalEntity>)
    ensures forall x :: x in Distinct(Types(entities)) <==> x in Types(entities)
    ensures forall a, b :: 0 <= a < b < |Distinct(Types(entities))| ==>
      && Distinct(Types(entities))[a] != Distinct(Types(entities))[b]
      && FirstIndex(Types(entities), Distinct(Types(entities))[a]) < FirstIndex(Types(entities), Distinct(Types(entities))[b])
  {
    DistinctMembers(Types(entities));
    DistinctNoDuplicates(Types(entities));
    DistinctFirstSeenOrder(Types(entities));
  }

  /** The report of a non-empty list is its group lines separated by "\n":
      line k starts at `JoinOffset("\n", GroupLines, k)` and reads
      "TYPE: terms" for the k-th type first seen. */
  lemma EntitiesReportLayout(entities: seq<MedicalEntity>, k: nat)
    requires |entities| > 0
    requires k < |Distinct(Types(entities))|
    ensures var lines := GroupLines(entities);
      var off := JoinOffset("\n", lines, k);
      var line := GroupLine(entities, Distinct(Types(entities))[k]);
      && off + |line| <= |EntitiesReport(entities)|
      && EntitiesReport(entities)[off..off + |line|] == line
      && (k + 1 < |lines| ==> off + |line| < |EntitiesReport(entities)| && EntitiesReport(entities)[off + |line|] == '\n')
      && (k + 1 == |lines| ==> off + |line| == |EntitiesReport(entities)|)
  {
    var lines := GroupLines(entities);
    JoinLinesAt(lines, k, EntitiesReport(entities), lines[k], JoinOffset("\n", lines, k));
  }
}
