/** What completing the answer to a management question guarantees, and when it raises. */
module AnswerLaws {
  import opened Answers

  // ---------------------------------------------------------------------------------------------
  // When it raises
  // ---------------------------------------------------------------------------------------------

  /** Every bullet that is no string comes after a genuine one. */
  ghost predicate GenuineLeads(items: seq<Wording>) {
    forall i :: 0 <= i < |items| && items[i].NotText? ==> exists j :: 0 <= j < i && items[j].Genuine?
  }

  /** Fewer than three bullets are not looked at; of three or more a genuine one comes before any that is no string. */
  ghost predicate BulletsReadable(why: Bullets) {
    why.Bullets? && |why.items| >= 3 ==> GenuineLeads(why.items)
  }

  /** No text is another truthy value than a string, and the bullets can be read. */
  ghost predicate Enrichable(a: Answer) {
    a.Answer? ==>
      && !a.executive.Thing? && !a.decision.Thing? && !a.risks.Thing? && !a.missing.Thing?
      && (a.impact.Impact? ==> !a.impact.schedule.Thing? && !a.impact.cost.Thing? && !a.impact.client.Thing?)
      && (a.action.Action? ==> !a.action.step.Thing? && !a.action.owner.Thing? && !a.action.timeframe.Thing?)
      && BulletsReadable(a.why)
  }

  lemma GenuineLeadsRest(items: seq<Wording>)
    requires items != [] && items[0].Placeholder?
    ensures GenuineLeads(items) <==> GenuineLeads(items[1..])
  {
    var rest := items[1..];
    if GenuineLeads(items) {
      forall i | 0 <= i < |rest| && rest[i].NotText?
        ensures exists j :: 0 <= j < i && rest[j].Genuine?
      {
        assert items[i + 1].NotText?;
        var j :| 0 <= j < i + 1 && items[j].Genuine?;
        assert rest[j - 1].Genuine?;
      }
    }
    if GenuineLeads(rest) {
      forall i | 0 <= i < |items| && items[i].NotText?
        ensures exists j :: 0 <= j < i && items[j].Genuine?
      {
        assert rest[i - 1].NotText?;
        var j :| 0 <= j < i - 1 && rest[j].Genuine?;
        assert items[j + 1].Genuine?;
      }
    }
  }

  /** The bullets can be examined exactly when a genuine one leads; then all are placeholders or some is genuine. */
  lemma {:induction false} PlaceholdersMeaning(items: seq<Wording>)
    ensures AllPlaceholders(items).Some? <==> GenuineLeads(items)
    ensures AllPlaceholders(items).Some? ==> (AllPlaceholders(items).value <==> Genuine !in items)
  {
    if items != [] && items[0].Placeholder? {
      PlaceholdersMeaning(items[1..]);
      GenuineLeadsRest(items);
      assert items == [items[0]] + items[1..];
    }
  }

  /** Completing an answer raises exactly when one of its texts or leading bullets is no string. */
  lemma EnrichedIff(a: Answer, firstIds: seq<string>)
    ensures Enriched(a, firstIds).Some? <==> Enrichable(a)
  {
    if a.Answer? && a.why.Bullets? {
      PlaceholdersMeaning(a.why.items);
    }
  }

  // ---------------------------------------------------------------------------------------------
  // What it leaves
  // ---------------------------------------------------------------------------------------------

  /** A string that is neither blank nor, where `examples` are replaced, an example. */
  predicate Says(f: Field, examples: bool) {
    f.Words? && !f.phrase.Spaces? && !(examples && f.phrase.Example?)
  }

  /** Three notes, or three bullets or more with a genuine one. */
  predicate Reasoned(why: Bullets) {
    why.ThreeNotes? || (why.Bullets? && |why.items| >= 3 && Genuine in why.items)
  }

  /** Every text says something, the main ones more than an example; there are reasons, and evidence is named. */
  predicate Complete(a: Answer) {
    && a.Answer? && Says(a.executive, true) && Says(a.decision, true) && Says(a.risks, true) && Says(a.missing, false)
    && a.impact.Impact? && Says(a.impact.schedule, false) && Says(a.impact.cost, false) && Says(a.impact.client, false)
    && a.action.Action? && Says(a.action.step, false) && Says(a.action.owner, false) && Says(a.action.timeframe, false)
    && Reasoned(a.why) && !a.used.AsDrafted?
  }

  /** An answer that can be completed ends complete, and names the ids of the first finding if it has any. */
  lemma EnrichedIsComplete(a: Answer, firstIds: seq<string>)
    requires Enrichable(a)
    ensures
      var e := Enriched(a, firstIds);
      && e.Some? && Complete(e.value)
      && e.value.used == if firstIds != [] then Quoting(firstIds) else Catalogued
  {
    EnrichedIff(a, firstIds);
    if a.Answer? && a.why.Bullets? {
      PlaceholdersMeaning(a.why.items);
    }
  }

  /** Of the draft's own texts the completed answer keeps each in its place; all else becomes a note. */
  predicate Kept(before: Field, after: Field, examples: bool) {
    after == if Says(before, examples) then before else NOTE
  }

  /** Completing keeps every text that says something, in its place, and every list of bullets with a genuine one. */
  lemma EnrichmentKeepsTexts(a: Answer, firstIds: seq<string>)
    requires a.Answer? && Enriched(a, firstIds).Some?
    ensures
      var e := Enriched(a, firstIds).value;
      && Kept(a.executive, e.executive, true) && Kept(a.decision, e.decision, true) && Kept(a.risks, e.risks, true)
      && Kept(a.missing, e.missing, false)
      && (a.impact.Impact? ==>
            && Kept(a.impact.schedule, e.impact.schedule, false) && Kept(a.impact.cost, e.impact.cost, false)
            && Kept(a.impact.client, e.impact.client, false))
      && (a.action.Action? ==>
            && Kept(a.action.step, e.action.step, false) && Kept(a.action.owner, e.action.owner, false)
            && Kept(a.action.timeframe, e.action.timeframe, false))
      && e.why == if Reasoned(a.why) then a.why else ThreeNotes
  {
    if a.why.Bullets? { PlaceholdersMeaning(a.why.items); }
  }

  /** Completing a completed answer, with the same finding, changes nothing. */
  lemma EnrichmentIsIdempotent(a: Answer, firstIds: seq<string>)
    requires Enriched(a, firstIds).Some?
    ensures Enriched(Enriched(a, firstIds).value, firstIds) == Enriched(a, firstIds)
  {
    EnrichedIff(a, firstIds);
    EnrichedIsComplete(a, firstIds);
    var e := Enriched(a, firstIds).value;
    if e.why.Bullets? { PlaceholdersMeaning(e.why.items); }
    EnrichedIff(e, firstIds);
    EnrichmentKeepsTexts(e, firstIds);
  }
}
