/** The announcement classification filter of
    app/services/announcement_classifier.py around an abstract LLM. */
module Classifier {
  import opened Wrappers
  import opened Dates
  import opened Ranking
  import opened Announcements

  /** The LLM chain: (symbol, headline, event date, category) to the parsed
      JSON dictionary, or the message of the exception it raised. */
  type Llm = (string, string, Option<Date>, string) -> Result<Classification>

  const DefaultMaxClassifications: int := 20

  /** The default classification returned when the chain raises. */
  function Fallback(error: string): Classification {
    Classification(Some(NeutralEvent), Present(Neutral), Present(OneToThreeDays), Present(Low),
                   Present("Classification error: " + error), Absent)
  }

  /** `classify_announcement`: never fails; an error gives the fallback. */
  function ClassifyAnnouncement(llm: Llm, symbol: string, headline: string, eventDate: Option<Date>,
                                category: string): (c: Classification)
    ensures var out := llm(symbol, headline, eventDate, if category == "" then "unknown" else category);
            c == if out.Success? then out.value else Fallback(out.error)
  {
    match llm(symbol, headline, eventDate, if category == "" then "unknown" else category)
    case Success(c) => c
    case Failure(e) => Fallback(e)
  }

  /** `confidence_levels.get(c, 1)`: an unknown confidence or `None` is level 1. */
  function ConfidenceLevel(c: Option<ValidConfidence>): (n: int)
    ensures 1 <= n <= 3
    ensures n == 3 <==> c == Some(High)
    ensures n == 2 <==> c == Some(Medium)
  {
    match c
    case Some(Medium) => 2
    case Some(High) => 3
    case _ => 1
  }

  /** `confidence_levels.get(min_confidence, 2)`. */
  function MinLevel(minConfidence: string): (n: int)
    ensures 1 <= n <= 3
    ensures minConfidence == "low" ==> n == 1
    ensures minConfidence == "high" ==> n == 3
    ensures minConfidence !in ["low", "high"] ==> n == 2
  {
    if minConfidence == "low" then 1
    else if minConfidence == "high" then 3
    else 2
  }

  /** The classifier is only asked about items with a symbol and a headline. */
  predicate Complete(a: Announcement) { a.symbol != "" && a.headline != "" }

  /** Kept: confidence (default low) at least the threshold, direction
      (default neutral) not neutral. A null direction reads as `None`, which
      is not "neutral", so it is kept. */
  predicate Selected(c: Classification, minLevel: int) {
    ConfidenceLevel(c.confidence.Get(Low)) >= minLevel && c.aiDirection.Get(Neutral) != Some(Neutral)
  }

  function Classify(llm: Llm, a: Announcement): Classification {
    ClassifyAnnouncement(llm, a.symbol, a.headline, a.eventDate, a.category)
  }

  /** The kept item: the announcement carrying its classification, with the
      headline copied in. */
  function Tagged(a: Announcement, c: Classification): Announcement {
    a.(classification := Some(c.(headline := Present(a.headline))))
  }

  /** The announcement without its classification, to compare items. */
  function Untagged(a: Announcement): Announcement { a.(classification := None) }

  /** The loop of the filter over an already truncated list. */
  function FilterProcessed(llm: Llm, anns: seq<Announcement>, minLevel: int): (kept: seq<Announcement>)
    ensures |kept| <= |Processed(anns)|
    ensures forall a :: a in kept ==>
      Complete(a) && a.classification.Some? && Selected(a.classification.value, minLevel)
      && a.classification.value.headline == Present(a.headline)
      && a == Tagged(Untagged(a), Classify(llm, Untagged(a)))
  {
    if anns == [] then []
    else
      var rest := FilterProcessed(llm, anns[..|anns| - 1], minLevel);
      var a := anns[|anns| - 1];
      if !Complete(a) then rest
      else
        var c := Classify(llm, a);
        if Selected(c, minLevel) then
          assert Untagged(Tagged(a, c)) == Untagged(a);
          assert Classify(llm, Untagged(a)) == c;
          rest + [Tagged(a, c)]
        else rest
  }

  /** The items the classifier is called on. */
  function Processed(anns: seq<Announcement>): (p: seq<Announcement>)
    ensures |p| <= |anns|
  {
    if anns == [] then []
    else Processed(anns[..|anns| - 1]) + (if Complete(anns[|anns| - 1]) then [anns[|anns| - 1]] else [])
  }

  /** `filter_high_volatility_announcements`. */
  function FilterHighVolatility(llm: Llm, anns: seq<Announcement>, minConfidence: string,
                                maxClassifications: int): seq<Announcement>
  {
    FilterProcessed(llm, Prefix(anns, maxClassifications), MinLevel(minConfidence))
  }

  /** What one more item adds to the filter's output. */
  lemma FilterProcessedStep(llm: Llm, anns: seq<Announcement>, i: nat, minLevel: int)
    requires i < |anns|
    ensures var a := anns[i];
      FilterProcessed(llm, anns[..i + 1], minLevel)
      == FilterProcessed(llm, anns[..i], minLevel)
         + (if Complete(a) && Selected(Classify(llm, a), minLevel) then [Tagged(a, Classify(llm, a))] else [])
  {
    assert anns[..i + 1][..i] == anns[..i] && anns[..i + 1][i] == anns[i];
  }

  /** What one more item adds to the items the classifier is called on. */
  lemma ProcessedStep(anns: seq<Announcement>, i: nat)
    requires i < |anns|
    ensures Processed(anns[..i + 1]) == Processed(anns[..i]) + (if Complete(anns[i]) then [anns[i]] else [])
  {
    assert anns[..i + 1][..i] == anns[..i] && anns[..i + 1][i] == anns[i];
  }

  /** `called` records, in order, the items the loop passes to
      `classify_announcement`: the complete items among the first
      `max_classifications`. */
  method FilterHighVolatilityAnnouncements(llm: Llm, anns: seq<Announcement>, minConfidence: string,
                                           maxClassifications: int)
    returns (kept: seq<Announcement>, ghost called: seq<Announcement>)
    ensures kept == FilterHighVolatility(llm, anns, minConfidence, maxClassifications)
    ensures called == Processed(Prefix(anns, maxClassifications))
    ensures forall a :: a in called ==> Complete(a) && a in anns
    ensures |kept| <= |called| <= |anns|
    ensures maxClassifications >= 0 ==> |called| <= maxClassifications
  {
    var minLevel := MinLevel(minConfidence);
    var toProcess := Prefix(anns, maxClassifications);
    kept := [];
    called := [];
    for i := 0 to |toProcess|
      invariant kept == FilterProcessed(llm, toProcess[..i], minLevel)
      invariant called == Processed(toProcess[..i])
    {
      var a := toProcess[i];
      FilterProcessedStep(llm, toProcess, i, minLevel);
      ProcessedStep(toProcess, i);
      if a.symbol == "" || a.headline == "" {
        continue;
      }
      var classification := ClassifyAnnouncement(llm, a.symbol, a.headline, a.eventDate, a.category);
      called := called + [a];
      assert classification == Classify(llm, a);
      var confLevel := ConfidenceLevel(classification.confidence.Get(Low));
      var direction := classification.aiDirection.Get(Neutral);
      if confLevel >= minLevel && direction != Some(Neutral) {
        kept := kept + [Tagged(a, classification)];
      }
    }
    assert toProcess[..|toProcess|] == toProcess;
    ProcessedMembers(toProcess);
  }

  /** The classifier is called on complete items of the list only. */
  lemma {:induction false} ProcessedMembers(anns: seq<Announcement>)
    ensures forall a :: a in Processed(anns) ==> Complete(a) && a in anns
  {
    if anns != [] {
      var init := anns[..|anns| - 1];
      ProcessedMembers(init);
      assert forall a :: a in init ==> a in anns;
    }
  }

  /** Every complete item whose classification is selected is kept, carrying
      that classification. */
  lemma {:induction false} FilterProcessedComplete(llm: Llm, anns: seq<Announcement>, minLevel: int, i: nat)
    requires i < |anns| && Complete(anns[i]) && Selected(Classify(llm, anns[i]), minLevel)
    ensures Tagged(anns[i], Classify(llm, anns[i])) in FilterProcessed(llm, anns, minLevel)
  {
    if i < |anns| - 1 {
      var init := anns[..|anns| - 1];
      assert init[i] == anns[i];
      FilterProcessedComplete(llm, init, minLevel, i);
    }
  }

  /** An item is kept iff it is complete and its classification is selected. */
  lemma {:induction false} FilterProcessedKeepsSelected(llm: Llm, anns: seq<Announcement>, minLevel: int)
    requires forall k :: 0 <= k < |anns| ==> anns[k].classification.None?
    ensures forall k :: 0 <= k < |anns| ==>
      (Tagged(anns[k], Classify(llm, anns[k])) in FilterProcessed(llm, anns, minLevel)
       <==> Complete(anns[k]) && Selected(Classify(llm, anns[k]), minLevel))
  {
    forall k | 0 <= k < |anns|
      ensures Tagged(anns[k], Classify(llm, anns[k])) in FilterProcessed(llm, anns, minLevel)
              <==> Complete(anns[k]) && Selected(Classify(llm, anns[k]), minLevel)
    {
      var a := anns[k];
      var c := Classify(llm, a);
      if Complete(a) && Selected(c, minLevel) {
        FilterProcessedComplete(llm, anns, minLevel, k);
      }
    }
  }

  // ---------------------------------------------------------------- properties

  /** The output is an order-preserving subsequence of the processed items. */
  lemma {:induction false} FilterIsSubsequence(llm: Llm, anns: seq<Announcement>, minLevel: int)
    requires forall k :: 0 <= k < |anns| ==> anns[k].classification.None?
    ensures Subsequence(Map(Untagged, FilterProcessed(llm, anns, minLevel)), Processed(anns))
  {
    if anns != [] {
      var init := anns[..|anns| - 1];
      var a := anns[|anns| - 1];
      FilterIsSubsequence(llm, init, minLevel);
      var rest := FilterProcessed(llm, init, minLevel);
      var p := Processed(init);
      if Complete(a) {
        assert Processed(anns) == p + [a];
        assert (p + [a])[..|p|] == p;
        SubsequenceExtend(Map(Untagged, rest), p, a);
        var c := Classify(llm, a);
        if Selected(c, minLevel) {
          var m := Map(Untagged, rest + [Tagged(a, c)]);
          assert m[..|m| - 1] == Map(Untagged, rest);
          assert m[|m| - 1] == a;
        }
      } else {
        assert Processed(anns) == p;
      }
    }
  }

  /** When the LLM is down every item gets the neutral fallback, so nothing is kept. */
  lemma {:induction false} OutageKeepsNothing(llm: Llm, anns: seq<Announcement>, minLevel: int)
    requires forall s, h, d, c :: llm(s, h, d, c).Failure?
    ensures FilterProcessed(llm, anns, minLevel) == []
  {
    if anns != [] {
      OutageKeepsNothing(llm, anns[..|anns| - 1], minLevel);
    }
  }
}
