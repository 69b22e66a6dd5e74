/** The announcement records passed between the scraper, the classifier, the
    researcher and the pipeline, and the label enumerations of the classifier's
    JSON schema (app/ai/ai_validator.py). The LLM output is not validated, so
    each enumeration has a case for any other label; the subset types keep that
    case from spelling a known label, so that comparing values is comparing
    the labels. */
module Announcements {
  import opened Wrappers
  import opened Dates

  datatype Direction = Bullish | Bearish | Neutral | OtherDirection(name: string)
  type ValidDirection = d: Direction | !d.OtherDirection? || d.name !in ["bullish", "bearish", "neutral"]
    witness Neutral

  datatype Window = SameDay | NextDay | OneToThreeDays | OtherWindow(name: string)
  type ValidWindow = w: Window | !w.OtherWindow? || w.name !in ["same_day", "next_day", "1_3_days"]
    witness NextDay

  datatype Confidence = Low | Medium | High | OtherConfidence(name: string)
  type ValidConfidence = c: Confidence | !c.OtherConfidence? || c.name !in ["low", "medium", "high"]
    witness Low

  datatype EventType = ResultsPositive | ResultsNegative | OrderWin | OrderLoss | FundRaise
                     | Regulatory | NeutralEvent | OtherEvent(name: string)

  function DirectionLabel(d: Direction): string {
    match d
    case Bullish => "bullish"
    case Bearish => "bearish"
    case Neutral => "neutral"
    case OtherDirection(l) => l
  }

  function ParseDirection(s: string): (d: ValidDirection)
    ensures DirectionLabel(d) == s
  {
    if s == "bullish" then Bullish
    else if s == "bearish" then Bearish
    else if s == "neutral" then Neutral
    else OtherDirection(s)
  }

  /** Labels and valid directions are in one-to-one correspondence. */
  lemma DirectionLabelRoundTrip(d: ValidDirection)
    ensures ParseDirection(DirectionLabel(d)) == d
  {
  }

  function WindowLabel(w: Window): string {
    match w
    case SameDay => "same_day"
    case NextDay => "next_day"
    case OneToThreeDays => "1_3_days"
    case OtherWindow(l) => l
  }

  function ParseWindow(s: string): (w: ValidWindow)
    ensures WindowLabel(w) == s
  {
    if s == "same_day" then SameDay
    else if s == "next_day" then NextDay
    else if s == "1_3_days" then OneToThreeDays
    else OtherWindow(s)
  }

  function ConfidenceLabel(c: Confidence): string {
    match c
    case Low => "low"
    case Medium => "medium"
    case High => "high"
    case OtherConfidence(l) => l
  }

  function ParseConfidence(s: string): (c: ValidConfidence)
    ensures ConfidenceLabel(c) == s
  {
    if s == "low" then Low
    else if s == "medium" then Medium
    else if s == "high" then High
    else OtherConfidence(s)
  }

  /** The classifier's dictionary. A key the code reads with a default is an
      `Entry`, since an absent key and a JSON null read differently there;
      `event_type` is only read with `.get(k)`, where both are `None`.
      `headline` is the key the classification filter adds. */
  datatype Classification = Classification(eventType: Option<EventType>, aiDirection: Entry<ValidDirection>,
                                           reactionWindow: Entry<ValidWindow>,
                                           confidence: Entry<ValidConfidence>,
                                           explanation: Entry<string>, headline: Entry<string>)

  const NoClassification := Classification(None, Absent, Absent, Absent, Absent, Absent)

  /** An announcement dictionary: a `BSEEvent` row, and once classified, its
      classification. A missing or null text field is the empty string. */
  datatype Announcement = Announcement(symbol: string, headline: string, eventDate: Option<Date>,
                                       url: string, category: string, source: string,
                                       classification: Option<Classification>)
}
