/**
 * The customer-feedback page: the comment list's filter buttons and the
 * five-star rating row drawn for each comment.
 */
module Feedback {
  import Seqs
  import opened Text

  datatype Sentiment = Positive | Neutral | Negative

  /** The text the page shows for a sentiment, which is also the name of its filter button. */
  function SentimentName(s: Sentiment): (n: string)
    ensures n == "Positive" || n == "Neutral" || n == "Negative"
  {
    match s
    case Positive => "Positive"
    case Neutral => "Neutral"
    case Negative => "Negative"
  }

  /** `FeedbackRecord`; `rating` is modelled as an integer. */
  datatype FeedbackRecord = FeedbackRecord(
    id: string, table: string, date: string, ago: string, rating: int,
    sentiment: Sentiment, guestName: string, dish: string, comment: string,
    tags: seq<string>, resolved: bool)

  /** `FEEDBACK_DATA`: the six seeded comments, newest first. */
  const FeedbackData: seq<FeedbackRecord> := [
    FeedbackRecord("FB-2048", "T08", "2024-11-01", "12 minutes ago", 5, Positive, "Amelia R.",
      "Truffle Tagliatelle",
      "Incredible depth of flavor and beautiful plating. Loved the interactive AR pairing notes!",
      ["Service", "AR menu", "Chef special"], true),
    FeedbackRecord("FB-2047", "T03", "2024-11-01", "32 minutes ago", 4, Positive, "Leo M.",
      "Herbal Citrus Spritz",
      "Refreshing and visually stunning. Would love an option with less sweetness.",
      ["Zero proof", "Flavor"], false),
    FeedbackRecord("FB-2046", "T19", "2024-10-31", "1 hour ago", 3, Neutral, "Sofia L.",
      "Wagyu Ember Burger",
      "Great taste but bun arrived slightly cool. Staff responded quickly.",
      ["Kitchen", "Temperature"], true),
    FeedbackRecord("FB-2045", "T12", "2024-10-31", "2 hours ago", 2, Negative, "Jonathan P.",
      "Nitro Citrus Souffl\U{00E9}",
      "Souffl\U{00E9} collapsed before arriving. Appreciate the comped dessert, but experience was disappointing.",
      ["Desserts", "Operations"], false),
    FeedbackRecord("FB-2044", "T05", "2024-10-30", "Yesterday", 5, Positive, "Isabella K.",
      "Chef Table Omakase",
      "Chef interaction was unforgettable. The VR backstory for each course wowed our guests.",
      ["Experiential", "Storytelling"], true),
    FeedbackRecord("FB-2043", "T21", "2024-10-30", "Yesterday", 4, Positive, "Miguel D.",
      "Garden Spritz Zero",
      "Loved the aroma release ritual. Slight delay on delivery but worth the wait.",
      ["Bar", "Experience"], true)
  ]

  /** The earliest date the "Last 7 days" filter keeps. */
  const WeekCutoff: string := "2024-10-25"

  /** The earliest date the "Last 30 days" filter keeps. */
  const MonthCutoff: string := "2024-10-02"

  /** The date filters' test: the record's date compares at least `cutoff`. */
  function DatedFrom(cutoff: string): FeedbackRecord -> bool {
    (f: FeedbackRecord) => AtLeast(f.date, cutoff)
  }

  /** The sentiment filters' test: the record's sentiment is named `filter`. */
  function HasSentiment(filter: string): FeedbackRecord -> bool {
    (f: FeedbackRecord) => SentimentName(f.sentiment) == filter
  }

  /**
   * `filteredFeedback`: "All" shows everything, the two date filters keep
   * records whose ISO date string compares at least the cutoff, and any
   * other filter value is matched against the sentiment.
   */
  function FilterFeedback(data: seq<FeedbackRecord>, filter: string): (r: seq<FeedbackRecord>)
    ensures filter == "All" ==> r == data
    ensures filter == "Last 7 days" ==>
      forall f :: multiset(r)[f] == if AtLeast(f.date, WeekCutoff) then multiset(data)[f] else 0
    ensures filter == "Last 30 days" ==>
      forall f :: multiset(r)[f] == if AtLeast(f.date, MonthCutoff) then multiset(data)[f] else 0
    ensures filter != "All" && filter != "Last 7 days" && filter != "Last 30 days" ==>
      forall f :: multiset(r)[f] == if SentimentName(f.sentiment) == filter then multiset(data)[f] else 0
  {
    if filter == "All" then data
    else if filter == "Last 7 days" then Seqs.Filter(data, DatedFrom(WeekCutoff))
    else if filter == "Last 30 days" then Seqs.Filter(data, DatedFrom(MonthCutoff))
    else Seqs.Filter(data, HasSentiment(filter))
  }

  /** Every filter shows the records in their original order, so "Showing X of Y" has X at most Y. */
  lemma FilterFeedbackSubsequence(data: seq<FeedbackRecord>, filter: string)
    ensures Seqs.IsSubsequence(FilterFeedback(data, filter), data)
    ensures |FilterFeedback(data, filter)| <= |data|
  {
    if filter == "All" {
      Seqs.SubsequenceReflexive(data);
    } else if filter == "Last 7 days" {
      Seqs.FilterIsSubsequence(data, DatedFrom(WeekCutoff));
    } else if filter == "Last 30 days" {
      Seqs.FilterIsSubsequence(data, DatedFrom(MonthCutoff));
    } else {
      Seqs.FilterIsSubsequence(data, HasSentiment(filter));
    }
  }

  /** A filter value that is neither "All", a date range nor a sentiment name shows nothing. */
  lemma UnknownFilterShowsNothing(data: seq<FeedbackRecord>, filter: string)
    requires filter != "All" && filter != "Last 7 days" && filter != "Last 30 days"
    requires filter != "Positive" && filter != "Neutral" && filter != "Negative"
    ensures FilterFeedback(data, filter) == []
  {
    assert forall f :: f in data ==> !HasSentiment(filter)(f);
    Seqs.FilterNone(data, HasSentiment(filter));
  }

  // ----- Rating stars -----

  /** `RatingStars`: star `star` (one to five) is drawn filled when it is at most the rating. */
  function StarRow(rating: int): (row: seq<bool>)
    ensures |row| == 5
  {
    seq(5, i => i + 1 <= rating)
  }

  /** The number of filled stars. */
  function CountFilled(row: seq<bool>): (n: nat)
    ensures n <= |row|
  {
    if row == [] then 0 else (if row[0] then 1 else 0) + CountFilled(row[1..])
  }

  /** The rating clamped to zero through five. */
  function Clamp(rating: int): (n: nat)
    ensures n <= 5
  {
    if rating < 0 then 0 else if rating > 5 then 5 else rating
  }

  /** A row whose filled stars are exactly its first `n` has `n` filled stars. */
  lemma {:induction false} CountFilledPrefix(row: seq<bool>, n: nat)
    requires n <= |row|
    requires forall k :: 0 <= k < |row| ==> (row[k] <==> k < n)
    ensures CountFilled(row) == n
  {
    if row != [] {
      var m := if n == 0 then 0 else n - 1;
      forall k | 0 <= k < |row[1..]|
        ensures row[1..][k] <==> k < m
      {
        assert row[1..][k] == row[k + 1];
      }
      CountFilledPrefix(row[1..], m);
    }
  }

  /** The filled stars come first, and there are as many as the rating clamped to zero through five. */
  lemma StarRowFilled(rating: int)
    ensures forall k :: 0 <= k < 5 ==> (StarRow(rating)[k] <==> k < Clamp(rating))
    ensures CountFilled(StarRow(rating)) == Clamp(rating)
  {
    CountFilledPrefix(StarRow(rating), Clamp(rating));
  }
}
