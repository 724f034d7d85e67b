/**
 * buildBoolQuery in service/storage/elasticsearch/es.go: the translation of
 * a remote-read query's label matchers into an Elasticsearch bool query.
 * Each matcher adds one clause on the field `labels.<name>.keyword`, in
 * matcher order; the query's time window becomes one inclusive range
 * filter on `timestamp`.
 */
module EsQuery {
  import Prompb
  import Regexp

  /** The Elasticsearch leaf queries the adapter builds. */
  datatype LeafQuery =
    | TermQuery(field: string, term: string)
    | RegexpQuery(field: string, regexp: string)
    | RangeQuery(field: string, gte: int, lte: int)

  /** elastic.BoolQuery, restricted to the three clause lists the adapter fills. */
  datatype BoolQuery = BoolQuery(must: seq<LeafQuery>, mustNot: seq<LeafQuery>, filter: seq<LeafQuery>)

  /**
   * How buildBoolQuery ends: a query, the error it returns for an operator
   * it does not know, or the panic of RevisePattern on the matcher at the
   * given position.
   */
  datatype BuildOutcome =
    | Built(query: BoolQuery)
    | Failed(message: string)
    | Panicked(matcher: nat)

  /** The document field a label matcher targets. */
  function LabelField(name: string): string
  {
    "labels." + name + ".keyword"
  }

  /** A range query admits t when gte <= t <= lte: both ends are inclusive. */
  predicate Admits(range: LeafQuery, t: int)
  {
    range.RangeQuery? && range.gte <= t <= range.lte
  }

  function TimestampFilter(query: Prompb.Query): LeafQuery
  {
    RangeQuery("timestamp", query.startTimestampMs, query.endTimestampMs)
  }

  predicate IsRegex(t: Prompb.MatchType) { t.RE? || t.NRE? }

  /** EQ and RE go to Must; NEQ and NRE to MustNot. */
  predicate IsPositive(t: Prompb.MatchType) { t.EQ? || t.RE? }

  /**
   * A matcher at which the loop stops: an operator outside the four, or a
   * regex pattern on which RevisePattern panics.
   */
  predicate Blocks(m: Prompb.LabelMatcher)
  {
    m.matchType.Unknown? || (IsRegex(m.matchType) && !Regexp.CanRevise(m.value))
  }

  predicate NoneBlock(ms: seq<Prompb.LabelMatcher>)
  {
    forall j :: 0 <= j < |ms| ==> !Blocks(ms[j])
  }

  /** The clause a matcher contributes: a term query, or a regexp query on the revised pattern. */
  function Clause(m: Prompb.LabelMatcher): LeafQuery
    requires !Blocks(m)
  {
    if IsRegex(m.matchType) then RegexpQuery(LabelField(m.name), Regexp.RevisePattern(m.value))
    else TermQuery(LabelField(m.name), m.value)
  }

  /** The matcher as left behind by the loop: RE and NRE carry their revised pattern. */
  function ReviseMatcher(m: Prompb.LabelMatcher): Prompb.LabelMatcher
    requires !Blocks(m)
  {
    if IsRegex(m.matchType) then m.(value := Regexp.RevisePattern(m.value)) else m
  }

  /** The clauses of the matchers of the given polarity, in matcher order. */
  ghost function Clauses(ms: seq<Prompb.LabelMatcher>, positive: bool): seq<LeafQuery>
    requires NoneBlock(ms)
  {
    if |ms| == 0 then []
    else
      var last := ms[|ms| - 1];
      Clauses(ms[..|ms| - 1], positive) + (if IsPositive(last.matchType) == positive then [Clause(last)] else [])
  }

  /** The number of matchers of the given polarity. */
  function Polarity(ms: seq<Prompb.LabelMatcher>, positive: bool): nat
  {
    if |ms| == 0 then 0
    else Polarity(ms[..|ms| - 1], positive) + (if IsPositive(ms[|ms| - 1].matchType) == positive then 1 else 0)
  }

  /** The position of the first matcher that stops the loop, or |ms| when none does. */
  function FirstBlock(ms: seq<Prompb.LabelMatcher>): (b: nat)
    ensures b <= |ms|
    ensures forall j :: 0 <= j < b ==> !Blocks(ms[j])
    ensures b < |ms| ==> Blocks(ms[b])
  {
    if |ms| == 0 then 0
    else if Blocks(ms[0]) then 0
    else 1 + FirstBlock(ms[1..])
  }

  /** The error text: protobuf prints an unnamed enum value as its decimal number. */
  function UnsupportedMessage(code: int): string
  {
    "matcher type " + IntToString(code) + " not match any case"
  }

  /** buildBoolQuery panics: the first matcher that stops it is a regex one whose pattern cannot be revised. */
  ghost predicate Panics(query: Prompb.Query)
  {
    var b := FirstBlock(query.matchers);
    b < |query.matchers| && !query.matchers[b].matchType.Unknown?
  }

  /**
   * What buildBoolQuery returns for a query: the first matcher that stops the
   * loop decides the error or the panic; otherwise every matcher's clause and
   * the timestamp filter.
   */
  ghost function BuildSpec(query: Prompb.Query): BuildOutcome
  {
    var ms := query.matchers;
    var b := FirstBlock(ms);
    if b == |ms| then
      Built(BoolQuery(Clauses(ms, true), Clauses(ms, false), [TimestampFilter(query)]))
    else if ms[b].matchType.Unknown? then
      Failed(UnsupportedMessage(ms[b].matchType.code))
    else
      Panicked(b)
  }

  /** What buildBoolQuery promises: each outcome and the condition on the matchers that leads to it. */
  lemma BuildSpecContract(query: Prompb.Query)
    ensures var r := BuildSpec(query);
      r.Built? <==> NoneBlock(query.matchers)
    ensures var r := BuildSpec(query);
      r.Built? ==>
        && r.query.filter == [TimestampFilter(query)]
        && (forall t :: Admits(r.query.filter[0], t) <==> query.startTimestampMs <= t <= query.endTimestampMs)
        && |r.query.must| + |r.query.mustNot| == |query.matchers|
        && |r.query.must| == Polarity(query.matchers, true)
    ensures var r := BuildSpec(query);
      r.Failed? <==>
        exists j :: 0 <= j < |query.matchers| && query.matchers[j].matchType.Unknown?
          && (forall i :: 0 <= i < j ==> !Blocks(query.matchers[i]))
          && r == Failed(UnsupportedMessage(query.matchers[j].matchType.code))
    ensures var r := BuildSpec(query);
      r.Panicked? ==>
        && r.matcher < |query.matchers|
        && IsRegex(query.matchers[r.matcher].matchType)
        && !Regexp.CanRevise(query.matchers[r.matcher].value)
        && (forall i :: 0 <= i < r.matcher ==> !Blocks(query.matchers[i]))
  {
    var ms := query.matchers;
    if FirstBlock(ms) == |ms| {
      ClauseCount(ms);
      ClausesLength(ms, true);
    }
  }

  /**
   * The loop of buildBoolQuery. The second result is the matcher list as the
   * loop leaves it: Go overwrites each RE/NRE matcher's Value in place with
   * the revised pattern, up to the matcher where the loop stops.
   */
  method BuildBoolQuery(query: Prompb.Query) returns (outcome: BuildOutcome, matchers: seq<Prompb.LabelMatcher>)
    ensures outcome == BuildSpec(query)
    ensures |matchers| == |query.matchers|
    ensures forall j :: 0 <= j < |matchers| ==>
      matchers[j] == if j < FirstBlock(query.matchers) then ReviseMatcher(query.matchers[j]) else query.matchers[j]
  {
    var ms := query.matchers;
    matchers := ms;
    var must: seq<LeafQuery> := [];
    var mustNot: seq<LeafQuery> := [];
    for i := 0 to |ms|
      invariant |matchers| == |ms|
      invariant NoneBlock(ms[..i])
      invariant forall j :: 0 <= j < |matchers| ==> matchers[j] == if j < i then ReviseMatcher(ms[j]) else ms[j]
      invariant must == Clauses(ms[..i], true)
      invariant mustNot == Clauses(ms[..i], false)
    {
      var matcher := matchers[i];
      // The default branch, and RevisePattern's panic, end the loop before anything else changes.
      if Blocks(matcher) {
        StopsAt(query, i);
        if matcher.matchType.Unknown? {
          return Failed(UnsupportedMessage(matcher.matchType.code)), matchers;
        }
        return Panicked(i), matchers;
      }
      ClausesStep(ms, i);
      var revised, clause := AddMatcher(matcher);
      matchers := matchers[i := revised];
      // EQ and RE go to Must, NEQ and NRE to MustNot.
      if IsPositive(matcher.matchType) {
        must := must + [clause];
      } else {
        mustNot := mustNot + [clause];
      }
    }
    assert ms[..|ms|] == ms;
    BuiltWhenNoneBlock(query);
    outcome := Built(BoolQuery(must, mustNot, [TimestampFilter(query)]));
  }

  /** One case of the switch: RE and NRE revise the pattern in place before it is used; the clause follows. */
  method AddMatcher(matcher: Prompb.LabelMatcher) returns (revised: Prompb.LabelMatcher, clause: LeafQuery)
    requires !Blocks(matcher)
    ensures revised == ReviseMatcher(matcher)
    ensures clause == Clause(matcher)
  {
    revised := matcher;
    if IsRegex(matcher.matchType) {
      revised := matcher.(value := Regexp.RevisePattern(matcher.value));
    }
    clause := if IsRegex(revised.matchType) then RegexpQuery(LabelField(revised.name), revised.value)
              else TermQuery(LabelField(revised.name), revised.value);
  }

  lemma StopsAt(query: Prompb.Query, i: nat)
    requires i < |query.matchers| && Blocks(query.matchers[i])
    requires forall j :: 0 <= j < i ==> !Blocks(query.matchers[j])
    ensures FirstBlock(query.matchers) == i
    ensures BuildSpec(query) == if query.matchers[i].matchType.Unknown?
      then Failed(UnsupportedMessage(query.matchers[i].matchType.code)) else Panicked(i)
  {
  }

  lemma BuiltWhenNoneBlock(query: Prompb.Query)
    requires NoneBlock(query.matchers)
    ensures FirstBlock(query.matchers) == |query.matchers|
    ensures BuildSpec(query)
      == Built(BoolQuery(Clauses(query.matchers, true), Clauses(query.matchers, false), [TimestampFilter(query)]))
  {
  }

  lemma ClausesStep(ms: seq<Prompb.LabelMatcher>, i: nat)
    requires i < |ms| && NoneBlock(ms[..i]) && !Blocks(ms[i])
    ensures NoneBlock(ms[..i + 1])
    ensures forall positive :: (Clauses(ms[..i + 1], positive)
      == Clauses(ms[..i], positive) + (if IsPositive(ms[i].matchType) == positive then [Clause(ms[i])] else []))
  {
    assert ms[..i + 1][..i] == ms[..i];
  }

  lemma NoneBlockPrefix(ms: seq<Prompb.LabelMatcher>)
    requires NoneBlock(ms) && |ms| > 0
    ensures NoneBlock(ms[..|ms| - 1])
  {
    var prefix := ms[..|ms| - 1];
    forall j | 0 <= j < |prefix| ensures !Blocks(prefix[j]) {
      assert prefix[j] == ms[j];
    }
  }

  /** Every matcher adds exactly one clause, to Must or to MustNot. */
  lemma {:induction false} ClauseCount(ms: seq<Prompb.LabelMatcher>)
    requires NoneBlock(ms)
    ensures |Clauses(ms, true)| + |Clauses(ms, false)| == |ms|
  {
    if |ms| > 0 {
      NoneBlockPrefix(ms);
      ClauseCount(ms[..|ms| - 1]);
    }
  }

  lemma {:induction false} ClausesLength(ms: seq<Prompb.LabelMatcher>, positive: bool)
    requires NoneBlock(ms)
    ensures |Clauses(ms, positive)| == Polarity(ms, positive)
  {
    if |ms| > 0 {
      NoneBlockPrefix(ms);
      ClausesLength(ms[..|ms| - 1], positive);
    }
  }

  /**
   * Clauses keep matcher order: the clause of matcher j sits in its list
   * right after the clauses of the earlier matchers of the same polarity.
   */
  lemma {:induction false} ClausesAt(ms: seq<Prompb.LabelMatcher>, positive: bool, j: nat)
    requires NoneBlock(ms) && j < |ms| && IsPositive(ms[j].matchType) == positive
    ensures Polarity(ms[..j], positive) < |Clauses(ms, positive)|
    ensures Clauses(ms, positive)[Polarity(ms[..j], positive)] == Clause(ms[j])
  {
    var n := |ms|;
    var prefix := ms[..n - 1];
    NoneBlockPrefix(ms);
    ClausesLength(ms, positive);
    ClausesLength(prefix, positive);
    if j < n - 1 {
      assert prefix[j] == ms[j];
      assert prefix[..j] == ms[..j];
      ClausesAt(prefix, positive, j);
    } else {
      assert ms[..j] == prefix;
    }
  }

  /** Term queries for EQ and NEQ, regexp queries on the revised pattern for RE and NRE, all on labels.<name>.keyword. */
  lemma ClauseKinds(m: Prompb.LabelMatcher)
    requires !Blocks(m)
    ensures Clause(m).field == LabelField(m.name)
    ensures m.matchType.EQ? || m.matchType.NEQ? ==> Clause(m) == TermQuery(LabelField(m.name), m.value)
    ensures IsRegex(m.matchType) ==> Clause(m) == RegexpQuery(LabelField(m.name), Regexp.RevisePattern(m.value))
  {
  }

  // ---------------------------------------------------------------------
  // strconv.Itoa, as used when protobuf prints an unnamed enum value
  // ---------------------------------------------------------------------

  function DigitChar(d: nat): char
    requires d < 10
  {
    ('0' as int + d) as char
  }

  function NatToString(n: nat): string
  {
    if n < 10 then [DigitChar(n)] else NatToString(n / 10) + [DigitChar(n % 10)]
  }

  function IntToString(i: int): string
  {
    if i < 0 then "-" + NatToString(-i) else NatToString(i)
  }

  /** The decimal text of n reads back as n. */
  lemma {:induction false} NatToStringRoundTrip(n: nat)
    ensures Regexp.AllDigits(NatToString(n))
    ensures Regexp.DecimalValue(NatToString(n)) == n
  {
    var s := NatToString(n);
    if n >= 10 {
      NatToStringRoundTrip(n / 10);
      assert s[..|s| - 1] == NatToString(n / 10);
    }
  }

  /** The text of any integer, an unnamed operator code included: a '-' exactly when it is negative, then the decimal digits of its magnitude, which read back as that magnitude. */
  lemma IntToStringRoundTrip(i: int)
    ensures var magnitude := if i < 0 then -i else i;
      var digits := NatToString(magnitude);
      IntToString(i) == (if i < 0 then "-" else "") + digits
      && Regexp.AllDigits(digits) && Regexp.DecimalValue(digits) == magnitude
    ensures |IntToString(i)| > 0 && (IntToString(i)[0] == '-' <==> i < 0)
  {
    var magnitude := if i < 0 then -i else i;
    NatToStringRoundTrip(magnitude);
    assert |NatToString(magnitude)| > 0 && NatToString(magnitude)[0] != '-' by {
      assert Regexp.IsDigit(NatToString(magnitude)[0]);
    }
  }
}
