/** internal/reporting/recommendation.go: which containers are flagged for log rotation. */
module Recommendation {
  import opened Sums
  import opened Docker
  import opened Tables
  import opened Storage

  datatype Rec = Rec(name: string, image: string, count: int, windowDays: int, triggerCount: int)

  /** The first insight with this name, and the name is not empty. */
  predicate FirstAt(insights: seq<Insight>, i: nat)
    requires i < |insights|
  {
    insights[i].name != "" && forall j :: 0 <= j < i ==> insights[j].name != insights[i].name
  }

  /** ...whose query succeeds and reaches the trigger. answers[i] is the answer to a query at position i. */
  predicate Flagged(insights: seq<Insight>, answers: seq<Option<int>>, trigger: int, i: nat)
    requires i < |insights| == |answers|
  {
    FirstAt(insights, i) && answers[i].Some? && trigger <= answers[i].value
  }

  function ToRec(insight: Insight, count: int, days: int, trigger: int): Rec {
    Rec(insight.name, insight.image, count, days, trigger)
  }

  /** The flagged insights among the first n, in order. */
  function Expected(insights: seq<Insight>, answers: seq<Option<int>>, days: int, trigger: int, n: nat): seq<Rec>
    requires n <= |insights| == |answers|
  {
    if n == 0 then []
    else
      var rest := Expected(insights, answers, days, trigger, n - 1);
      if Flagged(insights, answers, trigger, n - 1)
      then rest + [ToRec(insights[n - 1], answers[n - 1].value, days, trigger)] else rest
  }

  /** Analyze */
  method Analyze(insights: seq<Insight>, answers: seq<Option<int>>, days: int, trigger: int) returns (recs: seq<Rec>)
    requires |answers| == |insights|
    ensures recs == Expected(insights, answers, days, trigger, |insights|)
  {
    var seen: map<string, bool> := map[];
    recs := [];
    for i := 0 to |insights|
      invariant recs == Expected(insights, answers, days, trigger, i)
      invariant forall n :: (n in seen && seen[n]) <==> (n != "" && exists j :: 0 <= j < i && insights[j].name == n)
    {
      var insight := insights[i];
      if insight.name == "" || (insight.name in seen && seen[insight.name]) {
        continue;
      }
      seen := seen[insight.name := true];
      if answers[i].None? {
        continue;
      }
      var count := answers[i].value;
      if count >= trigger {
        recs := recs + [Rec(insight.name, insight.image, count, days, trigger)];
      }
    }
  }

  /** The recommendation at this place was made for the insight at position i. */
  ghost predicate MadeFor(insights: seq<Insight>, answers: seq<Option<int>>, days: int, trigger: int, rec: Rec, i: nat) {
    && i < |insights| == |answers| && Flagged(insights, answers, trigger, i)
    && rec.name != "" && (forall j :: 0 <= j < i ==> insights[j].name != rec.name)
    && answers[i].Some? && trigger <= answers[i].value
    && rec.name == insights[i].name && rec.image == insights[i].image
    && rec.count == answers[i].value && rec.windowDays == days && rec.triggerCount == trigger
  }

  /**
   Exactly the flagged positions, once each and in order: there are strictly increasing
   positions, one per recommendation, and every flagged position is among them.
   */
  lemma {:induction false} ExpectedIsExact(insights: seq<Insight>, answers: seq<Option<int>>, days: int, trigger: int, n: nat)
    returns (at: seq<nat>)
    requires n <= |insights| == |answers|
    ensures var recs := Expected(insights, answers, days, trigger, n);
      && |at| == |recs|
      && (forall k :: 0 <= k < |at| ==> at[k] < n && MadeFor(insights, answers, days, trigger, recs[k], at[k]))
      && (forall k, m :: 0 <= k < m < |at| ==> at[k] < at[m])
      && (forall i :: 0 <= i < n && insights[i].name != "" && answers[i].Some? && trigger <= answers[i].value ==>
            i in at || exists j :: 0 <= j < i && insights[j].name == insights[i].name)
      && (forall i :: 0 <= i < n && Flagged(insights, answers, trigger, i) ==> i in at)
  {
    if n == 0 {
      at := [];
    } else {
      at := ExpectedIsExact(insights, answers, days, trigger, n - 1);
      var rest := at;
      if Flagged(insights, answers, trigger, n - 1) {
        at := rest + [n - 1];
        assert at[|rest|] == n - 1;
      }
      assert rest <= at;
      forall i | 0 <= i < n && Flagged(insights, answers, trigger, i) ensures i in at {
        if i < n - 1 { assert i in rest; }
      }
    }
  }

  /** No name is recommended twice. */
  lemma NamesAreDistinct(insights: seq<Insight>, answers: seq<Option<int>>, days: int, trigger: int, k: nat, m: nat)
    requires |answers| == |insights|
    requires k < m < |Expected(insights, answers, days, trigger, |insights|)|
    ensures Expected(insights, answers, days, trigger, |insights|)[k].name
      != Expected(insights, answers, days, trigger, |insights|)[m].name
  {
    var at := ExpectedIsExact(insights, answers, days, trigger, |insights|);
    assert at[k] < at[m];
    assert FirstAt(insights, at[m]);
  }

  /** The name is among the recommendations. */
  ghost predicate Recommended(recs: seq<Rec>, name: string) {
    exists k :: 0 <= k < |recs| && recs[k].name == name
  }

  /** Some insight bears the name. */
  ghost predicate Listed(insights: seq<Insight>, name: string) {
    exists i :: 0 <= i < |insights| && insights[i].name == name
  }

  /** The one query that Analyze makes for this name, at its first insight, succeeds. */
  ghost predicate Asked(insights: seq<Insight>, answers: seq<Option<int>>, name: string)
    requires |answers| == |insights|
  {
    exists i :: 0 <= i < |insights| && FirstAt(insights, i) && insights[i].name == name && answers[i].Some?
  }

  /** The queries for this name that succeed are answered from these tables. */
  ghost predicate Truthful(db: Db, now: int, days: int, insights: seq<Insight>, answers: seq<Option<int>>, name: string) {
    |answers| == |insights| &&
    forall i :: 0 <= i < |answers| && insights[i].name == name && answers[i].Some? ==>
      answers[i].value == CleanupCount(db, name, now, days)
  }

  /** Every query is answered from these tables, but for the ones that fail. */
  ghost predicate AnsweredUnless(db: Db, now: int, days: int, insights: seq<Insight>, answers: seq<Option<int>>, fails: nat -> bool) {
    |answers| == |insights| &&
    forall i: nat :: i < |answers| ==>
      answers[i] == if fails(i) then None else Some(CleanupCount(db, insights[i].name, now, days))
  }

  /** No query fails. */
  ghost predicate AnsweredFrom(db: Db, now: int, days: int, insights: seq<Insight>, answers: seq<Option<int>>) {
    AnsweredUnless(db, now, days, insights, answers, (i: nat) => false)
  }

  function TruncatedHit(name: string, now: int, days: int): CleanRow -> int {
    (c: CleanRow) => if c.name == name && c.wasTruncated && Recent(c.at, now, days) then 1 else 0
  }

  lemma {:induction false} FirstWith(insights: seq<Insight>, i: nat) returns (j: nat)
    requires i < |insights| && insights[i].name != ""
    ensures j <= i && insights[j].name == insights[i].name && FirstAt(insights, j)
    decreases i
  {
    if FirstAt(insights, i) {
      j := i;
    } else {
      var k: nat :| k < i && insights[k].name == insights[i].name;
      j := FirstWith(insights, k);
    }
  }

  /** When no query fails, the names asked about are the listed ones, the empty name apart. */
  lemma ListedIsAsked(db: Db, now: int, days: int, insights: seq<Insight>, answers: seq<Option<int>>, name: string)
    requires AnsweredFrom(db, now, days, insights, answers)
    ensures Truthful(db, now, days, insights, answers, name)
    ensures Asked(insights, answers, name) <==> name != "" && Listed(insights, name)
  {
    if name != "" && Listed(insights, name) {
      var i :| 0 <= i < |insights| && insights[i].name == name;
      var j := FirstWith(insights, i);
      assert answers[j].Some?;
    }
  }

  /**
   For every name whatsoever: it is recommended exactly when its query was made and answered
   and its recent rows, truncated or not, reach the trigger.
   */
  lemma RecommendedExactly(db: Db, now: int, days: int, trigger: int, insights: seq<Insight>,
                           answers: seq<Option<int>>, name: string)
    requires Truthful(db, now, days, insights, answers, name)
    ensures Recommended(Expected(insights, answers, days, trigger, |insights|), name)
      <==> Asked(insights, answers, name) && trigger <= CleanupCount(db, name, now, days)
  {
    var recs := Expected(insights, answers, days, trigger, |insights|);
    var at := ExpectedIsExact(insights, answers, days, trigger, |insights|);
    if Asked(insights, answers, name) && trigger <= CleanupCount(db, name, now, days) {
      var j :| 0 <= j < |insights| && FirstAt(insights, j) && insights[j].name == name && answers[j].Some?;
      assert Flagged(insights, answers, trigger, j);
      var k :| 0 <= k < |at| && at[k] == j;
      assert MadeFor(insights, answers, days, trigger, recs[k], at[k]);
    }
    if Recommended(recs, name) {
      var k :| 0 <= k < |recs| && recs[k].name == name;
      assert MadeFor(insights, answers, days, trigger, recs[k], at[k]);
      assert FirstAt(insights, at[k]) && insights[at[k]].name == name;
    }
  }

  /** So a name with that many truncated rows of its own in the window is recommended, if its query is made and answered. */
  lemma OftenTruncatedIsRecommended(db: Db, now: int, days: int, trigger: int, insights: seq<Insight>,
                                    answers: seq<Option<int>>, name: string)
    requires Truthful(db, now, days, insights, answers, name) && Asked(insights, answers, name)
    requires trigger <= Sum(db.cleans, TruncatedHit(name, now, days))
    ensures Recommended(Expected(insights, answers, days, trigger, |insights|), name)
  {
    SumLe(db.cleans, db.cleans, TruncatedHit(name, now, days), Hit(name, now, days));
    RecommendedExactly(db, now, days, trigger, insights, answers, name);
  }
}
