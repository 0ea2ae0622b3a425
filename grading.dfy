/** Auto-grading of the objective quiz and the mastery projection over the
    stored response records. A response is correct exactly when its string
    equals the item's answer; there is no numeric normalisation. */
module Grading {
  import opened Wrappers
  import opened Items

  /** The record stored at `responses[(student_id, item_id)]`. */
  datatype ResponseRecord = ResponseRecord(
    response: Option<string>,
    correct: bool,
    score: nat,
    answer: string,
    topic: Topic)

  /** Python's `str(resp)`: an absent response is `None`, spelled "None". */
  function Str(resp: Option<string>): string {
    match resp
    case None => "None"
    case Some(s) => s
  }

  /** The widget key `f"resp_{item.id}"` the response is read from. */
  function WidgetKey(item: ObjItem): string {
    "resp_" + item.id
  }

  /** `st.session_state.get(key)`. */
  function Lookup(widgets: map<string, string>, key: string): Option<string> {
    if key in widgets then Some(widgets[key]) else None
  }

  /** A record keeps the scoring rule: correct exactly on a string match,
      and no points unless correct. */
  predicate Consistent(rec: ResponseRecord) {
    && (rec.correct <==> Str(rec.response) == rec.answer)
    && (!rec.correct ==> rec.score == 0)
  }

  /** One pass of the grading loop's body for `item`. */
  function GradeItem(item: ObjItem, widgets: map<string, string>): (rec: ResponseRecord)
    ensures rec.response == Lookup(widgets, WidgetKey(item))
    ensures Consistent(rec)
    ensures rec.answer == item.answer && rec.topic == item.topic
    ensures rec.correct ==> rec.score == item.points
    ensures rec.response.None? ==> (rec.correct <==> item.answer == "None")
  {
    var resp := Lookup(widgets, WidgetKey(item));
    var correct := Str(resp) == item.answer;
    ResponseRecord(resp, correct, if correct then item.points else 0, item.answer, item.topic)
  }

  /** The response map after grading `items` for `sid`, in order, starting from `m`. */
  function Graded(m: map<(string, string), ResponseRecord>, sid: string, items: seq<ObjItem>,
                  widgets: map<string, string>): map<(string, string), ResponseRecord>
  {
    if items == [] then m
    else
      var last := items[|items| - 1];
      Graded(m, sid, items[..|items| - 1], widgets)[(sid, last.id) := GradeItem(last, widgets)]
  }

  /** `total` after the loop: the points of the items answered correctly. */
  function TotalScore(items: seq<ObjItem>, widgets: map<string, string>): nat {
    if items == [] then 0
    else TotalScore(items[..|items| - 1], widgets) + GradeItem(items[|items| - 1], widgets).score
  }

  /** `max_total` after the loop: the points of all items. */
  function MaxScore(items: seq<ObjItem>): nat {
    if items == [] then 0 else MaxScore(items[..|items| - 1]) + items[|items| - 1].points
  }

  predicate AnsweredCorrectly(item: ObjItem, widgets: map<string, string>) {
    Str(Lookup(widgets, WidgetKey(item))) == item.answer
  }

  /** The score never exceeds the maximum. */
  lemma {:induction false} TotalAtMostMax(items: seq<ObjItem>, widgets: map<string, string>)
    ensures TotalScore(items, widgets) <= MaxScore(items)
  {
    if items != [] {
      TotalAtMostMax(items[..|items| - 1], widgets);
    }
  }

  /** Every item answered correctly gives full marks, whatever the points. */
  lemma {:induction false} AllCorrectFullMarks(items: seq<ObjItem>, widgets: map<string, string>)
    requires forall i :: 0 <= i < |items| ==> AnsweredCorrectly(items[i], widgets)
    ensures TotalScore(items, widgets) == MaxScore(items)
  {
    if items != [] {
      var init := items[..|items| - 1];
      assert forall i :: 0 <= i < |init| ==> init[i] == items[i];
      assert AnsweredCorrectly(items[|items| - 1], widgets);
      AllCorrectFullMarks(init, widgets);
    }
  }

  /** With positive point values, full marks are reached exactly when every
      item is answered correctly. */
  lemma {:induction false} FullMarksIffAllCorrect(items: seq<ObjItem>, widgets: map<string, string>)
    requires forall i :: 0 <= i < |items| ==> items[i].points > 0
    ensures TotalScore(items, widgets) == MaxScore(items)
        <==> forall i :: 0 <= i < |items| ==> AnsweredCorrectly(items[i], widgets)
  {
    if items != [] {
      var init := items[..|items| - 1];
      var last := items[|items| - 1];
      FullMarksIffAllCorrect(init, widgets);
      TotalAtMostMax(init, widgets);
      assert forall i :: 0 <= i < |init| ==> init[i] == items[i];
      if forall i :: 0 <= i < |items| ==> AnsweredCorrectly(items[i], widgets) {
        assert AnsweredCorrectly(last, widgets);
      }
    }
  }

  /** The keys one grading run writes. */
  function WrittenKeys(sid: string, items: seq<ObjItem>): set<(string, string)> {
    set i | 0 <= i < |items| :: (sid, items[i].id)
  }

  /** Grading overwrites exactly the keys `(sid, item.id)` with records that
      depend on the items and the widgets only: the result is the old map
      overridden by the records of a run from an empty map. */
  lemma {:induction false} GradedOverrides(m: map<(string, string), ResponseRecord>, sid: string,
                                           items: seq<ObjItem>, widgets: map<string, string>)
    ensures Graded(m, sid, items, widgets) == m + Graded(map[], sid, items, widgets)
    ensures Graded(map[], sid, items, widgets).Keys == WrittenKeys(sid, items)
  {
    if items != [] {
      var init := items[..|items| - 1];
      var last := items[|items| - 1];
      GradedOverrides(m, sid, init, widgets);
      var w := Graded(map[], sid, init, widgets);
      var k := (sid, last.id);
      var v := GradeItem(last, widgets);
      assert (m + w)[k := v] == m + w[k := v];
      WrittenKeysExtend(sid, items);
    }
  }

  /** One more item writes one more key. */
  lemma WrittenKeysExtend(sid: string, items: seq<ObjItem>)
    requires items != []
    ensures WrittenKeys(sid, items) == WrittenKeys(sid, items[..|items| - 1]) + {(sid, items[|items| - 1].id)}
  {
    var init := items[..|items| - 1];
    forall key | key in WrittenKeys(sid, items)
      ensures key in WrittenKeys(sid, init) + {(sid, items[|items| - 1].id)}
    {
      var i :| 0 <= i < |items| && key == (sid, items[i].id);
      if i < |init| {
        assert init[i] == items[i];
      }
    }
    forall key | key in WrittenKeys(sid, init) ensures key in WrittenKeys(sid, items) {
      var i :| 0 <= i < |init| && key == (sid, init[i].id);
      assert items[i] == init[i];
    }
  }

  /** Keys other than `(sid, item.id)` keep their records. */
  lemma GradedFrame(m: map<(string, string), ResponseRecord>, sid: string, items: seq<ObjItem>,
                    widgets: map<string, string>, k: (string, string))
    requires k !in WrittenKeys(sid, items)
    ensures k in Graded(m, sid, items, widgets) <==> k in m
    ensures k in m ==> Graded(m, sid, items, widgets)[k] == m[k]
  {
    GradedOverrides(m, sid, items, widgets);
  }

  /** Grading a second time with unchanged responses changes nothing. */
  lemma GradedIdempotent(m: map<(string, string), ResponseRecord>, sid: string, items: seq<ObjItem>,
                         widgets: map<string, string>)
    ensures Graded(Graded(m, sid, items, widgets), sid, items, widgets) == Graded(m, sid, items, widgets)
  {
    var w := Graded(map[], sid, items, widgets);
    GradedOverrides(m, sid, items, widgets);
    GradedOverrides(m + w, sid, items, widgets);
    assert (m + w) + w == m + w;
  }

  /** Last write wins: the record at `(sid, items[j].id)` is that of the last
      item `j` with that id. */
  lemma {:induction false} GradedLastWins(m: map<(string, string), ResponseRecord>, sid: string,
                                          items: seq<ObjItem>, widgets: map<string, string>, j: nat)
    requires j < |items|
    requires forall l :: j < l < |items| ==> items[l].id != items[j].id
    ensures (sid, items[j].id) in Graded(m, sid, items, widgets)
    ensures Graded(m, sid, items, widgets)[(sid, items[j].id)] == GradeItem(items[j], widgets)
  {
    var init := items[..|items| - 1];
    if j < |items| - 1 {
      assert items[|items| - 1].id != items[j].id;
      assert init[j] == items[j];
      GradedLastWins(m, sid, init, widgets, j);
    }
  }

  /** The item-analysis table for student `sid`: the stored records whose
      key names `sid`, by item id. */
  function ItemAnalysis(responses: map<(string, string), ResponseRecord>, sid: string): (rows: map<string, ResponseRecord>)
    ensures forall iid :: iid in rows <==> (sid, iid) in responses
    ensures forall iid :: iid in rows ==> rows[iid] == responses[(sid, iid)]
  {
    map k | k in responses && k.0 == sid :: k.1 := responses[k]
  }

  /** After grading `sid`, the analysis shows every quiz item with the record
      of its last occurrence in the quiz. */
  lemma AnalysisAfterGrading(m: map<(string, string), ResponseRecord>, sid: string,
                             items: seq<ObjItem>, widgets: map<string, string>, j: nat)
    requires j < |items|
    requires forall l :: j < l < |items| ==> items[l].id != items[j].id
    ensures items[j].id in ItemAnalysis(Graded(m, sid, items, widgets), sid)
    ensures ItemAnalysis(Graded(m, sid, items, widgets), sid)[items[j].id] == GradeItem(items[j], widgets)
  {
    GradedLastWins(m, sid, items, widgets, j);
  }

  predicate AllConsistent(responses: map<(string, string), ResponseRecord>) {
    forall k :: k in responses ==> Consistent(responses[k])
  }

  /** Every record grading writes follows the scoring rule. */
  lemma {:induction false} GradedConsistent(m: map<(string, string), ResponseRecord>, sid: string,
                                            items: seq<ObjItem>, widgets: map<string, string>)
    requires AllConsistent(m)
    ensures AllConsistent(Graded(m, sid, items, widgets))
  {
    if items != [] {
      GradedConsistent(m, sid, items[..|items| - 1], widgets);
    }
  }

  // ---------------------------------------------------------------------------
  // Mastery: mean correctness per (student, topic), as a percentage

  /** The records of student `sid` on topic `topic`. */
  function GroupKeys(responses: map<(string, string), ResponseRecord>, sid: string, topic: Topic): set<(string, string)> {
    set k | k in responses && k.0 == sid && responses[k].topic == topic
  }

  function CorrectKeys(responses: map<(string, string), ResponseRecord>, sid: string, topic: Topic): set<(string, string)> {
    set k | k in responses && k.0 == sid && responses[k].topic == topic && responses[k].correct
  }

  /** A subset is no larger than its superset. */
  lemma {:induction false} SubsetNoLarger<T>(a: set<T>, b: set<T>)
    requires a <= b
    ensures |a| <= |b|
    decreases |a|
  {
    if a != {} {
      var x :| x in a;
      SubsetNoLarger(a - {x}, b - {x});
    }
  }

  /** A subset as large as its superset is the superset. */
  lemma SubsetOfSameSize<T>(a: set<T>, b: set<T>)
    requires a <= b && |a| == |b|
    ensures a == b
  {
    if a != b {
      var x :| x in b && x !in a;
      SubsetNoLarger(a, b - {x});
    }
  }

  /** `groupby(["학생ID", "topic"])['correct'].mean() * 100`, exactly: it is
      100 when every such record is correct and 0 when none is. */
  function Mastery(responses: map<(string, string), ResponseRecord>, sid: string, topic: Topic): (p: real)
    requires GroupKeys(responses, sid, topic) != {}
    ensures 0.0 <= p <= 100.0
    ensures p == 100.0 <==> forall k :: k in GroupKeys(responses, sid, topic) ==> responses[k].correct
    ensures p == 0.0 <==> forall k :: k in GroupKeys(responses, sid, topic) ==> !responses[k].correct
  {
    var group := GroupKeys(responses, sid, topic);
    var right := CorrectKeys(responses, sid, topic);
    assert right <= group;
    SubsetNoLarger(right, group);
    var c, n := |right| as real, |group| as real;
    assert right == {} <==> forall k :: k in group ==> !responses[k].correct by {
      if right != {} {
        var k :| k in right;
        assert k in group && responses[k].correct;
      }
      if exists k :: k in group && responses[k].correct {
        var k :| k in group && responses[k].correct;
        assert k in right;
      }
    }
    assert c == n <==> right == group by {
      if c == n {
        SubsetOfSameSize(right, group);
      }
    }
    assert c == 0.0 <==> right == {};
    PercentBounds(c, n);
    100.0 * c / n
  }

  /** The percentage of `c` out of `n` lies in [0, 100], at the ends exactly
      when `c` is none or all of `n`. */
  lemma PercentBounds(c: real, n: real)
    requires 0.0 <= c <= n && n > 0.0
    ensures 0.0 <= 100.0 * c / n <= 100.0
    ensures 100.0 * c / n == 100.0 <==> c == n
    ensures 100.0 * c / n == 0.0 <==> c == 0.0
  {
    var p := 100.0 * c / n;
    assert p * n == 100.0 * c;
    assert p >= 0.0;
    assert 100.0 * c <= 100.0 * n;
    if c == n {
      assert 100.0 * c / n == 100.0 * n / n;
    }
    if p == 100.0 {
      assert 100.0 * n == 100.0 * c;
    }
  }

  /** The pairs `(student, topic)` for which some record exists: the groups of `groupby`. */
  function Groups(responses: map<(string, string), ResponseRecord>): set<(string, Topic)> {
    set k | k in responses :: (k.0, responses[k].topic)
  }

  /** A group exists exactly when the student has a record on the topic. */
  lemma GroupsExact(responses: map<(string, string), ResponseRecord>)
    ensures forall g: (string, Topic) :: g in Groups(responses) <==> GroupKeys(responses, g.0, g.1) != {}
  {
    forall g: (string, Topic) | g in Groups(responses) ensures GroupKeys(responses, g.0, g.1) != {} {
      var k :| k in responses && g == (k.0, responses[k].topic);
      assert k in GroupKeys(responses, g.0, g.1);
    }
    forall g: (string, Topic) | GroupKeys(responses, g.0, g.1) != {} ensures g in Groups(responses) {
      var k :| k in GroupKeys(responses, g.0, g.1);
      assert g == (k.0, responses[k].topic);
    }
  }

  /** The mastery table: one row per group, each a percentage. */
  function MasteryTable(responses: map<(string, string), ResponseRecord>): (table: map<(string, Topic), real>)
    ensures forall g: (string, Topic) :: g in table <==> GroupKeys(responses, g.0, g.1) != {}
    ensures forall g :: g in table ==> table[g] == Mastery(responses, g.0, g.1)
    ensures forall g :: g in table ==> 0.0 <= table[g] <= 100.0
  {
    GroupsExact(responses);
    map g | g in Groups(responses) :: Mastery(responses, g.0, g.1)
  }
}
