/** The session state the app keeps between reruns, and the three buttons
    that change it: Generate, Auto-grade and the rubric save. */
module Store {
  import opened Wrappers
  import opened Items
  import opened Generators
  import opened Batch
  import opened Grading
  import opened Rubric

  class Session {
    /** `st.session_state.quiz_items` */
    var quizItems: seq<ObjItem>
    /** `st.session_state.responses`, keyed by (student id, item id) */
    var responses: map<(string, string), ResponseRecord>
    /** `st.session_state.rubric_scores`, keyed by (student id, task id) */
    var rubricScores: RubricStore

    /** Every stored response record obeys the scoring rule, and every
        rubric record holds four slider levels. */
    predicate Valid()
      reads this
    {
      AllConsistent(responses) && StoreInRange(rubricScores)
    }

    /** The state on first load: no quiz, no responses, no rubric scores. */
    constructor ()
      ensures quizItems == [] && responses == map[] && rubricScores == map[]
      ensures Valid()
    {
      quizItems := [];
      responses := map[];
      rubricScores := map[];
    }

    /** The Generate button: on success the quiz is replaced by the new
        items; when no topic is selected the generation raises and the old
        quiz stays. */
    method Generate(keys: seq<Topic>, n: nat, draws: seq<ItemDraw>) returns (r: Result<seq<ObjItem>, GenError>)
      requires Valid() && DrawsFit(keys, n, draws)
      modifies this`quizItems
      ensures Valid()
      ensures r == GeneratedQuiz(keys, n, draws)
      ensures r.Success? ==> quizItems == r.value
      ensures r.Failure? ==> quizItems == old(quizItems)
    {
      r := GenerateQuiz(keys, n, draws);
      if r.Success? {
        quizItems := r.value;
      }
    }

    /** The Auto-grade button for student `sid`: grades every quiz item
        against the widget state, in order, writing one record per item,
        and returns the score and the maximum. */
    method AutoGrade(sid: string, widgets: map<string, string>) returns (total: nat, maxTotal: nat)
      requires Valid()
      modifies this`responses
      ensures Valid()
      ensures responses == Graded(old(responses), sid, quizItems, widgets)
      ensures total == TotalScore(quizItems, widgets) && maxTotal == MaxScore(quizItems)
      ensures total <= maxTotal
    {
      total := 0;
      maxTotal := 0;
      var i := 0;
      while i < |quizItems|
        invariant 0 <= i <= |quizItems|
        invariant total == TotalScore(quizItems[..i], widgets)
        invariant maxTotal == MaxScore(quizItems[..i])
        invariant responses == Graded(old(responses), sid, quizItems[..i], widgets)
      {
        var item := quizItems[i];
        var resp := Lookup(widgets, WidgetKey(item));
        var correct := Str(resp) == item.answer;
        var score := if correct then item.points else 0;
        maxTotal := maxTotal + item.points;
        total := total + score;
        responses := responses[(sid, item.id) := ResponseRecord(resp, correct, score, item.answer, item.topic)];
        assert ResponseRecord(resp, correct, score, item.answer, item.topic) == GradeItem(item, widgets);
        assert quizItems[..i + 1][..i] == quizItems[..i] && quizItems[..i + 1][i] == item;
        i := i + 1;
      }
      assert quizItems[..i] == quizItems;
      TotalAtMostMax(quizItems, widgets);
      GradedConsistent(old(responses), sid, quizItems, widgets);
    }

    /** The rubric save button: the record for (`sid`, `task`) is replaced
        by the slider levels, the notes and the task's points. */
    method SaveRubric(sid: string, task: PerfTask, levels: map<Criterion, int>, notes: string)
      requires Valid() && LevelsInRange(levels)
      modifies this`rubricScores
      ensures Valid()
      ensures rubricScores == SaveRecord(old(rubricScores), sid, task, levels, notes)
      ensures 4 <= DisplayedTotal(rubricScores[(sid, task.id)]) <= 16
    {
      rubricScores := rubricScores[(sid, task.id) := RubricRecord(levels, notes, task.points)];
    }
  }
}
