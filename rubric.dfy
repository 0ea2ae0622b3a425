/** Rubric scoring of performance tasks: four criteria scored 1-4 by
    sliders, stored per (student, task), summed for display and flattened
    into a table. */
module Rubric {
  import opened Wrappers
  import opened Items

  /** RUBRIC_CRITERIA, in its order. */
  datatype Criterion = Concept | Procedure | Reasoning | Communication

  const Criteria: seq<Criterion> := [Concept, Procedure, Reasoning, Communication]

  /** `{**rubric_levels, "notes": notes, "task_points": task_obj.points}`. */
  datatype RubricRecord = RubricRecord(levels: map<Criterion, int>, notes: string, taskPoints: nat)

  predicate HasAllCriteria(levels: map<Criterion, int>) {
    forall c :: c in Criteria ==> c in levels
  }

  /** Every criterion has a level in the sliders' range 1..4. */
  predicate LevelsInRange(levels: map<Criterion, int>) {
    forall c :: c in Criteria ==> c in levels && 1 <= levels[c] <= 4
  }

  /** `sum(existing[c["key"]] for c in cs)`. */
  function LevelSum(levels: map<Criterion, int>, cs: seq<Criterion>): int
    requires forall c :: c in cs ==> c in levels
  {
    if cs == [] then 0 else levels[cs[0]] + LevelSum(levels, cs[1..])
  }

  /** The "합계(가중치=1)" row: the unweighted sum of the four levels. It
      reads the levels only, never the task's points; with slider levels it
      lies in 4..16. */
  function DisplayedTotal(rec: RubricRecord): (total: int)
    requires HasAllCriteria(rec.levels)
    ensures total == rec.levels[Concept] + rec.levels[Procedure] + rec.levels[Reasoning] + rec.levels[Communication]
    ensures LevelsInRange(rec.levels) ==> 4 <= total <= 16
  {
    LevelSumOfCriteria(rec.levels);
    LevelSum(rec.levels, Criteria)
  }

  lemma LevelSumOfCriteria(levels: map<Criterion, int>)
    requires HasAllCriteria(levels)
    ensures LevelSum(levels, Criteria) == levels[Concept] + levels[Procedure] + levels[Reasoning] + levels[Communication]
  {
    var tail3 := [Communication];
    var tail2 := [Reasoning, Communication];
    var tail1 := [Procedure, Reasoning, Communication];
    assert tail3[1..] == [];
    assert LevelSum(levels, tail3) == levels[Communication];
    assert tail2[1..] == tail3;
    assert LevelSum(levels, tail2) == levels[Reasoning] + levels[Communication];
    assert tail1[1..] == tail2;
    assert Criteria[1..] == tail1;
  }

  /** The scenario of a task worth 8 points scored 3, 4, 2, 3: the total shown is 12. */
  lemma DisplayedTotalExample()
    ensures DisplayedTotal(RubricRecord(map[Concept := 3, Procedure := 4, Reasoning := 2, Communication := 3], "", 8)) == 12
  {
  }

  // ---------------------------------------------------------------------------
  // The rubric store

  type RubricStore = map<(string, string), RubricRecord>

  /** The store after the save button: the record at `(sid, task.id)` replaced. */
  function SaveRecord(scores: RubricStore, sid: string, task: PerfTask, levels: map<Criterion, int>, notes: string): RubricStore {
    scores[(sid, task.id) := RubricRecord(levels, notes, task.points)]
  }

  /** A save touches one key only; the store holds one record per
      (student, task), so it grows by at most one. */
  lemma SaveRecordFrame(scores: RubricStore, sid: string, task: PerfTask, levels: map<Criterion, int>, notes: string)
    ensures var r := SaveRecord(scores, sid, task, levels, notes);
      && r.Keys == scores.Keys + {(sid, task.id)}
      && (forall k :: k in scores && k != (sid, task.id) ==> r[k] == scores[k])
      && |r| == (if (sid, task.id) in scores then |scores| else |scores| + 1)
  {
    var r := SaveRecord(scores, sid, task, levels, notes);
    var k := (sid, task.id);
    if k !in scores {
      assert r.Keys == scores.Keys + {k};
      assert |scores.Keys + {k}| == |scores.Keys| + 1;
    } else {
      assert r.Keys == scores.Keys;
    }
    assert |r| == |r.Keys| && |scores| == |scores.Keys|;
  }

  /** Saving again overwrites: the last save at a key wins, and saving twice
      with the same inputs is the same as saving once. */
  lemma SaveRecordLastWins(scores: RubricStore, sid: string, task: PerfTask,
                           levels1: map<Criterion, int>, notes1: string,
                           levels2: map<Criterion, int>, notes2: string)
    ensures SaveRecord(SaveRecord(scores, sid, task, levels1, notes1), sid, task, levels2, notes2)
         == SaveRecord(scores, sid, task, levels2, notes2)
  {
  }

  /** Every stored record was saved from the four sliders. */
  predicate StoreInRange(scores: RubricStore) {
    forall k :: k in scores ==> LevelsInRange(scores[k].levels)
  }

  // ---------------------------------------------------------------------------
  // The rubric table of the analytics section

  /** `rec.get(c["key"], np.nan)`: `None` stands for the missing-value marker. */
  function LevelCell(levels: map<Criterion, int>, c: Criterion): Option<int> {
    if c in levels then Some(levels[c]) else None
  }

  /** One row per stored (student, task), one cell per criterion in order. */
  function RubricTable(scores: RubricStore): (table: map<(string, string), seq<Option<int>>>)
    ensures table.Keys == scores.Keys
    ensures forall k :: k in table ==> |table[k]| == |Criteria|
  {
    map k | k in scores :: seq(|Criteria|, i requires 0 <= i < |Criteria| => LevelCell(scores[k].levels, Criteria[i]))
  }

  /** For a store of slider-saved records no cell is missing, every cell is
      a level in 1..4, and the cells are the record's levels in criterion order. */
  lemma RubricTableComplete(scores: RubricStore)
    requires StoreInRange(scores)
    ensures forall k, i :: k in RubricTable(scores) && 0 <= i < |Criteria| ==>
      && RubricTable(scores)[k][i] == Some(scores[k].levels[Criteria[i]])
      && 1 <= RubricTable(scores)[k][i].value <= 4
  {
    forall k, i | k in RubricTable(scores) && 0 <= i < |Criteria|
      ensures RubricTable(scores)[k][i] == Some(scores[k].levels[Criteria[i]])
    {
      assert Criteria[i] in Criteria;
      assert LevelsInRange(scores[k].levels);
      assert RubricTable(scores)[k][i] == LevelCell(scores[k].levels, Criteria[i]);
    }
  }
}
