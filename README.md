# Triangle quiz and assessment core, in Dafny

This project models the logic of `main.py`, a single-page Streamlit app used to assess Grade-8 (중학교 2학년) students on triangles. It does not model the page itself. The modelled logic is:

- **The five objective-item generators**: angle sum, exterior angle, triangle types, congruence criteria and AA similarity.
  - Each generator draws numbers, may re-draw in a rejection loop, and builds a stem, a canonical answer and a shuffled list of choices.
  - Every random draw is a parameter.
  - A rejection loop is a method over a sequence of successive draws. It is proved to return the first draw the loop accepts.
  - A `random.shuffle` is a sequence of transpositions applied to the choice list, so any permutation can be expressed.
  - Numbers are turned into text by a model of Python's `str` on integers, `Decimal.IntToString`, whose inverse `Decimal.ParseInt` makes it injective. This is why four different numbers give four different choices.
- **Batch generation**: the Generate button fills a quiz with `n_items` items. Each item comes from the generator of a topic drawn from the selected topics. An empty selection makes `random.choice` raise, which is modelled as `Failure(EmptyTopicList)`.
- **Auto-grading**: the grading loop compares `str(resp)` with the answer string.
  - The widget state is a map from widget key `resp_<item id>` to the chosen string.
  - A missing key reads as `None`, which Python spells `"None"`.
  - The loop accumulates `total` and `max_total` and writes one record per item into the response store, keyed by (student id, item id).
- **The rubric store**: the rubric save button replaces the record at (student id, task id). The displayed total is the unweighted sum of the four criterion levels.
- **The projections**:
  - mastery per (student, topic), as an exact ratio;
  - the rubric table;
  - the per-student item analysis;
  - the composite `sid::iid` snapshot key;
  - the roster header rule that picks the ID and name columns of an uploaded CSV.

The session state (`quiz_items`, `responses`, `rubric_scores`) is modelled by the class `Store.Session`. Its three state-changing buttons are the methods `Generate`, `AutoGrade` and `SaveRubric`. Each is proved against a specification function in `Batch`, `Grading` or `Rubric`, and the properties are proved about those functions.

Modules, one file each:

| module | file | contents |
|---|---|---|
| `Wrappers` | wrappers.dfy | `Option`, `Result` |
| `Decimal` | decimal.dfy | `str(int)` and its inverse |
| `Sampling` | sampling.dfy | rejection sampling and shuffles |
| `Items` | items.dfy | topics, `ObjItem`, `PerfTask` |
| `Generators` | generators.dfy | the five generators and `GEN_FUNCS` |
| `Batch` | batch.dfy | topic selection and quiz generation |
| `Grading` | grading.dfy | auto-grading, item analysis, mastery |
| `Rubric` | rubric.dfy | rubric records, total, store, table |
| `Snapshot` | snapshot.dfy | composite snapshot key |
| `Roster` | roster.dfy | header resolution |
| `Store` | session.dfy | the `Session` class |

Two behaviours of the source are stated as proved facts rather than treated as defects.

1. **Angle-mode labels.** The angle-mode question of the triangle-types item labels a triangle with one given angle `A < 90` as acute (예각삼각형). `Generators.ClassifyAngleAgreement` proves that this label is the triangle's true angle class exactly when `A >= 90`, or when both other angles are below 90. So for `A < 90` the stored answer does not follow from the stem alone.
2. **The last congruence pattern.** The last congruence pattern keys the same stem as ASA or AAS depending on an extra draw (`Generators.CongruenceLastPatternDependsOnDraw`).

## Model

| member | source | states |
|---|---|---|
| Decimal.NatToStringSound | main.py:88-90 | the decimal spelling of a natural number is a non-empty digit string without a leading zero whose value is the number |
| Decimal.IntToStringRoundTrip | main.py:88-90 | `str(i)` parses back to `i` |
| Decimal.IntToString | main.py:88-90 | `str` on an integer: a minus sign for negatives, then the digits; its properties are stated by NatToStringSound, IntToStringRoundTrip and IntToStringInjective |
| Decimal.IntToStringInjective | main.py:90 | different integers have different decimal spellings |
| Sampling.FirstAccepted | main.py:85-87 | the value a rejection loop keeps is accepted and every earlier draw was rejected |
| Sampling.RejectionSample | main.py:85-87 | the loop that re-draws until acceptance returns the first accepted draw |
| Sampling.Shuffle | main.py:91 | a shuffle keeps the length and the multiset of the choices |
| Sampling.SwapKeepsDistinct | main.py:91 | exchanging two positions keeps distinct choices distinct |
| Sampling.ShuffleKeepsDistinct | main.py:91 | a shuffle keeps distinct choices distinct |
| Sampling.ShuffleKeepsMembers | main.py:91 | a shuffle holds exactly the choices it was given |
| Sampling.ShuffledChoices | main.py:90-91 | shuffling distinct choices that hold the answer gives as many distinct choices that still hold it |
| Items.AllTopicsListed | main.py:49-55 | the topic list holds every topic exactly once |
| Generators.NumberIsNotNone | main.py:90 | no numeric answer is spelled "None", so a missing response never matches one |
| Generators.Spellings | main.py:90 | `[str(v) for v in ns]`: one spelling per number |
| Generators.SpellingsParse | main.py:90 | each spelling parses back to its number |
| Generators.SpellingsDistinct | main.py:90 | different numbers give different choice strings |
| Generators.ChoiceItem | main.py:91-94 | an item built from a shuffled list of distinct choices holding the answer is a 2-point MCQ whose choices are a permutation of that list, distinct, and hold its answer |
| Generators.Numerals | main.py:90 | a number and the number moved by three different non-zero offsets spell four distinct strings, the first being the number, each parsing back to its number |
| Generators.NumericItem | main.py:90-94 | a numeric item's answer parses back to its number, is not "None", and is one of four distinct choices that are a permutation of the Numerals |
| Generators.AnglePairSumBound | main.py:82-87 | an accepted pair of multiples of 5 in 20..120 sums to between 40 and 165 |
| Generators.AngleSumItem | main.py:88-95 | after the loop a+b <= 165; the answer parses to c = 180-(a+b), which is at least 15 and completes the triangle; the choices are a permutation of the spellings of c, c+5, c-5, c+10, distinct, and hold the answer |
| Generators.GenAngleSumItem | main.py:80-95 | the generator returns the item built from the first accepted pair |
| Generators.ExteriorDrawBounds | main.py:99-100 | `x` is a multiple of 5 in 100..155 and `a` one in 20..65 |
| Generators.ExteriorAngleItem | main.py:97-110 | the answer parses to b = x-a with 35 <= b <= 135; a and b are the remote interior angles of a triangle with exterior angle x; the choices are a permutation of the spellings of b, b+5, b-10, b+15, distinct, and hold the answer |
| Generators.LabelsDistinct | main.py:127-138 | the labels of each mode's choice list are distinct, the three angle labels differ, and none is "None" |
| Generators.Sort3 | main.py:116 | sorting three sides gives an ascending permutation of them |
| Generators.ClassifySidesByDistinctLengths | main.py:120-125 | sorted sides are labelled 정삼각형, 이등변삼각형 or 부등변삼각형 exactly when they have 1, 2 or 3 distinct lengths |
| Generators.ClassifyAngleAgreement | main.py:130-136 | the angle-mode label is the true angle class of a triangle with angles A, y, z exactly when A >= 90 or both y and z are acute |
| Generators.ClassifySides | main.py:120-125 | the sides classification of `a == b == c`, `a == b or b == c`, else scalene; its meaning is stated by ClassifySidesByDistinctLengths and TriangleTypesBySidesSound |
| Generators.ClassifyAngle | main.py:131-136 | the one-angle classification; its meaning is stated by TriangleTypesByAngle and ClassifyAngleAgreement |
| Generators.TriangleTypesBySides | main.py:115-142 | the sides-mode answer is the classification of the sorted sides, is not "None", and is one of four distinct choices that are a permutation of the sides-mode list |
| Generators.TriangleTypesByAngle | main.py:130-142 | A == 90 gives 직각삼각형, A > 90 gives 둔각삼각형, A < 90 gives 예각삼각형 (each an if-and-only-if); the answer is one of four distinct choices that are a permutation of the angle-mode list |
| Generators.SortedSampleIncreasing | main.py:116 | three distinct sampled lengths sort strictly increasing |
| Generators.TriangleTypesBySidesSound | main.py:115-125 | after the loop the sides satisfy a < b < c and a + b > c, and the answer is always 부등변삼각형 |
| Generators.GenTriangleTypesItem | main.py:112-142 | the generator returns the sides-mode item of the first accepted sample or the angle-mode item |
| Generators.CongruenceChoicesDistinct | main.py:160 | the five congruence choices are distinct |
| Generators.CongruenceAnswer | main.py:148-159 | the answer of each pattern, the last one decided by the extra draw; its meaning is stated by CongruenceAnswerSound and CongruenceLastPatternDependsOnDraw |
| Generators.CongruenceAnswerSound | main.py:146-159 | the answer of each pattern proves what its stem describes (SSS, SAS, AAS for the "ASA" pattern, ASA or AAS for the last), is among the choices, and is neither HL nor "None" |
| Generators.CongruenceItem | main.py:144-163 | the answer is a criterion proving what the stem describes, never HL, and one of five distinct choices that are a permutation of `options[:4] + ["판단 불가"]` |
| Generators.CongruenceLastPatternDependsOnDraw | main.py:157-159 | for the last pattern the same stem is keyed ASA or AAS by the extra draw |
| Generators.SimilarityChoicesDistinct | main.py:169-170 | the four similarity choices are distinct and include 가능(AA) |
| Generators.SimilarityItem | main.py:165-173 | the answer is 가능(AA), not "None", and one of four distinct choices that are a permutation of the listed four |
| Generators.SimilarityAnglesFormTriangle | main.py:167 | the two drawn angles leave a third angle of at least 50, so both triangles exist |
| Generators.GenerateItem | main.py:175-181 | `GEN_FUNCS[t]()` on the draws: the generator of topic t; its properties are stated by GenerateItemSound |
| Generators.GenerateItemSound | main.py:175-181 | `GEN_FUNCS[t]()` returns an item of topic t: a 2-point MCQ whose answer is one of its distinct choices and is not "None" |
| Generators.GenItem | main.py:175-181 | dispatching on the topic runs that topic's generator, and the item is well formed |
| Batch.SelectTopics | main.py:248 | a topic is kept exactly when its label was selected, without duplicates |
| Batch.TopicKeys | main.py:248 | the selected topic keys are exactly the topics whose labels were selected, each once |
| Batch.ItemsFor | main.py:255-258 | the items appended by the loop, one per draw; its properties are stated by ItemsForExtend and ItemsForSound |
| Batch.ItemsForExtend | main.py:255-258 | each iteration appends the item generated from its draw |
| Batch.ItemsForSound | main.py:255-258 | the loop yields one item per draw, each from the generator of a selected topic and well formed |
| Batch.GeneratedQuiz | main.py:253-259 | the quiz, or the error of `random.choice([])`; its properties are stated by GeneratedQuizSound |
| Batch.GeneratedQuizSound | main.py:253-259 | generation fails exactly when no topic is selected and at least one item is asked for; otherwise it gives exactly n items, each of a selected topic, each containing its answer among its choices |
| Batch.GenerateQuiz | main.py:253-259 | the batch loop computes the generated quiz, or the empty-topic error |
| Grading.GradeItem | main.py:321-330 | a record is correct exactly when the response string equals the answer, scores the item's points when correct and 0 otherwise, and copies answer and topic; the response is the widget value at `resp_<item id>`, and a missing response is correct only for the answer "None" |
| Grading.Graded | main.py:328-331 | the store after the loop's writes, in order; its properties are stated by GradedOverrides, GradedFrame, GradedLastWins, GradedIdempotent and GradedConsistent |
| Grading.TotalScore | main.py:319-327 | `total` after the loop; its properties are stated by TotalAtMostMax, AllCorrectFullMarks and FullMarksIffAllCorrect |
| Grading.MaxScore | main.py:319-327 | `max_total` after the loop; related to the total by TotalAtMostMax and FullMarksIffAllCorrect |
| Grading.TotalAtMostMax | main.py:319-331 | the score never exceeds the maximum |
| Grading.AllCorrectFullMarks | main.py:319-331 | when every response is correct, total == max_total |
| Grading.FullMarksIffAllCorrect | main.py:319-331 | with positive points, total == max_total exactly when every response is correct |
| Grading.GradedOverrides | main.py:328-331 | grading overwrites the store with a map whose keys are exactly the (sid, item id) pairs of the quiz |
| Grading.WrittenKeysExtend | main.py:328 | each further item writes one further key |
| Grading.GradedFrame | main.py:328-331 | keys outside (sid, quiz item ids) are untouched |
| Grading.GradedIdempotent | main.py:319-331 | re-grading with unchanged responses yields the same store |
| Grading.GradedLastWins | main.py:328-331 | the record of an item id is the grading of its last occurrence in the quiz |
| Grading.GradedConsistent | main.py:319-331 | grading keeps every stored record consistent with the scoring rule |
| Grading.ItemAnalysis | main.py:337-339 | the analysis rows are exactly the stored records of the chosen student |
| Grading.AnalysisAfterGrading | main.py:319-339 | after grading, the analysis shows every quiz item with the grading of its last occurrence |
| Grading.SubsetNoLarger | main.py:404 | a subset of a finite set is no larger |
| Grading.SubsetOfSameSize | main.py:404 | a subset with as many elements is the whole set |
| Grading.PercentBounds | main.py:405 | a percentage of part over whole lies in [0, 100], and is 100 or 0 exactly when the part is all or none |
| Grading.Mastery | main.py:404-405 | the mastery percentage of a (student, topic) group lies in [0, 100], is 100 exactly when all its records are correct, and is 0 exactly when none is |
| Grading.GroupsExact | main.py:404 | the groups are exactly the (student, topic) pairs with a record |
| Grading.MasteryTable | main.py:401-405 | the table has a row exactly for each (student, topic) group, holding that group's mastery, in [0, 100] |
| Rubric.DisplayedTotal | main.py:389 | the total is the sum of the four levels, reads nothing else of the record (not the task's points), and lies in [4, 16] for slider levels |
| Rubric.LevelSumOfCriteria | main.py:389 | summing over the criteria list adds the four levels |
| Rubric.DisplayedTotalExample | main.py:389 | levels 3, 4, 2, 3 on an 8-point task show a total of 12 |
| Rubric.SaveRecord | main.py:375-379 | the store after one save; its properties are stated by SaveRecordFrame and SaveRecordLastWins |
| Rubric.SaveRecordFrame | main.py:375-379 | a save adds or replaces exactly one key, leaves the other records unchanged, and grows the store by at most one |
| Rubric.SaveRecordLastWins | main.py:375-379 | the last save at a key wins; saving twice with the same inputs equals saving once |
| Rubric.RubricTable | main.py:419-425 | the table has one row per stored (student, task), with one cell per criterion |
| Rubric.RubricTableComplete | main.py:421-425 | for slider-saved records every cell is present, is the record's level for that criterion, and lies in 1..4 |
| Snapshot.CompositeKey | main.py:472-473 | the key `f"{sid}::{iid}"`; its properties are stated by CompositeKeyInjective and CompositeKeyCollides |
| Snapshot.ColonIndexOfKey | main.py:472-473 | in a key built from an id without ':' the first ':' ends the id |
| Snapshot.CompositeKeyInjective | main.py:472-473 | for student ids without ':', the `sid::iid` key determines both parts |
| Snapshot.CompositeKeyCollides | main.py:472-473 | with "::" inside ids, two different pairs give the same key |
| Roster.Lower | main.py:274 | lower-casing keeps the length, leaves no capital, turns each capital into its small letter, and keeps every other character |
| Roster.LookupLower | main.py:274-276 | `cols_lower.get(key)`; its properties are stated by LookupLowerNone, LookupLowerFound and LookupLowerLast |
| Roster.LookupLowerNone | main.py:274-276 | the lookup finds nothing exactly when no column lower-cases to the key |
| Roster.LookupLowerFound | main.py:274-276 | a found column is one of the header's columns and lower-cases to the key |
| Roster.LookupLowerLast | main.py:274-276 | the found column is the last one that lower-cases to the key |
| Roster.IdColumn | main.py:275 | the ID column is the "id" column if any, else the "학번" column, else the first column; it is missing only for an empty header |
| Roster.NameColumn | main.py:276 | the name column is the "이름" column if any, else the "name" column, else the second column; it is missing only when none applies and there are fewer than two columns |
| Roster.SampleHeaderResolves | main.py:220-225 | the sample roster's header ID, 이름 resolves to its own two columns |
| Store.Session.constructor | main.py:227-236 | the session starts with no quiz, no responses and no rubric scores |
| Store.Session.Generate | main.py:253-259 | Generate stores the generated quiz, or leaves the old quiz when no topic is selected |
| Store.Session.AutoGrade | main.py:318-331 | the loop returns total and max_total equal to the sums over the quiz, total <= max_total, and leaves the store equal to the graded store while keeping it consistent |
| Store.Session.SaveRubric | main.py:375-379 | the save replaces the record at (sid, task id) by the levels, notes and task points, and its displayed total lies in [4, 16] |

## Left out

- The Streamlit page is not modelled: widgets, tabs, toasts, layout, the help text and the download buttons. The widget state enters as a map of strings.
- The random module is replaced by parameters: seeding, `randint`, `choice` and `shuffle`. Each draw is a parameter constrained to the range the source draws from.
- Shuffles are modelled on values. `random.shuffle` permutes the list in place; the model returns the permuted sequence, so aliasing of the list is not modelled.
- Sampling.RejectionSample and the generators with loops (Generators.GenAngleSumItem, Generators.GenTriangleTypesItem) assume the accepted draw is among the draws given. This is what `HasAccepted` states. Termination with probability one of an unbounded loop is not modelled.
- The CSV side of the roster is not modelled: `pd.read_csv`, the column rename and selection, and `to_csv`. Only the header rule is modelled.
- Roster.Lower lower-cases ASCII letters only. The keys looked up (id, 학번, 이름, name) are matched the same way by Python's Unicode `str.lower`; the model does not give the lower-cased spelling of other non-ASCII headers.
- The name-to-ID lookup `set_index("이름").loc[...]` is not modelled: it is pandas behaviour with duplicate names. The student id is a parameter.
- Task selection by substring (`p.id in task`) is not modelled; the task is a parameter.
- Grading.Mastery is the exact ratio 100·correct/count. The float mean and `.round(1)` are left out.
- The Altair chart is left out.
- `np.nan` in the rubric table is modelled as `None`.
- Grading.FullMarksIffAllCorrect requires positive point values for the "only if" direction. A 0-point item answered wrongly still gives full marks. Every generated item is worth 2, and Grading.AllCorrectFullMarks states the "if" direction with no requirement.
- Item answers are strings. The source types `answer` as `Any`, but every generator stores a string.
- The NUM and TF widgets are not modelled, because no generator produces those kinds.
- Exports are left out: the CSV exports of responses and rubric scores, `json.dumps` of the session snapshot, and `asdict` of quiz items. Only the composite key is modelled.
- The table order of the item analysis and the rubric table is not modelled. Both are modelled as maps.
- Store.Session.SaveRubric requires the levels to be in the sliders' range 1..4, which is the only input the page can produce.
