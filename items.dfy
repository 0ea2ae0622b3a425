/** The records of the quiz: objective items, the five topics and the
    performance tasks. */
module Items {

  /** The five topics of TOPICS, in that list's order. */
  datatype Topic = AngleSum | ExteriorAngle | TriangleTypes | Congruence | SimilarityBasic

  const Topics: seq<Topic> := [AngleSum, ExteriorAngle, TriangleTypes, Congruence, SimilarityBasic]

  /** TOPICS lists every topic exactly once. */
  lemma AllTopicsListed()
    ensures forall t: Topic :: t in Topics
    ensures forall i, j :: 0 <= i < j < |Topics| ==> Topics[i] != Topics[j]
  {
    forall t: Topic ensures t in Topics {
      match t
      case AngleSum => assert Topics[0] == t;
      case ExteriorAngle => assert Topics[1] == t;
      case TriangleTypes => assert Topics[2] == t;
      case Congruence => assert Topics[3] == t;
      case SimilarityBasic => assert Topics[4] == t;
    }
  }

  /** The label shown in the topic multi-select. */
  function TopicLabel(t: Topic): string {
    match t
    case AngleSum => "각의 합"
    case ExteriorAngle => "외각과 내각"
    case TriangleTypes => "삼각형의 분류"
    case Congruence => "합동조건"
    case SimilarityBasic => "닮음 기초"
  }

  datatype Kind = MCQ | NUM | TF

  /** `ObjItem`; every generator answers with a string, so `answer` is one. */
  datatype ObjItem = ObjItem(
    id: string,
    topic: Topic,
    stem: string,
    choices: seq<string>,
    answer: string,
    kind: Kind,
    points: nat)

  datatype PerfTask = PerfTask(id: string, topic: Topic, prompt: string, points: nat)
}
