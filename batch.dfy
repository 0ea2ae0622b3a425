/** Quiz generation: the topic filter of the sidebar and the loop that draws
    `n_items` items, each from the generator of a randomly chosen selected topic. */
module Batch {
  import opened Wrappers
  import opened Items
  import opened Sampling
  import opened Generators

  /** The topics of `topics`, in order, whose label is among `selected`. */
  function SelectTopics(topics: seq<Topic>, selected: seq<string>): (keys: seq<Topic>)
    ensures forall t :: t in keys <==> t in topics && TopicLabel(t) in selected
    ensures Distinct(topics) ==> Distinct(keys)
  {
    if topics == [] then []
    else
      var rest := SelectTopics(topics[1..], selected);
      assert forall t :: t in topics <==> t == topics[0] || t in topics[1..];
      if TopicLabel(topics[0]) in selected then
        assert Distinct(topics) ==> topics[0] !in topics[1..] by {
          if Distinct(topics) {
            forall j | 0 <= j < |topics[1..]| ensures topics[1..][j] != topics[0] {
              assert topics[1..][j] == topics[j + 1];
            }
          }
        }
        assert Distinct(topics) ==> Distinct(topics[1..]) by {
          if Distinct(topics) {
            forall i, j | 0 <= i < j < |topics[1..]| ensures topics[1..][i] != topics[1..][j] {
              assert topics[1..][i] == topics[i + 1] && topics[1..][j] == topics[j + 1];
            }
          }
        }
        var keys := [topics[0]] + rest;
        assert Distinct(topics) ==> Distinct(keys) by {
          if Distinct(topics) {
            forall i, j | 0 <= i < j < |keys| ensures keys[i] != keys[j] {
              if i == 0 {
                assert keys[j] == rest[j - 1] && keys[j] in rest;
              } else {
                assert keys[i] == rest[i - 1] && keys[j] == rest[j - 1];
              }
            }
          }
        }
        keys
      else
        assert Distinct(topics) ==> Distinct(topics[1..]) by {
          if Distinct(topics) {
            forall i, j | 0 <= i < j < |topics[1..]| ensures topics[1..][i] != topics[1..][j] {
              assert topics[1..][i] == topics[i + 1] && topics[1..][j] == topics[j + 1];
            }
          }
        }
        rest
  }

  /** `topic_keys = [k for t, k in TOPICS if t in topics_selected]`. */
  function TopicKeys(selected: seq<string>): (keys: seq<Topic>)
    ensures forall t :: t in keys <==> TopicLabel(t) in selected
    ensures Distinct(keys)
  {
    AllTopicsListed();
    SelectTopics(Topics, selected)
  }

  /** `random.choice([])` raises `IndexError`. */
  datatype GenError = EmptyTopicList

  /** The first `n` draws are possible outcomes of the random module: each
      topic pick indexes `keys`, and the rest suits the picked topic's generator. */
  predicate DrawsFit(keys: seq<Topic>, n: nat, draws: seq<ItemDraw>) {
    n <= |draws|
    && (keys != [] ==>
          forall i :: 0 <= i < n ==>
            draws[i].topicPick < |keys| && Drawable(keys[draws[i].topicPick], draws[i]))
  }

  /** The items generated from `draws`, one per draw, in order. */
  function ItemsFor(keys: seq<Topic>, draws: seq<ItemDraw>): seq<ObjItem>
    requires keys != [] && DrawsFit(keys, |draws|, draws)
  {
    if draws == [] then []
    else
      var last := draws[|draws| - 1];
      ItemsFor(keys, draws[..|draws| - 1]) + [GenerateItem(keys[last.topicPick], last)]
  }

  /** One more draw appends one more item. */
  lemma ItemsForExtend(keys: seq<Topic>, n: nat, draws: seq<ItemDraw>, i: nat)
    requires keys != [] && i < n && DrawsFit(keys, n, draws)
    ensures ItemsFor(keys, draws[..i + 1])
         == ItemsFor(keys, draws[..i]) + [GenerateItem(keys[draws[i].topicPick], draws[i])]
  {
    assert draws[..i + 1][..i] == draws[..i];
  }

  /** The outcome of pressing Generate: the quiz, or the error of an empty topic list. */
  function GeneratedQuiz(keys: seq<Topic>, n: nat, draws: seq<ItemDraw>): Result<seq<ObjItem>, GenError>
    requires DrawsFit(keys, n, draws)
  {
    if n == 0 then Success([])
    else if keys == [] then Failure(EmptyTopicList)
    else Success(ItemsFor(keys, draws[..n]))
  }

  /** Item `i` is what the generator of the topic drawn for it produces from
      its draws; so it belongs to a selected topic and contains its answer. */
  lemma {:induction false} ItemsForSound(keys: seq<Topic>, draws: seq<ItemDraw>)
    requires keys != [] && DrawsFit(keys, |draws|, draws)
    ensures |ItemsFor(keys, draws)| == |draws|
    ensures forall i :: 0 <= i < |draws| ==>
      && ItemsFor(keys, draws)[i] == GenerateItem(keys[draws[i].topicPick], draws[i])
      && ItemsFor(keys, draws)[i].topic in keys
      && WellFormedItem(ItemsFor(keys, draws)[i])
  {
    if draws != [] {
      var init := draws[..|draws| - 1];
      var last := draws[|draws| - 1];
      ItemsForSound(keys, init);
      GenerateItemSound(keys[last.topicPick], last);
      forall i | 0 <= i < |draws|
        ensures ItemsFor(keys, draws)[i] == GenerateItem(keys[draws[i].topicPick], draws[i])
      {
        if i < |draws| - 1 {
          assert draws[i] == init[i];
        }
      }
      forall i | 0 <= i < |draws| - 1
        ensures ItemsFor(keys, draws)[i].topic in keys && WellFormedItem(ItemsFor(keys, draws)[i])
      {
        assert ItemsFor(keys, draws)[i] == ItemsFor(keys, init)[i];
      }
    }
  }

  /** Generation yields exactly `n` well-formed items of selected topics, and
      fails exactly when it must draw from an empty topic list. */
  lemma GeneratedQuizSound(keys: seq<Topic>, n: nat, draws: seq<ItemDraw>)
    requires DrawsFit(keys, n, draws)
    ensures GeneratedQuiz(keys, n, draws).Failure? <==> keys == [] && n > 0
    ensures GeneratedQuiz(keys, n, draws).Success? ==>
      var items := GeneratedQuiz(keys, n, draws).value;
      && |items| == n
      && forall i :: 0 <= i < n ==> items[i].topic in keys && WellFormedItem(items[i])
  {
    if n > 0 && keys != [] {
      ItemsForSound(keys, draws[..n]);
    }
  }

  /** The sidebar's Generate button: `n_items` rounds of `random.choice` and a generator call. */
  method GenerateQuiz(keys: seq<Topic>, n: nat, draws: seq<ItemDraw>) returns (r: Result<seq<ObjItem>, GenError>)
    requires DrawsFit(keys, n, draws)
    ensures r == GeneratedQuiz(keys, n, draws)
  {
    var items: seq<ObjItem> := [];
    var i := 0;
    while i < n
      invariant 0 <= i <= n
      invariant keys == [] ==> i == 0 && items == []
      invariant keys != [] ==> items == ItemsFor(keys, draws[..i])
    {
      if keys == [] {
        return Failure(EmptyTopicList);
      }
      var d := draws[i];
      var item := GenItem(keys[d.topicPick], d);
      ItemsForExtend(keys, n, draws, i);
      items := items + [item];
      i := i + 1;
    }
    return Success(items);
  }
}
