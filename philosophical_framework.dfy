/**
 * The philosophical framework: a table of thinkers, each with core ideas, questioning
 * methods, cultural insights and stereotype challenges, plus the questioning strategies and
 * bridge-building principles the system prompt lists.
 */
module PhilosophicalFramework {
  import opened Wrappers
  import opened Text
  import opened FrameworkData

  /**
   * A `PhilosophicalFramework` instance. Its three attributes are set once by `__init__` and
   * never changed, so the instance is a value; `thinkers` is the dict's items in insertion order.
   */
  datatype Framework = Framework(
    thinkers: seq<(string, Perspective)>,
    questioningStrategies: seq<string>,
    culturalBridgePrinciples: seq<string>)

  /** The framework `__init__` builds. */
  const Default: Framework := Framework(Thinkers, QuestioningStrategies, CulturalBridgePrinciples)

  // ---------------------------------------------------------------- thinker lookup

  /** `d.get(key)` on a dict given by its items. */
  function Lookup<V>(items: seq<(string, V)>, key: string): (r: Option<V>)
    ensures r.Some? <==> exists i :: 0 <= i < |items| && items[i].0 == key
    ensures r.Some? ==> exists i :: 0 <= i < |items| && items[i] == (key, r.value)
  {
    if items == [] then None
    else if items[0].0 == key then Some(items[0].1)
    else
      var r := Lookup(items[1..], key);
      assert r.Some? ==> exists i :: 0 <= i < |items[1..]| && items[1..][i] == (key, r.value);
      assert forall i :: 0 <= i < |items[1..]| ==> items[1..][i] == items[i + 1];
      r
  }

  predicate DistinctKeys<V>(items: seq<(string, V)>) {
    forall i, j :: 0 <= i < j < |items| ==> items[i].0 != items[j].0
  }

  predicate KeysLowercase<V>(items: seq<(string, V)>) {
    forall i :: 0 <= i < |items| ==> IsLowercase(items[i].0)
  }

  /** In a dict every key finds its own entry. */
  lemma {:induction false} LookupOwnKey<V>(items: seq<(string, V)>, i: int)
    requires DistinctKeys(items)
    requires 0 <= i < |items|
    ensures Lookup(items, items[i].0) == Some(items[i].1)
  {
    if i > 0 {
      assert items[1..][i - 1] == items[i];
      LookupOwnKey(items[1..], i - 1);
    }
  }

  /** `get_thinker_perspective`: the entry keyed by the lower-cased name, if any. */
  function GetThinkerPerspective(fw: Framework, thinkerName: string): (r: Option<Perspective>)
    ensures r.Some? <==> exists i :: 0 <= i < |fw.thinkers| && fw.thinkers[i].0 == Lower(thinkerName)
    ensures r.Some? ==> exists i :: 0 <= i < |fw.thinkers| && fw.thinkers[i] == (Lower(thinkerName), r.value)
  {
    Lookup(fw.thinkers, Lower(thinkerName))
  }

  /**
   * With lower-case, distinct keys every thinker is reached by its key written in any case,
   * and a name that lower-cases to no key finds nothing.
   */
  lemma ThinkerReachable(fw: Framework, thinkerName: string, i: int)
    requires KeysLowercase(fw.thinkers) && DistinctKeys(fw.thinkers)
    requires 0 <= i < |fw.thinkers| && Lower(thinkerName) == Lower(fw.thinkers[i].0)
    ensures GetThinkerPerspective(fw, thinkerName) == Some(fw.thinkers[i].1)
  {
    LowerFixedIff(fw.thinkers[i].0);
    LookupOwnKey(fw.thinkers, i);
  }

  /**
   * The shipped table's keys are 18 distinct lower-case names, so (by `ThinkerReachable`)
   * every shipped thinker is found by its name in any case. The statement holds whatever
   * perspectives are paired with the keys.
   */
  lemma ShippedKeysWellFormed(perspectives: seq<Perspective>)
    requires |perspectives| == |ThinkerKeys|
    ensures |ThinkerKeys| == 18
    ensures KeysLowercase(Zip(ThinkerKeys, perspectives)) && DistinctKeys(Zip(ThinkerKeys, perspectives))
  {
    var z := Zip(ThinkerKeys, perspectives);
    ShippedKeysLowercase();
    ShippedKeysDistinct();
    forall i | 0 <= i < |z| ensures IsLowercase(z[i].0) {
      assert z[i].0 == ThinkerKeys[i];
    }
    forall i, j | 0 <= i < j < |z| ensures z[i].0 != z[j].0 {
      assert z[i].0 == ThinkerKeys[i] && z[j].0 == ThinkerKeys[j];
    }
  }

  lemma ShippedKeysLowercase()
    ensures |ThinkerKeys| == 18
    ensures forall i :: 0 <= i < |ThinkerKeys| ==> IsLowercase(ThinkerKeys[i])
  {
    assert ThinkerKeys == ["socrates", "nietzsche", "kierkegaard", "foucault", "butler", "west", "freire", "hooks", "baldwin", "morrison", "haraway", "harari", "adorno", "benjamin", "barthes", "derrida", "deleuze", "todorov"];
  }

  lemma ShippedKeysDistinct()
    ensures forall i, j :: 0 <= i < j < |ThinkerKeys| ==> ThinkerKeys[i] != ThinkerKeys[j]
  {
    var sigs := seq(|ThinkerKeys|, i requires 0 <= i < |ThinkerKeys| => Signature(ThinkerKeys[i]));
    assert sigs == [(8, 's', 's'), (9, 'n', 'e'), (11, 'k', 'd'), (8, 'f', 't'), (6, 'b', 'r'), (4, 'w', 't'), (6, 'f', 'e'), (5, 'h', 's'), (7, 'b', 'n'), (8, 'm', 'n'), (7, 'h', 'y'), (6, 'h', 'i'), (6, 'a', 'o'), (8, 'b', 'n'), (7, 'b', 's'), (7, 'd', 'a'), (7, 'd', 'e'), (7, 't', 'v')];
    forall i, j | 0 <= i < j < |ThinkerKeys| ensures ThinkerKeys[i] != ThinkerKeys[j] {
      assert sigs[i] != sigs[j];
    }
  }

  /** Length, first and last letter: enough to tell the shipped keys apart. */
  function Signature(k: string): (int, char, char) {
    if k == [] then (0, ' ', ' ') else (|k|, k[0], k[|k| - 1])
  }

  // ---------------------------------------------------------------- collectors

  /** The lists `field` picks from the thinkers, concatenated in table order. */
  function Flatten(thinkers: seq<(string, Perspective)>, field: Perspective -> seq<string>): seq<string> {
    if thinkers == [] then []
    else Flatten(thinkers[..|thinkers| - 1], field) + field(thinkers[|thinkers| - 1].1)
  }

  lemma {:induction false} InFlatten(thinkers: seq<(string, Perspective)>, field: Perspective -> seq<string>, x: string)
    ensures x in Flatten(thinkers, field) <==> exists i :: 0 <= i < |thinkers| && x in field(thinkers[i].1)
  {
    if thinkers != [] {
      var init := thinkers[..|thinkers| - 1];
      InFlatten(init, field, x);
      assert forall i :: 0 <= i < |init| ==> init[i] == thinkers[i];
    }
  }

  predicate NoDuplicates(xs: seq<string>) {
    forall i, j :: 0 <= i < j < |xs| ==> xs[i] != xs[j]
  }

  /**
   * `relevant.extend(...)` over every thinker, then `list(set(relevant))`. Python leaves the
   * order of a set unspecified; this one keeps first occurrences, and the contract promises
   * only what any order gives: each item once, and exactly the union of the lists.
   */
  method CollectDistinct(thinkers: seq<(string, Perspective)>, field: Perspective -> seq<string>)
    returns (r: seq<string>)
    ensures NoDuplicates(r)
    ensures forall x :: x in r <==> exists i :: 0 <= i < |thinkers| && x in field(thinkers[i].1)
  {
    var relevant := [];
    for i := 0 to |thinkers|
      invariant relevant == Flatten(thinkers[..i], field)
    {
      assert thinkers[..i + 1][..i] == thinkers[..i];
      relevant := relevant + field(thinkers[i].1);
    }
    assert thinkers[..|thinkers|] == thinkers;
    r := [];
    for j := 0 to |relevant|
      invariant NoDuplicates(r)
      invariant forall x :: x in r <==> x in relevant[..j]
    {
      assert relevant[..j + 1] == relevant[..j] + [relevant[j]];
      if relevant[j] !in r {
        r := r + [relevant[j]];
      }
    }
    assert relevant[..|relevant|] == relevant;
    forall x ensures x in r <==> exists i :: 0 <= i < |thinkers| && x in field(thinkers[i].1) {
      InFlatten(thinkers, field, x);
    }
  }

  /** `get_questioning_methods_for_topic`: every thinker's questioning methods, each once; `topic` is unused. */
  method GetQuestioningMethodsForTopic(fw: Framework, topic: string) returns (r: seq<string>)
    ensures NoDuplicates(r)
    ensures forall x :: x in r <==> exists i :: 0 <= i < |fw.thinkers| && x in fw.thinkers[i].1.questioningMethods
  {
    r := CollectDistinct(fw.thinkers, (p: Perspective) => p.questioningMethods);
  }

  /** `get_cultural_insights_for_topic`: every thinker's cultural insights, each once; `topic` is unused. */
  method GetCulturalInsightsForTopic(fw: Framework, topic: string) returns (r: seq<string>)
    ensures NoDuplicates(r)
    ensures forall x :: x in r <==> exists i :: 0 <= i < |fw.thinkers| && x in fw.thinkers[i].1.culturalInsights
  {
    r := CollectDistinct(fw.thinkers, (p: Perspective) => p.culturalInsights);
  }

  /** `analyze_for_stereotypes`: every thinker's stereotype challenges, each once; `text` is unused. */
  method AnalyzeForStereotypes(fw: Framework, text: string) returns (r: seq<string>)
    ensures NoDuplicates(r)
    ensures forall x :: x in r <==> exists i :: 0 <= i < |fw.thinkers| && x in fw.thinkers[i].1.stereotypeChallenges
  {
    r := CollectDistinct(fw.thinkers, (p: Perspective) => p.stereotypeChallenges);
  }

  // ---------------------------------------------------------------- system prompt

  /** `get_critical_thinking_prompt`. */
  function GetCriticalThinkingPrompt(fw: Framework): string {
    PromptText(PromptIntro, fw.questioningStrategies, PromptPrinciplesHeading,
               fw.culturalBridgePrinciples, PromptOutro)
  }

  /**
   * Fixed prose around one bullet list of strategies and one of principles; an empty line
   * separates the strategies from the principles heading and the principles from the outro.
   */
  function PromptText(intro: string, strategies: seq<string>, heading: string,
                      principles: seq<string>, outro: string): string {
    intro + "\n" + (BulletList(Bullet, strategies) + "\n"
    + ("\n" + heading + "\n" + (BulletList(Bullet, principles) + "\n" + ("\n" + outro))))
  }

  /**
   * Line by line, the prompt is its introduction, one "• " line per questioning strategy in
   * list order, an empty line, the principles heading, one "• " line per principle in list
   * order, an empty line, and the closing instructions.
   */
  lemma PromptLines(intro: string, strategies: seq<string>, heading: string,
                    principles: seq<string>, outro: string)
    requires |strategies| > 0 && |principles| > 0
    requires forall i :: 0 <= i < |strategies| ==> '\n' !in strategies[i]
    requires forall i :: 0 <= i < |principles| ==> '\n' !in principles[i]
    ensures Split(PromptText(intro, strategies, heading, principles, outro), '\n')
         == Split(intro, '\n') + (Bulleted(Bullet, strategies)
          + ([""] + (Split(heading, '\n') + (Bulleted(Bullet, principles) + ([""] + Split(outro, '\n'))))))
  {
    var b1 := BulletList(Bullet, strategies);
    var b2 := BulletList(Bullet, principles);
    BulletListLines(Bullet, strategies);
    BulletListLines(Bullet, principles);
    assert "\n" == ['\n'];
    var x := ['\n'];
    var tail := x + outro;
    assert tail == [] + x + outro;
    SplitConcat([], outro, '\n');
    SplitConcat(b2, tail, '\n');
    var mid := x + heading + x + (b2 + x + tail);
    assert mid == [] + x + (heading + x + (b2 + x + tail));
    SplitConcat(heading, b2 + x + tail, '\n');
    SplitConcat([], heading + x + (b2 + x + tail), '\n');
    SplitConcat(b1, mid, '\n');
    SplitConcat(intro, b1 + x + mid, '\n');
  }

  /**
   * The framework's own prompt: its fixed introduction, its strategies as bullet lines, an
   * empty line, the principles heading, its principles as bullet lines, an empty line and the
   * fixed closing instructions.
   */
  lemma CriticalThinkingPromptLines(fw: Framework)
    requires |fw.questioningStrategies| > 0 && |fw.culturalBridgePrinciples| > 0
    requires forall i :: 0 <= i < |fw.questioningStrategies| ==> '\n' !in fw.questioningStrategies[i]
    requires forall i :: 0 <= i < |fw.culturalBridgePrinciples| ==> '\n' !in fw.culturalBridgePrinciples[i]
    ensures Split(GetCriticalThinkingPrompt(fw), '\n')
         == Split(PromptIntro, '\n') + (Bulleted(Bullet, fw.questioningStrategies)
          + ([""] + (Split(PromptPrinciplesHeading, '\n')
          + (Bulleted(Bullet, fw.culturalBridgePrinciples) + ([""] + Split(PromptOutro, '\n'))))))
  {
    PromptLines(PromptIntro, fw.questioningStrategies, PromptPrinciplesHeading,
                fw.culturalBridgePrinciples, PromptOutro);
  }
}
