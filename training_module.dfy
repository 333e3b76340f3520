/**
 * `AgentTrainingModule`: first-match lookups over the training scenarios (by title words
 * found in the topic) and the questioning exercises (by name, ignoring case).
 */
module Training {
  import opened Wrappers
  import opened Text
  import opened TrainingData

  /** The module's two lists, set once by `__init__`. */
  datatype AgentTrainingModule = AgentTrainingModule(
    scenarios: seq<TrainingScenario>,
    questioningExercises: seq<Exercise>)

  /** `AgentTrainingModule()`: the shipped scenarios and exercises. */
  const Default: AgentTrainingModule := AgentTrainingModule(Scenarios, QuestioningExercises)


  // ---------------------------------------------------------------- get_training_scenario

  /** `[word.lower() for word in title.split()]`. */
  function TitleKeywords(title: string): seq<string> {
    seq(|Words(title)|, i requires 0 <= i < |Words(title)| => Lower(Words(title)[i]))
  }

  /** Some lowercased title word occurs in the lowercased topic. */
  predicate Relevant(topicLower: string, scenario: TrainingScenario) {
    ContainsAny(topicLower, TitleKeywords(scenario.title))
  }

  /** The `for ... return scenario` loop: the first relevant scenario, if any. */
  function FirstRelevant(scenarios: seq<TrainingScenario>, topicLower: string): (r: Option<TrainingScenario>)
    ensures r.Some? ==> r.value in scenarios && Relevant(topicLower, r.value)
    ensures r.None? <==> forall i :: 0 <= i < |scenarios| ==> !Relevant(topicLower, scenarios[i])
    ensures forall i :: 0 <= i < |scenarios| && Relevant(topicLower, scenarios[i])
                     && (forall j :: 0 <= j < i ==> !Relevant(topicLower, scenarios[j]))
                     ==> r == Some(scenarios[i])
  {
    if scenarios == [] then None
    else if Relevant(topicLower, scenarios[0]) then Some(scenarios[0])
    else
      var r := FirstRelevant(scenarios[1..], topicLower);
      assert forall i :: 1 <= i < |scenarios| ==> scenarios[i] == scenarios[1..][i - 1];
      r
  }

  /**
   * `get_training_scenario`: the first scenario with a title word in the topic (both
   * lowercased); otherwise the first scenario; `None` only when there is none.
   */
  function GetTrainingScenario(m: AgentTrainingModule, topic: string): (r: Option<TrainingScenario>)
    ensures r.None? <==> m.scenarios == []
    ensures r.Some? ==> r.value in m.scenarios
    ensures forall i :: 0 <= i < |m.scenarios| && Relevant(Lower(topic), m.scenarios[i])
                     && (forall j :: 0 <= j < i ==> !Relevant(Lower(topic), m.scenarios[j]))
                     ==> r == Some(m.scenarios[i])
    ensures (forall i :: 0 <= i < |m.scenarios| ==> !Relevant(Lower(topic), m.scenarios[i])) && m.scenarios != []
            ==> r == Some(m.scenarios[0])
  {
    var topicLower := Lower(topic);
    match FirstRelevant(m.scenarios, topicLower)
    case Some(s) => Some(s)
    case None => if m.scenarios != [] then Some(m.scenarios[0]) else None
  }

  /** The third word of `a b c rest` is `c`. */
  lemma ThirdWord(a: string, b: string, c: string, rest: string)
    requires a != [] && NoSpace(a) && b != [] && NoSpace(b) && c != [] && NoSpace(c)
    ensures |Words(a + " " + (b + " " + (c + " " + rest)))| > 2
    ensures Words(a + " " + (b + " " + (c + " " + rest)))[2] == c
  {
    WordsCons(a, b + " " + (c + " " + rest));
    WordsCons(b, c + " " + rest);
    WordsCons(c, rest);
  }

  lemma EconomicTitleShape()
    ensures EconomicDevelopmentTitle == "Economic" + " " + ("Development" + " " + ("and" + " " + "Cultural Values"))
  {
    assert EconomicDevelopmentTitle == "Economic Development and Cultural Values";
    assert "Economic Development and Cultural Values"
        == "Economic" + " " + ("Development" + " " + ("and" + " " + "Cultural Values"));
  }

  lemma EconomicTitleWords()
    ensures NoSpace("Economic") && NoSpace("Development") && NoSpace("and") && Lower("and") == "and"
  {
  }

  /** "and" is one of the first scenario's title keywords. */
  lemma AndIsKeyword()
    ensures "and" in TitleKeywords(EconomicDevelopmentTitle)
  {
    EconomicTitleShape();
    EconomicTitleWords();
    ThirdWord("Economic", "Development", "and", "Cultural Values");
    assert TitleKeywords(EconomicDevelopmentTitle)[2] == Lower("and");
  }

  /**
   * Whenever the economic-development scenario comes first, as it does in `Default`, any
   * topic containing "and" (in any case) gets it, whatever else the topic is about.
   */
  lemma AndTopicsGetFirstScenario(m: AgentTrainingModule, topic: string)
    requires m.scenarios != [] && m.scenarios[0].title == EconomicDevelopmentTitle
    requires Contains(Lower(topic), "and")
    ensures GetTrainingScenario(m, topic) == Some(m.scenarios[0])
  {
    AndIsKeyword();
    assert Relevant(Lower(topic), m.scenarios[0]);
  }

  // ---------------------------------------------------------------- get_questioning_exercise

  /** `get_questioning_exercise`: the first exercise named `exerciseType` ignoring case; otherwise the first. */
  function GetQuestioningExercise(m: AgentTrainingModule, exerciseType: string): (r: Option<Exercise>)
    ensures r.None? <==> m.questioningExercises == []
    ensures r.Some? ==> r.value in m.questioningExercises
    ensures forall i :: 0 <= i < |m.questioningExercises|
                     && Lower(m.questioningExercises[i].exercise) == Lower(exerciseType)
                     && (forall j :: 0 <= j < i ==> Lower(m.questioningExercises[j].exercise) != Lower(exerciseType))
                     ==> r == Some(m.questioningExercises[i])
    ensures (forall i :: 0 <= i < |m.questioningExercises| ==> Lower(m.questioningExercises[i].exercise) != Lower(exerciseType))
            && m.questioningExercises != []
            ==> r == Some(m.questioningExercises[0])
  {
    match FirstNamed(m.questioningExercises, Lower(exerciseType))
    case Some(e) => Some(e)
    case None => if m.questioningExercises != [] then Some(m.questioningExercises[0]) else None
  }

  /** The first exercise whose lowercased name is `nameLower`. */
  function FirstNamed(exercises: seq<Exercise>, nameLower: string): (r: Option<Exercise>)
    ensures r.Some? ==> r.value in exercises && Lower(r.value.exercise) == nameLower
    ensures r.None? <==> forall i :: 0 <= i < |exercises| ==> Lower(exercises[i].exercise) != nameLower
    ensures forall i :: 0 <= i < |exercises| && Lower(exercises[i].exercise) == nameLower
                     && (forall j :: 0 <= j < i ==> Lower(exercises[j].exercise) != nameLower)
                     ==> r == Some(exercises[i])
  {
    if exercises == [] then None
    else if Lower(exercises[0].exercise) == nameLower then Some(exercises[0])
    else
      var r := FirstNamed(exercises[1..], nameLower);
      assert forall i :: 1 <= i < |exercises| ==> exercises[i] == exercises[1..][i - 1];
      r
  }

  /** Names differing only in case select the same exercise. */
  lemma ExerciseCaseInsensitive(m: AgentTrainingModule, t1: string, t2: string)
    requires Lower(t1) == Lower(t2)
    ensures GetQuestioningExercise(m, t1) == GetQuestioningExercise(m, t2)
  {
  }

  /**
   * When the lowercased names are distinct, asking for an exercise by its own name, in any
   * case, returns that exercise.
   */
  lemma ExerciseByName(m: AgentTrainingModule, i: int, exerciseType: string)
    requires forall j, k :: 0 <= j < k < |m.questioningExercises| ==>
               Lower(m.questioningExercises[j].exercise) != Lower(m.questioningExercises[k].exercise)
    requires 0 <= i < |m.questioningExercises| && Lower(exerciseType) == Lower(m.questioningExercises[i].exercise)
    ensures GetQuestioningExercise(m, exerciseType) == Some(m.questioningExercises[i])
  {
  }
}
