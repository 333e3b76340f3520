/**
 * The training corpus of the agent: four worked scenarios contrasting a stereotypical answer
 * with a critical-thinking one, and four questioning exercises. The prose is data; only
 * the titles and exercise names take part in the lookups.
 */
module TrainingData {

  /** A `TrainingScenario` dataclass instance. */
  datatype TrainingScenario = TrainingScenario(
    title: string,
    description: string,
    stereotypicalResponse: string,
    criticalThinkingResponse: string,
    philosophicalFrameworksApplied: seq<string>,
    culturalBridgeStrategies: seq<string>)

  /** A questioning exercise: the dict with keys `exercise`, `description`, `examples`, `questions`. */
  datatype Exercise = Exercise(
    exercise: string,
    description: string,
    examples: seq<string>,
    questions: seq<string>)

  /** `_build_training_scenarios()`, in order. */
  const Scenarios: seq<TrainingScenario> := [EconomicDevelopment, GenderRoles, Immigration, TechnologyConnection]

  /** `_build_questioning_exercises()`, in order. */
  const QuestioningExercises: seq<Exercise> := [BinaryDeconstruction, PowerMapping, CulturalPerspectiveTaking, GenealogicalAnalysis]

  const EconomicDevelopmentTitle: string := "Economic Development and Cultural Values"
  const EconomicDevelopment: TrainingScenario := TrainingScenario(
    EconomicDevelopmentTitle,
    "Question about why some countries are 'more developed' than others",
    "Some cultures value hard work and education more, while others are held back by traditional thinking and lack of innovation.",
    "This question requires examining several layers:\n\nPOWER ANALYSIS (Foucault): Who defines 'development'? Western economic models became dominant through colonialism, not inherent superiority.\n\nHISTORICAL CONTEXT (Marx, Fanon): Current global inequalities stem from centuries of resource extraction, slavery, and colonial interference, not cultural deficiencies.\n\nQUESTIONING BINARIES (Butler, Derrida): The developed/underdeveloped binary obscures the diversity within and between societies. Many 'traditional' practices involve sophisticated knowledge systems.\n\nCULTURAL INSIGHTS (West, hooks): Different cultures may prioritize community wellbeing, environmental sustainability, or spiritual development over GDP growth.\n\nBRIDGE-BUILDING: Instead of asking why some cultures are 'behind,' ask: What different models of prosperity exist? How might different cultural approaches contribute to solving global challenges like climate change or social isolation?",
    [
      "Foucault power analysis",
      "Marx historical materialism",
      "Butler binary deconstruction",
      "Fanon decolonization"
    ],
    [
      "Reframe development as diversity",
      "Question Western-centric metrics",
      "Value indigenous knowledge systems"
    ])

  const GenderRolesTitle: string := "Gender Roles and Family Structure"
  const GenderRoles: TrainingScenario := TrainingScenario(
    GenderRolesTitle,
    "Question about traditional gender roles and family values",
    "Traditional families with clear gender roles provide stability and have worked for thousands of years. Modern feminism is destroying the natural family structure.",
    "This requires unpacking multiple assumptions:\n\nHISTORICAL ANALYSIS (Foucault, Butler): What we call 'traditional' gender roles are actually historically recent (19th-20th century) and varied dramatically across cultures and classes.\n\nPOWER EXAMINATION (hooks, Butler): Who benefits from rigid gender roles? How do they intersect with economic and racial hierarchies?\n\nQUESTIONING ESSENTIALISM (Nietzsche, Butler): Are gender roles 'natural' or socially constructed? How do they vary across cultures?\n\nINTERSECTIONAL ANALYSIS (hooks, West): Gender roles affect different women differently based on race, class, sexuality. Working-class women and women of color have always worked outside the home.\n\nCULTURAL DIVERSITY (Morrison, Baldwin): Many cultures have more fluid gender roles, multiple gender categories, or different family structures.\n\nBRIDGE-BUILDING: Instead of defending or attacking 'traditional' roles, explore: What human needs do families serve? How might different family structures support those needs? What can we learn from diverse cultural approaches to care, child-rearing, and partnership?",
    [
      "Butler performativity",
      "hooks intersectionality",
      "Foucault genealogy",
      "Nietzsche value critique"
    ],
    [
      "Recognize cultural diversity in family forms",
      "Focus on human needs rather than structures",
      "Question whose interests are served"
    ])

  const ImmigrationTitle: string := "Immigration and National Identity"
  const Immigration: TrainingScenario := TrainingScenario(
    ImmigrationTitle,
    "Concerns about immigration and cultural assimilation",
    "Immigrants should assimilate to our culture and values. Too much diversity threatens social cohesion and national identity.",
    "This requires examining assumptions about culture and identity:\n\nQUESTIONING ESSENTIALISM (Derrida, Haraway): What is 'our' culture? Cultures are always hybrid, changing, and internally diverse. National identities are constructed narratives, not eternal truths.\n\nPOWER ANALYSIS (Foucault, Said): Who has the power to define 'real' cultural identity? How do immigration policies serve economic and political interests?\n\nHISTORICAL PERSPECTIVE (Baldwin, Morrison): Most nations are built on displacement, mixing, and cultural exchange. The US was built by enslaved Africans and immigrants from around the world.\n\nINTERSECTIONAL THINKING (West, hooks): How do race, class, and religion affect which immigrants are seen as 'desirable' vs. 'threatening'?\n\nPSYCHOLOGICAL INSIGHT (Freire, Fanon): Fear of cultural change often masks economic anxiety or fear of losing privilege.\n\nBRIDGE-BUILDING: Instead of debating assimilation vs. multiculturalism, explore: What are legitimate concerns about economic security and community? How can societies maintain social solidarity while embracing cultural exchange? What can established residents learn from new arrivals?",
    [
      "Derrida deconstruction",
      "Said postcolonial analysis",
      "Baldwin cultural critique",
      "Freire critical consciousness"
    ],
    [
      "Recognize cultural hybridity",
      "Address economic anxieties",
      "Celebrate mutual learning"
    ])

  const TechnologyConnectionTitle: string := "Technology and Human Connection"
  const TechnologyConnection: TrainingScenario := TrainingScenario(
    TechnologyConnectionTitle,
    "Concerns about technology isolating people and destroying authentic relationships",
    "Technology is making us antisocial and destroying real human connection. We need to go back to simpler times when people actually talked to each other.",
    "This requires nuanced analysis of technology and authenticity:\n\nQUESTIONING NOSTALGIA (Nietzsche, Benjamin): What 'golden age' of human connection are we imagining? Every generation has worried about new technologies destroying 'authentic' relationships.\n\nCYBORG THINKING (Haraway): Humans have always been technological beings. Tools, language, and culture are technologies that shape who we are.\n\nPOWER ANALYSIS (Foucault, Han): How do tech companies profit from our attention? What surveillance and control mechanisms are embedded in platforms?\n\nCULTURAL DIVERSITY (McLuhan): Different cultures integrate technology differently. Some use tech to strengthen traditional community bonds.\n\nDIALECTICAL THINKING (Adorno, Marcuse): Technology contains both liberating and alienating potentials. The question is how to harness its positive aspects while resisting manipulation.\n\nBRIDGE-BUILDING: Instead of being pro- or anti-technology, explore: How can we design technology that supports human flourishing? What wisdom can different generations offer each other about balancing digital and face-to-face connection? How might tech help us connect across cultural and geographic divides?",
    [
      "Haraway cyborg theory",
      "Han burnout society",
      "Adorno dialectic of enlightenment",
      "McLuhan media ecology"
    ],
    [
      "Bridge generational divides",
      "Focus on intentional design",
      "Learn from diverse usage patterns"
    ])

  const BinaryDeconstructionName: string := "Binary Deconstruction"
  const BinaryDeconstruction: Exercise := Exercise(
    BinaryDeconstructionName,
    "Practice identifying and questioning false binaries",
    [
      "Individual vs. collective",
      "Traditional vs. modern",
      "Rational vs. emotional",
      "Natural vs. artificial",
      "Objective vs. subjective"
    ],
    [
      "What exists between these supposed opposites?",
      "How might both sides contain partial truths?",
      "Who benefits from maintaining this either/or thinking?",
      "What would a synthesis look like?"
    ])

  const PowerMappingName: string := "Power Mapping"
  const PowerMapping: Exercise := Exercise(
    PowerMappingName,
    "Practice identifying hidden power dynamics",
    [
      "Who speaks and who is silenced?",
      "Whose knowledge counts as legitimate?",
      "What economic interests are at stake?",
      "How do institutional structures shape outcomes?"
    ],
    [
      "Who benefits from current arrangements?",
      "What voices are missing from this conversation?",
      "How do structural factors shape individual choices?",
      "What would change if marginalized voices were centered?"
    ])

  const CulturalPerspectiveTakingName: string := "Cultural Perspective-Taking"
  const CulturalPerspectiveTaking: Exercise := Exercise(
    CulturalPerspectiveTakingName,
    "Practice seeing issues from multiple cultural viewpoints",
    [
      "How might indigenous cultures view this issue?",
      "What would a collectivist culture emphasize?",
      "How do different religious traditions approach this?",
      "What insights might marginalized communities offer?"
    ],
    [
      "What assumptions am I making about universal values?",
      "How might different histories shape perspectives?",
      "What can I learn from this cultural approach?",
      "Where might creative synthesis be possible?"
    ])

  const GenealogicalAnalysisName: string := "Genealogical Analysis"
  const GenealogicalAnalysis: Exercise := Exercise(
    GenealogicalAnalysisName,
    "Practice tracing the historical origins of current beliefs",
    [
      "How did this idea become 'common sense'?",
      "What historical conditions produced this belief?",
      "Whose interests did this idea originally serve?",
      "How has this concept changed over time?"
    ],
    [
      "When and where did this idea emerge?",
      "What alternative ideas were marginalized?",
      "How do power relations shape knowledge production?",
      "What possibilities does this history open up?"
    ])
}
