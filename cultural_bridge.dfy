/**
 * The cultural bridge builder: a stereotype analyser over a table of regular expressions,
 * fixed alternative framings, and the text builders that assemble the philosophical inquiry
 * appended to every user query and the bridge-building analysis of a topic.
 */
module CulturalBridge {
  import opened Wrappers
  import opened Text
  import PF = PhilosophicalFramework
  import FrameworkData

  /** A `Dict[str, List[str]]`, as its items in insertion order. */
  type Table = seq<(string, seq<string>)>

  /**
   * The regular-expression engine: `matches(pattern, text)` holds when
   * `re.search(pattern, text, re.IGNORECASE)` finds a match.
   */
  type Matcher = (string, string) -> bool

  /**
   * A `CulturalBridgeBuilder`. Its attributes are set once by `__init__` and never changed,
   * so the instance is a value.
   */
  datatype BridgeBuilder = BridgeBuilder(
    framework: PF.Framework,
    stereotypePatterns: Table,
    culturalBridgeStrategies: Table)

  /** The builder `__init__` makes. */
  const Default: BridgeBuilder := BridgeBuilder(PF.Default, StereotypePatterns, BridgeStrategies)

  // ---------------------------------------------------------------- tables

  /** `_build_stereotype_patterns()`. */
  const StereotypePatterns: Table := [
    ("cultural_essentialism", [
      "\\b(all|most) .+ (people|cultures?) (are|do|have)",
      ".+ (people|culture) is (inherently|naturally|typically)",
      "they (always|never|tend to)",
      "their nature is",
      "(naturally|inherently) (good|bad|better|worse) at"]),
    ("binary_thinking", [
      "(civilized|advanced|modern|developed) (vs|versus) (savage|primitive|backward|traditional)",
      "(rational|logical) (vs|versus) (emotional|irrational)",
      "(individual|western) (vs|versus) (collective|eastern)",
      "(superior|better) to (traditional|indigenous)"]),
    ("deficit_framing", [
      "(lacks?|missing|without) (technology|advancement|development)",
      "(underdeveloped|behind|backward)",
      "needs? to (catch up|modernize|advance)",
      "(primitive|outdated) (culture|practices|thinking)"]),
    ("power_blindness", [
      "(color.?blind|post.?racial)",
      "(merit.?based|equal opportunity)",
      "level playing field",
      "pull themselves up"])
  ]

  /** `_build_bridge_strategies()`. */
  const BridgeStrategies: Table := [
    ("perspective_taking", [
      "Consider how this looks from [other culture's] perspective",
      "What assumptions are embedded in this viewpoint?",
      "How might historical context shape this cultural practice?",
      "What knowledge systems inform this approach?"]),
    ("common_ground", [
      "What human concerns are shared across cultures here?",
      "How do different cultures address similar challenges?",
      "What can we learn from this cultural approach?",
      "Where might creative synthesis be possible?"]),
    ("power_analysis", [
      "Who has the power to define 'normal' in this context?",
      "How do historical power relations affect this interaction?",
      "Whose voices are centered vs. marginalized here?",
      "What structural factors shape these cultural differences?"]),
    ("complexity_embrace", [
      "How is this culture internally diverse?",
      "What tensions exist within this cultural group?",
      "How are traditions being reinterpreted by new generations?",
      "What hybrid forms are emerging from cultural contact?"])
  ]

  /** The suggestion blocks of `suggest_alternative_framings`, in the order its tests run. */
  const FramingBlocks: Table := [
    ("cultural_essentialism", EssentialismFramings),
    ("binary_thinking", BinaryFramings),
    ("deficit_framing", DeficitFramings),
    ("power_blindness", PowerFramings)
  ]

  const BinaryFramings: seq<string> := [
    "Question the binary: What exists between these supposed opposites?",
    "Consider: How might both approaches have value in different contexts?",
    "Explore: What would a synthesis of these approaches look like?",
    "Ask: Who benefits from maintaining this either/or framing?"
  ]

  const DeficitFramings: seq<string> := [
    "Reframe as difference rather than deficit: What does this culture excel at?",
    "Ask: What knowledge or skills does this approach cultivate?",
    "Consider: How might this be adaptive to particular environmental/social conditions?",
    "Explore: What can dominant cultures learn from this approach?"
  ]

  const PowerFramings: seq<string> := [
    "Acknowledge structural inequalities: How do power differences affect this situation?",
    "Consider historical context: What legacy effects are still operating?",
    "Examine institutional barriers: What systemic factors create disparate outcomes?",
    "Ask: How do current policies and practices perpetuate or challenge inequalities?"
  ]

  const EssentialismFramings: seq<string> := [
    "Consider: 'Some people in [culture] tend to...' rather than 'All [culture] people are...'",
    "Ask: What historical and structural factors might influence these patterns?",
    "Frame: 'In certain contexts, [cultural practice] serves the function of...'",
    "Explore: How do individuals within this culture vary in their practices?"
  ]

  // ---------------------------------------------------------------- dict helpers

  /** `key in d`. */
  predicate HasKey(t: Table, key: string) {
    exists i :: 0 <= i < |t| && t[i].0 == key
  }

  /** `pattern_type.replace('_', ' ').title()`. */
  function Label(key: string): string {
    Title(ReplaceChar(key, '_', ' '))
  }

  // ---------------------------------------------------------------- analyze_for_stereotypes

  /** The patterns of one category that match the text, in table order. */
  function Matching(patterns: seq<string>, text: string, matches: Matcher): (r: seq<string>)
    ensures |r| <= |patterns|
    ensures forall p :: p in r <==> p in patterns && matches(p, text)
  {
    if patterns == [] then []
    else
      var init, last := patterns[..|patterns| - 1], patterns[|patterns| - 1];
      assert patterns == init + [last];
      Matching(init, text, matches) + (if matches(last, text) then [last] else [])
  }

  /** The categories with at least one matching pattern, each with its matching patterns. */
  function Analysis(table: Table, text: string, matches: Matcher): (r: Table)
    ensures |r| <= |table|
  {
    if table == [] then []
    else
      var init, last := table[..|table| - 1], table[|table| - 1];
      var found := Matching(last.1, text, matches);
      Analysis(init, text, matches) + (if found != [] then [(last.0, found)] else [])
  }

  /** Every reported category is a category of the table, reported with its (non-empty) matching patterns. */
  lemma {:induction false} AnalysisSound(table: Table, text: string, matches: Matcher, i: int)
    requires 0 <= i < |Analysis(table, text, matches)|
    ensures Analysis(table, text, matches)[i].1 != []
    ensures exists j :: 0 <= j < |table| && Analysis(table, text, matches)[i] == (table[j].0, Matching(table[j].1, text, matches))
  {
    var init, last := table[..|table| - 1], table[|table| - 1];
    var a := Analysis(init, text, matches);
    if i < |a| {
      AnalysisSound(init, text, matches, i);
      var j :| 0 <= j < |init| && a[i] == (init[j].0, Matching(init[j].1, text, matches));
      assert init[j] == table[j];
    } else {
      assert Analysis(table, text, matches)[i] == (table[|table| - 1].0, Matching(last.1, text, matches));
    }
  }

  /** Every category with a matching pattern is reported, with its matching patterns. */
  lemma {:induction false} AnalysisComplete(table: Table, text: string, matches: Matcher, j: int)
    requires 0 <= j < |table| && Matching(table[j].1, text, matches) != []
    ensures (table[j].0, Matching(table[j].1, text, matches)) in Analysis(table, text, matches)
  {
    var init := table[..|table| - 1];
    if j < |init| {
      assert init[j] == table[j];
      AnalysisComplete(init, text, matches, j);
    }
  }

  /** The positions in `patterns` of the patterns that match, in list order. */
  ghost function MatchingPositions(patterns: seq<string>, text: string, matches: Matcher): seq<int> {
    if patterns == [] then []
    else
      MatchingPositions(patterns[..|patterns| - 1], text, matches)
      + (if matches(patterns[|patterns| - 1], text) then [|patterns| - 1] else [])
  }

  /** Positions form a selection of a list of `n` items when they are in range and strictly increasing. */
  ghost predicate Selection(idx: seq<int>, n: int) {
    (forall k :: 0 <= k < |idx| ==> 0 <= idx[k] < n)
    && forall k, l :: 0 <= k < l < |idx| ==> idx[k] < idx[l]
  }

  /**
   * `Matching` is the in-order filter of the pattern list: it holds, in list order, the
   * patterns at exactly the positions whose pattern matches, so a pattern listed twice is
   * reported twice.
   */
  lemma MatchingInOrder(patterns: seq<string>, text: string, matches: Matcher)
    ensures Selection(MatchingPositions(patterns, text, matches), |patterns|)
    ensures |MatchingPositions(patterns, text, matches)| == |Matching(patterns, text, matches)|
    ensures forall k :: 0 <= k < |MatchingPositions(patterns, text, matches)| ==>
              Matching(patterns, text, matches)[k] == patterns[MatchingPositions(patterns, text, matches)[k]]
    ensures forall j :: 0 <= j < |patterns| ==>
              (j in MatchingPositions(patterns, text, matches) <==> matches(patterns[j], text))
  {
    MatchingPositionsSelect(patterns, text, matches);
    MatchingPositionsPick(patterns, text, matches);
    MatchingPositionsExact(patterns, text, matches);
  }

  lemma {:induction false} MatchingPositionsSelect(patterns: seq<string>, text: string, matches: Matcher)
    ensures Selection(MatchingPositions(patterns, text, matches), |patterns|)
    ensures |MatchingPositions(patterns, text, matches)| == |Matching(patterns, text, matches)|
  {
    if patterns != [] {
      MatchingPositionsSelect(patterns[..|patterns| - 1], text, matches);
    }
  }

  lemma {:induction false} MatchingPositionsPick(patterns: seq<string>, text: string, matches: Matcher)
    ensures forall k :: 0 <= k < |MatchingPositions(patterns, text, matches)| ==>
              0 <= MatchingPositions(patterns, text, matches)[k] < |patterns|
              && k < |Matching(patterns, text, matches)|
              && Matching(patterns, text, matches)[k] == patterns[MatchingPositions(patterns, text, matches)[k]]
  {
    if patterns != [] {
      var init, last := patterns[..|patterns| - 1], patterns[|patterns| - 1];
      MatchingPositionsPick(init, text, matches);
      MatchingPositionsSelect(init, text, matches);
      var i0, r0 := MatchingPositions(init, text, matches), Matching(init, text, matches);
      var idx, r := MatchingPositions(patterns, text, matches), Matching(patterns, text, matches);
      assert idx == i0 + (if matches(last, text) then [|patterns| - 1] else []);
      assert r == r0 + (if matches(last, text) then [last] else []);
      forall k | 0 <= k < |idx|
        ensures 0 <= idx[k] < |patterns| && k < |r| && r[k] == patterns[idx[k]]
      {
        if k < |i0| {
          assert idx[k] == i0[k] && r[k] == r0[k] && init[i0[k]] == patterns[i0[k]];
        }
      }
    }
  }

  lemma {:induction false} MatchingPositionsExact(patterns: seq<string>, text: string, matches: Matcher)
    ensures forall j :: 0 <= j < |patterns| ==>
              (j in MatchingPositions(patterns, text, matches) <==> matches(patterns[j], text))
  {
    if patterns != [] {
      var init, last := patterns[..|patterns| - 1], patterns[|patterns| - 1];
      MatchingPositionsExact(init, text, matches);
      MatchingPositionsSelect(init, text, matches);
      var i0 := MatchingPositions(init, text, matches);
      var idx := MatchingPositions(patterns, text, matches);
      assert idx == i0 + (if matches(last, text) then [|patterns| - 1] else []);
      forall j | 0 <= j < |patterns| ensures j in idx <==> matches(patterns[j], text) {
        if j < |init| {
          assert init[j] == patterns[j];
        } else {
          assert |patterns| - 1 !in i0;
        }
      }
    }
  }

  /** The positions in `table` of the categories with a matching pattern, in table order. */
  ghost function AnalysisPositions(table: Table, text: string, matches: Matcher): seq<int> {
    if table == [] then []
    else
      AnalysisPositions(table[..|table| - 1], text, matches)
      + (if Matching(table[|table| - 1].1, text, matches) != [] then [|table| - 1] else [])
  }

  /**
   * The analysis lists, in table order, exactly the categories with a matching pattern, each
   * with its matching patterns; in particular its keys are those categories' keys, in table order.
   */
  lemma AnalysisInOrder(table: Table, text: string, matches: Matcher)
    ensures Selection(AnalysisPositions(table, text, matches), |table|)
    ensures |AnalysisPositions(table, text, matches)| == |Analysis(table, text, matches)|
    ensures forall k :: 0 <= k < |AnalysisPositions(table, text, matches)| ==>
              Analysis(table, text, matches)[k]
              == (table[AnalysisPositions(table, text, matches)[k]].0,
                  Matching(table[AnalysisPositions(table, text, matches)[k]].1, text, matches))
    ensures forall j :: 0 <= j < |table| ==>
              (j in AnalysisPositions(table, text, matches) <==> Matching(table[j].1, text, matches) != [])
  {
    AnalysisPositionsSelect(table, text, matches);
    AnalysisPositionsPick(table, text, matches);
    AnalysisPositionsExact(table, text, matches);
  }

  lemma {:induction false} AnalysisPositionsSelect(table: Table, text: string, matches: Matcher)
    ensures Selection(AnalysisPositions(table, text, matches), |table|)
    ensures |AnalysisPositions(table, text, matches)| == |Analysis(table, text, matches)|
  {
    if table != [] {
      AnalysisPositionsSelect(table[..|table| - 1], text, matches);
    }
  }

  lemma {:induction false} AnalysisPositionsPick(table: Table, text: string, matches: Matcher)
    ensures forall k :: 0 <= k < |AnalysisPositions(table, text, matches)| ==>
              0 <= AnalysisPositions(table, text, matches)[k] < |table|
              && k < |Analysis(table, text, matches)|
              && Analysis(table, text, matches)[k]
                 == (table[AnalysisPositions(table, text, matches)[k]].0,
                     Matching(table[AnalysisPositions(table, text, matches)[k]].1, text, matches))
  {
    if table != [] {
      var init, last := table[..|table| - 1], table[|table| - 1];
      AnalysisPositionsPick(init, text, matches);
      AnalysisPositionsSelect(init, text, matches);
      var found := Matching(last.1, text, matches);
      var i0, r0 := AnalysisPositions(init, text, matches), Analysis(init, text, matches);
      var idx, r := AnalysisPositions(table, text, matches), Analysis(table, text, matches);
      assert idx == i0 + (if found != [] then [|table| - 1] else []);
      assert r == r0 + (if found != [] then [(last.0, found)] else []);
      forall k | 0 <= k < |idx|
        ensures 0 <= idx[k] < |table| && k < |r| && r[k] == (table[idx[k]].0, Matching(table[idx[k]].1, text, matches))
      {
        if k < |i0| {
          assert idx[k] == i0[k] && r[k] == r0[k] && init[i0[k]] == table[i0[k]];
        }
      }
    }
  }

  lemma {:induction false} AnalysisPositionsExact(table: Table, text: string, matches: Matcher)
    ensures forall j :: 0 <= j < |table| ==>
              (j in AnalysisPositions(table, text, matches) <==> Matching(table[j].1, text, matches) != [])
  {
    if table != [] {
      var init, last := table[..|table| - 1], table[|table| - 1];
      AnalysisPositionsExact(init, text, matches);
      AnalysisPositionsSelect(init, text, matches);
      var i0 := AnalysisPositions(init, text, matches);
      var idx := AnalysisPositions(table, text, matches);
      assert idx == i0 + (if Matching(last.1, text, matches) != [] then [|table| - 1] else []);
      assert |table| - 1 !in i0;
      forall j | 0 <= j < |init| ensures j in idx <==> Matching(table[j].1, text, matches) != [] {
        assert init[j] == table[j];
        assert j in idx <==> j in i0;
      }
      assert |table| - 1 in idx <==> Matching(last.1, text, matches) != [];
    }
  }

  /** `analyze_for_stereotypes`: the nested loops over the categories and their patterns. */
  method AnalyzeForStereotypes(b: BridgeBuilder, text: string, matches: Matcher) returns (identified: Table)
    requires PF.DistinctKeys(b.stereotypePatterns)
    ensures identified == Analysis(b.stereotypePatterns, text, matches)
  {
    var table := b.stereotypePatterns;
    identified := [];
    for i := 0 to |table|
      invariant identified == Analysis(table[..i], text, matches)
    {
      var patternType, patterns := table[i].0, table[i].1;
      var found := [];
      for j := 0 to |patterns|
        invariant found == Matching(patterns[..j], text, matches)
      {
        assert patterns[..j + 1][..j] == patterns[..j];
        assert Matching(patterns[..j + 1], text, matches)
            == found + (if matches(patterns[j], text) then [patterns[j]] else []);
        if matches(patterns[j], text) {
          found := found + [patterns[j]];
        }
      }
      assert patterns[..|patterns|] == patterns;
      assert table[..i + 1][..i] == table[..i];
      assert Analysis(table[..i + 1], text, matches)
          == identified + (if found != [] then [(patternType, found)] else []);
      if found != [] {
        // the keys are distinct, so `identified_patterns[pattern_type] = matches` adds an entry
        identified := identified + [(patternType, found)];
      }
    }
    assert table[..|table|] == table;
  }

  /** A category is reported exactly when one of its patterns matches the text. */
  lemma AnalysisKeyIff(table: Table, text: string, matches: Matcher, key: string)
    ensures HasKey(Analysis(table, text, matches), key)
        <==> exists j, p :: 0 <= j < |table| && table[j].0 == key && p in table[j].1 && matches(p, text)
  {
    var r := Analysis(table, text, matches);
    if HasKey(r, key) {
      var i :| 0 <= i < |r| && r[i].0 == key;
      AnalysisSound(table, text, matches, i);
      var j :| 0 <= j < |table| && r[i] == (table[j].0, Matching(table[j].1, text, matches));
      assert r[i].1[0] in Matching(table[j].1, text, matches);
    }
    if exists j, p :: 0 <= j < |table| && table[j].0 == key && p in table[j].1 && matches(p, text) {
      var j, p :| 0 <= j < |table| && table[j].0 == key && p in table[j].1 && matches(p, text);
      assert p in Matching(table[j].1, text, matches);
      AnalysisComplete(table, text, matches, j);
      var i :| 0 <= i < |r| && r[i] == (table[j].0, Matching(table[j].1, text, matches));
    }
  }

  /** Under distinct keys, the list reported for a category is exactly its matching patterns. */
  lemma AnalysisValue(table: Table, text: string, matches: Matcher, i: int, j: int)
    requires PF.DistinctKeys(table)
    requires 0 <= i < |Analysis(table, text, matches)| && 0 <= j < |table|
    requires Analysis(table, text, matches)[i].0 == table[j].0
    ensures Analysis(table, text, matches)[i].1 == Matching(table[j].1, text, matches)
  {
    AnalysisSound(table, text, matches, i);
  }

  // ---------------------------------------------------------------- suggest_alternative_framings

  /** The suggestions of every block whose key was identified, block by block. */
  function Suggestions(blocks: Table, identified: Table): seq<string> {
    if blocks == [] then []
    else BlockSuggestions(blocks[0], identified) + Suggestions(blocks[1..], identified)
  }

  /** Every suggestion comes from the block of an identified key. */
  lemma {:induction false} SuggestionsSound(blocks: Table, identified: Table)
    ensures forall s :: s in Suggestions(blocks, identified) ==>
              exists i :: 0 <= i < |blocks| && HasKey(identified, blocks[i].0) && s in blocks[i].1
  {
    if blocks != [] {
      SuggestionsSound(blocks[1..], identified);
      forall s | s in Suggestions(blocks[1..], identified)
        ensures exists i :: 0 <= i < |blocks| && HasKey(identified, blocks[i].0) && s in blocks[i].1
      {
        var i :| 0 <= i < |blocks[1..]| && HasKey(identified, blocks[1..][i].0) && s in blocks[1..][i].1;
        assert blocks[1..][i] == blocks[i + 1];
      }
    }
  }

  /**
   * The suggestions depend only on which keys were identified: not on their order, not on
   * the patterns stored under them, and not on keys no block tests.
   */
  lemma {:induction false} SuggestionsKeysOnly(blocks: Table, t1: Table, t2: Table)
    requires forall i :: 0 <= i < |blocks| ==> (HasKey(t1, blocks[i].0) <==> HasKey(t2, blocks[i].0))
    ensures Suggestions(blocks, t1) == Suggestions(blocks, t2)
  {
    if blocks != [] {
      SuggestionsKeysOnly(blocks[1..], t1, t2);
    }
  }

  /** The suggestions `suggest_alternative_framings` returns for an analysis. */
  function Framings(identified: Table): seq<string> {
    Suggestions(FramingBlocks, identified)
  }

  /** `suggest_alternative_framings`: one `extend` per recognised key, in a fixed order; `text` is unused. */
  method SuggestAlternativeFramings(text: string, identified: Table) returns (suggestions: seq<string>)
    ensures suggestions == Framings(identified)
  {
    ghost var b := FramingBlocks;
    suggestions := [];
    if HasKey(identified, "cultural_essentialism") {
      suggestions := suggestions + EssentialismFramings;
    }
    assert suggestions == BlockSuggestions(b[0], identified);
    if HasKey(identified, "binary_thinking") {
      suggestions := suggestions + BinaryFramings;
    }
    assert suggestions == BlockSuggestions(b[0], identified) + BlockSuggestions(b[1], identified);
    if HasKey(identified, "deficit_framing") {
      suggestions := suggestions + DeficitFramings;
    }
    assert suggestions == BlockSuggestions(b[0], identified) + BlockSuggestions(b[1], identified)
                        + BlockSuggestions(b[2], identified);
    if HasKey(identified, "power_blindness") {
      suggestions := suggestions + PowerFramings;
    }
    SuggestionsOfFour(b, identified);
  }

  /** The suggestions of one block: its lines when its key was identified. */
  function BlockSuggestions(block: (string, seq<string>), identified: Table): seq<string> {
    if HasKey(identified, block.0) then block.1 else []
  }

  /** `Suggestions` over four blocks is their suggestions one block after another. */
  lemma SuggestionsOfFour(b: Table, identified: Table)
    requires |b| == 4
    ensures Suggestions(b, identified)
         == BlockSuggestions(b[0], identified) + BlockSuggestions(b[1], identified)
          + BlockSuggestions(b[2], identified) + BlockSuggestions(b[3], identified)
  {
    var s1, s2, s3 := b[1..], b[1..][1..], b[1..][1..][1..];
    assert s3[1..] == [] && s3[0] == b[3] && s2[0] == b[2] && s1[0] == b[1];
    var x0, x1 := BlockSuggestions(b[0], identified), BlockSuggestions(b[1], identified);
    var x2, x3 := BlockSuggestions(b[2], identified), BlockSuggestions(b[3], identified);
    assert Suggestions(s3, identified) == x3;
    assert Suggestions(s2, identified) == x2 + x3;
    assert Suggestions(s1, identified) == x1 + (x2 + x3);
    assert Suggestions(b, identified) == x0 + (x1 + (x2 + x3));
  }

  /**
   * The essentialism framings come first when that category was identified; there is no
   * suggestion exactly when no category with framings was identified; every suggestion
   * belongs to an identified category.
   */
  lemma FramingsShape(identified: Table)
    ensures var r := Framings(identified);
            && (HasKey(identified, "cultural_essentialism") ==> |r| >= 4 && r[..4] == EssentialismFramings)
            && (r == [] <==> forall i :: 0 <= i < |FramingBlocks| ==> !HasKey(identified, FramingBlocks[i].0))
            && forall s :: s in r ==>
                 exists i :: 0 <= i < |FramingBlocks| && HasKey(identified, FramingBlocks[i].0) && s in FramingBlocks[i].1
  {
    SuggestionsEmptyIff(FramingBlocks, identified);
    SuggestionsSound(FramingBlocks, identified);
  }

  lemma {:induction false} SuggestionsEmptyIff(blocks: Table, identified: Table)
    requires forall i :: 0 <= i < |blocks| ==> blocks[i].1 != []
    ensures Suggestions(blocks, identified) == [] <==> forall i :: 0 <= i < |blocks| ==> !HasKey(identified, blocks[i].0)
  {
    if blocks != [] {
      SuggestionsEmptyIff(blocks[1..], identified);
      assert forall i :: 1 <= i < |blocks| ==> blocks[i] == blocks[1..][i - 1];
    }
  }

  /** Four suggestions per recognised key: the count is four times the number of keys found. */
  lemma FramingsCount(identified: Table)
    ensures |Framings(identified)|
         == 4 * |set i | 0 <= i < |FramingBlocks| && HasKey(identified, FramingBlocks[i].0)|
  {
    var present := set i | 0 <= i < |FramingBlocks| && HasKey(identified, FramingBlocks[i].0);
    BlockCount(FramingBlocks, identified, 0);
    assert present == set i | 0 <= i < |FramingBlocks| && HasKey(identified, FramingBlocks[i].0);
  }

  lemma {:induction false} BlockCount(blocks: Table, identified: Table, k: nat)
    requires k <= |blocks|
    requires forall i :: 0 <= i < |blocks| ==> |blocks[i].1| == 4
    ensures |Suggestions(blocks[k..], identified)|
         == 4 * |set i | k <= i < |blocks| && HasKey(identified, blocks[i].0)|
    decreases |blocks| - k
  {
    var s := set i | k <= i < |blocks| && HasKey(identified, blocks[i].0);
    if k == |blocks| {
      assert s == {};
    } else {
      BlockCount(blocks, identified, k + 1);
      var s' := set i | k + 1 <= i < |blocks| && HasKey(identified, blocks[i].0);
      assert blocks[k..][1..] == blocks[k + 1..];
      if HasKey(identified, blocks[k].0) {
        assert s == s' + {k};
      } else {
        assert s == s';
      }
    }
  }

  // ---------------------------------------------------------------- generate_philosophical_inquiry

  const InquiryHeader: string := "PHILOSOPHICAL ANALYSIS AND CULTURAL BRIDGE-BUILDING:\n\n"
  const AssumptionsHeader: string := "\U{26A0}\U{FE0F}  POTENTIAL ASSUMPTIONS TO EXAMINE:\n"
  const FramingsHeader: string := "\n\U{1F309} ALTERNATIVE FRAMINGS TO CONSIDER:\n"
  const QuestionsHeader: string := "\n\U{1F914} PHILOSOPHICAL QUESTIONS TO EXPLORE:\n"

  const InquiryQuestions: seq<string> := [
    "What assumptions underlie this question?",
    "Whose perspectives are centered vs. marginalized?",
    "How might different cultural contexts shape this issue?",
    "What power dynamics are at play here?",
    "How could we reframe this to build understanding rather than division?"
  ]

  const CategorySuffix: string := ": Found patterns suggesting stereotypical thinking"

  /** The line reporting one identified category. */
  function CategoryLine(key: string): string {
    Bullet + Label(key) + CategorySuffix
  }

  function CategoryLines(identified: Table): (r: seq<string>)
    ensures |r| == |identified|
    ensures forall i :: 0 <= i < |identified| ==> r[i] == CategoryLine(identified[i].0)
  {
    seq(|identified|, i requires 0 <= i < |identified| => CategoryLine(identified[i].0))
  }

  lemma CategoryLinesSnoc(t: Table, i: int)
    requires 0 <= i < |t|
    ensures CategoryLines(t[..i + 1]) == CategoryLines(t[..i]) + [CategoryLine(t[i].0)]
  {
    assert t[..i + 1][..i] == t[..i];
  }

  /** The text the inquiry builder writes for an analysis and its suggestions. */
  function Inquiry(identified: Table, suggestions: seq<string>): string {
    if identified == [] then
      InquiryHeader + QuestionsHeader + Lines(Bulleted(Bullet, InquiryQuestions))
    else
      InquiryHeader + AssumptionsHeader + Lines(CategoryLines(identified))
      + FramingsHeader + Lines(Bulleted(Bullet, Take(suggestions, 3)))
      + QuestionsHeader + Lines(Bulleted(Bullet, InquiryQuestions))
  }

  /** `generate_philosophical_inquiry`: the analysis, then text built line by line. */
  method GeneratePhilosophicalInquiry(b: BridgeBuilder, query: string, matches: Matcher) returns (response: string)
    requires PF.DistinctKeys(b.stereotypePatterns)
    ensures response == Inquiry(Analysis(b.stereotypePatterns, query, matches),
                                Framings(Analysis(b.stereotypePatterns, query, matches)))
  {
    var stereotypes := AnalyzeForStereotypes(b, query, matches);
    response := InquiryHeader;
    if stereotypes != [] {
      response := response + AssumptionsHeader;
      var head := response;
      for i := 0 to |stereotypes|
        invariant response == head + Lines(CategoryLines(stereotypes[..i]))
      {
        var line := CategoryLine(stereotypes[i].0);
        var before := CategoryLines(stereotypes[..i]);
        CategoryLinesSnoc(stereotypes, i);
        LinesSnoc(before, line);
        AppendAssoc(head, Lines(before), line + "\n");
        response := response + (line + "\n");
      }
      assert stereotypes[..|stereotypes|] == stereotypes;
      var suggestions := SuggestAlternativeFramings(query, stereotypes);
      response := response + FramingsHeader;
      response := AppendBullets(response, Take(suggestions, 3));
    }
    response := response + QuestionsHeader;
    response := AppendBullets(response, InquiryQuestions);
  }

  /** `for x in xs: response += f"• {x}\n"`. */
  method AppendBullets(response: string, xs: seq<string>) returns (r: string)
    ensures r == response + Lines(Bulleted(Bullet, xs))
  {
    r := response;
    for k := 0 to |xs|
      invariant r == response + Lines(Bulleted(Bullet, xs[..k]))
    {
      var before := Bulleted(Bullet, xs[..k]);
      assert Bulleted(Bullet, xs[..k + 1]) == before + [Bullet + xs[k]];
      LinesSnoc(before, Bullet + xs[k]);
      AppendAssoc(response, Lines(before), Bullet + xs[k] + "\n");
      r := r + (Bullet + xs[k] + "\n");
    }
    assert xs[..|xs|] == xs;
  }

  /** What occurs in one of seven pieces occurs in their concatenation. */
  lemma InChain(a: string, b: string, c: string, d: string, e: string, f: string, g: string, sub: string)
    requires Contains(a, sub) || Contains(b, sub) || Contains(c, sub) || Contains(d, sub)
          || Contains(e, sub) || Contains(f, sub) || Contains(g, sub)
    ensures Contains(a + b + c + d + e + f + g, sub)
  {
    if Contains(a, sub) || Contains(b, sub) { ContainsInEither(a, b, sub); }
    if Contains(a + b, sub) || Contains(c, sub) { ContainsInEither(a + b, c, sub); }
    if Contains(a + b + c, sub) || Contains(d, sub) { ContainsInEither(a + b + c, d, sub); }
    if Contains(a + b + c + d, sub) || Contains(e, sub) { ContainsInEither(a + b + c + d, e, sub); }
    if Contains(a + b + c + d + e, sub) || Contains(f, sub) { ContainsInEither(a + b + c + d + e, f, sub); }
    ContainsInEither(a + b + c + d + e + f, g, sub);
  }

  /** Each item of a bulleted block occurs in it. */
  lemma BulletLinesContain(prefix: string, xs: seq<string>, i: int)
    requires 0 <= i < |xs|
    ensures Contains(Lines(Bulleted(prefix, xs)), xs[i])
  {
    LinesContains(Bulleted(prefix, xs), i);
    ContainsSelf(xs[i]);
    ContainsInRight(prefix, xs[i], xs[i]);
    ContainsIn(Lines(Bulleted(prefix, xs)), prefix + xs[i], xs[i]);
  }

  /**
   * The inquiry opens with its header, names every identified category (with `_` read as a
   * space, title-cased), shows the first three alternative framings when anything was
   * identified, and always asks every one of the fixed questions.
   */
  lemma InquiryMentions(identified: Table, suggestions: seq<string>)
    ensures StartsWith(Inquiry(identified, suggestions), InquiryHeader)
    ensures forall i :: 0 <= i < |identified| ==> Contains(Inquiry(identified, suggestions), Label(identified[i].0))
    ensures identified != [] ==>
              forall i :: 0 <= i < Min(|suggestions|, 3) ==> Contains(Inquiry(identified, suggestions), suggestions[i])
    ensures forall i :: 0 <= i < |InquiryQuestions| ==> Contains(Inquiry(identified, suggestions), InquiryQuestions[i])
  {
    var r := Inquiry(identified, suggestions);
    var q := Lines(Bulleted(Bullet, InquiryQuestions));
    if identified == [] {
      StartsWithAppend(InquiryHeader, QuestionsHeader, InquiryHeader);
      StartsWithAppend(InquiryHeader + QuestionsHeader, q, InquiryHeader);
      forall i | 0 <= i < |InquiryQuestions| ensures Contains(r, InquiryQuestions[i]) {
        BulletLinesContain(Bullet, InquiryQuestions, i);
        ContainsInRight(InquiryHeader + QuestionsHeader, q, InquiryQuestions[i]);
      }
    } else {
      var l1 := Lines(CategoryLines(identified));
      var l2 := Lines(Bulleted(Bullet, Take(suggestions, 3)));
      StartsWithAppend(InquiryHeader, AssumptionsHeader, InquiryHeader);
      StartsWithAppend(InquiryHeader + AssumptionsHeader, l1, InquiryHeader);
      StartsWithAppend(InquiryHeader + AssumptionsHeader + l1, FramingsHeader, InquiryHeader);
      StartsWithAppend(InquiryHeader + AssumptionsHeader + l1 + FramingsHeader, l2, InquiryHeader);
      StartsWithAppend(InquiryHeader + AssumptionsHeader + l1 + FramingsHeader + l2, QuestionsHeader, InquiryHeader);
      StartsWithAppend(InquiryHeader + AssumptionsHeader + l1 + FramingsHeader + l2 + QuestionsHeader, q, InquiryHeader);
      forall i | 0 <= i < |identified| ensures Contains(r, Label(identified[i].0)) {
        var name := Label(identified[i].0);
        ContainsSelf(name);
        ContainsInRight(Bullet, name, name);
        ContainsInLeft(Bullet + name, CategorySuffix, name);
        LinesContains(CategoryLines(identified), i);
        ContainsIn(l1, CategoryLine(identified[i].0), name);
        InChain(InquiryHeader, AssumptionsHeader, l1, FramingsHeader, l2, QuestionsHeader, q, name);
      }
      forall i | 0 <= i < Min(|suggestions|, 3) ensures Contains(r, suggestions[i]) {
        BulletLinesContain(Bullet, Take(suggestions, 3), i);
        InChain(InquiryHeader, AssumptionsHeader, l1, FramingsHeader, l2, QuestionsHeader, q, suggestions[i]);
      }
      forall i | 0 <= i < |InquiryQuestions| ensures Contains(r, InquiryQuestions[i]) {
        BulletLinesContain(Bullet, InquiryQuestions, i);
        InChain(InquiryHeader, AssumptionsHeader, l1, FramingsHeader, l2, QuestionsHeader, q, InquiryQuestions[i]);
      }
    }
  }

  /**
   * The inquiry always closes with the questions block. With nothing identified it is the
   * header followed directly by that block, with no assumptions or framings section;
   * otherwise the header is followed by the assumptions section listing the categories and
   * then the framings heading.
   */
  lemma InquiryLayout(identified: Table, suggestions: seq<string>)
    ensures EndsWith(Inquiry(identified, suggestions), QuestionsHeader + Lines(Bulleted(Bullet, InquiryQuestions)))
    ensures identified == [] ==>
              Inquiry(identified, suggestions) == InquiryHeader + (QuestionsHeader + Lines(Bulleted(Bullet, InquiryQuestions)))
    ensures identified != [] ==>
              StartsWith(Inquiry(identified, suggestions),
                         InquiryHeader + AssumptionsHeader + Lines(CategoryLines(identified)) + FramingsHeader)
  {
    var qs := Lines(Bulleted(Bullet, InquiryQuestions));
    if identified == [] {
      AppendAssoc(InquiryHeader, QuestionsHeader, qs);
      EndsWithAppend(InquiryHeader, QuestionsHeader + qs);
    } else {
      var p := InquiryHeader + AssumptionsHeader + Lines(CategoryLines(identified)) + FramingsHeader;
      var l2 := Lines(Bulleted(Bullet, Take(suggestions, 3)));
      AppendAssoc(p + l2, QuestionsHeader, qs);
      EndsWithAppend(p + l2, QuestionsHeader + qs);
      assert StartsWith(p, p);
      StartsWithAppend(p, l2, p);
      StartsWithAppend(p + l2, QuestionsHeader, p);
      StartsWithAppend(p + l2 + QuestionsHeader, qs, p);
    }
  }

  /** At most three framing lines are written, and they are the first three suggestions. */
  lemma FramingBlockLines(suggestions: seq<string>)
    requires forall i :: 0 <= i < |suggestions| ==> '\n' !in suggestions[i]
    ensures var ls := Split(Lines(Bulleted(Bullet, Take(suggestions, 3))), '\n');
            && |ls| == Min(|suggestions|, 3) + 1
            && forall i :: 0 <= i < Min(|suggestions|, 3) ==> ls[i] == Bullet + suggestions[i]
  {
    var t := Take(suggestions, 3);
    var bs := Bulleted(Bullet, t);
    forall i | 0 <= i < |bs| ensures '\n' !in bs[i] {
      assert t[i] == suggestions[i];
    }
    LinesSplit(bs);
  }

  // ---------------------------------------------------------------- build_cultural_bridge_response

  /** The heading line of one strategy type. */
  function StrategyHeading(strategyType: string): string {
    "\n" + Label(strategyType) + ":\n"
  }

  /** The heading of one strategy type and its first two strategies. */
  function StrategySection(strategyType: string, strategies: seq<string>): string {
    StrategyHeading(strategyType) + BulletList("  " + Bullet, Take(strategies, 2)) + "\n"
  }

  function StrategySections(t: Table): (r: seq<string>)
    ensures |r| == |t|
    ensures forall i :: 0 <= i < |t| ==> r[i] == StrategySection(t[i].0, t[i].1)
  {
    seq(|t|, i requires 0 <= i < |t| => StrategySection(t[i].0, t[i].1))
  }

  const AnalysisTitle: string := "\nCULTURAL BRIDGE-BUILDING ANALYSIS FOR: "
  const PerspectivesHeading: string := "\n\nMULTIPLE PERSPECTIVES TO CONSIDER:\n"
  const QuestionsHeading: string := "\n\nCRITICAL QUESTIONS TO EXPLORE:\n"
  const InsightsHeading: string := "\n\nCULTURAL INSIGHTS TO REMEMBER:\n"
  const StrategiesHeading: string := "\n\nBRIDGE-BUILDING STRATEGIES:\n"

  lemma StrategySectionsSnoc(t: Table, i: int)
    requires 0 <= i < |t|
    ensures StrategySections(t[..i + 1]) == StrategySections(t[..i]) + [StrategySection(t[i].0, t[i].1)]
  {
    assert t[..i + 1][..i] == t[..i];
  }

  /** The f-string that opens the analysis, for already collected methods and insights. */
  function BridgeOpening(topic: string, perspectives: seq<string>, methods: seq<string>, insights: seq<string>): string {
    AnalysisTitle + topic
    + (PerspectivesHeading + BulletList(Bullet, perspectives))
    + (QuestionsHeading + BulletList(Bullet, Take(methods, 5)))
    + (InsightsHeading + BulletList(Bullet, Take(insights, 5)))
    + StrategiesHeading
  }

  /** The analysis text for already collected questioning methods and cultural insights. */
  function BridgeText(topic: string, perspectives: seq<string>, methods: seq<string>,
                      insights: seq<string>, strategies: Table): string {
    BridgeOpening(topic, perspectives, methods, insights) + Concat(StrategySections(strategies))
  }

  /** Each thinker's questioning methods, each once, in any order. */
  ghost predicate AllQuestioningMethods(r: seq<string>, thinkers: seq<(string, FrameworkData.Perspective)>) {
    && PF.NoDuplicates(r)
    && forall x :: x in r <==> exists i :: 0 <= i < |thinkers| && x in thinkers[i].1.questioningMethods
  }

  /** Each thinker's cultural insights, each once, in any order. */
  ghost predicate AllCulturalInsights(r: seq<string>, thinkers: seq<(string, FrameworkData.Perspective)>) {
    && PF.NoDuplicates(r)
    && forall x :: x in r <==> exists i :: 0 <= i < |thinkers| && x in thinkers[i].1.culturalInsights
  }

  /**
   * `build_cultural_bridge_response`: the framework's questioning methods and cultural
   * insights (in the order its collectors return them), cut to five each, then one section
   * per strategy type.
   */
  method BuildCulturalBridgeResponse(b: BridgeBuilder, topic: string, culturalPerspectives: seq<string>)
    returns (response: string)
    ensures exists methods, insights ::
              && AllQuestioningMethods(methods, b.framework.thinkers)
              && AllCulturalInsights(insights, b.framework.thinkers)
              && response == BridgeText(topic, culturalPerspectives, methods, insights, b.culturalBridgeStrategies)
  {
    var methods := PF.GetQuestioningMethodsForTopic(b.framework, topic);
    var insights := PF.GetCulturalInsightsForTopic(b.framework, topic);
    response := BridgeOpening(topic, culturalPerspectives, methods, insights);
    var head := response;
    var t := b.culturalBridgeStrategies;
    for i := 0 to |t|
      invariant response == head + Concat(StrategySections(t[..i]))
    {
      var section := StrategySection(t[i].0, t[i].1);
      var before := StrategySections(t[..i]);
      StrategySectionsSnoc(t, i);
      ConcatSnoc(before, section);
      AppendAssoc(head, Concat(before), section);
      ghost var r0 := response;
      response := response + StrategyHeading(t[i].0);
      response := response + BulletList("  " + Bullet, Take(t[i].1, 2));
      response := response + "\n";
      AppendAssoc(r0, StrategyHeading(t[i].0), BulletList("  " + Bullet, Take(t[i].1, 2)));
      AppendAssoc(r0, StrategyHeading(t[i].0) + BulletList("  " + Bullet, Take(t[i].1, 2)), "\n");
    }
    assert t[..|t|] == t;
    assert response == BridgeText(topic, culturalPerspectives, methods, insights, t);
    assert AllQuestioningMethods(methods, b.framework.thinkers);
    assert AllCulturalInsights(insights, b.framework.thinkers);
  }

  /**
   * The analysis names the topic and every given perspective, the first five questioning
   * methods and insights, and for every strategy type its name (`_` read as a space,
   * title-cased) and its first two strategies.
   */
  lemma BridgeTextMentions(topic: string, perspectives: seq<string>, methods: seq<string>,
                           insights: seq<string>, strategies: Table)
    ensures var r := BridgeText(topic, perspectives, methods, insights, strategies);
            && Contains(r, topic)
            && (forall i :: 0 <= i < |perspectives| ==> Contains(r, perspectives[i]))
            && (forall i :: 0 <= i < Min(|methods|, 5) ==> Contains(r, methods[i]))
            && (forall i :: 0 <= i < Min(|insights|, 5) ==> Contains(r, insights[i]))
            && (forall i :: 0 <= i < |strategies| ==> Contains(r, Label(strategies[i].0)))
            && (forall i, j :: 0 <= i < |strategies| && 0 <= j < Min(|strategies[i].1|, 2) ==>
                  Contains(r, strategies[i].1[j]))
  {
    var r := BridgeText(topic, perspectives, methods, insights, strategies);
    assert r == AnalysisTitle + topic
      + (PerspectivesHeading + BulletList(Bullet, perspectives))
      + (QuestionsHeading + BulletList(Bullet, Take(methods, 5)))
      + (InsightsHeading + BulletList(Bullet, Take(insights, 5)))
      + StrategiesHeading
      + Concat(StrategySections(strategies));
    var pp := PerspectivesHeading + BulletList(Bullet, perspectives);
    var mm := QuestionsHeading + BulletList(Bullet, Take(methods, 5));
    var ii := InsightsHeading + BulletList(Bullet, Take(insights, 5));
    var ss := Concat(StrategySections(strategies));
    ContainsSelf(topic);
    InChain(AnalysisTitle, topic, pp, mm, ii, StrategiesHeading, ss, topic);
    forall i | 0 <= i < |perspectives| ensures Contains(r, perspectives[i]) {
      ListedIn(PerspectivesHeading, Bullet, perspectives, i);
      InChain(AnalysisTitle, topic, pp, mm, ii, StrategiesHeading, ss, perspectives[i]);
    }
    forall i | 0 <= i < Min(|methods|, 5) ensures Contains(r, methods[i]) {
      ListedIn(QuestionsHeading, Bullet, Take(methods, 5), i);
      InChain(AnalysisTitle, topic, pp, mm, ii, StrategiesHeading, ss, methods[i]);
    }
    forall i | 0 <= i < Min(|insights|, 5) ensures Contains(r, insights[i]) {
      ListedIn(InsightsHeading, Bullet, Take(insights, 5), i);
      InChain(AnalysisTitle, topic, pp, mm, ii, StrategiesHeading, ss, insights[i]);
    }
    forall i | 0 <= i < |strategies| ensures Contains(r, Label(strategies[i].0)) {
      var h := StrategyHeading(strategies[i].0);
      var name := Label(strategies[i].0);
      ContainsSelf(name);
      ContainsInRight("\n", name, name);
      ContainsInLeft("\n" + name, ":\n", name);
      ContainsInLeft(h, BulletList("  " + Bullet, Take(strategies[i].1, 2)), name);
      ContainsInLeft(h + BulletList("  " + Bullet, Take(strategies[i].1, 2)), "\n", name);
      ConcatContains(StrategySections(strategies), i);
      ContainsIn(ss, StrategySections(strategies)[i], name);
      InChain(AnalysisTitle, topic, pp, mm, ii, StrategiesHeading, ss, name);
    }
    forall i, j | 0 <= i < |strategies| && 0 <= j < Min(|strategies[i].1|, 2)
      ensures Contains(r, strategies[i].1[j])
    {
      var h := StrategyHeading(strategies[i].0);
      var x := strategies[i].1[j];
      ListedIn(h, "  " + Bullet, Take(strategies[i].1, 2), j);
      ContainsInLeft(h + BulletList("  " + Bullet, Take(strategies[i].1, 2)), "\n", x);
      ConcatContains(StrategySections(strategies), i);
      ContainsIn(ss, StrategySections(strategies)[i], x);
      InChain(AnalysisTitle, topic, pp, mm, ii, StrategiesHeading, ss, x);
    }
  }

  /** An item of a bullet list occurs after the list's heading. */
  lemma ListedIn(heading: string, prefix: string, xs: seq<string>, i: int)
    requires 0 <= i < |xs|
    ensures Contains(heading + BulletList(prefix, xs), xs[i])
  {
    JoinContains("\n", Bulleted(prefix, xs), i);
    ContainsSelf(xs[i]);
    ContainsInRight(prefix, xs[i], xs[i]);
    ContainsIn(BulletList(prefix, xs), prefix + xs[i], xs[i]);
    ContainsInRight(heading, BulletList(prefix, xs), xs[i]);
  }

  /**
   * However many methods, insights and strategies there are, the analysis lists at most five
   * questioning methods, at most five insights and at most two strategies per type, each the
   * first ones of its list, one per line.
   */
  lemma BridgeListsBounded(methods: seq<string>, insights: seq<string>, strategies: seq<string>)
    requires forall i :: 0 <= i < |methods| ==> '\n' !in methods[i]
    requires forall i :: 0 <= i < |insights| ==> '\n' !in insights[i]
    requires forall i :: 0 <= i < |strategies| ==> '\n' !in strategies[i]
    ensures |Split(BulletList(Bullet, Take(methods, 5)), '\n')| == Max(Min(|methods|, 5), 1)
    ensures |Split(BulletList(Bullet, Take(insights, 5)), '\n')| == Max(Min(|insights|, 5), 1)
    ensures |Split(BulletList("  " + Bullet, Take(strategies, 2)), '\n')| == Max(Min(|strategies|, 2), 1)
    ensures forall i :: 0 <= i < Min(|methods|, 5) ==>
              Split(BulletList(Bullet, Take(methods, 5)), '\n')[i] == Bullet + methods[i]
    ensures forall i :: 0 <= i < Min(|insights|, 5) ==>
              Split(BulletList(Bullet, Take(insights, 5)), '\n')[i] == Bullet + insights[i]
    ensures forall i :: 0 <= i < Min(|strategies|, 2) ==>
              Split(BulletList("  " + Bullet, Take(strategies, 2)), '\n')[i] == "  " + Bullet + strategies[i]
  {
    BulletListLines(Bullet, Take(methods, 5));
    BulletListLines(Bullet, Take(insights, 5));
    BulletListLines("  " + Bullet, Take(strategies, 2));
  }

  // ---------------------------------------------------------------- DialogueFacilitator

  const DialogueTitle: string := "FACILITATING DIALOGUE ON: "
  const SummaryA: string := "\n\nPERSPECTIVE A SUMMARY:\n"
  const SummaryB: string := "\n\nPERSPECTIVE B SUMMARY:\n"

  /** The three fixed sections of questions and next steps. */
  const DialogueSections: string :=
    "\n\nPHILOSOPHICAL ANALYSIS:\n"
    + "\U{2022} What values and assumptions underlie each perspective?\n"
    + "\U{2022} How might historical and cultural contexts shape these views?\n"
    + "\U{2022} Where might there be common ground or shared concerns?\n"
    + "\U{2022} What questions could help each side understand the other better?\n\n"
    + "BRIDGE-BUILDING QUESTIONS:\n"
    + "\U{2022} What experiences led each side to their viewpoint?\n"
    + "\U{2022} What fears or concerns drive each perspective?\n"
    + "\U{2022} How might both sides be partially right about different aspects?\n"
    + "\U{2022} What would a solution look like that honors the valid concerns of both sides?\n\n"
    + "NEXT STEPS FOR DIALOGUE:\n"
    + "\U{2022} Focus on understanding before being understood\n"
    + "\U{2022} Look for the human story behind each position\n"
    + "\U{2022} Identify shared values even amid different approaches\n"
    + "\U{2022} Explore creative solutions that transcend either/or thinking\n"

  /** The part of the exchange that depends on the arguments. */
  function DialogueOpening(topic: string, viewpointA: string, viewpointB: string): string {
    DialogueTitle + topic + SummaryA + viewpointA + SummaryB + viewpointB
  }

  /**
   * `facilitate_perspective_exchange`: the topic, then viewpoint A, then viewpoint B, each
   * verbatim under its heading, then the fixed sections.
   */
  function FacilitatePerspectiveExchange(viewpointA: string, viewpointB: string, topic: string): (r: string)
    ensures StartsWith(r, DialogueOpening(topic, viewpointA, viewpointB))
    ensures EndsWith(r, DialogueSections)
    ensures |r| == |DialogueOpening(topic, viewpointA, viewpointB)| + |DialogueSections|
  {
    var opening := DialogueOpening(topic, viewpointA, viewpointB);
    StartsWithAppend(opening, DialogueSections, opening);
    EndsWithAppend(opening, DialogueSections);
    opening + DialogueSections
  }

  /** Topic and viewpoints stand verbatim at their places in the opening, in that order. */
  lemma OpeningPlaces(topic: string, viewpointA: string, viewpointB: string)
    ensures var r := DialogueOpening(topic, viewpointA, viewpointB);
            && OccursAt(r, topic, |DialogueTitle|)
            && OccursAt(r, viewpointA, |DialogueTitle| + |topic| + |SummaryA|)
            && OccursAt(r, viewpointB, |DialogueTitle| + |topic| + |SummaryA| + |viewpointA| + |SummaryB|)
  {
    var p1 := DialogueTitle + topic;
    var q1 := p1 + SummaryA;
    var p2 := q1 + viewpointA;
    var q2 := p2 + SummaryB;
    var a, b := |DialogueTitle|, |q1|;
    OccursAtEnd(DialogueTitle, topic);
    OccursAtExtend(p1, SummaryA, topic, a);
    OccursAtExtend(q1, viewpointA, topic, a);
    OccursAtEnd(q1, viewpointA);
    OccursAtExtend(p2, SummaryB, topic, a);
    OccursAtExtend(p2, SummaryB, viewpointA, b);
    OccursAtExtend(q2, viewpointB, topic, a);
    OccursAtExtend(q2, viewpointB, viewpointA, b);
    OccursAtEnd(q2, viewpointB);
  }
}
