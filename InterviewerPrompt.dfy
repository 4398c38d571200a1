/** The interviewer's system prompt: one avatar animation tag picked per
    group and shuffled, the role, the lower-cased difficulty, optional skills
    and notes clauses, and the fixed instructions that ask for a single JSON
    reply naming one of the shuffled tags. Also the prompt that asks a model
    to reformat a reply. */
module InterviewerPrompt {
  import opened JsValues
  import opened MockInterview

  /** The animation groups in declaration order: `talk` has two variants,
      `idle` and `clap` one each. */
  const AnimationGroups: seq<seq<string>> := [["talk", "talk2"], ["idle"], ["clap"]]

  /** `picks[g]` is the index `Math.floor(Math.random() * group.length)`
      produced for group `g`: any index of that group. */
  predicate ValidPicks(picks: seq<nat>)
  {
    |picks| == |AnimationGroups| && forall g :: 0 <= g < |picks| ==> picks[g] < |AnimationGroups[g]|
  }

  /** One tag per group, in group order. */
  function Picked(picks: seq<nat>): (tags: seq<string>)
    requires ValidPicks(picks)
    ensures |tags| == |AnimationGroups|
    ensures forall g :: 0 <= g < |tags| ==> tags[g] in AnimationGroups[g]
  {
    seq(|AnimationGroups|, g requires 0 <= g < |AnimationGroups| => AnimationGroups[g][picks[g]])
  }

  /** `picked.sort(() => Math.random() - 0.5)`. The comparator ignores the
      elements, so only its outcomes decide the order: `swaps(k)` says
      whether the k-th comparison came out positive. The engine's sort is
      taken to be an insertion sort that swaps a neighbouring pair whenever
      the comparison is positive. */
  method SortByCoins(a: array<string>, swaps: nat -> bool)
    modifies a
    ensures multiset(a[..]) == multiset(old(a[..]))
  {
    var calls := 0;
    var i := 1;
    while i < a.Length
      invariant multiset(a[..]) == multiset(old(a[..]))
    {
      var j := i;
      while j > 0
        invariant 0 <= j <= i < a.Length
        invariant multiset(a[..]) == multiset(old(a[..]))
      {
        var positive := swaps(calls);
        calls := calls + 1;
        if !positive {
          break;
        }
        a[j - 1], a[j] := a[j], a[j - 1];
        j := j - 1;
      }
      i := i + 1;
    }
  }

  /** `getShuffledAnimations()`: the picked tags in the order the sort left them. */
  method GetShuffledAnimations(picks: seq<nat>, swaps: nat -> bool) returns (anims: seq<string>)
    requires ValidPicks(picks)
    ensures multiset(anims) == multiset(Picked(picks))
  {
    var picked := Picked(picks);
    var a := new string[|picked|](i requires 0 <= i < |picked| => picked[i]);
    assert a[..] == picked;
    SortByCoins(a, swaps);
    anims := a[..];
  }

  /** Whatever the picks and the sort did, the list holds three tags: exactly
      one of `talk`/`talk2`, plus `idle` and `clap`. */
  lemma OneTagPerGroup(picks: seq<nat>, anims: seq<string>)
    requires ValidPicks(picks) && multiset(anims) == multiset(Picked(picks))
    ensures |anims| == 3
    ensures multiset(anims)["talk"] + multiset(anims)["talk2"] == 1
    ensures multiset(anims)["idle"] == 1 && multiset(anims)["clap"] == 1
    ensures forall x :: x in anims ==> x in ["talk", "talk2", "idle", "clap"]
  {
    var p := Picked(picks);
    assert |anims| == |multiset(anims)| == |multiset(p)| == 3;
    assert p == [p[0], "idle", "clap"];
    assert p[0] == "talk" || p[0] == "talk2";
    assert multiset(p) == multiset{p[0]} + multiset{"idle"} + multiset{"clap"};
    forall x | x in anims
      ensures x in ["talk", "talk2", "idle", "clap"]
    {
      assert x in multiset(anims);
      assert x in multiset(p);
    }
  }

  // ---------------------------------------------------------------------
  // JSON.stringify of the tag list

  function Quote(s: string): string
  {
    "\"" + s + "\""
  }

  function JsonItems(tags: seq<string>): (r: string)
    ensures r == "" <==> tags == []
  {
    if tags == [] then ""
    else if |tags| == 1 then Quote(tags[0])
    else Quote(tags[0]) + "," + JsonItems(tags[1..])
  }

  /** `JSON.stringify(tags)` for tags with no character JSON escapes (every
      animation tag is a plain lower-case word): quoted, comma-separated, no
      spaces, in brackets; `[]` exactly for no tags. */
  function JsonStringArray(tags: seq<string>): (r: string)
    ensures |r| >= 2 && r[0] == '[' && r[|r| - 1] == ']'
    ensures |r| == 2 <==> tags == []
  {
    "[" + JsonItems(tags) + "]"
  }

  /** `t` has no double quote, so JSON writes it between quotes unescaped. */
  predicate NoQuote(t: string)
  {
    t == [] || (t[0] != '"' && NoQuote(t[1..]))
  }

  lemma {:induction false} NoQuoteAt(t: string, i: nat)
    requires NoQuote(t) && i < |t|
    ensures t[i] != '"'
  {
    if i > 0 {
      NoQuoteAt(t[1..], i - 1);
    }
  }

  predicate AllNoQuote(tags: seq<string>)
  {
    forall k :: 0 <= k < |tags| ==> NoQuote(tags[k])
  }

  /** What follows the first quoted tag: nothing, or a comma and the rest. */
  function ItemsAfterHead(tags: seq<string>): string
    requires tags != []
  {
    if |tags| == 1 then "" else "," + JsonItems(tags[1..])
  }

  lemma ItemsHead(tags: seq<string>)
    requires tags != []
    ensures JsonItems(tags) == Quote(tags[0]) + ItemsAfterHead(tags)
  {
  }

  /** A quoted tag without quotes inside is recognised by its closing quote:
      equal texts that start with two such quoted tags start with the same
      tag. */
  lemma QuotedPrefix(t: string, u: string, x: string, y: string)
    requires NoQuote(t) && NoQuote(u)
    requires Quote(t) + x == Quote(u) + y
    ensures t == u && x == y
  {
    var s := Quote(t) + x;
    var s' := Quote(u) + y;
    assert s[|t| + 1] == '"';
    assert s'[|u| + 1] == '"';
    if |t| < |u| {
      assert s'[|t| + 1] == u[|t|];
      NoQuoteAt(u, |t|);
    }
    if |u| < |t| {
      assert s[|u| + 1] == t[|u|];
      NoQuoteAt(t, |u|);
    }
    assert t == s[1..|t| + 1];
    assert u == s'[1..|u| + 1];
    assert x == s[|t| + 2..];
    assert y == s'[|u| + 2..];
  }

  /** Without quotes inside the tags, the JSON text determines the list. */
  lemma {:induction false} JsonItemsInjective(a: seq<string>, b: seq<string>)
    requires AllNoQuote(a) && AllNoQuote(b)
    requires JsonItems(a) == JsonItems(b)
    ensures a == b
    decreases |a|
  {
    if a != [] && b != [] {
      ItemsHead(a);
      ItemsHead(b);
      QuotedPrefix(a[0], b[0], ItemsAfterHead(a), ItemsAfterHead(b));
      if |a| > 1 && |b| > 1 {
        CancelPrefix(",", JsonItems(a[1..]), JsonItems(b[1..]));
        JsonItemsInjective(a[1..], b[1..]);
        assert a == [a[0]] + a[1..];
        assert b == [b[0]] + b[1..];
      } else {
        assert |a| == 1 && |b| == 1;
      }
    }
  }

  lemma JsonListInjective(a: seq<string>, b: seq<string>)
    requires AllNoQuote(a) && AllNoQuote(b)
    requires JsonStringArray(a) == JsonStringArray(b)
    ensures a == b
  {
    CancelAround("[", JsonItems(a), JsonItems(b), "]");
    JsonItemsInjective(a, b);
  }

  // ---------------------------------------------------------------------
  // buildSystemPrompt

  /** `xs.join(sep)`, built from the front. */
  function Join(xs: seq<string>, sep: string): string
  {
    if xs == [] then ""
    else if |xs| == 1 then xs[0]
    else xs[0] + sep + Join(xs[1..], sep)
  }

  /** The opening sentence: the role in double quotes and the difficulty's
      name lower-cased. */
  function Opening(jobRole: string, difficulty: Difficulty): string
  {
    "You are an interviewer conducting a mock interview for the role of \"" + jobRole
      + "\". The difficulty level is \"" + ToLower(DifficultyName(difficulty)) + "\"."
  }

  const SkillsLead := " Focus on evaluating the following skills: "
  const NotesLead := " Additional notes: "

  /** Emitted only for a non-empty skill list: the skills joined with ", ". */
  function SkillsClause(skills: seq<string>): (r: string)
    ensures r == "" <==> skills == []
    ensures skills != [] ==> r == SkillsLead + Join(skills, ", ") + "."
  {
    if |skills| > 0 then SkillsLead + Join(skills, ", ") + "." else ""
  }

  /** Emitted only when the notes are truthy: present and not empty. */
  function NotesClause(notes: Option<string>): (r: string)
    ensures r == "" <==> notes.None? || notes.value == ""
    ensures notes.Some? && notes.value != "" ==> r == NotesLead + notes.value + "."
  {
    if notes.Some? && notes.value != "" then NotesLead + notes.value + "." else ""
  }

  /** The fixed instructions, up to the place where the tag list goes ... */
  const TailBeforeList :=
    "\n"
    + "\n"
    + "You must NOT mention the company or its name.\n"
    + "\n"
    + "You will ask open-ended, challenging questions about the role.\n"
    + "\n"
    + "After each candidate's answer, give brief, constructive feedback or ask a "
    + "follow-up question.\n"
    + "\n"
    + "---\n"
    + "\n"
    + "\U{1F6D1} IMPORTANT: YOUR RESPONSE MUST BE ONLY AND EXACTLY A SINGLE RAW JSON OBJECT\n"
    + "\n"
    + "- The JSON object must have this exact structure (no extra text, no greetings, "
    + "no code blocks ):\n"
    + "\n"
    + "{\n"
    + "  \"animationToPlay\": \"<one animation from this list: "

  /** ... and after it. */
  const TailAfterList :=
    ">\",\n"
    + "  \"statement\": \"<your statement or question>\",\n"
    + "  \"isCompleted\": <true or false>\n"
    + "}\n"
    + "\n"
    + "- \"animationToPlay\" must be chosen intelligently based on the intent of your "
    + "statement:\n"
    + "  - Select animations that best match what you're communicating\n"
    + "  - For questions or explanations, use appropriate animations\n"
    + "  - For positive feedback or congratulations, choose suitable animations\n"
    + "  - For neutral statements, choose accordingly\n"
    + "- If there are multiple variants (e.g., \"talk\" and \"talk2\"), pick randomly "
    + "between them.\n"
    + "- Set \"isCompleted\" to true only on the final statement concluding the interview.\n"
    + "- Do NOT output anything before or after the JSON object.\n"
    + "- Your entire response MUST be parseable by directly applying JSON.parse() on it.\n"
    + "\n"
    + "---\n"
    + "\n"
    + "EXAMPLE RESPONSE:\n"
    + "\n"
    + "{\n"
    + "  \"animationToPlay\": \"talk\",\n"
    + "  \"statement\": \"Can you explain the concept of closure in JavaScript?\",\n"
    + "  \"isCompleted\": false\n"
    + "}\n"
    + "\n"
    + "---\n"
    + "\n"
    + "Remember, do NOT include any quotes, markdown code fences, or text outside the "
    + "JSON object.\n"
    + "\n"
    + "Begin now.\n"

  /** The fixed instructions with the JSON tag list filled in. */
  function Instructions(animationsList: string): string
  {
    TailBeforeList + animationsList + TailAfterList
  }

  /** The prompt `buildSystemPrompt` returns for the given interview fields
      and shuffled tags. */
  function PromptText(jobRole: string, difficulty: Difficulty, skills: seq<string>,
                      notes: Option<string>, anims: seq<string>): string
  {
    Opening(jobRole, difficulty) + SkillsClause(skills) + NotesClause(notes)
      + Instructions(JsonStringArray(anims))
  }

  /** `buildSystemPrompt({jobRole, difficulty, skills, notes})`: `prompt`
      grows by `+=`. Only this one object argument is read. `anims` is the
      order the shuffle produced, returned for the specification only. */
  method BuildSystemPrompt(jobRole: string, difficulty: Difficulty, skills: seq<string>,
                           notes: Option<string>, picks: seq<nat>, swaps: nat -> bool)
    returns (prompt: string, ghost anims: seq<string>)
    requires ValidPicks(picks)
    ensures multiset(anims) == multiset(Picked(picks))
    ensures prompt == PromptText(jobRole, difficulty, skills, notes, anims)
  {
    var animationsToSend := GetShuffledAnimations(picks, swaps);
    anims := animationsToSend;
    var animationsList := JsonStringArray(animationsToSend);
    var opening := Opening(jobRole, difficulty);
    prompt := opening;
    if |skills| > 0 {
      prompt := prompt + SkillsLead + Join(skills, ", ") + ".";
      AppendThree(opening, SkillsLead, Join(skills, ", "), ".");
    } else {
      assert opening + SkillsClause(skills) == opening;
    }
    ghost var head := opening + SkillsClause(skills);
    assert prompt == head;
    if notes.Some? && notes.value != "" {
      prompt := prompt + NotesLead + notes.value + ".";
      AppendThree(head, NotesLead, notes.value, ".");
    } else {
      assert head + NotesClause(notes) == head;
    }
    assert prompt == head + NotesClause(notes);
    prompt := prompt + Instructions(animationsList);
  }

  lemma AppendThree(a: string, b: string, c: string, d: string)
    ensures a + b + c + d == a + (b + c + d)
  {
  }

  /** The difficulty appears lower-cased. */
  lemma DifficultyLowered(d: Difficulty)
    ensures ToLower(DifficultyName(d)) ==
      match d
      case Beginner => "beginner"
      case Intermediate => "intermediate"
      case Advanced => "advanced"
  {
    var s := DifficultyName(d);
    var r := ToLower(s);
    match d
    case Beginner =>
      assert s == "Beginner";
      assert r == "beginner" by { assert forall k :: 0 <= k < |r| ==> r[k] == LowerChar(s[k]); }
    case Intermediate =>
      assert s == "Intermediate";
      assert r == "intermediate" by { assert forall k :: 0 <= k < |r| ==> r[k] == LowerChar(s[k]); }
    case Advanced =>
      assert s == "Advanced";
      assert r == "advanced" by { assert forall k :: 0 <= k < |r| ==> r[k] == LowerChar(s[k]); }
  }

  /** The tag list sits, as its JSON text, right after the fixed text that
      precedes it. */
  lemma InstructionsEmbedList(animationsList: string)
    ensures var t := Instructions(animationsList);
      var i := |TailBeforeList|;
      t[i..i + |animationsList|] == animationsList
  {
    SlicesOfThree(TailBeforeList, animationsList, TailAfterList);
  }

  /** The prompt decides the tag list: two shuffles that give the same prompt
      for the same interview gave the same JSON list. */
  lemma PromptDeterminesList(jobRole: string, difficulty: Difficulty, skills: seq<string>,
                             notes: Option<string>, a1: seq<string>, a2: seq<string>)
    requires PromptText(jobRole, difficulty, skills, notes, a1) == PromptText(jobRole, difficulty, skills, notes, a2)
    ensures JsonStringArray(a1) == JsonStringArray(a2)
    ensures AllNoQuote(a1) && AllNoQuote(a2) ==> a1 == a2
  {
    PromptDeterminesJson(jobRole, difficulty, skills, notes, a1, a2);
    ListOfJson(a1, a2);
  }

  lemma ListOfJson(a1: seq<string>, a2: seq<string>)
    requires JsonStringArray(a1) == JsonStringArray(a2)
    ensures AllNoQuote(a1) && AllNoQuote(a2) ==> a1 == a2
  {
    if AllNoQuote(a1) && AllNoQuote(a2) {
      JsonListInjective(a1, a2);
    }
  }

  lemma PromptDeterminesJson(jobRole: string, difficulty: Difficulty, skills: seq<string>,
                             notes: Option<string>, a1: seq<string>, a2: seq<string>)
    requires PromptText(jobRole, difficulty, skills, notes, a1) == PromptText(jobRole, difficulty, skills, notes, a2)
    ensures JsonStringArray(a1) == JsonStringArray(a2)
  {
    var l1 := JsonStringArray(a1);
    var l2 := JsonStringArray(a2);
    CancelPrefix(Opening(jobRole, difficulty) + SkillsClause(skills) + NotesClause(notes),
                 Instructions(l1), Instructions(l2));
    CancelAround(TailBeforeList, l1, l2, TailAfterList);
  }

  /** Equal strings with the same prefix agree after it. */
  lemma CancelPrefix(a: string, x: string, y: string)
    requires a + x == a + y
    ensures x == y
  {
    assert x == (a + x)[|a|..];
    assert y == (a + y)[|a|..];
  }

  /** Equal strings with the same prefix and suffix agree between them. */
  lemma CancelAround(a: string, x: string, y: string, b: string)
    requires a + x + b == a + y + b
    ensures x == y
  {
    var s := a + x + b;
    assert |x| == |y|;
    SlicesOfThree(a, x, b);
    SlicesOfThree(a, y, b);
  }

  /** Where the pieces of a three-part concatenation sit. */
  lemma SlicesOfThree(a: string, b: string, c: string)
    ensures var s := a + b + c;
      && s[..|a|] == a
      && s[|a|..|a| + |b|] == b
      && s[|a| + |b|..] == c
  {
    var s := a + b + c;
    assert s == a + (b + c);
  }

  // ---------------------------------------------------------------------
  // buildFormattingPrompt

  const FormatIntro :=
    "The following is a response from an AI interviewer that was supposed to be in a "
    + "specific JSON format but may not be correctly formatted:\n"
    + "\n"
  const FormatStructure :=
    "\n"
    + "\n"
    + "Please convert this response into a valid JSON object with the following structure:\n"
    + "{\n"
    + "  \"animationToPlay\": \"<one animation from this list: "
  const FormatChooseFrom :=
    ">\",\n"
    + "  \"statement\": \"<the interviewer's statement or question>\",\n"
    + "  \"isCompleted\": <true or false (if it seems like the interview is "
    + "concluding, set to true, otherwise false)>\n"
    + "}\n"
    + "\n"
    + "- Choose \"animationToPlay\" from this list only: "
  const FormatRules :=
    "\n"
    + "- \"animationToPlay\" must be chosen intelligently based on the intent of your "
    + "statement:\n"
    + "  - Select animations that best match what you're communicating\n"
    + "  - For questions or explanations, use appropriate animations\n"
    + "  - For positive feedback or congratulations, choose suitable animations\n"
    + "  - For neutral statements, choose accordingly\n"
    + "- Extract the main question or statement for the \"statement\" field\n"
    + "- Determine if this is a concluding statement (isCompleted)\n"
    + "\n"
    + "RESPONSE MUST BE ONLY AND EXACTLY A SINGLE RAW JSON OBJECT - no text before or "
    + "after, no code blocks, no quotes surrounding it."

  /** `buildFormattingPrompt(rawResponse, animationsList)`: the raw reply
      appears in double quotes and the list twice, at fixed offsets. */
  function FormattingPrompt(rawResponse: string, animationsList: string): (p: string)
    ensures var q := Quote(rawResponse);
      var i := |FormatIntro| + |q| + |FormatStructure|;
      var j := i + |animationsList| + |FormatChooseFrom|;
      && |p| == j + |animationsList| + |FormatRules|
      && p[|FormatIntro|..|FormatIntro| + |q|] == q
      && p[i..i + |animationsList|] == animationsList
      && p[j..j + |animationsList|] == animationsList
  {
    Concat7(FormatIntro, Quote(rawResponse), FormatStructure, animationsList, FormatChooseFrom, animationsList,
            FormatRules)
  }

  /** Seven texts one after the other, with the offsets of the even ones. */
  function Concat7(a: string, b: string, c: string, d: string, e: string, f: string, g: string): (s: string)
    ensures var i := |a| + |b| + |c|;
      var j := i + |d| + |e|;
      && |s| == j + |f| + |g|
      && s[|a|..|a| + |b|] == b
      && s[i..i + |d|] == d
      && s[j..j + |f|] == f
  {
    SlicesOfSeven(a, b, c, d, e, f, g);
    a + b + c + d + e + f + g
  }

  /** Where the odd pieces of a seven-part concatenation sit. */
  lemma SlicesOfSeven(a: string, b: string, c: string, d: string, e: string, f: string, g: string)
    ensures var s := a + b + c + d + e + f + g;
      var i := |a| + |b| + |c|;
      var j := i + |d| + |e|;
      && |s| == j + |f| + |g|
      && s[|a|..|a| + |b|] == b
      && s[i..i + |d|] == d
      && s[j..j + |f|] == f
  {
    var s := a + b + c + d + e + f + g;
    assert s == a + (b + (c + (d + (e + (f + g)))));
  }

  /** Equal seven-part concatenations that differ only in the second part
      agree there too. */
  lemma CancelSecondOfSeven(a: string, x: string, y: string, c: string, d: string, e: string, f: string, g: string)
    requires a + x + c + d + e + f + g == a + y + c + d + e + f + g
    ensures x == y
  {
    assert |x| == |y|;
    SlicesOfSeven(a, x, c, d, e, f, g);
    SlicesOfSeven(a, y, c, d, e, f, g);
  }

  /** Different replies give different formatting prompts. */
  lemma FormattingPromptInjective(r1: string, r2: string, animationsList: string)
    requires FormattingPrompt(r1, animationsList) == FormattingPrompt(r2, animationsList)
    ensures r1 == r2
  {
    QuotedSecondOfSeven(FormatIntro, r1, r2, FormatStructure, animationsList, FormatChooseFrom, animationsList,
                        FormatRules);
  }

  lemma QuotedSecondOfSeven(a: string, r1: string, r2: string, c: string, d: string, e: string, f: string, g: string)
    requires Concat7(a, Quote(r1), c, d, e, f, g) == Concat7(a, Quote(r2), c, d, e, f, g)
    ensures r1 == r2
  {
    CancelSecondOfSeven(a, Quote(r1), Quote(r2), c, d, e, f, g);
    assert r1 == Quote(r1)[1..|r1| + 1];
    assert r2 == Quote(r2)[1..|r2| + 1];
  }

}
