/**
  The code-generation service: choosing a backend, assembling the user prompt, turning the
  backend's JSON reply into generated code, scoring that code's complexity and estimating
  its render time. The backends themselves are an oracle `call` from (backend, user prompt)
  to what their reply yields once parsed.
*/
module LLMService {
  import opened Wrappers
  import opened Text

  datatype Backend = OpenAI | Gemini

  /** The options of a request that the service reads: `config.quality` and `config.duration`. */
  datatype Config = Config(quality: Option<string>, duration: Option<int>)

  /** An absent `config`, or `{}`: every option unset. */
  const NoConfig := Config(None, None)

  datatype CodeRequest = CodeRequest(prompt: string, config: Config, llm: Option<string>)

  datatype Complexity = Simple | Medium | Complex

  datatype CodeResult = CodeResult(
    generatedCode: string,
    estimatedRenderTime: int,
    complexity: Complexity,
    llmUsed: Backend)

  /**
    What a backend call yields: the SDK call threw, or its text (`''` when the SDK gave none)
    was not JSON, or it parsed; `code` is present only when the parsed reply's `code` field is a string.
  */
  datatype BackendReply =
    | CallFailed
    | NotJson
    | Parsed(code: Option<string>, status: Option<string>)

  // ---------------------------------------------------------------------------
  // Backend selection and error wrapping
  // ---------------------------------------------------------------------------

  /** `request.llm || 'openai'`. */
  function Choice(llm: Option<string>): string {
    Or(llm, "openai")
  }

  function BackendName(b: Backend): string {
    match b
    case OpenAI => "openai"
    case Gemini => "gemini"
  }

  /** The backend a choice names; any other choice is unsupported. */
  function SelectBackend(choice: string): Option<Backend> {
    if choice == "openai" then Some(OpenAI)
    else if choice == "gemini" then Some(Gemini)
    else None
  }

  /** The one message every generation failure is rethrown with. */
  function FailureMessage(choice: string): string {
    "Failed to generate Manim code using " + Upper(choice)
  }

  // ---------------------------------------------------------------------------
  // Prompt fragments
  // ---------------------------------------------------------------------------

  const HighQuality := "Use high-quality animations with smooth transitions, detailed mathematical objects, and professional styling."
  const MediumQuality := "Create balanced animations with good visual appeal and moderate complexity."
  const LowQuality := "Generate simple, quick animations focusing on core concepts."
  const DefaultQuality := "Create well-balanced animations with good visual quality."

  /** One fixed sentence per known quality, and a default sentence for anything else. */
  function QualityInstructions(quality: Option<string>): (r: string)
    ensures r in {HighQuality, MediumQuality, LowQuality, DefaultQuality}
    ensures r == DefaultQuality <==> quality !in {Some("high"), Some("medium"), Some("low")}
    ensures quality == Some("high") <==> r == HighQuality
    ensures quality == Some("low") <==> r == LowQuality
  {
    match quality
    case Some("high") => HighQuality
    case Some("medium") => MediumQuality
    case Some("low") => LowQuality
    case _ => DefaultQuality
  }

  /** `config?.duration` is truthy: present and non-zero. */
  predicate HasDuration(config: Config) {
    config.duration.Some? && config.duration.value != 0
  }

  /** The duration sentence, or nothing when no duration is asked for. */
  function DurationInstructions(config: Config): (r: string)
    ensures r == "" <==> !HasDuration(config)
  {
    if HasDuration(config) then
      "The animation should run for approximately " + IntToString(config.duration.value) + " seconds."
    else ""
  }

  const PromptTail := "\n\nGenerate Manim code for this animation."

  /** The user message both backends are sent. */
  function UserPrompt(prompt: string, config: Config): (r: string)
    ensures |r| >= |prompt| + 2 + |PromptTail| && r[..|prompt|] == prompt && r[|prompt|..|prompt| + 2] == "\n\n"
    ensures r[|r| - |PromptTail|..] == PromptTail
    ensures r[|prompt| + 2..|r| - |PromptTail|] == QualityInstructions(config.quality) + "\n" + DurationInstructions(config)
  {
    var middle := QualityInstructions(config.quality) + "\n" + DurationInstructions(config);
    var r := prompt + "\n\n" + middle + PromptTail;
    ConcatSlices(prompt, "\n\n", middle, PromptTail);
    r
  }

  /** The duration changes the prompt exactly when it is truthy. */
  lemma DurationShapesPrompt(prompt: string, config: Config)
    ensures UserPrompt(prompt, config) == UserPrompt(prompt, config.(duration := None))
            <==> !HasDuration(config)
  {
    var without := config.(duration := None);
    assert DurationInstructions(without) == "";
    if HasDuration(config) {
      assert |UserPrompt(prompt, config)| > |UserPrompt(prompt, without)|;
    }
  }

  // ---------------------------------------------------------------------------
  // Complexity score
  // ---------------------------------------------------------------------------

  /** A complexity level and the capability markers that count for it. */
  datatype Level = Level(name: string, markers: seq<string>)

  /** The marker table, in the order `Object.entries` visits it. */
  const Indicators: seq<Level> := [
    Level("simple", ["Create", "Write", "FadeIn", "FadeOut"]),
    Level("medium", ["Transform", "ReplacementTransform", "AnimationGroup"]),
    Level("complex", ["UpdateFromFunc", "always_redraw", "ValueTracker", "DecimalNumber"])
  ]

  /** Points per marker found: 1 for simple, 2 for medium, 3 otherwise. */
  function Weight(level: string): int {
    if level == "simple" then 1 else if level == "medium" then 2 else 3
  }

  /** Points from `markers`: `w` for each marker that occurs in the code, however often. */
  function MarkerPoints(code: string, w: nat, markers: seq<string>): (p: int)
    ensures 0 <= p <= w * |markers|
    decreases |markers|
  {
    if markers == [] then 0
    else
      var n := |markers| - 1;
      var p := MarkerPoints(code, w, markers[..n]) + (if Contains(code, markers[n]) then w else 0);
      assert w * |markers| == w * n + w;
      p
  }

  /** The most a table of levels can give. */
  function MaxPoints(levels: seq<Level>): int
    decreases |levels|
  {
    if levels == [] then 0
    else
      var n := |levels| - 1;
      MaxPoints(levels[..n]) + Weight(levels[n].name) * |levels[n].markers|
  }

  /** Points from every level of a table. */
  function LevelPoints(code: string, levels: seq<Level>): (p: int)
    ensures 0 <= p <= MaxPoints(levels)
    decreases |levels|
  {
    if levels == [] then 0
    else
      var n := |levels| - 1;
      LevelPoints(code, levels[..n]) + MarkerPoints(code, Weight(levels[n].name), levels[n].markers)
  }

  /** `code.split('\n').length`: one line more than there are line breaks. */
  function LineCount(code: string): (n: int)
    ensures n == Count(code, '\n') + 1
  {
    |Split(code, '\n')|
  }

  /** Two points beyond 50 lines, one beyond 25. */
  function LengthPoints(lines: int): int {
    if lines > 50 then 2 else if lines > 25 then 1 else 0
  }

  /** The complexity score: marker points plus length points, never outside 0..24. */
  function Score(code: string): (s: int)
    ensures 0 <= s <= 24
  {
    assert Indicators[..2][..1] == Indicators[..1] && Indicators[..3] == Indicators;
    assert Indicators[..1][..0] == [];
    assert MaxPoints(Indicators[..1]) == 4 by {
      assert Weight(Indicators[0].name) == 1;
    }
    assert MaxPoints(Indicators[..2]) == 10 by {
      assert Weight(Indicators[1].name) == 2;
    }
    assert MaxPoints(Indicators) == 22 by {
      assert Weight(Indicators[2].name) == 3;
    }
    LevelPoints(code, Indicators) + LengthPoints(LineCount(code))
  }

  function Classify(score: int): Complexity {
    if score <= 3 then Simple else if score <= 7 then Medium else Complex
  }

  /**
    Markers match as substrings, so `ReplacementTransform` brings `Transform` with it:
    such code scores at least 4 and is never classified simple.
  */
  lemma ReplacementTransformCountsTwice(code: string)
    requires Contains(code, "ReplacementTransform")
    ensures Contains(code, "Transform")
    ensures MarkerPoints(code, 2, Indicators[1].markers) >= 4
    ensures Score(code) >= 4 && Classify(Score(code)) != Simple
  {
    ContainsAt("ReplacementTransform", "Transform", 11);
    ContainsTransitive(code, "ReplacementTransform", "Transform");
    var medium := Indicators[1].markers;
    assert medium[..2][..1] == medium[..1] && medium[..3] == medium;
    assert medium[..1] == ["Transform"] && medium[1] == "ReplacementTransform";
    assert MarkerPoints(code, 2, medium) >= 4 by {
      assert MarkerPoints(code, 2, medium[..1]) == 2;
      assert MarkerPoints(code, 2, medium[..2]) == 4;
    }
    assert Indicators[..2][..1] == Indicators[..1] && Indicators[..3] == Indicators;
    assert LevelPoints(code, Indicators[..2]) >= 4;
  }

  /**
    `analyzeCodeComplexity`: the nested loop over the marker table accumulating the score,
    then the length points and the thresholds.
  */
  method AnalyzeCodeComplexity(code: string) returns (c: Complexity)
    ensures c == Classify(Score(code))
    ensures Contains(code, "ReplacementTransform") ==> c != Simple
  {
    var score := 0;
    var lines := |Split(code, '\n')|;
    for i := 0 to |Indicators|
      invariant score == LevelPoints(code, Indicators[..i])
    {
      var level := Indicators[i];
      var w := Weight(level.name);
      for j := 0 to |level.markers|
        invariant score == LevelPoints(code, Indicators[..i]) + MarkerPoints(code, w, level.markers[..j])
      {
        if Contains(code, level.markers[j]) {
          score := score + w;
        }
        assert level.markers[..j + 1][..j] == level.markers[..j];
      }
      assert level.markers[..|level.markers|] == level.markers;
      assert Indicators[..i + 1][..i] == Indicators[..i];
    }
    if lines > 50 {
      score := score + 2;
    } else if lines > 25 {
      score := score + 1;
    }
    assert Indicators[..|Indicators|] == Indicators;
    if score <= 3 {
      c := Simple;
    } else if score <= 7 {
      c := Medium;
    } else {
      c := Complex;
    }
    if Contains(code, "ReplacementTransform") {
      ReplacementTransformCountsTwice(code);
    }
  }

  // ---------------------------------------------------------------------------
  // Render-time estimate
  // ---------------------------------------------------------------------------

  function BaseTime(c: Complexity): int {
    match c
    case Simple => 15
    case Medium => 30
    case Complex => 60
  }

  /** The estimate before rounding: base time, quality factor, two seconds per second asked for. */
  function ExactRenderTime(c: Complexity, config: Config): real {
    var factor := if config.quality == Some("high") then 1.5
                  else if config.quality == Some("low") then 0.7
                  else 1.0;
    BaseTime(c) as real * factor + (if HasDuration(config) then (2 * config.duration.value) as real else 0.0)
  }

  /** `Math.round`: the nearest integer, halves rounded up. */
  function Round(x: real): (n: int)
    ensures n as real - 0.5 <= x < n as real + 0.5
  {
    (x + 0.5).Floor
  }

  function RenderTime(c: Complexity, config: Config): int {
    Round(ExactRenderTime(c, config))
  }

  /** `estimateRenderTime`: `time` adjusted step by step, then rounded. */
  method EstimateRenderTime(c: Complexity, config: Config) returns (t: int)
    ensures t as real - 0.5 <= ExactRenderTime(c, config) < t as real + 0.5
    ensures t == RenderTime(c, config)
  {
    var time: real := BaseTime(c) as real;
    if config.quality == Some("high") {
      time := time * 1.5;
    }
    if config.quality == Some("low") {
      time := time * 0.7;
    }
    if HasDuration(config) {
      time := time + (config.duration.value * 2) as real;
    }
    t := (time + 0.5).Floor;
  }

  /** Rounding commutes with adding a whole number. */
  lemma RoundShift(x: real, k: int)
    ensures Round(x + k as real) == Round(x) + k
  {
    var n := Round(x);
    var m := Round(x + k as real);
    assert m - k == n by {
      assert (m - k) as real - 0.5 <= x < (m - k) as real + 0.5;
    }
  }

  /**
    A truthy duration adds exactly two seconds per second to the rounded estimate; without one,
    the estimate is the rounded base time for the quality.
  */
  lemma DurationAddsTwoPerSecond(c: Complexity, config: Config)
    ensures HasDuration(config) ==>
      RenderTime(c, config) == RenderTime(c, config.(duration := None)) + 2 * config.duration.value
    ensures !HasDuration(config) ==> RenderTime(c, config) == RenderTime(c, config.(duration := None))
  {
    if HasDuration(config) {
      RoundShift(ExactRenderTime(c, config.(duration := None)), 2 * config.duration.value);
    }
  }

  /** Without a duration the estimate lies between 11 seconds (simple, low) and 90 (complex, high). */
  lemma RenderTimeRange(c: Complexity, quality: Option<string>)
    ensures 11 <= RenderTime(c, Config(quality, None)) <= 90
  {
    var x := ExactRenderTime(c, Config(quality, None));
    assert 10.5 <= x <= 90.0;
    var n := Round(x);
    assert 10.0 < n as real + 0.5 && n as real - 0.5 <= 90.0;
  }

  // ---------------------------------------------------------------------------
  // generateManimCode
  // ---------------------------------------------------------------------------

  /** The code field of a reply, when it is a string. */
  function ReplyCode(reply: BackendReply): Option<string> {
    if reply.Parsed? then reply.code else None
  }

  /**
    What `generateManimCode` yields. Exactly one backend, the one the choice names, is sent the
    user prompt; every failure (unsupported choice, backend error, bad JSON, no string `code`)
    carries the single wrapped message; on success the code is the reply's `code` field.
  */
  function Generation(req: CodeRequest, call: (Backend, string) -> BackendReply): (r: Result<CodeResult, string>)
    ensures r.Err? ==> r.error == FailureMessage(Choice(req.llm))
    ensures r.Ok? <==>
      SelectBackend(Choice(req.llm)).Some? &&
      ReplyCode(call(SelectBackend(Choice(req.llm)).value, UserPrompt(req.prompt, req.config))).Some?
    ensures r.Ok? ==>
      && BackendName(r.value.llmUsed) == Choice(req.llm)
      && Some(r.value.generatedCode) == ReplyCode(call(r.value.llmUsed, UserPrompt(req.prompt, req.config)))
      && r.value.complexity == Classify(Score(r.value.generatedCode))
      && r.value.estimatedRenderTime == RenderTime(r.value.complexity, req.config)
  {
    var choice := Choice(req.llm);
    match SelectBackend(choice)
    case None => Err(FailureMessage(choice))
    case Some(b) =>
      match ReplyCode(call(b, UserPrompt(req.prompt, req.config)))
      case None => Err(FailureMessage(choice))
      case Some(code) =>
        var complexity := Classify(Score(code));
        Ok(CodeResult(code, RenderTime(complexity, req.config), complexity, b))
  }

  /** `generateManimCode`: dispatch to one backend, then the two analysis steps, inside one try/catch. */
  method GenerateManimCode(req: CodeRequest, call: (Backend, string) -> BackendReply)
    returns (r: Result<CodeResult, string>)
    ensures r == Generation(req, call)
  {
    var choice := Choice(req.llm);
    var backend := SelectBackend(choice);
    if backend.None? {
      return Err(FailureMessage(choice));
    }
    var code := ReplyCode(call(backend.value, UserPrompt(req.prompt, req.config)));
    if code.None? {
      return Err(FailureMessage(choice));
    }
    var complexity := AnalyzeCodeComplexity(code.value);
    var time := EstimateRenderTime(complexity, req.config);
    r := Ok(CodeResult(code.value, time, complexity, backend.value));
  }

  /** The reply's `status` is never looked at: replies that agree on `code` give the same outcome. */
  lemma StatusNeverInspected(req: CodeRequest, call1: (Backend, string) -> BackendReply,
                             call2: (Backend, string) -> BackendReply)
    requires forall b, p :: ReplyCode(call1(b, p)) == ReplyCode(call2(b, p))
    ensures Generation(req, call1) == Generation(req, call2)
  {
  }
}
