/** Run configuration: the path filter, the choice of token budgets by mode,
    and the per-provider model options (src/options.ts). */
module Options {
  import opened Wrappers
  import opened Text
  import opened Limits

  /** One path rule: a glob pattern and whether it excludes (`!pattern`) or
      includes. */
  datatype Rule = Rule(pattern: string, exclude: bool)

  /** What parsing guarantees of a rule: its pattern is trimmed, and an include
      rule's pattern is non-empty and does not start with `!`. An exclude rule
      may have an empty pattern (from a lone `!`). */
  predicate WellFormed(r: Rule) {
    && IsTrimmed(r.pattern)
    && (!r.exclude ==> r.pattern != [] && r.pattern[0] != '!')
  }

  /** How one rule string is read: trimmed, dropped when blank, and turned
      into an exclude rule (pattern re-trimmed) when it starts with `!`. A
      rule is dropped exactly when its string is blank, and every kept rule
      is well formed. */
  function ParseRule(raw: string): (r: Option<Rule>)
    ensures r.None? <==> IsBlank(raw)
    ensures r.Some? ==> WellFormed(r.value)
  {
    TrimEmptyIff(raw);
    var trimmed := Trim(raw);
    if trimmed == [] then None
    else if trimmed[0] == '!' then Some(Rule(Trim(trimmed[1..]), true))
    else Some(Rule(trimmed, false))
  }

  /** The present results of `f` over `xs`, in order. */
  function FilterMap<A, B>(xs: seq<A>, f: A -> Option<B>): seq<B> {
    if xs == [] then []
    else FilterMap(xs[..|xs| - 1], f) + (if f(xs[|xs| - 1]).Some? then [f(xs[|xs| - 1]).value] else [])
  }

  lemma FilterMapSnoc<A, B>(xs: seq<A>, x: A, f: A -> Option<B>)
    ensures FilterMap(xs + [x], f) == FilterMap(xs, f) + (if f(x).Some? then [f(x).value] else [])
  {
    assert (xs + [x])[..|xs|] == xs;
  }

  lemma {:induction false} FilterMapAppend<A, B>(xs: seq<A>, ys: seq<A>, f: A -> Option<B>)
    ensures FilterMap(xs + ys, f) == FilterMap(xs, f) + FilterMap(ys, f)
  {
    if ys == [] {
      assert xs + ys == xs;
    } else {
      var init, last := ys[..|ys| - 1], ys[|ys| - 1];
      assert ys == init + [last];
      assert xs + ys == (xs + init) + [last];
      FilterMapSnoc(xs + init, last, f);
      FilterMapAppend(xs, init, f);
      FilterMapSnoc(init, last, f);
    }
  }

  lemma {:induction false} FilterMapEmptyIff<A, B>(xs: seq<A>, f: A -> Option<B>)
    ensures FilterMap(xs, f) == [] <==> forall i :: 0 <= i < |xs| ==> f(xs[i]).None?
  {
    if xs != [] {
      var init := xs[..|xs| - 1];
      FilterMapEmptyIff(init, f);
      assert forall i :: 0 <= i < |init| ==> init[i] == xs[i];
    }
  }

  lemma {:induction false} FilterMapMembers<A, B>(xs: seq<A>, f: A -> Option<B>, y: B)
    requires y in FilterMap(xs, f)
    ensures exists i :: 0 <= i < |xs| && f(xs[i]) == Some(y)
  {
    var init := xs[..|xs| - 1];
    if y in FilterMap(init, f) {
      FilterMapMembers(init, f, y);
      var i :| 0 <= i < |init| && f(init[i]) == Some(y);
      assert xs[i] == init[i];
    } else {
      assert f(xs[|xs| - 1]) == Some(y);
    }
  }

  /** The rules a list of rule strings yields, in input order. */
  function ParseRules(raws: seq<string>): seq<Rule> {
    FilterMap(raws, ParseRule)
  }

  /** The rule string that denotes `r`. */
  function RuleText(r: Rule): string {
    if r.exclude then "!" + r.pattern else r.pattern
  }

  function RuleTexts(rules: seq<Rule>): (raws: seq<string>)
    ensures |raws| == |rules|
  {
    if rules == [] then [] else RuleTexts(rules[..|rules| - 1]) + [RuleText(rules[|rules| - 1])]
  }

  lemma ParseRulesWellFormed(raws: seq<string>)
    ensures forall r :: r in ParseRules(raws) ==> WellFormed(r)
  {
    forall r | r in ParseRules(raws) ensures WellFormed(r) {
      FilterMapMembers(raws, ParseRule, r);
      var i :| 0 <= i < |raws| && ParseRule(raws[i]) == Some(r);
    }
  }

  /** Parsing is rule-by-rule and keeps the input order: the rules of a
      concatenation are the concatenation of the rules. */
  lemma ParseRulesAppend(a: seq<string>, b: seq<string>)
    ensures ParseRules(a + b) == ParseRules(a) + ParseRules(b)
  {
    FilterMapAppend(a, b, ParseRule);
  }

  /** No rules come out exactly when every rule string is blank. */
  lemma ParseRulesEmptyIff(raws: seq<string>)
    ensures ParseRules(raws) == [] <==> forall i :: 0 <= i < |raws| ==> IsBlank(raws[i])
  {
    FilterMapEmptyIff(raws, ParseRule);
  }

  /** An include rule written with blanks around it keeps its trimmed
      pattern. */
  lemma PaddedInclude(a: string, p: string, b: string)
    requires IsBlank(a) && IsBlank(b) && WellFormed(Rule(p, false))
    ensures ParseRule(a + p + b) == Some(Rule(p, false))
  {
    TrimPadded(a, p, b);
  }

  /** An exclude rule written with blanks around it and between `!` and the
      pattern keeps its trimmed pattern. */
  lemma PaddedExclude(a: string, c: string, p: string, b: string)
    requires IsBlank(a) && IsBlank(b) && IsBlank(c) && IsTrimmed(p) && p != []
    ensures ParseRule(a + "!" + c + p + b) == Some(Rule(p, true))
  {
    var t := "!" + c + p;
    assert a + "!" + c + p + b == a + t + b;
    assert t[|t| - 1] == p[|p| - 1];
    TrimPadded(a, t, b);
    assert t[1..] == c + p + [];
    TrimPadded(c, p, []);
  }

  /** A `!` with nothing but blanks around it is an exclude rule with an
      empty pattern. */
  lemma PaddedLoneBang(a: string, c: string, b: string)
    requires IsBlank(a) && IsBlank(b) && IsBlank(c)
    ensures ParseRule(a + "!" + c + b) == Some(Rule("", true))
  {
    assert a + "!" + c + b == a + "!" + (c + b);
    assert IsBlank(c + b) by {
      assert forall m :: 0 <= m < |c + b| ==> (c + b)[m] == if m < |c| then c[m] else b[m - |c|];
    }
    TrimPadded(a, "!", c + b);
    assert "!"[1..] == [];
  }

  /** A lone `!`, with or without trailing blanks, is kept as an exclude rule
      with an empty pattern. */
  lemma LoneBang()
    ensures ParseRules(["!"]) == [Rule("", true)]
    ensures ParseRules(["!  "]) == [Rule("", true)]
  {
    assert ["!"][..0] == [] && ["!  "][..0] == [];
    assert Trim("!") == "!";
    assert SkipForward("!  ", 0) == 0;
    assert SkipBackward("!  ", 3) == 1;
    assert Trim("!  ") == "!";
    assert "!"[1..] == "";
  }

  /** Writing a well-formed rule out and parsing it back gives the rule. */
  lemma RuleRoundTrip(r: Rule)
    requires WellFormed(r)
    ensures ParseRule(RuleText(r)) == Some(r)
  {
    TrimOfTrimmed(r.pattern);
    if r.exclude {
      var s := "!" + r.pattern;
      assert IsTrimmed(s);
      TrimOfTrimmed(s);
      assert s[1..] == r.pattern;
    }
  }

  /** Parsing inverts writing for any list of well-formed rules. */
  lemma {:induction false} RulesRoundTrip(rules: seq<Rule>)
    requires forall r :: r in rules ==> WellFormed(r)
    ensures ParseRules(RuleTexts(rules)) == rules
  {
    if rules != [] {
      var init, last := rules[..|rules| - 1], rules[|rules| - 1];
      assert RuleTexts(rules) == RuleTexts(init) + [RuleText(last)];
      FilterMapSnoc(RuleTexts(init), RuleText(last), ParseRule);
      RulesRoundTrip(init);
      RuleRoundTrip(last);
      assert rules == init + [last];
    }
  }

  /** The verdict of a filter on a path, stated declaratively: some include
      rule matches or there is none, and no exclude rule matches. `matches`
      stands for the glob matcher (`minimatch(path, pattern)`). */
  predicate Admits(rules: seq<Rule>, path: string, matches: (string, string) -> bool) {
    && ((forall r :: r in rules ==> r.exclude)
        || (exists r :: r in rules && !r.exclude && matches(path, r.pattern)))
    && !(exists r :: r in rules && r.exclude && matches(path, r.pattern))
  }

  /** `PathFilter`: the ordered rule list, fixed at construction. */
  class PathFilter {
    const rules: seq<Rule>

    /** `new PathFilter(rules)`; `None` is `null`. */
    constructor(raws: Option<seq<string>>)
      ensures rules == if raws.Some? then ParseRules(raws.value) else []
    {
      var acc: seq<Rule> := [];
      if raws.Some? {
        var items := raws.value;
        for i := 0 to |items|
          invariant acc == ParseRules(items[..i])
        {
          var trimmed := Trim(items[i]);
          if trimmed != [] {
            if trimmed[0] == '!' {
              acc := acc + [Rule(Trim(trimmed[1..]), true)];
            } else {
              acc := acc + [Rule(trimmed, false)];
            }
          }
          assert items[..i + 1] == items[..i] + [items[i]];
          FilterMapSnoc(items[..i], items[i], ParseRule);
        }
        assert items[..|items|] == items;
      }
      rules := acc;
    }

    /** `check(path)`: one pass over the rules that records whether an include
        rule matched, whether an exclude rule matched, and whether any include
        rule exists. */
    method Check(path: string, matches: (string, string) -> bool) returns (ok: bool)
      ensures ok == Admits(rules, path, matches)
    {
      if |rules| == 0 {
        return true;
      }
      var included, excluded, inclusionRuleExists := false, false, false;
      for i := 0 to |rules|
        invariant included == exists r :: r in rules[..i] && !r.exclude && matches(path, r.pattern)
        invariant excluded == exists r :: r in rules[..i] && r.exclude && matches(path, r.pattern)
        invariant inclusionRuleExists == exists r :: r in rules[..i] && !r.exclude
      {
        var rule := rules[i];
        if matches(path, rule.pattern) {
          if rule.exclude {
            excluded := true;
          } else {
            included := true;
          }
        }
        if !rule.exclude {
          inclusionRuleExists := true;
        }
        assert rules[..i + 1] == rules[..i] + [rule];
      }
      assert rules[..|rules|] == rules;
      ok := (!inclusionRuleExists || included) && !excluded;
    }
  }

  /** With no rules every path passes. */
  lemma EmptyAdmitsAll(path: string, matches: (string, string) -> bool)
    ensures Admits([], path, matches)
  {
  }

  /** A filter built from blank rule strings only has no rules. */
  lemma BlankRulesGiveNoRules(raws: seq<string>)
    requires forall i :: 0 <= i < |raws| ==> IsBlank(raws[i])
    ensures ParseRules(raws) == []
  {
    ParseRulesEmptyIff(raws);
  }

  /** An exclude rule that matches rejects the path whatever the includes do. */
  lemma ExcludeWins(rules: seq<Rule>, path: string, matches: (string, string) -> bool, r: Rule)
    requires r in rules && r.exclude && matches(path, r.pattern)
    ensures !Admits(rules, path, matches)
  {
  }

  /** Once an include rule exists, a path that no include rule matches is
      rejected. */
  lemma IncludeRequired(rules: seq<Rule>, path: string, matches: (string, string) -> bool, r: Rule)
    requires r in rules && !r.exclude
    requires forall q :: q in rules && !q.exclude ==> !matches(path, q.pattern)
    ensures !Admits(rules, path, matches)
  {
  }

  /** With only exclude rules, a path that none of them matches passes. */
  lemma OnlyExcludes(rules: seq<Rule>, path: string, matches: (string, string) -> bool)
    requires forall r :: r in rules ==> r.exclude && !matches(path, r.pattern)
    ensures Admits(rules, path, matches)
  {
  }

  /** The verdict depends only on which rules are present, not on their order
      or repetition. */
  lemma AdmitsOrderIndependent(a: seq<Rule>, b: seq<Rule>, path: string, matches: (string, string) -> bool)
    requires forall r :: r in a <==> r in b
    ensures Admits(a, path, matches) == Admits(b, path, matches)
  {
  }

  /** The budgets `Options` picks for the light and heavy models: OpenAI's
      table in mode `openai`, Gemini's table in every other mode. */
  function SelectTokenLimits(mode: string, lightModel: string, heavyModel: string): (limits: (TokenLimits, TokenLimits))
    ensures limits.0.Valid() && limits.1.Valid()
  {
    if mode == "openai" then (OpenAITokenLimits(lightModel), OpenAITokenLimits(heavyModel))
    else (GeminiTokenLimits(lightModel), GeminiTokenLimits(heavyModel))
  }

  /** Only mode `openai` uses OpenAI's table; `gemini`, `anthropic` and any
      other mode use Gemini's, whose knowledge cutoff then reaches the bot. */
  lemma ModeSelection(mode: string, lightModel: string, heavyModel: string)
    ensures mode == "openai" ==>
      SelectTokenLimits(mode, lightModel, heavyModel).0 == OpenAITokenLimits(lightModel) &&
      SelectTokenLimits(mode, lightModel, heavyModel).1 == OpenAITokenLimits(heavyModel)
    ensures mode != "openai" ==>
      SelectTokenLimits(mode, lightModel, heavyModel).0 == GeminiTokenLimits(lightModel) &&
      SelectTokenLimits(mode, lightModel, heavyModel).1 == GeminiTokenLimits(heavyModel)
    ensures SelectTokenLimits(mode, lightModel, heavyModel).0.knowledgeCutOff ==
      if mode == "openai" then OpenAIKnowledgeCutOff else GeminiKnowledgeCutOff
  {
  }

  /** `Options`: the run-wide settings, fixed at construction. The numeric
      settings arrive already parsed. */
  class Options {
    const debug: bool
    const disableReview: bool
    const disableReleaseNotes: bool
    const maxFiles: int
    const reviewSimpleChanges: bool
    const reviewCommentLgtm: bool
    const pathFilters: PathFilter
    const systemMessage: string
    const mode: string
    const lightModel: string
    const heavyModel: string
    const modelTemperature: real
    const retries: int
    const timeoutMS: int
    const concurrencyLimit: int
    const githubConcurrencyLimit: int
    const lightTokenLimits: TokenLimits
    const heavyTokenLimits: TokenLimits
    const language: string

    constructor(
      debug: bool, disableReview: bool, disableReleaseNotes: bool, maxFiles: int,
      reviewSimpleChanges: bool, reviewCommentLgtm: bool, pathFilters: Option<seq<string>>,
      systemMessage: string, mode: string, lightModel: string, heavyModel: string,
      modelTemperature: real, retries: int, timeoutMS: int, concurrencyLimit: int,
      githubConcurrencyLimit: int, language: string)
      ensures this.debug == debug && this.disableReview == disableReview
      ensures this.disableReleaseNotes == disableReleaseNotes && this.maxFiles == maxFiles
      ensures this.reviewSimpleChanges == reviewSimpleChanges && this.reviewCommentLgtm == reviewCommentLgtm
      ensures fresh(this.pathFilters)
      ensures this.pathFilters.rules == if pathFilters.Some? then ParseRules(pathFilters.value) else []
      ensures this.systemMessage == systemMessage && this.mode == mode
      ensures this.lightModel == lightModel && this.heavyModel == heavyModel
      ensures this.modelTemperature == modelTemperature && this.retries == retries
      ensures this.timeoutMS == timeoutMS && this.concurrencyLimit == concurrencyLimit
      ensures this.githubConcurrencyLimit == githubConcurrencyLimit
      ensures (lightTokenLimits, heavyTokenLimits) == SelectTokenLimits(mode, lightModel, heavyModel)
      ensures this.language == language
    {
      this.debug := debug;
      this.disableReview := disableReview;
      this.disableReleaseNotes := disableReleaseNotes;
      this.maxFiles := maxFiles;
      this.reviewSimpleChanges := reviewSimpleChanges;
      this.reviewCommentLgtm := reviewCommentLgtm;
      this.pathFilters := new PathFilter(pathFilters);
      this.systemMessage := systemMessage;
      this.mode := mode;
      this.lightModel := lightModel;
      this.heavyModel := heavyModel;
      this.modelTemperature := modelTemperature;
      this.retries := retries;
      this.timeoutMS := timeoutMS;
      this.concurrencyLimit := concurrencyLimit;
      this.githubConcurrencyLimit := githubConcurrencyLimit;
      if mode == "openai" {
        this.lightTokenLimits := OpenAITokenLimits(lightModel);
        this.heavyTokenLimits := OpenAITokenLimits(heavyModel);
      } else {
        this.lightTokenLimits := GeminiTokenLimits(lightModel);
        this.heavyTokenLimits := GeminiTokenLimits(heavyModel);
      }
      this.language := language;
    }

    /** `checkPath(path)`: the path filter's verdict. */
    method CheckPath(path: string, matches: (string, string) -> bool) returns (ok: bool)
      ensures ok == Admits(pathFilters.rules, path, matches)
    {
      ok := pathFilters.Check(path, matches);
    }
  }

  /** The model a bot talks to and the budget it uses; the shape shared by
      `OpenAIOptions`, `GeminiAIOptions` and `AnthropicAIOptions`. */
  datatype ModelOptions = ModelOptions(model: string, tokenLimits: TokenLimits)

  const DefaultAnthropicOptionsModel := "claude-3-5-sonnet"

  /** `new OpenAIOptions(model, tokenLimits)`: the given budget, else the one
      OpenAI's table derives from the model. */
  function NewOpenAIOptions(model: string, tokenLimits: Option<TokenLimits>): (o: ModelOptions)
    ensures o.model == model
    ensures o.tokenLimits == tokenLimits.GetOr(OpenAITokenLimits(model))
    ensures o.tokenLimits.Valid() <== tokenLimits.None? || tokenLimits.value.Valid()
  {
    if tokenLimits.Some? then ModelOptions(model, tokenLimits.value)
    else ModelOptions(model, OpenAITokenLimits(model))
  }

  /** `new GeminiAIOptions(model, tokenLimits)`. */
  function NewGeminiAIOptions(model: string, tokenLimits: Option<TokenLimits>): (o: ModelOptions)
    ensures o.model == model
    ensures o.tokenLimits == tokenLimits.GetOr(GeminiTokenLimits(model))
    ensures o.tokenLimits.Valid() <== tokenLimits.None? || tokenLimits.value.Valid()
  {
    if tokenLimits.Some? then ModelOptions(model, tokenLimits.value)
    else ModelOptions(model, GeminiTokenLimits(model))
  }

  /** `new AnthropicAIOptions(model, tokenLimits)`: with no budget given it
      derives one from Gemini's table, not Anthropic's. */
  function NewAnthropicAIOptions(model: string, tokenLimits: Option<TokenLimits>): (o: ModelOptions)
    ensures o.model == model
    ensures o.tokenLimits == tokenLimits.GetOr(GeminiTokenLimits(model))
    ensures o.tokenLimits.Valid() <== tokenLimits.None? || tokenLimits.value.Valid()
  {
    if tokenLimits.Some? then ModelOptions(model, tokenLimits.value)
    else ModelOptions(model, GeminiTokenLimits(model))
  }

  /** Anthropic options derived from the model carry Gemini's cutoff, and for
      the default model Gemini's default bucket, whose window is more than
      five times Anthropic's. */
  lemma AnthropicOptionsUseGeminiTable(model: string)
    ensures NewAnthropicAIOptions(model, None).tokenLimits.knowledgeCutOff == GeminiKnowledgeCutOff
    ensures NewAnthropicAIOptions(DefaultAnthropicOptionsModel, None).tokenLimits.maxTokens == 1048576
    ensures AnthropicTokenLimits(DefaultAnthropicOptionsModel).maxTokens == 200000
  {
  }
}
