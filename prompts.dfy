/** The prompt the controller sends to the completion service: one heredoc
    template per objective, with the tone, an optional translation instruction
    and the key points spliced in. */
module Prompts {
  import opened Requests

  /** The nine objectives that have a template. */
  const Objectives: set<string> := {
    "Audiobook", "Long Video Sales Script", "Facebook Video Ads Script",
    "Instagram Video Ads Script", "YouTube Video Ads Script", "TV Commercials",
    "Radio Advert", "Podcast", "Tiktok Video Ads Script"
  }

  /** The five objectives whose template puts a `:` after the translation clause. */
  const ColonObjectives: set<string> := {
    "Facebook Video Ads Script", "Instagram Video Ads Script",
    "YouTube Video Ads Script", "TV Commercials", "Tiktok Video Ads Script"
  }

  /** The indentation each template line keeps: the heredoc body is indented four
      columns deeper than its closing marker, whose indentation PHP strips. */
  const Indent: string := "    "

  /** The sentence asking to use the key points, which the translation clause follows. */
  const KeyPointsSentence: string := "Use the following key points."

  /** The words between the tone and the translation clause. */
  const ToneSentence: string := " tone." + " " + KeyPointsSentence

  /** The label in front of the key points. */
  const KeyPointsLabel: string := "Key points: "

  /** The fixed parts of one template: the words before the tone, whether a `:`
      follows the translation clause, the whitespace of the blank second line and
      whatever follows the key points. */
  datatype Template = Template(lead: string, colon: bool, blankLine: string, trailer: string)

  /** The template the switch selects for an objective, if it has one. */
  function TemplateFor(objective: string): (t: Option<Template>)
    ensures t.Some? <==> objective in Objectives
    ensures t.Some? ==> (t.value.colon <==> objective in ColonObjectives)
  {
    if objective == "Audiobook" then
      Some(Template("Write a creative audio book using a ", false, "    ", ""))
    else if objective == "Long Video Sales Script" then
      Some(Template("Write a long video sales script using a ", false, "    ", ""))
    else if objective == "Facebook Video Ads Script" then
      Some(Template("Write a creative Facebook video ads script to run on Facebook using a ", true, "    ", "\n    "))
    else if objective == "Instagram Video Ads Script" then
      Some(Template("Write a creative Instagram video ads script to run on Instagram using a ", true, "    ", "\n"))
    else if objective == "YouTube Video Ads Script" then
      Some(Template("Write a creative YouTube video ads script to run on YouTube using a ", true, "        ", ""))
    else if objective == "TV Commercials" then
      Some(Template("Write a creative TV commercial using a ", true, "        ", ""))
    else if objective == "Radio Advert" then
      Some(Template("Write a creative Radio advert script using a ", false, "    ", ""))
    else if objective == "Podcast" then
      Some(Template("Write a creative Podcast script using a ", false, "    ", ""))
    else if objective == "Tiktok Video Ads Script" then
      Some(Template("Write a creative Tiktok video ads script to run on Tiktok using a ", true, "        ", ""))
    else
      None
  }

  /** The instruction to translate, present for every language but "english". */
  function TranslationClause(language: string): (c: string)
    ensures c == "" <==> language == "english"
  {
    if language != "english" then " Translate the result to " + language + "." else ""
  }

  /** The key points: the keywords, or nothing when they are absent. */
  function KeyPoints(keywords: Option<string>): (k: string)
    ensures keywords.Some? ==> k == keywords.value
    ensures keywords.None? ==> k == ""
  {
    keywords.GetOr("")
  }

  /** The first line of a template up to and including "Use the following key points.". */
  function Head(t: Template, tone: string): string
  {
    Indent + t.lead + tone + ToneSentence
  }

  /** The text of a template once filled in. */
  function Render(t: Template, tone: string, clause: string, keyPoints: string): (r: string)
    ensures Head(t, tone) + clause <= r
    ensures EndsWith(r, Indent + KeyPointsLabel + keyPoints + t.trailer)
  {
    Head(t, tone) + clause + (if t.colon then ":" else "") + "\n"
    + t.blankLine + "\n"
    + Indent + KeyPointsLabel + keyPoints + t.trailer
  }

  /** The prompt for a request, or None for an objective without a template
      (the switch's default branch, which throws). */
  function Prompt(request: Request): (p: Option<string>)
    ensures p.Some? <==> request.objective in Objectives
  {
    match TemplateFor(request.objective)
    case None => None
    case Some(t) =>
      Some(Render(t, request.tone, TranslationClause(request.language), KeyPoints(request.keywords)))
  }

  /** `t` occurs in `s` at some position. */
  predicate Contains(s: string, t: string)
  {
    exists i | 0 <= i <= |s| :: t <= s[i..]
  }

  /** `s` ends with `t`. */
  predicate EndsWith(s: string, t: string)
  {
    |t| <= |s| && s[|s| - |t|..] == t
  }

  /** `a` occurs in `a + b` and in `c + a + b` at the obvious positions. */
  lemma {:induction false} ContainsInConcat(c: string, a: string, b: string)
    ensures Contains(c + a + b, a)
  {
    var s := c + a + b;
    assert s[|c|..] == a + b;
  }

  /** What follows the translation clause in a filled-in template. */
  function Tail(t: Template, keyPoints: string): string
  {
    (if t.colon then ":" else "") + "\n" + t.blankLine + "\n" + Indent + KeyPointsLabel + keyPoints + t.trailer
  }

  /** A filled-in template is its head, the clause and its tail. */
  lemma RenderSplit(t: Template, tone: string, clause: string, keyPoints: string)
    ensures Render(t, tone, clause, keyPoints) == Head(t, tone) + clause + Tail(t, keyPoints)
  {
  }

  /** The prompt of a request with a template is that template filled in. */
  lemma PromptRenders(request: Request, p: string)
    requires Prompt(request) == Some(p)
    ensures TemplateFor(request.objective).Some?
    ensures p == Render(TemplateFor(request.objective).value, request.tone,
                        TranslationClause(request.language), KeyPoints(request.keywords))
  {
  }

  /** A filled-in template contains the tone verbatim. */
  lemma {:induction false} RenderContainsTone(t: Template, tone: string, clause: string, keyPoints: string)
    ensures Contains(Render(t, tone, clause, keyPoints), tone)
  {
    var rest := ToneSentence + clause + Tail(t, keyPoints);
    RenderSplit(t, tone, clause, keyPoints);
    assert Head(t, tone) + clause == (Indent + t.lead) + tone + (ToneSentence + clause);
    assert Render(t, tone, clause, keyPoints) == (Indent + t.lead) + tone + rest;
    ContainsInConcat(Indent + t.lead, tone, rest);
  }

  /** For each of the nine objectives the prompt contains the tone verbatim. */
  lemma {:induction false} PromptContainsTone(request: Request, p: string)
    requires Prompt(request) == Some(p)
    ensures Contains(p, request.tone)
  {
    PromptRenders(request, p);
    RenderContainsTone(TemplateFor(request.objective).value, request.tone,
                       TranslationClause(request.language), KeyPoints(request.keywords));
  }

  /** A filled-in template ends with the key points label, the key points and the trailer. */
  lemma {:induction false} RenderEndsWithKeyPoints(t: Template, tone: string, clause: string, keyPoints: string)
    ensures EndsWith(Render(t, tone, clause, keyPoints), KeyPointsLabel + keyPoints + t.trailer)
    ensures Contains(Render(t, tone, clause, keyPoints), KeyPointsLabel + keyPoints)
  {
    var r := Render(t, tone, clause, keyPoints);
    var kp := KeyPointsLabel + keyPoints;
    var front := Head(t, tone) + clause + (if t.colon then ":" else "") + "\n" + t.blankLine + "\n" + Indent;
    assert r == front + kp + t.trailer;
    assert r[|r| - |kp + t.trailer|..] == kp + t.trailer;
    ContainsInConcat(front, kp, t.trailer);
  }

  /** The prompt ends with "Key points: " immediately followed by the key points
      (and the template's trailing whitespace), so it also contains them. */
  lemma {:induction false} PromptEndsWithKeyPoints(request: Request, p: string)
    requires Prompt(request) == Some(p)
    ensures EndsWith(p, KeyPointsLabel + KeyPoints(request.keywords) + TemplateFor(request.objective).value.trailer)
    ensures Contains(p, KeyPointsLabel + KeyPoints(request.keywords))
  {
    PromptRenders(request, p);
    RenderEndsWithKeyPoints(TemplateFor(request.objective).value, request.tone,
                            TranslationClause(request.language), KeyPoints(request.keywords));
  }

  /** Absent keywords are treated as the empty string: the prompt is the one for
      empty keywords, and it ends with "Key points: " and nothing after it but
      the template's trailing whitespace. */
  lemma {:induction false} AbsentKeywordsAreEmpty(request: Request, p: string)
    requires request.keywords == None
    requires Prompt(request) == Some(p)
    ensures Prompt(request.(keywords := Some(""))) == Some(p)
    ensures EndsWith(p, KeyPointsLabel + TemplateFor(request.objective).value.trailer)
  {
    PromptEndsWithKeyPoints(request, p);
    assert KeyPointsLabel + KeyPoints(request.keywords) == KeyPointsLabel;
  }

  /** In a filled-in template the clause sits right after the head, and the tail
      starts with a `:` or a line break. */
  lemma {:induction false} RenderClauseAfterHead(t: Template, tone: string, clause: string, keyPoints: string)
    ensures var r := Render(t, tone, clause, keyPoints);
      var n := |Head(t, tone)|;
      n + |clause| < |r|
      && r[n - |ToneSentence|..n] == ToneSentence
      && r[n..n + |clause|] == clause
      && r[n + |clause|] == (if t.colon then ':' else '\n')
  {
    var r := Render(t, tone, clause, keyPoints);
    var head := Head(t, tone);
    var tail := Tail(t, keyPoints);
    RenderSplit(t, tone, clause, keyPoints);
    assert r == head + clause + tail;
    assert head[|head| - |ToneSentence|..] == ToneSentence;
    assert r[|head| - |ToneSentence|..|head|] == head[|head| - |ToneSentence|..];
    assert r[|head|..|head| + |clause|] == clause;
    assert r[|head| + |clause|] == tail[0];
  }

  /** Right after "Use the following key points." the prompt holds the
      translation clause: the next character is a space exactly when the language
      is not "english", and then " Translate the result to <language>." follows. */
  lemma {:induction false} TranslationClauseIff(request: Request, p: string)
    requires Prompt(request) == Some(p)
    ensures var t := TemplateFor(request.objective).value;
      var n := |Head(t, request.tone)|;
      n < |p|
      && p[n - |ToneSentence|..n] == ToneSentence
      && (p[n] == ' ' <==> request.language != "english")
      && (request.language != "english" ==>
            n + |TranslationClause(request.language)| <= |p|
            && p[n..n + |TranslationClause(request.language)|]
               == " Translate the result to " + request.language + ".")
  {
    var t := TemplateFor(request.objective).value;
    var clause := TranslationClause(request.language);
    PromptRenders(request, p);
    RenderClauseAfterHead(t, request.tone, clause, KeyPoints(request.keywords));
    var n := |Head(t, request.tone)|;
    if request.language != "english" {
      assert p[n] == p[n..n + |clause|][0];
    }
  }

  /** Right after the translation clause, the five colon templates put a `:` and
      the other four end the first line. */
  lemma {:induction false} ColonAfterClause(request: Request, p: string)
    requires Prompt(request) == Some(p)
    ensures var t := TemplateFor(request.objective).value;
      var m := |Head(t, request.tone)| + |TranslationClause(request.language)|;
      m < |p|
      && (p[m] == ':' <==> request.objective in ColonObjectives)
      && (p[m] != ':' ==> p[m] == '\n')
  {
    var t := TemplateFor(request.objective).value;
    PromptRenders(request, p);
    RenderClauseAfterHead(t, request.tone, TranslationClause(request.language), KeyPoints(request.keywords));
  }

  /** The head of a template ends with "Use the following key points.". */
  lemma HeadEndsWithKeyPointsSentence(t: Template, tone: string)
    ensures Head(t, tone) == (Indent + t.lead + tone + " tone. ") + KeyPointsSentence
  {
    assert " tone." + " " == " tone. ";
  }

  /** The tail of a template is its `:`, if any, a line break and the lines after the first. */
  lemma TailSplit(t: Template, keyPoints: string)
    ensures Tail(t, keyPoints)
         == (if t.colon then ":" else "") + "\n"
            + (t.blankLine + "\n" + Indent + KeyPointsLabel + keyPoints + t.trailer)
  {
  }

  /** A filled-in template contains "Use the following key points." followed by
      the clause, the template's `:`, if any, and a line break. */
  lemma {:induction false} RenderFirstLineEnd(t: Template, tone: string, clause: string, keyPoints: string)
    ensures Contains(Render(t, tone, clause, keyPoints),
                     KeyPointsSentence + clause + (if t.colon then ":" else "") + "\n")
  {
    var ending := KeyPointsSentence + clause + (if t.colon then ":" else "") + "\n";
    var before := Indent + t.lead + tone + " tone. ";
    var after := t.blankLine + "\n" + Indent + KeyPointsLabel + keyPoints + t.trailer;
    HeadEndsWithKeyPointsSentence(t, tone);
    TailSplit(t, keyPoints);
    RenderSplit(t, tone, clause, keyPoints);
    assert Render(t, tone, clause, keyPoints) == before + ending + after;
    ContainsInConcat(before, ending, after);
  }

  /** For English the first line ends with "points.:" in the five colon templates
      and with "points." in the other four. */
  lemma {:induction false} EnglishFirstLineEnd(request: Request, p: string)
    requires request.language == "english"
    requires Prompt(request) == Some(p)
    ensures request.objective in ColonObjectives ==> Contains(p, "Use the following key points.:\n")
    ensures request.objective !in ColonObjectives ==> Contains(p, "Use the following key points.\n")
  {
    var t := TemplateFor(request.objective).value;
    PromptRenders(request, p);
    RenderFirstLineEnd(t, request.tone, "", KeyPoints(request.keywords));
    FirstLineEndPieces();
  }

  /** The two ways an untranslated first line ends, joined. */
  lemma FirstLineEndPieces()
    ensures KeyPointsSentence + "" + ":" + "\n" == "Use the following key points.:\n"
    ensures KeyPointsSentence + "" + "" + "\n" == "Use the following key points.\n"
  {
  }

  /** The head of a template is the indentation, the opening sentence and the
      request to use the key points. */
  lemma HeadSplit(t: Template, tone: string)
    ensures Head(t, tone) == Indent + (t.lead + tone + " tone.") + (" " + KeyPointsSentence)
  {
  }

  /** A filled-in template contains its opening sentence: the lead, the tone and " tone.". */
  lemma {:induction false} RenderContainsOpening(t: Template, tone: string, clause: string, keyPoints: string)
    ensures Contains(Render(t, tone, clause, keyPoints), t.lead + tone + " tone.")
  {
    var opening := t.lead + tone + " tone.";
    var rest := (" " + KeyPointsSentence) + clause + Tail(t, keyPoints);
    HeadSplit(t, tone);
    RenderSplit(t, tone, clause, keyPoints);
    assert Render(t, tone, clause, keyPoints) == Indent + opening + rest;
    ContainsInConcat(Indent, opening, rest);
  }

  /** The template the switch selects for "Podcast". */
  lemma PodcastTemplate()
    ensures TemplateFor("Podcast") == Some(Template("Write a creative Podcast script using a ", false, "    ", ""))
  {
  }

  /** The pieces of the Podcast scenario, joined. */
  lemma PodcastPieces()
    ensures "Write a creative Podcast script using a " + "funny" + " tone."
         == "Write a creative Podcast script using a funny tone."
    ensures KeyPointsLabel + "dogs, parks" + "" == "Key points: dogs, parks"
  {
  }

  /** A Podcast request in English: the opening sentence names the tone and the
      key points close the prompt. */
  lemma PodcastScenario(p: string)
    requires Prompt(Request("Podcast", "funny", "english", Some("dogs, parks"), "high", 2)) == Some(p)
    ensures Contains(p, "Write a creative Podcast script using a funny tone.")
    ensures EndsWith(p, "Key points: dogs, parks")
  {
    var request := Request("Podcast", "funny", "english", Some("dogs, parks"), "high", 2);
    var t := Template("Write a creative Podcast script using a ", false, "    ", "");
    PodcastTemplate();
    PromptRenders(request, p);
    assert p == Render(t, "funny", "", "dogs, parks");
    RenderContainsOpening(t, "funny", "", "dogs, parks");
    RenderEndsWithKeyPoints(t, "funny", "", "dogs, parks");
    PodcastPieces();
  }

  /** The template the switch selects for "TV Commercials". */
  lemma TvCommercialTemplate()
    ensures TemplateFor("TV Commercials") == Some(Template("Write a creative TV commercial using a ", true, "        ", ""))
  {
  }

  /** The pieces of the French TV commercial scenario, joined. */
  lemma TvCommercialInFrenchPieces()
    ensures " Translate the result to french." + ":" + "\n" == " Translate the result to french.:\n"
    ensures KeyPointsLabel + "" + "" == "Key points: "
  {
  }

  /** A TV commercial in French: the translation clause follows "Use the following
      key points." and the template's colon follows the clause. */
  lemma TvCommercialInFrenchScenario(p: string)
    requires Prompt(Request("TV Commercials", "bold", "french", None, "optimal", 1)) == Some(p)
    ensures Contains(p, KeyPointsSentence + " Translate the result to french.:\n")
    ensures EndsWith(p, "Key points: ")
  {
    var request := Request("TV Commercials", "bold", "french", None, "optimal", 1);
    var t := Template("Write a creative TV commercial using a ", true, "        ", "");
    var clause := " Translate the result to french.";
    TvCommercialTemplate();
    PromptRenders(request, p);
    assert TranslationClause("french") == clause;
    assert p == Render(t, "bold", clause, "");
    RenderFirstLineEnd(t, "bold", clause, "");
    RenderEndsWithKeyPoints(t, "bold", clause, "");
    TvCommercialInFrenchPieces();
    assert KeyPointsSentence + clause + ":" + "\n" == KeyPointsSentence + (clause + ":" + "\n");
  }

  /** An objective without a template, such as "Haiku", yields no prompt. */
  lemma HaikuHasNoPrompt(request: Request)
    requires request.objective == "Haiku"
    ensures Prompt(request) == None
  {
  }
}
