/** Request preparation in `getGeminiSummary`: the article text is cut to a
    fixed ceiling and placed after an instruction chosen by the summary style. */
module Prompt {
  import opened Wrappers

  /** The ceiling on the article text sent upstream, in characters. */
  const MaxLength: nat := 20000
  /** The marker appended to a text that was cut. */
  const Ellipsis: string := "..."
  /** What separates the instruction from the article text. */
  const Separator: string := "\n\n"

  /** The text longer than the ceiling becomes its first `MaxLength` characters
      followed by the ellipsis (a raw character cut); anything else is kept. */
  function Truncate(text: string): (r: string)
    ensures |text| <= MaxLength ==> r == text
    ensures |text| > MaxLength ==>
              |r| == MaxLength + |Ellipsis| && r[..MaxLength] == text[..MaxLength] &&
              r[MaxLength..] == Ellipsis
    ensures |r| <= MaxLength + |Ellipsis|
  {
    if |text| > MaxLength then text[..MaxLength] + Ellipsis else text
  }

  /** Cutting twice is the same as cutting once: the result of a cut is itself
      over the ceiling and begins with the same `MaxLength` characters. */
  lemma {:induction false} TruncateIdempotent(text: string)
    ensures Truncate(Truncate(text)) == Truncate(text)
  {
  }

  /** The styles the popup's selector offers; `Default` stands for every value
      that is not one of the other three. */
  datatype SummaryStyle = Brief | Detailed | Bullets | Default

  /** The `switch (summaryType)` on the selector's value (strict equality). */
  function StyleOf(summaryType: string): (s: SummaryStyle)
    ensures s == Brief <==> summaryType == "brief"
    ensures s == Detailed <==> summaryType == "detailed"
    ensures s == Bullets <==> summaryType == "bullets"
    ensures s == Default <==> summaryType !in {"brief", "detailed", "bullets"}
  {
    if summaryType == "brief" then Brief
    else if summaryType == "detailed" then Detailed
    else if summaryType == "bullets" then Bullets
    else Default
  }

  /** The instruction each style sends. Each is written as a short lead
      followed by the rest; the leads alone already tell the four apart. */
  function Instruction(style: SummaryStyle): (r: string)
    ensures style == Brief || style == Detailed ==>
              |r| > 10 && r[0] == 'P' && r[10] == (if style == Brief then 'b' else 'd')
    ensures style == Bullets || style == Default ==>
              |r| > 31 && r[0] == 'S' && r[31] == (if style == Bullets then ' ' else ':')
  {
    match style
    case Brief =>
      "Provide a brief " + "summary of the following article in 2-3 sentences:"
    case Detailed =>
      "Provide a detailed " + "summary of the following article, covering all main points and key details:"
    case Bullets =>
      "Summarize the following article in "
      + "5-7 key points. Format each point as a line starting with \"- \" (dash followed by a space). Do not use asterisks or other bullet symbols, only use the dash. Keep each point concise and focused on a single key insight from the article:"
    case Default =>
      "Summarize the following article:"
  }

  /** What precedes the article text in a prompt of the given style. */
  function Header(style: SummaryStyle): string
  {
    Instruction(style) + Separator
  }

  /** The prompt: the selected instruction, a blank line, the cut text. */
  function BuildPrompt(text: string, summaryType: string): (p: string)
    ensures var h := Header(StyleOf(summaryType));
            |h| <= |p| && p[..|h|] == h && p[|h|..] == Truncate(text)
    ensures |p| <= |Header(StyleOf(summaryType))| + MaxLength + |Ellipsis|
  {
    Header(StyleOf(summaryType)) + Truncate(text)
  }

  /** The rest of `p` after `prefix`, when `p` starts with `prefix`. */
  function StripPrefix(prefix: string, p: string): (r: Option<string>)
    ensures r.Some? ==> p == prefix + r.value
  {
    if |prefix| <= |p| && p[..|prefix|] == prefix then
      assert p == p[..|prefix|] + p[|prefix|..];
      Some(p[|prefix|..])
    else None
  }

  /** A string followed by anything reads back as that anything. */
  lemma {:induction false} StripOwnPrefix(prefix: string, rest: string)
    ensures StripPrefix(prefix, prefix + rest) == Some(rest)
  {
  }

  /** A string that differs from `other` at position `k` is not a prefix of
      `other` followed by anything. */
  lemma {:induction false} StripOtherPrefix(prefix: string, other: string, k: nat, rest: string)
    requires k < |prefix| && k < |other| && prefix[k] != other[k]
    ensures StripPrefix(prefix, other + rest).None?
  {
  }

  /** Reads a prompt back: which style's header it starts with, and the text
      after the header. The headers are tried in the order of the `switch`. */
  function ParsePrompt(p: string): Option<(SummaryStyle, string)>
  {
    match (StripPrefix(Header(Brief), p), StripPrefix(Header(Detailed), p),
           StripPrefix(Header(Bullets), p), StripPrefix(Header(Default), p))
    case (Some(t), _, _, _) => Some((Brief, t))
    case (None, Some(t), _, _) => Some((Detailed, t))
    case (None, None, Some(t), _) => Some((Bullets, t))
    case (None, None, None, Some(t)) => Some((Default, t))
    case (None, None, None, None) => None
  }

  /** Where the headers part ways: the brief and detailed ones at position 10
      ('b' against 'd'), and both of them and the two others at position 0
      ('P' against 'S'). */
  lemma ProvideHeadersDiffer()
    ensures |Header(Brief)| > 10 && |Header(Detailed)| > 10 && Header(Brief)[10] != Header(Detailed)[10]
    ensures Header(Brief)[0] == Header(Detailed)[0] == 'P'
  {
  }

  /** The bullets and default headers both start with "S" and part ways at
      position 31 (' ' against ':'). */
  lemma SummarizeHeadersDiffer()
    ensures |Header(Bullets)| > 31 && |Header(Default)| > 31 && Header(Bullets)[31] != Header(Default)[31]
    ensures Header(Bullets)[0] == Header(Default)[0] == 'S'
  {
  }

  /** A header followed by any text reads back as that style and that text. */
  lemma {:induction false} ParseHeaderThenText(style: SummaryStyle, rest: string)
    ensures ParsePrompt(Header(style) + rest) == Some((style, rest))
  {
    ProvideHeadersDiffer();
    SummarizeHeadersDiffer();
    StripOwnPrefix(Header(style), rest);
    match style
    case Brief =>
    case Detailed =>
      StripOtherPrefix(Header(Brief), Header(Detailed), 10, rest);
    case Bullets =>
      StripOtherPrefix(Header(Brief), Header(Bullets), 0, rest);
      StripOtherPrefix(Header(Detailed), Header(Bullets), 0, rest);
    case Default =>
      StripOtherPrefix(Header(Brief), Header(Default), 0, rest);
      StripOtherPrefix(Header(Detailed), Header(Default), 0, rest);
      StripOtherPrefix(Header(Bullets), Header(Default), 31, rest);
  }

  /** The style and the cut text can always be recovered from a prompt, so two
      prompts are equal only when style and cut text are. */
  lemma {:induction false} ParseBuildPrompt(text: string, summaryType: string)
    ensures ParsePrompt(BuildPrompt(text, summaryType)) == Some((StyleOf(summaryType), Truncate(text)))
  {
    ParseHeaderThenText(StyleOf(summaryType), Truncate(text));
  }

  /** Conversely, whatever `ParsePrompt` accepts is a header followed by the
      recovered text. */
  lemma {:induction false} ParsePromptSound(p: string, style: SummaryStyle, rest: string)
    requires ParsePrompt(p) == Some((style, rest))
    ensures p == Header(style) + rest
  {
  }
}
