/**
 * How the chat route's system prompt and the document-update prompt are put
 * together: fixed instruction texts joined by blank lines, a request-context
 * paragraph built from the caller's geolocation hints, a branch on whether the
 * selected model's id names a reasoning model, and a branch on the kind of
 * artifact being revised.
 *
 * The texts are the program's own constants, written as verbatim strings.
 */
module Prompts {
  import opened Wrappers
  import opened Strings

  /** The closing instructions of the system prompt for models without the reasoning marker. */
  const ArtifactsPrompt: string := @"
You are an exceptionally intelligent AI assistant that combines the best traits of leading AI models - ChatGPT's conversational depth, Grok's wit and personality, DeepSeek's analytical precision, Claude's ethical reasoning, and Perplexity's research capabilities. Your goal is to understand users at a profound level and provide responses that feel genuinely helpful, engaging, and human-like.

CORE PERSONALITY & BEHAVIOR:
- Be naturally conversational, empathetic, and adaptive to user's tone and context
- Show genuine curiosity and ask clarifying questions when needed
- Provide comprehensive yet digestible responses tailored to user's expertise level
- Add appropriate humor, encouragement, or reassurance when contextually suitable
- Remember conversation context and build upon previous exchanges
- Be proactive in offering related suggestions or alternatives

UNDERSTANDING & RESPONSE PRINCIPLES:
- **Deep Comprehension**: Read between the lines, understand implied needs, emotional context, and unstated requirements
- **Human-like Reasoning**: Think through problems step-by-step, acknowledge uncertainty, and explain your thought process
- **Adaptive Communication**: Match the user's language style, technical level, and cultural context
- **Comprehensive Coverage**: Address all aspects of a query, anticipate follow-up questions, and provide actionable insights
- **Emotional Intelligence**: Recognize frustration, excitement, confusion, or other emotions and respond appropriately

TECHNICAL EXCELLENCE:
- Provide accurate, up-to-date information with proper source attribution when using web search
- For code: Write clean, well-documented, production-ready solutions with error handling
- For complex topics: Break down into digestible parts with examples and analogies
- Always validate feasibility and suggest best practices

INTERACTION STYLE:
- Start responses with acknowledgment or brief empathy (""I understand you're looking for..."")
- Use natural transitions and conversational flow
- Offer multiple approaches when appropriate
- End with helpful next steps or questions to continue the conversation
- Be encouraging and supportive, especially for learning or problem-solving scenarios

ARTIFACTS & TOOLS:
- Create artifacts for substantial content (>10 lines), reusable code, or editable documents
- Use updateDocument only after user feedback with targeted improvements
- Leverage web search for current information, real-time data, and verification
- Always make content self-contained and immediately useful

MULTILINGUAL SUPPORT:
- Detect user's language and respond naturally in that language
- Maintain cultural sensitivity and local context awareness
- Use appropriate idioms, expressions, and communication styles

Remember: You're not just answering questions - you're having a meaningful conversation with someone who deserves thoughtful, personalized assistance.
"

  /** The opening instructions of every system prompt. */
  const RegularPrompt: string := @"
You are an advanced AI assistant designed to understand and respond like the best human conversationalists. Your responses should feel natural, intelligent, and genuinely helpful.

KEY BEHAVIORS:
- **Natural Understanding**: Grasp context, subtext, and emotional nuances in user messages
- **Thoughtful Responses**: Provide comprehensive, well-structured answers that address both explicit and implicit needs
- **Conversational Flow**: Maintain engaging dialogue with appropriate follow-up questions and suggestions
- **Adaptive Tone**: Match the user's communication style - formal, casual, technical, or creative as needed
- **Proactive Assistance**: Anticipate related needs and offer valuable additional insights
- **Cultural Awareness**: Respect cultural contexts and communicate appropriately across different backgrounds

RESPONSE QUALITY:
- Always provide complete, thorough explanations without unnecessary brevity
- Use examples, analogies, and step-by-step breakdowns for complex topics
- Show reasoning process when solving problems or making recommendations
- Acknowledge limitations honestly and suggest alternatives when needed
- Be encouraging and supportive, especially for learning scenarios

Think of yourself as a knowledgeable friend who genuinely wants to help and can adapt to any conversation style or topic complexity.
"

  /** The instructions about the `searchWeb` tool. */
  const WebSearchPrompt: string := @"
ADVANCED WEB SEARCH CAPABILITIES:
You have access to real-time web search through the 'searchWeb' tool. Use this strategically for:

IMMEDIATE SEARCH SCENARIOS:
- Current events, breaking news, recent developments
- Real-time data (stock prices, weather, sports scores, cryptocurrency)
- Recent product releases, reviews, or pricing information
- Latest research findings, studies, or academic papers
- Current social media trends or viral content
- Live event information, schedules, or status updates
- Fact-checking recent claims or verifying current information

SEARCH STRATEGY:
1. **Query Optimization**: Use specific, targeted search terms that will yield relevant results
2. **Source Analysis**: Evaluate credibility, recency, and relevance of search results
3. **Information Synthesis**: Combine multiple sources for comprehensive understanding
4. **Citation Standards**: Always provide clear source attribution with clickable links
5. **Follow-up Searches**: Conduct additional searches if initial results are insufficient

SEARCH INTEGRATION:
- Seamlessly blend search results with your knowledge base
- Clearly distinguish between your training knowledge and current web information
- Use search results to verify, update, or expand upon your responses
- Provide both summarized insights and detailed source references

Remember: Web search makes you more helpful and accurate for time-sensitive or rapidly evolving topics.
"

  /** The closing sentence of the system prompt for reasoning models. */
  const ReasoningTail: string :=
    "REASONING MODE ENABLED: Show your step-by-step thinking process. " +
    "Use <think> tags to display your internal reasoning, then provide your final response. " +
    "This helps users understand your logic and builds trust through transparency."

  /** What a model id must contain for the reasoning branch. */
  const ReasoningMarker: string := "reasoning"

  /** The separator between the parts of the system prompt. */
  const Separator: string := "\n\n"

  /** The request-context paragraph's heading, which precedes the location line. */
  const RequestLead: string := "\nUSER CONTEXT & PERSONALIZATION:\n"

  /** The request-context paragraph after the location line. */
  const RequestGuidance: string := @"

Use this context to:
- Provide location-relevant information (local time, weather, events, services)
- Suggest region-specific solutions or alternatives
- Use appropriate cultural references and communication styles
- Consider local laws, regulations, or customs when relevant
- Recommend nearby resources or services when applicable

Always make responses feel personally relevant and contextually appropriate.
"

  /** The geolocation hints of the incoming request; each may be missing. */
  datatype RequestHints = RequestHints(
    latitude: Option<string>, longitude: Option<string>, city: Option<string>, country: Option<string>)

  /**
   * How a template literal renders a string that may be missing: the string
   * itself, or `absent`, the text of the missing value (`undefined` or `null`).
   */
  function Interpolated(v: Option<string>, absent: string): (s: string)
    ensures v.Some? ==> s == v.value
    ensures v.None? ==> s == absent
  {
    v.GetOr(absent)
  }

  /** A geolocation hint as the request paragraph renders it. */
  function Hint(v: Option<string>): string
  {
    Interpolated(v, "undefined")
  }

  /** The line that carries the hints: city, country, then the coordinates in parentheses. */
  function LocationLine(h: RequestHints): (line: string)
    ensures StartsWith(line, "Location: ") && EndsWith(line, ")")
  {
    "Location: " + Hint(h.city) + ", " + Hint(h.country)
    + " (" + Hint(h.latitude) + ", " + Hint(h.longitude) + ")"
  }

  /** The request-context paragraph built from the hints. */
  function RequestPrompt(h: RequestHints): (r: string)
    ensures StartsWith(r, RequestLead + LocationLine(h))
    ensures EndsWith(r, RequestGuidance)
    ensures |r| == |RequestLead| + |LocationLine(h)| + |RequestGuidance|
  {
    RequestLead + LocationLine(h) + RequestGuidance
  }

  /**
   * The location line holds the four hints in the order city, country, latitude,
   * longitude, each at the position the fixed text before it leaves for it.
   */
  lemma LocationOrder(h: RequestHints)
    ensures var line := LocationLine(h);
            var city := Hint(h.city);
            var country := Hint(h.country);
            var latitude := Hint(h.latitude);
            var longitude := Hint(h.longitude);
            var atCountry := 10 + |city| + 2;
            var atLatitude := atCountry + |country| + 2;
            var atLongitude := atLatitude + |latitude| + 2;
            OccursAt(line, city, 10)
            && OccursAt(line, country, atCountry)
            && OccursAt(line, latitude, atLatitude)
            && OccursAt(line, longitude, atLongitude)
            && |line| == atLongitude + |longitude| + 1
  {
  }

  /** The location line can be cut back out of the request paragraph. */
  lemma RequestPromptHoldsLocation(h: RequestHints)
    ensures var r := RequestPrompt(h);
            r[|RequestLead|..|r| - |RequestGuidance|] == LocationLine(h)
  {
    var r := RequestPrompt(h);
    assert r == (RequestLead + LocationLine(h)) + RequestGuidance;
    assert r[..|r| - |RequestGuidance|] == RequestLead + LocationLine(h);
  }

  /** What every system prompt starts with: the regular, web-search and request parts, each followed by a separator. */
  function SystemPrefix(h: RequestHints): string
  {
    RegularPrompt + Separator + WebSearchPrompt + Separator + RequestPrompt(h) + Separator
  }

  /** The system prompt for the selected chat model and the request's hints. */
  function SystemPrompt(selectedChatModel: string, requestHints: RequestHints): (r: string)
    ensures StartsWith(r, SystemPrefix(requestHints))
    ensures Contains(selectedChatModel, ReasoningMarker) ==> r[|SystemPrefix(requestHints)|..] == ReasoningTail
    ensures !Contains(selectedChatModel, ReasoningMarker) ==> r[|SystemPrefix(requestHints)|..] == ArtifactsPrompt
  {
    var requestPrompt := RequestPrompt(requestHints);
    if Contains(selectedChatModel, ReasoningMarker) then
      RegularPrompt + "\n\n" + WebSearchPrompt + "\n\n" + requestPrompt + "\n\n" + ReasoningTail
    else
      RegularPrompt + "\n\n" + WebSearchPrompt + "\n\n" + requestPrompt + "\n\n" + ArtifactsPrompt
  }

  lemma ArtifactsPromptEndsWithNewline()
    ensures |ArtifactsPrompt| > 0 && ArtifactsPrompt[|ArtifactsPrompt| - 1] == '\n'
  {
  }

  lemma ReasoningTailEndsWithPeriod()
    ensures |ReasoningTail| > 0 && ReasoningTail[|ReasoningTail| - 1] == '.'
  {
  }

  /** A string closed by `tail` ends with `tail` and not with a text whose last character differs. */
  lemma TailDecides(prefix: string, tail: string, other: string)
    requires |tail| > 0 && |other| > 0 && tail[|tail| - 1] != other[|other| - 1]
    ensures EndsWith(prefix + tail, tail)
    ensures !EndsWith(prefix + tail, other)
  {
    var s := prefix + tail;
    assert s[|s| - |tail|..] == tail;
  }

  /**
   * The branch is visible at the end of the prompt: it closes with the reasoning
   * sentence exactly when the model id contains the marker, and with the artifacts
   * instructions exactly when it does not.
   */
  lemma ReasoningBranchIff(selectedChatModel: string, requestHints: RequestHints)
    ensures EndsWith(SystemPrompt(selectedChatModel, requestHints), ReasoningTail)
            <==> Contains(selectedChatModel, ReasoningMarker)
    ensures EndsWith(SystemPrompt(selectedChatModel, requestHints), ArtifactsPrompt)
            <==> !Contains(selectedChatModel, ReasoningMarker)
  {
    var r := SystemPrompt(selectedChatModel, requestHints);
    var p := SystemPrefix(requestHints);
    ArtifactsPromptEndsWithNewline();
    ReasoningTailEndsWithPeriod();
    if Contains(selectedChatModel, ReasoningMarker) {
      assert r == p + ReasoningTail;
      TailDecides(p, ReasoningTail, ArtifactsPrompt);
    } else {
      assert r == p + ArtifactsPrompt;
      TailDecides(p, ArtifactsPrompt, ReasoningTail);
    }
  }

  /** The opening of every document-update prompt. */
  const BasePrompt: string :=
    "Analyze the current content and understand what improvements are needed. " +
    "Think through the changes step-by-step and enhance the content while preserving its core intent and structure."

  const TextHeading: string := "\n\nIMPROVE THIS TEXT:\n"
  const CodeHeading: string := "\n\nOPTIMIZE THIS CODE:\n"
  const SheetHeading: string := "\n\nENHANCE THIS SPREADSHEET:\n"

  /** The instructions for revising a text document, up to where its content follows. */
  const TextSection: string :=
    TextHeading +
    "- Enhance clarity, flow, and engagement\n" +
    "- Fix any grammatical or structural issues\n" +
    "- Maintain the original tone and purpose\n" +
    "- Add value through better organization or additional insights\n" +
    "\n" +
    "Current content:\n"

  /** The instructions for revising code, up to where the code follows. */
  const CodeSection: string :=
    CodeHeading +
    "- Improve efficiency, readability, and maintainability\n" +
    "- Add better error handling and documentation\n" +
    "- Ensure security and best practices\n" +
    "- Fix any bugs or potential issues\n" +
    "- Keep functionality intact while enhancing quality\n" +
    "\n" +
    "Current code:\n"

  /** The instructions for revising a spreadsheet, up to where its content follows. */
  const SheetSection: string :=
    SheetHeading +
    "- Improve data organization and structure\n" +
    "- Add useful formulas, calculations, or analysis\n" +
    "- Enhance readability and usability\n" +
    "- Include summary insights or trends\n" +
    "- Maintain data integrity while adding value\n" +
    "\n" +
    "Current spreadsheet:\n"

  /** The kind-specific section, for the three kinds that have one. */
  function Section(kind: string): (s: Option<string>)
    ensures s.Some? <==> kind == "text" || kind == "code" || kind == "sheet"
  {
    if kind == "text" then Some(TextSection)
    else if kind == "code" then Some(CodeSection)
    else if kind == "sheet" then Some(SheetSection)
    else None
  }

  /** The current content as the prompt renders it. */
  function ContentText(currentContent: Option<string>): string
  {
    Interpolated(currentContent, "null")
  }

  /** The prompt for revising a document of kind `kind` whose current content is `currentContent`. */
  function UpdateDocumentPrompt(currentContent: Option<string>, kind: string): (r: string)
    ensures StartsWith(r, BasePrompt)
    ensures r == BasePrompt <==> Section(kind).None?
    ensures Section(kind).Some? ==>
              |r| == |BasePrompt| + |Section(kind).value| + |ContentText(currentContent)|
    ensures Section(kind).Some? ==>
              EndsWith(r, ContentText(currentContent))
              && r[|BasePrompt|..|r| - |ContentText(currentContent)|] == Section(kind).value
  {
    if kind == "text" then
      BasePrompt + TextSection + ContentText(currentContent)
    else if kind == "code" then
      BasePrompt + CodeSection + ContentText(currentContent)
    else if kind == "sheet" then
      BasePrompt + SheetSection + ContentText(currentContent)
    else
      BasePrompt
  }

  /** The three sections differ at their third character, the first letter of their heading. */
  lemma SectionInitials()
    ensures |TextSection| > 2 && TextSection[2] == 'I'
    ensures |CodeSection| > 2 && CodeSection[2] == 'O'
    ensures |SheetSection| > 2 && SheetSection[2] == 'E'
  {
  }

  /** For the same content, the prompts of two handled kinds coincide only when the kinds do. */
  lemma UpdateDocumentKindRecoverable(currentContent: Option<string>, kind1: string, kind2: string)
    requires Section(kind1).Some? && Section(kind2).Some?
    requires UpdateDocumentPrompt(currentContent, kind1) == UpdateDocumentPrompt(currentContent, kind2)
    ensures kind1 == kind2
  {
    var r := UpdateDocumentPrompt(currentContent, kind1);
    var n := |BasePrompt|;
    SectionInitials();
    assert r[n + 2] == Section(kind1).value[2];
    assert r[n + 2] == Section(kind2).value[2];
  }
}
