// The council pipeline of backend/council.py: intent analysis, panel
// brainstorming and normalisation, sequential expert contributions, the
// review stages, the final synthesis and the conversation title. Every model
// call goes through the caller-supplied oracle `ask`, which stands for
// query_model on the prompt the stage builds; a `Call` records what that
// prompt is built from.

module Council {
  import opened Wrappers
  import opened Json
  import Text
  import opened OpenRouter

  const NumExperts: nat := 6

  /** The model of the intent, verification, planning, editorial and title stages. */
  const FastModel: string := "google/gemini-2.0-flash-001"

  /** What one model call is asked, by stage. */
  datatype Call =
    | IntentCall(model: string, query: string)
    | BrainstormCall(model: string, query: string, intent: Value)
    | PanelCall(model: string, query: string, intent: Value, suggestions: seq<string>)
    | ExpertCall(model: string, query: string, intent: Value, expert: Value, order: Value, prior: seq<Contribution>)
    | VerifyCall(model: string, query: string, lines: seq<Line>)
    | PlanCall(model: string, query: string, intent: Value, lines: seq<Line>, verification: Value)
    | EditorialCall(model: string, query: string, intent: Value, plan: Value)
    | FinalCall(model: string, query: string, intent: Value, lines: seq<Line>, verification: Value, plan: Value, editorial: Value)
    | TitleCall(model: string, query: string)

  /** One entry of the contribution list: the expert's order, the expert, what they wrote and the model that wrote it. */
  datatype Contribution = Contribution(order: Value, expert: Value, text: Value, model: string)

  /** What a later stage's prompt shows of one contribution: its order, its expert's name and its text, or the start of it. */
  datatype Line = Line(order: Value, name: Value, text: Value)

  // ---------------------------------------------------------------------------
  // Responses and placeholders.

  /** `response.get('content')` of a dict query_model returned: an error record has content None. */
  function Content(r: QueryResult): (v: Value)
    requires !r.NoResult?
    ensures r.ErrorRecord? ==> v == Null
  {
    match r
    case Reply(content, _, _) => content
    case ErrorRecord(_, _) => Null
  }

  /** What a stage keeps of a response: the placeholder when there is none, else the content. */
  function ContentOr(r: QueryResult, placeholder: string): (v: Value)
    ensures r.NoResult? ==> v == Str(placeholder)
    ensures !r.NoResult? ==> v == Content(r)
  {
    if r.NoResult? then Str(placeholder) else Content(r)
  }

  /**
   * The placeholder stands in only for a missing response: a response whose
   * content differs from the placeholder is kept as it is, and one without
   * content (an error record) yields None rather than the placeholder.
   */
  lemma {:induction false} PlaceholderOnlyWithoutResponse(r: QueryResult, placeholder: string)
    ensures ContentOr(r, placeholder) != Str(placeholder) ==> !r.NoResult?
    ensures r.ErrorRecord? ==> ContentOr(r, placeholder) == Null
    ensures r.Reply? ==> ContentOr(r, placeholder) == r.content
  {
  }

  /** stage0_analyze_intent. */
  function IntentStage(ask: Call -> QueryResult, query: string): (v: Value)
    ensures ask(IntentCall(FastModel, query)).NoResult? ==> v == Str("Analyzing query requirements...")
    ensures !ask(IntentCall(FastModel, query)).NoResult? ==> v == Content(ask(IntentCall(FastModel, query)))
  {
    ContentOr(ask(IntentCall(FastModel, query)), "Analyzing query requirements...")
  }

  // ---------------------------------------------------------------------------
  // The model-index rule.

  /**
   * `COUNCIL_MODELS[(order - 1) % len(COUNCIL_MODELS)]` as an index, or the
   * error Python raises: a non-number order cannot take `- 1`, a float cannot
   * index a list, and `% 0` divides by zero.
   */
  function ModelIndex(order: Value, n: nat): (r: Result<nat, PyError>)
    ensures r.Ok? <==> AsInt(order).Some? && n > 0
    ensures r.Ok? ==> r.value < n && r.value == (AsInt(order).value - 1) % n
    ensures r.Err? && n > 0 ==> r.error == TypeError
    ensures n == 0 && (AsInt(order).Some? || order.Float?) ==> r == Err(ZeroDivisionError)
  {
    match order
    case Int(k) => if n == 0 then Err(ZeroDivisionError) else Ok((k - 1) % n)
    case Bool(b) => if n == 0 then Err(ZeroDivisionError) else Ok(((if b then 1 else 0) - 1) % n)
    case Float(_) => if n == 0 then Err(ZeroDivisionError) else Err(TypeError)
    case _ => Err(TypeError)
  }

  /** Orders 1..n go to models 0..n-1, and then the models repeat in turn. */
  lemma RoundRobin(k: int, n: nat)
    requires n > 0
    ensures 1 <= k <= n ==> ModelIndex(Int(k), n) == Ok(k - 1)
    ensures ModelIndex(Int(k + n), n) == ModelIndex(Int(k), n)
    ensures ModelIndex(Int(k + 1), n).value == (ModelIndex(Int(k), n).value + 1) % n
  {
    if 1 <= k <= n {
      ModUnique(k - 1, n, 0, k - 1);
    }
    ModUnique(k + n - 1, n, (k - 1) / n + 1, (k - 1) % n);
    var r := (k - 1) % n;
    if r + 1 < n {
      ModUnique(k, n, (k - 1) / n, r + 1);
      ModUnique(r + 1, n, 0, r + 1);
    } else {
      ModUnique(k, n, (k - 1) / n + 1, 0);
      ModUnique(r + 1, n, 1, 0);
    }
  }

  /** The remainder is determined by any quotient-remainder decomposition. */
  lemma ModUnique(x: int, n: int, q: int, r: int)
    requires n > 0 && 0 <= r < n && x == q * n + r
    ensures x % n == r
  {
    var q0 := x / n;
    var r0 := x % n;
    assert x == q0 * n + r0;
    var d := q - q0;
    assert d * n == r0 - r by {
      assert q * n - q0 * n == (q - q0) * n;
    }
    MulSign(d, n);
  }

  lemma MulSign(d: int, n: int)
    requires n > 0
    ensures d >= 1 ==> d * n >= n
    ensures d <= -1 ==> d * n <= -n
  {
    if d >= 1 {
      assert d * n == (d - 1) * n + n;
      assert (d - 1) * n >= 0;
    } else if d <= -1 {
      assert d * n == (d + 1) * n - n;
      assert (d + 1) * n <= 0;
    }
  }

  // ---------------------------------------------------------------------------
  // The conversation title.

  /** The quote characters generate_conversation_title strips after the whitespace. */
  const Quotes: set<char> := {'"', '\''}

  /** `title[:47] + "..." if len(title) > 50 else title`. */
  function Shorten(title: string): (r: string)
    ensures |r| <= 50
    ensures |title| <= 50 ==> r == title
    ensures |title| > 50 ==> r == title[..47] + "..."
  {
    if |title| > 50 then title[..47] + "..." else title
  }

  /**
   * generate_conversation_title on the title call's response: "New Conversation"
   * without a response, else the content stripped of whitespace, then of
   * quotes, and shortened; content that is not a string has no `strip`.
   */
  function ConversationTitle(r: QueryResult): (t: Result<string, PyError>)
    ensures r.NoResult? ==> t == Ok("New Conversation")
    ensures t.Ok? ==> |t.value| <= 50
    ensures t.Ok? <==> r.NoResult? || (r.Reply? && r.content.Str?)
    ensures t.Err? ==> t.error == AttributeError
  {
    if r.NoResult? then Ok("New Conversation")
    else
      match Content(r)
      case Str(s) => Ok(Shorten(Text.Trim(Text.Trim(s, Text.Whitespace), Quotes)))
      case _ => Err(AttributeError)
  }

  /**
   * A title from a reply is cut out of the reply's text with only whitespace
   * and quotes removed around it, neither starts nor ends with a quote, and is
   * either that whole text or its first 47 characters followed by "...".
   */
  lemma TitleFromReply(content: Value, details: Value, annotations: Value)
    requires content.Str?
    ensures var t := ConversationTitle(Reply(content, details, annotations)).value;
            var cleaned := Text.Trim(Text.Trim(content.s, Text.Whitespace), Quotes);
            && (exists a :: Text.StrippedAt(Text.Trim(content.s, Text.Whitespace), cleaned, a, Quotes))
            && (cleaned == [] || (cleaned[0] !in Quotes && cleaned[|cleaned| - 1] !in Quotes))
            && (t == cleaned || (|cleaned| > 50 && t == cleaned[..47] + "..." && |t| == 50))
  {
  }

  /** Shortening a title that is already short enough changes nothing. */
  lemma ShortenIdempotent(title: string)
    ensures Shorten(Shorten(title)) == Shorten(title)
  {
  }

  // ---------------------------------------------------------------------------
  // The expert panel.

  /** `re.search(r'\{.*\}', content, re.DOTALL).group()`: from the first '{' to the last '}' when that '}' comes after it. */
  function JsonCandidate(s: string): (r: Option<string>)
    ensures r.Some? <==> exists i, j :: 0 <= i < j < |s| && s[i] == '{' && s[j] == '}'
    ensures r.Some? ==>
              exists i, j :: 0 <= i < j < |s| && r.value == s[i..j + 1] &&
                             '{' !in s[..i] && '}' !in s[j + 1..] && s[i] == '{' && s[j] == '}'
  {
    match Text.FirstIndex(s, '{')
    case None => None
    case Some(i) =>
      match Text.LastIndex(s, '}')
      case None => None
      case Some(j) =>
        if i < j then Some(s[i..j + 1]) else None
  }

  /** One entry of the fixed six-expert panel. */
  function DefaultExpert(name: string, description: string, objective: string, order: int): (e: Value)
    ensures PanelEntry(e) && Lookup(e.fields, "order") == Some(Int(order))
  {
    var fields := [("name", Str(name)), ("description", Str(description)), ("objectives", List([Str(objective)])), ("order", Int(order))];
    LookupDistinct(fields, 0);
    LookupDistinct(fields, 1);
    LookupDistinct(fields, 3);
    Obj(fields)
  }

  const DefaultNames: seq<string> :=
    ["Strategic Analyst", "Technical Architect", "Domain Specialist", "Implementation Expert", "Risk Analyst", "Quality Reviewer"]
  const DefaultTasks: seq<string> :=
    [ "Task: Set strategic direction. Objective: Define approach.",
      "Task: Technical foundation. Objective: Ensure feasibility.",
      "Task: Domain expertise. Objective: Add depth.",
      "Task: Practical application. Objective: Actionable guidance.",
      "Task: Identify risks. Objective: Surface concerns.",
      "Task: Critical review. Objective: Ensure completeness." ]
  const DefaultObjectives: seq<string> :=
    ["Define strategy", "Ensure feasibility", "Add domain depth", "Provide guidance", "Identify risks", "Ensure quality"]

  /** The default panel used whenever the chairman's panel cannot be read: six readable entries ordered 1 to 6. */
  function DefaultExperts(): (d: seq<Value>)
    ensures |d| == NumExperts
    ensures forall i :: 0 <= i < NumExperts ==> PanelEntry(d[i]) && Lookup(d[i].fields, "order") == Some(Int(i + 1))
  {
    seq(NumExperts, i requires 0 <= i < NumExperts => DefaultExpert(DefaultNames[i], DefaultTasks[i], DefaultObjectives[i], i + 1))
  }

  /** A panel entry stage 1 can read: a dict with a name, a description and an order. */
  predicate PanelEntry(e: Value)
  {
    e.Obj? && "name" in Keys(e.fields) && "description" in Keys(e.fields) && "order" in Keys(e.fields)
  }

  /** The `s` of a list of string values. */
  function Strings(xs: seq<Value>): (r: seq<string>)
    requires forall k :: 0 <= k < |xs| ==> xs[k].Str?
    ensures |r| == |xs| && forall k :: 0 <= k < |xs| ==> r[k] == xs[k].s
  {
    if xs == [] then [] else [xs[0].s] + Strings(xs[1..])
  }

  /** Iterating a string: its characters as one-character strings. */
  function Characters(s: string): (r: seq<string>)
    ensures |r| == |s| && forall k :: 0 <= k < |s| ==> r[k] == [s[k]]
  {
    if s == [] then [] else [[s[0]]] + Characters(s[1..])
  }

  /** `" | ".join(objectives) if objectives else "Add value"`; None when the join raises. */
  function JoinObjectives(objectives: Value): (r: Option<string>)
    ensures !Truthy(objectives) ==> r == Some("Add value")
    ensures objectives.Str? && objectives.s != [] ==> r.Some?
    ensures objectives.Obj? ==> r.Some?
    ensures objectives.List? && objectives.items != [] ==>
              (r.Some? <==> forall k :: 0 <= k < |objectives.items| ==> objectives.items[k].Str?)
    ensures objectives.Int? || objectives.Float? || objectives.Bool? ==> r.Some? == !Truthy(objectives)
    // the joined value: list items, characters of a string, or keys of a dict, " | " between them
    ensures objectives.List? && objectives.items != [] && (forall k :: 0 <= k < |objectives.items| ==> objectives.items[k].Str?) ==>
              r == Some(Text.Join(" | ", Strings(objectives.items)))
    ensures objectives.Str? && objectives.s != [] ==> r == Some(Text.Join(" | ", Characters(objectives.s)))
    ensures objectives.Obj? && objectives.fields != [] ==> r == Some(Text.Join(" | ", FieldNames(objectives.fields)))
  {
    if !Truthy(objectives) then Some("Add value")
    else
      match objectives
      case List(xs) =>
        if forall k :: 0 <= k < |xs| ==> xs[k].Str? then Some(Text.Join(" | ", Strings(xs))) else None
      case Str(s) => Some(Text.Join(" | ", Characters(s)))
      case Obj(fields) => Some(Text.Join(" | ", FieldNames(fields)))
      case _ => None
  }

  /** One more string objective adds " | " and that objective to the joined objectives. */
  lemma JoinObjectivesSnoc(xs: seq<Value>, x: string)
    requires xs != [] && forall k :: 0 <= k < |xs| ==> xs[k].Str?
    ensures JoinObjectives(List(xs)).Some?
    ensures JoinObjectives(List(xs + [Str(x)])) == Some(JoinObjectives(List(xs)).value + " | " + x)
  {
    var ys := xs + [Str(x)];
    assert forall k :: 0 <= k < |ys| ==> ys[k].Str?;
    assert Strings(ys) == Strings(xs) + [x];
    Text.JoinSnoc(" | ", Strings(xs), x);
  }

  /** Two objectives are sent as "first | second". */
  lemma JoinTwoObjectives(a: string, b: string)
    ensures JoinObjectives(List([Str(a), Str(b)])) == Some(a + " | " + b)
  {
    JoinObjectivesSnoc([Str(a)], b);
    assert [Str(a)] + [Str(b)] == [Str(a), Str(b)];
  }

  /**
   * One parsed expert normalised: role, task and order with their defaults, the
   * objectives joined; None when the entry is not a dict or its objectives
   * cannot be joined.
   */
  function NormalizeEntry(e: Value, i: nat): (r: Option<Value>)
    ensures r.Some? ==> PanelEntry(r.value)
  {
    if !e.Obj? then None
    else
      match JoinObjectives(Get(e.fields, "objectives", List([])))
      case None => None
      case Some(objectives) =>
        var fields := [ ("name", Get(e.fields, "role", Str("Expert " + NatToString(i + 1)))),
                        ("description", Get(e.fields, "task", Str("Contribute expertise"))),
                        ("objectives", Str(objectives)),
                        ("order", Get(e.fields, "order", Int(i + 1))) ];
        LookupDistinct(fields, 0);
        LookupDistinct(fields, 1);
        LookupDistinct(fields, 2);
        LookupDistinct(fields, 3);
        Some(Obj(fields))
  }

  /** `n` holds the fields of parsed entry `e` at position `i`, with their defaults. */
  predicate NormalizedFrom(n: Value, e: Value, i: nat)
    requires n.Obj? && e.Obj?
  {
    && Lookup(n.fields, "name") == Some(Get(e.fields, "role", Str("Expert " + NatToString(i + 1))))
    && Lookup(n.fields, "description") == Some(Get(e.fields, "task", Str("Contribute expertise")))
    && JoinObjectives(Get(e.fields, "objectives", List([]))).Some?
    && Lookup(n.fields, "objectives") == Some(Str(JoinObjectives(Get(e.fields, "objectives", List([]))).value))
    && Lookup(n.fields, "order") == Some(Get(e.fields, "order", Int(i + 1)))
  }

  /**
   * An entry normalises exactly when it is a dict whose objectives can be
   * joined, and then carries its role, task, joined objectives and order, each
   * with its default.
   */
  lemma NormalizeEntryFields(e: Value, i: nat)
    ensures NormalizeEntry(e, i).Some? <==> e.Obj? && JoinObjectives(Get(e.fields, "objectives", List([]))).Some?
    ensures NormalizeEntry(e, i).Some? ==> NormalizedFrom(NormalizeEntry(e, i).value, e, i)
  {
  }

  /** `experts[:NUM_EXPERTS]` as a list of values; None when the value cannot be sliced. */
  function ExpertsSlice(experts: Value): (r: Option<seq<Value>>)
    ensures r.Some? ==> |r.value| <= NumExperts
    ensures r.Some? <==> experts.List? || experts.Str?
    ensures experts.List? ==> r == Some(experts.items[..if |experts.items| < NumExperts then |experts.items| else NumExperts])
  {
    match experts
    case List(xs) => Some(xs[..if |xs| < NumExperts then |xs| else NumExperts])
    case Str(s) =>
      var k := if |s| < NumExperts then |s| else NumExperts;
      Some(seq(k, c requires 0 <= c < k => Str([s[c]])))
    case _ => None
  }

  /** Every one of the first six parsed experts normalises. */
  predicate Normalizable(experts: Value)
  {
    ExpertsSlice(experts).Some? &&
    forall i :: 0 <= i < |ExpertsSlice(experts).value| ==> NormalizeEntry(ExpertsSlice(experts).value[i], i).Some?
  }

  /**
   * The panel made from normalisable experts: exactly six readable entries,
   * the normalised parsed ones first, then the defaults from the position the
   * parsed ones reach.
   */
  function PanelOf(experts: Value): (panel: seq<Value>)
    requires Normalizable(experts)
    ensures |panel| == NumExperts
    ensures forall i :: 0 <= i < NumExperts ==> PanelEntry(panel[i])
    ensures var entries := ExpertsSlice(experts).value;
            && (forall i :: 0 <= i < |entries| ==> panel[i] == NormalizeEntry(entries[i], i).value)
            && (forall i :: |entries| <= i < NumExperts ==> panel[i] == DefaultExperts()[i])
  {
    var entries := ExpertsSlice(experts).value;
    var defaults := DefaultExperts();
    seq(NumExperts, i requires 0 <= i < NumExperts => if i < |entries| then NormalizeEntry(entries[i], i).value else defaults[i])
  }

  /**
   * The normalising loop of stage_brainstorm_experts over the first six parsed
   * experts; None as soon as an entry fails, which makes the stage fall back to
   * the default panel.
   */
  method NormalizeEntries(entries: seq<Value>) returns (normalized: Option<seq<Value>>)
    ensures normalized.Some? <==> forall k :: 0 <= k < |entries| ==> NormalizeEntry(entries[k], k).Some?
    ensures normalized.Some? ==>
              |normalized.value| == |entries| &&
              forall k :: 0 <= k < |entries| ==> normalized.value[k] == NormalizeEntry(entries[k], k).value
  {
    var done: seq<Value> := [];
    for i := 0 to |entries|
      invariant |done| == i
      invariant forall k :: 0 <= k < i ==> NormalizeEntry(entries[k], k).Some? && done[k] == NormalizeEntry(entries[k], k).value
    {
      var entry := NormalizeEntry(entries[i], i);
      if entry.None? {
        return None;
      }
      done := done + [entry.value];
    }
    return Some(done);
  }

  /**
   * The parsed experts made into the panel: the first six normalised, then
   * `default_experts[len(normalized)]` appended until there are six; None when
   * an entry fails.
   */
  method NormalizeExperts(experts: Value) returns (panel: Option<seq<Value>>)
    ensures panel.Some? <==> Normalizable(experts)
    ensures panel.Some? ==> panel.value == PanelOf(experts)
  {
    var sliced := ExpertsSlice(experts);
    if sliced.None? {
      return None;
    }
    var entries := sliced.value;
    var done := NormalizeEntries(entries);
    if done.None? {
      return None;
    }
    var normalized := PadWithDefaults(done.value);
    PaddedPanel(experts, normalized);
    return Some(normalized);
  }

  /** `while len(normalized) < NUM_EXPERTS: normalized.append(default_experts[len(normalized)])`. */
  method PadWithDefaults(start: seq<Value>) returns (normalized: seq<Value>)
    requires |start| <= NumExperts
    ensures |normalized| == NumExperts
    ensures forall k :: 0 <= k < |start| ==> normalized[k] == start[k]
    ensures forall k :: |start| <= k < NumExperts ==> normalized[k] == DefaultExperts()[k]
  {
    normalized := start;
    var defaults := DefaultExperts();
    while |normalized| < NumExperts
      invariant |start| <= |normalized| <= NumExperts
      invariant forall k :: 0 <= k < |start| ==> normalized[k] == start[k]
      invariant forall k :: |start| <= k < |normalized| ==> normalized[k] == defaults[k]
      decreases NumExperts - |normalized|
    {
      normalized := normalized + [defaults[|normalized|]];
    }
  }

  lemma PaddedPanel(experts: Value, normalized: seq<Value>)
    requires ExpertsSlice(experts).Some?
    requires var entries := ExpertsSlice(experts).value;
             && |normalized| == NumExperts
             && (forall k :: 0 <= k < |entries| ==> NormalizeEntry(entries[k], k).Some? && normalized[k] == NormalizeEntry(entries[k], k).value)
             && (forall k :: |entries| <= k < NumExperts ==> normalized[k] == DefaultExperts()[k])
    ensures Normalizable(experts) && normalized == PanelOf(experts)
  {
  }

  /**
   * The parsed chairman reply: the `experts` and `team_rationale` of the JSON
   * object found in the content; None when the content is not a string, holds
   * no span, does not parse or is not an object.
   */
  function ParsedExperts(content: Value, parse: string -> Option<Value>): (r: Option<(Value, Value)>)
    ensures !content.Str? ==> r.None?
    ensures content.Str? && JsonCandidate(content.s).None? ==> r.None?
    ensures r.Some? ==> parse(JsonCandidate(content.s).value).Some? && parse(JsonCandidate(content.s).value).value.Obj?
  {
    if !content.Str? then None
    else
      match JsonCandidate(content.s)
      case None => None
      case Some(candidate) =>
        match parse(candidate)
        case Some(Obj(data)) => Some((Get(data, "experts", List([])), Get(data, "team_rationale", Str(""))))
        case _ => None
  }

  /**
   * The panel and rationale the chairman's response yields, or None when the
   * stage falls back to the default panel: no response, no readable JSON
   * object, or an expert that does not normalise.
   */
  function PanelOutcome(response: QueryResult, parse: string -> Option<Value>): (r: Option<(seq<Value>, Value)>)
    ensures response.NoResult? ==> r.None?
    ensures !response.NoResult? && ParsedExperts(Content(response), parse).None? ==> r.None?
    ensures r.Some? ==> |r.value.0| == NumExperts && forall i :: 0 <= i < NumExperts ==> PanelEntry(r.value.0[i])
    // the chairman's panel is used exactly when the reply parses and every sliced expert normalises
    ensures r.Some? <==> && !response.NoResult? && ParsedExperts(Content(response), parse).Some?
                         && Normalizable(ParsedExperts(Content(response), parse).value.0)
    ensures r.Some? ==> && r.value.0 == PanelOf(ParsedExperts(Content(response), parse).value.0)
                        && r.value.1 == ParsedExperts(Content(response), parse).value.1
  {
    if response.NoResult? then None
    else
      match ParsedExperts(Content(response), parse)
      case None => None
      case Some((experts, rationale)) => if Normalizable(experts) then Some((PanelOf(experts), rationale)) else None
  }

  // ---------------------------------------------------------------------------
  // The brainstorm display.

  const BrainstormHeader: string := "## Expert Brainstorm Results\n\n"
  const SectionSeparator: string := "\n---\n\n"

  /** The heading line of a model's section: the model's name after its last '/'. */
  function SectionHeading(model: string): string
  {
    "### \U{1F916} " + Text.AfterLast(model, '/') + "\n"
  }

  /** What the section of a model that did not respond says. */
  const FailedNote: string := "*Failed to respond*\n"

  /** The display section of one council model: its short name, then its content or a failure note. */
  function Section(model: string, r: QueryResult, repr: Value -> string): string
  {
    if r.NoResult? then SectionHeading(model) + FailedNote
    else SectionHeading(model) + ToText(Content(r), repr) + "\n"
  }

  /**
   * A section starts with the model's heading and goes on with the failure
   * note when the model did not respond, else with its content and a newline.
   */
  lemma SectionShape(model: string, r: QueryResult, repr: Value -> string)
    ensures var head := SectionHeading(model);
            var sec := Section(model, r, repr);
            && |head| <= |sec| && sec[..|head|] == head
            && (r.NoResult? ==> sec[|head|..] == FailedNote)
            && (!r.NoResult? ==> sec[|head|..] == ToText(Content(r), repr) + "\n")
  {
    var head := SectionHeading(model);
    var rest := if r.NoResult? then FailedNote else ToText(Content(r), repr) + "\n";
    assert Section(model, r, repr) == head + rest;
    assert (head + rest)[..|head|] == head;
    assert (head + rest)[|head|..] == rest;
  }

  /** The suggestion one responding model passes on to the chairman. */
  function Suggestion(model: string, r: QueryResult, repr: Value -> string): string
    requires !r.NoResult?
  {
    "=== Suggestions from " + Text.AfterLast(model, '/') + " ===\n" + ToText(Content(r), repr)
  }

  /** The suggestions of the first `n` models that responded, in model order. */
  function SuggestionsOf(models: seq<string>, responses: seq<QueryResult>, n: nat, repr: Value -> string): seq<string>
    requires n <= |models| == |responses|
  {
    if n == 0 then []
    else
      var earlier := SuggestionsOf(models, responses, n - 1, repr);
      if responses[n - 1].NoResult? then earlier else earlier + [Suggestion(models[n - 1], responses[n - 1], repr)]
  }

  /** The positions among the first `n` whose model responded, in increasing order. */
  function Responders(responses: seq<QueryResult>, n: nat): (idx: seq<nat>)
    requires n <= |responses|
    ensures |idx| <= n
    ensures forall j :: 0 <= j < |idx| ==> idx[j] < n && !responses[idx[j]].NoResult?
    ensures forall j, l :: 0 <= j < l < |idx| ==> idx[j] < idx[l]
    ensures forall i :: 0 <= i < n && !responses[i].NoResult? ==> i in idx
  {
    if n == 0 then [] else Responders(responses, n - 1) + (if responses[n - 1].NoResult? then [] else [n - 1])
  }

  /** `sug` lists, position by position, the suggestions of the models at the indices `idx`. */
  predicate SuggestionsMatch(models: seq<string>, responses: seq<QueryResult>, sug: seq<string>, idx: seq<nat>, repr: Value -> string)
    requires |models| == |responses|
  {
    |sug| == |idx| &&
    forall j :: 0 <= j < |idx| ==> idx[j] < |models| && !responses[idx[j]].NoResult? && sug[j] == Suggestion(models[idx[j]], responses[idx[j]], repr)
  }

  /** One more responder at index `k` extends the matching lists by its suggestion. */
  lemma SuggestionsMatchSnoc(models: seq<string>, responses: seq<QueryResult>, sug: seq<string>, idx: seq<nat>, k: nat, repr: Value -> string)
    requires |models| == |responses| && k < |models| && !responses[k].NoResult?
    requires SuggestionsMatch(models, responses, sug, idx, repr)
    ensures SuggestionsMatch(models, responses, sug + [Suggestion(models[k], responses[k], repr)], idx + [k], repr)
  {
    var sug' := sug + [Suggestion(models[k], responses[k], repr)];
    var idx' := idx + [k];
    forall j | 0 <= j < |idx'|
      ensures idx'[j] < |models| && !responses[idx'[j]].NoResult? && sug'[j] == Suggestion(models[idx'[j]], responses[idx'[j]], repr)
    {
      if j < |idx| {
        assert sug'[j] == sug[j] && idx'[j] == idx[j];
      }
    }
  }

  /** The suggestions of the first `n` models are those of the responders among them, in model order. */
  lemma {:induction false} SuggestionsAreResponders(models: seq<string>, responses: seq<QueryResult>, n: nat, repr: Value -> string)
    requires n <= |models| == |responses|
    ensures SuggestionsMatch(models, responses, SuggestionsOf(models, responses, n, repr), Responders(responses, n), repr)
  {
    if n > 0 {
      var earlier := SuggestionsOf(models, responses, n - 1, repr);
      var idx0 := Responders(responses, n - 1);
      SuggestionsAreResponders(models, responses, n - 1, repr);
      if !responses[n - 1].NoResult? {
        assert SuggestionsOf(models, responses, n, repr) == earlier + [Suggestion(models[n - 1], responses[n - 1], repr)];
        assert Responders(responses, n) == idx0 + [n - 1];
        SuggestionsMatchSnoc(models, responses, earlier, idx0, n - 1, repr);
      } else {
        assert SuggestionsOf(models, responses, n, repr) == earlier;
        assert Responders(responses, n) == idx0;
      }
    }
  }

  /**
   * The suggestions are exactly those of the models that responded, in model
   * order: the first `n` models give none exactly when all of them failed,
   * and never more than `n`.
   */
  lemma SuggestionsOnlyFromResponders(models: seq<string>, responses: seq<QueryResult>, n: nat, repr: Value -> string)
    requires n <= |models| == |responses|
    ensures var idx := Responders(responses, n);
            var sug := SuggestionsOf(models, responses, n, repr);
            |sug| == |idx| && forall j :: 0 <= j < |idx| ==> sug[j] == Suggestion(models[idx[j]], responses[idx[j]], repr)
    ensures |SuggestionsOf(models, responses, n, repr)| <= n
    ensures SuggestionsOf(models, responses, n, repr) == [] <==> forall i :: 0 <= i < n ==> responses[i].NoResult?
  {
    SuggestionsAreResponders(models, responses, n, repr);
    var idx := Responders(responses, n);
    if idx != [] {
      assert !responses[idx[0]].NoResult?;
    }
  }

  /** The brainstorm calls, one per council model (gathered concurrently). */
  function BrainstormResponses(models: seq<string>, query: string, intent: Value, ask: Call -> QueryResult): (rs: seq<QueryResult>)
    ensures |rs| == |models| && forall i :: 0 <= i < |models| ==> rs[i] == ask(BrainstormCall(models[i], query, intent))
  {
    seq(|models|, i requires 0 <= i < |models| => ask(BrainstormCall(models[i], query, intent)))
  }

  /** The display sections of the first `n` models, in model order. */
  function SectionsOf(models: seq<string>, responses: seq<QueryResult>, n: nat, repr: Value -> string): seq<string>
    requires n <= |models| == |responses|
  {
    if n == 0 then [] else SectionsOf(models, responses, n - 1, repr) + [Section(models[n - 1], responses[n - 1], repr)]
  }

  /** Every model gets exactly one section, in model order, whether or not it responded. */
  lemma {:induction false} SectionPerModel(models: seq<string>, responses: seq<QueryResult>, n: nat, repr: Value -> string)
    requires n <= |models| == |responses|
    ensures |SectionsOf(models, responses, n, repr)| == n
    ensures forall k :: 0 <= k < n ==> SectionsOf(models, responses, n, repr)[k] == Section(models[k], responses[k], repr)
  {
    if n > 0 {
      var earlier := SectionsOf(models, responses, n - 1, repr);
      var last := Section(models[n - 1], responses[n - 1], repr);
      var here := SectionsOf(models, responses, n, repr);
      SectionPerModel(models, responses, n - 1, repr);
      assert here == earlier + [last];
      forall k | 0 <= k < n
        ensures here[k] == Section(models[k], responses[k], repr)
      {
        if k < n - 1 {
          assert here[k] == earlier[k];
        }
      }
    }
  }

  /** The section loop of stage_brainstorm_experts: one section per model and the suggestions of those that responded. */
  method BrainstormSections(models: seq<string>, responses: seq<QueryResult>, repr: Value -> string)
      returns (sections: seq<string>, suggestions: seq<string>)
    requires |models| == |responses|
    ensures sections == SectionsOf(models, responses, |models|, repr)
    ensures suggestions == SuggestionsOf(models, responses, |models|, repr)
  {
    sections := [];
    suggestions := [];
    for i := 0 to |models|
      invariant sections == SectionsOf(models, responses, i, repr)
      invariant suggestions == SuggestionsOf(models, responses, i, repr)
    {
      assert SectionsOf(models, responses, i + 1, repr) == sections + [Section(models[i], responses[i], repr)];
      sections := sections + [Section(models[i], responses[i], repr)];
      if !responses[i].NoResult? {
        assert SuggestionsOf(models, responses, i + 1, repr) == suggestions + [Suggestion(models[i], responses[i], repr)];
        suggestions := suggestions + [Suggestion(models[i], responses[i], repr)];
      }
    }
  }

  /** The chairman's rationale as appended to the display, when it is truthy. */
  function RationaleSuffix(rationale: Value, repr: Value -> string): string
  {
    if Truthy(rationale) then "\n\n---\n\n## \U{1F454} Chairman's Team Selection\n\n" + ToText(rationale, repr) else ""
  }

  /** The panel stage_brainstorm_experts settles on: the chairman's when the reply yields one, else the default panel. */
  function BrainstormPanel(models: seq<string>, chairman: string, query: string, intent: Value,
                           ask: Call -> QueryResult, parse: string -> Option<Value>, repr: Value -> string): (panel: seq<Value>)
    ensures |panel| == NumExperts && forall i :: 0 <= i < NumExperts ==> PanelEntry(panel[i])
  {
    var responses := BrainstormResponses(models, query, intent, ask);
    match PanelOutcome(ask(PanelCall(chairman, query, intent, SuggestionsOf(models, responses, |models|, repr))), parse)
    case None => DefaultExperts()
    case Some((chosen, _)) => chosen
  }

  /** The display stage_brainstorm_experts returns: the sections, and the rationale when the chairman's reply yields a panel. */
  function BrainstormDisplay(models: seq<string>, chairman: string, query: string, intent: Value,
                             ask: Call -> QueryResult, parse: string -> Option<Value>, repr: Value -> string): (display: string)
    ensures |display| >= |BrainstormHeader| && display[..|BrainstormHeader|] == BrainstormHeader
  {
    var responses := BrainstormResponses(models, query, intent, ask);
    var body := Text.Join(SectionSeparator, SectionsOf(models, responses, |models|, repr));
    var suffix :=
      match PanelOutcome(ask(PanelCall(chairman, query, intent, SuggestionsOf(models, responses, |models|, repr))), parse)
      case None => ""
      case Some((_, rationale)) => RationaleSuffix(rationale, repr);
    assert (BrainstormHeader + body + suffix)[..|BrainstormHeader|] == BrainstormHeader;
    BrainstormHeader + body + suffix
  }

  /**
   * stage_brainstorm_experts: the display of every model's suggestions and the
   * panel. The panel is the default one unless the chairman's reply yields
   * normalisable experts; the rationale is appended only in that case.
   */
  method BrainstormExperts(models: seq<string>, chairman: string, query: string, intent: Value,
                           ask: Call -> QueryResult, parse: string -> Option<Value>, repr: Value -> string)
      returns (display: string, panel: seq<Value>)
    ensures |panel| == NumExperts && forall i :: 0 <= i < NumExperts ==> PanelEntry(panel[i])
    ensures panel == BrainstormPanel(models, chairman, query, intent, ask, parse, repr)
    ensures display == BrainstormDisplay(models, chairman, query, intent, ask, parse, repr)
    ensures var responses := BrainstormResponses(models, query, intent, ask);
            var base := BrainstormHeader + Text.Join(SectionSeparator, SectionsOf(models, responses, |models|, repr));
            var outcome := PanelOutcome(ask(PanelCall(chairman, query, intent, SuggestionsOf(models, responses, |models|, repr))), parse);
            && (outcome.None? ==> panel == DefaultExperts() && display == base)
            && (outcome.Some? ==> panel == outcome.value.0 && display == base + RationaleSuffix(outcome.value.1, repr))
  {
    var responses := BrainstormResponses(models, query, intent, ask);
    var sections, suggestions := BrainstormSections(models, responses, repr);
    display := BrainstormHeader + Text.Join(SectionSeparator, sections);
    var response := ask(PanelCall(chairman, query, intent, suggestions));
    if response.NoResult? {
      return display, DefaultExperts();
    }
    var parsed := ParsedExperts(Content(response), parse);
    if parsed.None? {
      return display, DefaultExperts();
    }
    var normalized := NormalizeExperts(parsed.value.0);
    if normalized.None? {
      return display, DefaultExperts();
    }
    display := display + RationaleSuffix(parsed.value.1, repr);
    panel := normalized.value;
  }

  // ---------------------------------------------------------------------------
  // Stage 1: sequential expert contributions.

  const ExpertPlaceholder: string := "Expert contribution unavailable."

  /** `expert.get('order', i + 1)`. */
  function OrderOf(e: Value, i: nat): Value
    requires e.Obj?
  {
    Get(e.fields, "order", Int(i + 1))
  }

  /**
   * The exception stage 1 raises on expert `e` at position `i` with `n`
   * council models, in the order Python meets them: `e.get` needs a dict, the
   * role section reads the description, the model index needs a usable
   * order, and the prompt reads the name.
   */
  function ExpertError(e: Value, i: nat, n: nat): (r: Option<PyError>)
    ensures !e.Obj? ==> r == Some(AttributeError)
    ensures r.None? ==> PanelEntry(e) || (e.Obj? && "order" !in Keys(e.fields) && "name" in Keys(e.fields) && "description" in Keys(e.fields))
    // and its order, given or defaulted, is an int or a bool, with council models to pick from
    ensures r.None? ==> e.Obj? && n > 0 && AsInt(OrderOf(e, i)).Some?
  {
    if !e.Obj? then Some(AttributeError)
    else if "description" !in Keys(e.fields) then Some(KeyError)
    else
      match ModelIndex(OrderOf(e, i), n)
      case Err(x) => Some(x)
      case Ok(_) => if "name" !in Keys(e.fields) then Some(KeyError) else None
  }

  /** A readable panel entry can fail only through its order: a non-number, or no council models at all. */
  lemma PanelEntryErrors(e: Value, i: nat, n: nat)
    requires PanelEntry(e)
    ensures ExpertError(e, i, n).None? <==> ModelIndex(OrderOf(e, i), n).Ok?
    ensures ExpertError(e, i, n).Some? ==> ExpertError(e, i, n) == Some(ModelIndex(OrderOf(e, i), n).error)
  {
  }

  /** The contribution of expert `e` at position `i`, written by the model its order picks after reading `prior`. */
  function Entry(query: string, intent: Value, e: Value, i: nat, models: seq<string>, prior: seq<Contribution>, ask: Call -> QueryResult): Contribution
    requires ExpertError(e, i, |models|).None?
  {
    var order := OrderOf(e, i);
    var model := models[ModelIndex(order, |models|).value];
    Contribution(order, e, ContentOr(ask(ExpertCall(model, query, intent, e, order, prior)), ExpertPlaceholder), model)
  }

  /** The contributions of the first `n` experts, or the exception that stopped them. */
  function ContributionsUpTo(query: string, experts: seq<Value>, n: nat, intent: Value, models: seq<string>, ask: Call -> QueryResult): Result<seq<Contribution>, PyError>
    requires n <= |experts|
  {
    if n == 0 then Ok([])
    else
      match ContributionsUpTo(query, experts, n - 1, intent, models, ask)
      case Err(x) => Err(x)
      case Ok(prior) =>
        match ExpertError(experts[n - 1], n - 1, |models|)
        case Some(x) => Err(x)
        case None => Ok(prior + [Entry(query, intent, experts[n - 1], n - 1, models, prior, ask)])
  }

  /** Stage 1 succeeds exactly when no expert raises. */
  lemma {:induction false} ContributionsSucceed(query: string, experts: seq<Value>, n: nat, intent: Value, models: seq<string>, ask: Call -> QueryResult)
    requires n <= |experts|
    ensures ContributionsUpTo(query, experts, n, intent, models, ask).Ok? <==> forall k :: 0 <= k < n ==> ExpertError(experts[k], k, |models|).None?
  {
    if n > 0 {
      ContributionsSucceed(query, experts, n - 1, intent, models, ask);
      NoneRaiseStep(experts, n, |models|);
    }
  }

  /** No expert among the first `n` raises. */
  predicate NoneRaise(experts: seq<Value>, n: nat, m: nat)
    requires n <= |experts|
  {
    forall k :: 0 <= k < n ==> ExpertError(experts[k], k, m).None?
  }

  /** No expert among the first `n` raises exactly when none of the first `n - 1` does and expert `n - 1` does not either. */
  lemma NoneRaiseStep(experts: seq<Value>, n: nat, m: nat)
    requires 0 < n <= |experts|
    ensures NoneRaise(experts, n, m) <==> NoneRaise(experts, n - 1, m) && ExpertError(experts[n - 1], n - 1, m).None?
  {
  }

  /** `cs` are the contributions of the first `n` experts, each written after reading those before it. */
  predicate BuiltInOrder(cs: seq<Contribution>, query: string, experts: seq<Value>, n: nat, intent: Value, models: seq<string>, ask: Call -> QueryResult)
    requires n <= |experts|
  {
    |cs| == n && forall k :: 0 <= k < n ==>
      ExpertError(experts[k], k, |models|).None? && cs[k] == Entry(query, intent, experts[k], k, models, cs[..k], ask)
  }

  /** Appending the next expert's contribution, written after reading all of `prior`, keeps the order. */
  lemma BuiltInOrderStep(prior: seq<Contribution>, query: string, experts: seq<Value>, n: nat, intent: Value, models: seq<string>, ask: Call -> QueryResult)
    requires n < |experts|
    requires BuiltInOrder(prior, query, experts, n, intent, models, ask)
    requires ExpertError(experts[n], n, |models|).None?
    ensures BuiltInOrder(prior + [Entry(query, intent, experts[n], n, models, prior, ask)], query, experts, n + 1, intent, models, ask)
  {
    var all := prior + [Entry(query, intent, experts[n], n, models, prior, ask)];
    assert all[..n] == prior;
    forall k | 0 <= k < n
      ensures all[..k] == prior[..k] && all[k] == prior[k]
    {
    }
  }

  /**
   * When stage 1 succeeds, each expert, in panel order, contributes once,
   * having seen exactly the contributions of the experts before it.
   */
  lemma {:induction false} ContributionsInOrder(query: string, experts: seq<Value>, n: nat, intent: Value, models: seq<string>, ask: Call -> QueryResult)
    requires n <= |experts|
    ensures var r := ContributionsUpTo(query, experts, n, intent, models, ask);
            r.Ok? ==> BuiltInOrder(r.value, query, experts, n, intent, models, ask)
  {
    if n > 0 {
      var earlier := ContributionsUpTo(query, experts, n - 1, intent, models, ask);
      ContributionsInOrder(query, experts, n - 1, intent, models, ask);
      if earlier.Ok? && ExpertError(experts[n - 1], n - 1, |models|).None? {
        BuiltInOrderStep(earlier.value, query, experts, n - 1, intent, models, ask);
      }
    }
  }

  /** Expert `k` raises `error` and no expert before it raises. */
  predicate FirstRaiser(experts: seq<Value>, k: nat, modelCount: nat, error: PyError)
    requires k < |experts|
  {
    ExpertError(experts[k], k, modelCount) == Some(error) &&
    forall j :: 0 <= j < k ==> ExpertError(experts[j], j, modelCount).None?
  }

  /** A failing stage 1 raises the exception of the first expert that raises. */
  lemma {:induction false} ContributionsFirstError(query: string, experts: seq<Value>, n: nat, intent: Value, models: seq<string>, ask: Call -> QueryResult)
    requires n <= |experts|
    ensures var r := ContributionsUpTo(query, experts, n, intent, models, ask);
            r.Err? ==> exists k :: 0 <= k < n && FirstRaiser(experts, k, |models|, r.error)
  {
    if n > 0 {
      var earlier := ContributionsUpTo(query, experts, n - 1, intent, models, ask);
      ContributionsFirstError(query, experts, n - 1, intent, models, ask);
      if earlier.Ok? {
        ContributionsSucceed(query, experts, n - 1, intent, models, ask);
        var r := ContributionsUpTo(query, experts, n, intent, models, ask);
        if r.Err? {
          assert FirstRaiser(experts, n - 1, |models|, r.error);
        }
      }
    }
  }

  /** Once an expert raises, stage 1 goes no further. */
  lemma {:induction false} ErrorEndsContributions(query: string, experts: seq<Value>, i: nat, n: nat, intent: Value, models: seq<string>, ask: Call -> QueryResult)
    requires i < n <= |experts|
    requires ContributionsUpTo(query, experts, i + 1, intent, models, ask).Err?
    ensures ContributionsUpTo(query, experts, n, intent, models, ask) == ContributionsUpTo(query, experts, i + 1, intent, models, ask)
    decreases n
  {
    if n > i + 1 {
      ErrorEndsContributions(query, experts, i, n - 1, intent, models, ask);
    }
  }

  /**
   * stage1_sequential_contributions: the experts in turn, each building on
   * the contributions gathered so far, an exception ending the stage.
   */
  method SequentialContributions(query: string, experts: seq<Value>, intent: Value, models: seq<string>, ask: Call -> QueryResult)
      returns (r: Result<seq<Contribution>, PyError>)
    ensures r == ContributionsUpTo(query, experts, |experts|, intent, models, ask)
  {
    var contributions: seq<Contribution> := [];
    for i := 0 to |experts|
      invariant ContributionsUpTo(query, experts, i, intent, models, ask) == Ok(contributions)
    {
      var e := experts[i];
      var error := ExpertError(e, i, |models|);
      if error.Some? {
        ErrorEndsContributions(query, experts, i, |experts|, intent, models, ask);
        return Err(error.value);
      }
      var order := OrderOf(e, i);
      var model := models[ModelIndex(order, |models|).value];
      var response := ask(ExpertCall(model, query, intent, e, order, contributions));
      contributions := contributions + [Contribution(order, e, ContentOr(response, ExpertPlaceholder), model)];
    }
    return Ok(contributions);
  }

  /** With at least one council model, no entry of the default panel raises, and entry k picks model k modulo the pool size. */
  lemma DefaultPanelReadable(models: seq<string>)
    requires |models| > 0
    ensures var d := DefaultExperts();
            forall k :: 0 <= k < NumExperts ==> ExpertError(d[k], k, |models|).None? && ModelIndex(OrderOf(d[k], k), |models|) == Ok(k % |models|)
  {
    var d := DefaultExperts();
    forall k | 0 <= k < NumExperts
      ensures ExpertError(d[k], k, |models|).None? && ModelIndex(OrderOf(d[k], k), |models|) == Ok(k % |models|)
    {
      assert OrderOf(d[k], k) == Int(k + 1);
    }
  }

  /** With at least one council model, stage 1 on the default panel succeeds: expert k is written by model k modulo the pool size. */
  lemma DefaultPanelContributes(query: string, intent: Value, models: seq<string>, ask: Call -> QueryResult)
    requires |models| > 0
    ensures var r := ContributionsUpTo(query, DefaultExperts(), NumExperts, intent, models, ask);
            && r.Ok? && |r.value| == NumExperts
            && forall k :: 0 <= k < NumExperts ==> r.value[k].order == Int(k + 1) && r.value[k].model == models[k % |models|]
  {
    var d := DefaultExperts();
    DefaultPanelReadable(models);
    ContributionsSucceed(query, d, NumExperts, intent, models, ask);
    ContributionsInOrder(query, d, NumExperts, intent, models, ask);
    var r := ContributionsUpTo(query, d, NumExperts, intent, models, ask);
    forall k | 0 <= k < NumExperts
      ensures r.value[k].order == Int(k + 1) && r.value[k].model == models[k % |models|]
    {
      assert OrderOf(d[k], k) == Int(k + 1);
    }
  }

  // ---------------------------------------------------------------------------
  // The review stages and the final synthesis.

  /**
   * `text[:n]` when `limit` is `Some(n)`, the text itself otherwise. Only
   * strings and lists can be sliced; the slice is the first `n` items, or all
   * of them when there are fewer.
   */
  function Excerpt(text: Value, limit: Option<nat>): (r: Option<Value>)
    ensures limit.None? ==> r == Some(text)
    ensures limit.Some? ==> (r.Some? <==> text.Str? || text.List?)
    ensures limit.Some? && text.Str? ==>
              r.value.Str? && |r.value.s| == (if |text.s| <= limit.value then |text.s| else limit.value) && r.value.s == text.s[..|r.value.s|]
    ensures limit.Some? && text.List? ==>
              r.value.List? && |r.value.items| == (if |text.items| <= limit.value then |text.items| else limit.value) && r.value.items == text.items[..|r.value.items|]
  {
    match limit
    case None => Some(text)
    case Some(n) =>
      match text
      case Str(s) => Some(Str(if |s| <= n then s else s[..n]))
      case List(xs) => Some(List(if |xs| <= n then xs else xs[..n]))
      case _ => None
  }

  /** The line one contribution adds to a prompt, or the exception building it raises. */
  function LineOf(c: Contribution, limit: Option<nat>): Result<Line, PyError>
  {
    match Subscript(c.expert, "name")
    case Err(x) => Err(x)
    case Ok(name) =>
      match Excerpt(c.text, limit)
      case None => Err(TypeError)
      case Some(text) => Ok(Line(c.order, name, text))
  }

  /** The lines of all contributions, in order, built as a list comprehension builds them. */
  function Lines(cs: seq<Contribution>, limit: Option<nat>): Result<seq<Line>, PyError>
  {
    if cs == [] then Ok([])
    else
      match LineOf(cs[0], limit)
      case Err(x) => Err(x)
      case Ok(line) =>
        match Lines(cs[1..], limit)
        case Err(x) => Err(x)
        case Ok(rest) => Ok([line] + rest)
  }

  /** The lines are built exactly when every contribution's line is, one per contribution and in order. */
  lemma {:induction false} LinesInOrder(cs: seq<Contribution>, limit: Option<nat>)
    ensures var r := Lines(cs, limit);
            && (r.Ok? <==> forall k :: 0 <= k < |cs| ==> LineOf(cs[k], limit).Ok?)
            && (r.Ok? ==> |r.value| == |cs| && forall k :: 0 <= k < |cs| ==> r.value[k] == LineOf(cs[k], limit).value)
  {
    if cs != [] {
      LinesInOrder(cs[1..], limit);
      forall k | 0 < k < |cs|
        ensures cs[1..][k - 1] == cs[k]
      {
      }
    }
  }

  /** When the lines cannot be built, the exception is that of the first contribution whose line cannot be. */
  lemma {:induction false} LinesFirstError(cs: seq<Contribution>, limit: Option<nat>)
    ensures var r := Lines(cs, limit);
            r.Err? ==> exists k :: 0 <= k < |cs| && LineOf(cs[k], limit) == Err(r.error) &&
                                   forall j :: 0 <= j < k ==> LineOf(cs[j], limit).Ok?
  {
    if cs != [] && LineOf(cs[0], limit).Ok? {
      var rest := Lines(cs[1..], limit);
      LinesFirstError(cs[1..], limit);
      if rest.Err? {
        var k :| 0 <= k < |cs| - 1 && LineOf(cs[1..][k], limit) == Err(rest.error) &&
                 forall j :: 0 <= j < k ==> LineOf(cs[1..][j], limit).Ok?;
        assert cs[1..][k] == cs[k + 1];
        forall j | 0 < j <= k
          ensures LineOf(cs[j], limit).Ok?
        {
          assert cs[1..][j - 1] == cs[j];
        }
      }
    }
  }

  /**
   * A prompt line fails on contributions from stage 1 only by slicing: their
   * experts all have names, so the lines are built exactly when every text
   * can be excerpted, and the exception is then a TypeError.
   */
  lemma StageOneLines(cs: seq<Contribution>, limit: Option<nat>, query: string, experts: seq<Value>, intent: Value, models: seq<string>, ask: Call -> QueryResult)
    requires |cs| <= |experts|
    requires BuiltInOrder(cs, query, experts, |cs|, intent, models, ask)
    ensures Lines(cs, limit).Ok? <==> forall k :: 0 <= k < |cs| ==> Excerpt(cs[k].text, limit).Some?
    ensures Lines(cs, limit).Err? ==> Lines(cs, limit).error == TypeError
  {
    LinesInOrder(cs, limit);
    LinesFirstError(cs, limit);
    forall k | 0 <= k < |cs|
      ensures Subscript(cs[k].expert, "name").Ok?
    {
      assert cs[k].expert == experts[k];
    }
  }

  /** Once the verification prompt can be built, so can the planning and the final prompts. */
  lemma ReviewPromptsAgree(cs: seq<Contribution>)
    ensures Lines(cs, Some(200)).Ok? <==> Lines(cs, Some(300)).Ok?
    ensures Lines(cs, Some(200)).Ok? ==> Lines(cs, None).Ok?
    ensures Lines(cs, Some(200)).Err? ==> Lines(cs, Some(300)) == Lines(cs, Some(200))
  {
    LinesFirstError(cs, Some(200));
    LinesFirstError(cs, Some(300));
    LinesInOrder(cs, Some(200));
    LinesInOrder(cs, Some(300));
    LinesInOrder(cs, None);
  }

  const VerificationPlaceholder: string := "Verification unavailable."
  const PlanningPlaceholder: string := "Planning unavailable."
  const EditorialPlaceholder: string := "Editorial guidelines unavailable."
  const SynthesisPlaceholder: string := "Error: Synthesis failed."

  /** stage_verification: the fast model checks the claims of the first 200 characters of each contribution. */
  function VerificationStage(query: string, cs: seq<Contribution>, ask: Call -> QueryResult): (r: Result<Value, PyError>)
    ensures r.Ok? <==> Lines(cs, Some(200)).Ok?
    ensures r.Err? ==> r.error == Lines(cs, Some(200)).error
    ensures r.Ok? && ask(VerifyCall(FastModel, query, Lines(cs, Some(200)).value)).NoResult? ==> r.value == Str(VerificationPlaceholder)
    ensures r.Ok? && !ask(VerifyCall(FastModel, query, Lines(cs, Some(200)).value)).NoResult? ==>
              r.value == Content(ask(VerifyCall(FastModel, query, Lines(cs, Some(200)).value)))
  {
    match Lines(cs, Some(200))
    case Err(x) => Err(x)
    case Ok(lines) => Ok(ContentOr(ask(VerifyCall(FastModel, query, lines)), VerificationPlaceholder))
  }

  /**
   * The verifier reads only the start of each contribution: contributions
   * that agree on their order, their expert and the first 200 characters of
   * their text get the same verification.
   */
  lemma VerificationSeesExcerpts(query: string, cs: seq<Contribution>, ds: seq<Contribution>, ask: Call -> QueryResult)
    requires |cs| == |ds|
    requires forall k :: 0 <= k < |cs| ==>
               cs[k].order == ds[k].order && cs[k].expert == ds[k].expert && Excerpt(cs[k].text, Some(200)) == Excerpt(ds[k].text, Some(200))
    ensures VerificationStage(query, cs, ask) == VerificationStage(query, ds, ask)
  {
    forall k | 0 <= k < |cs|
      ensures LineOf(cs[k], Some(200)) == LineOf(ds[k], Some(200))
    {
    }
    LinesAgree(cs, ds, Some(200));
  }

  /** Contributions with the same lines, one by one, give the same lines, or the same exception. */
  lemma {:induction false} LinesAgree(cs: seq<Contribution>, ds: seq<Contribution>, limit: Option<nat>)
    requires |cs| == |ds|
    requires forall k :: 0 <= k < |cs| ==> LineOf(cs[k], limit) == LineOf(ds[k], limit)
    ensures Lines(cs, limit) == Lines(ds, limit)
  {
    if cs != [] {
      forall k | 0 <= k < |cs| - 1
        ensures LineOf(cs[1..][k], limit) == LineOf(ds[1..][k], limit)
      {
        assert cs[1..][k] == cs[k + 1] && ds[1..][k] == ds[k + 1];
      }
      LinesAgree(cs[1..], ds[1..], limit);
      assert LineOf(cs[0], limit) == LineOf(ds[0], limit);
    }
  }

  /** stage_synthesis_planning: the fast model plans the synthesis from the first 300 characters of each contribution. */
  function PlanningStage(query: string, cs: seq<Contribution>, intent: Value, verification: Value, ask: Call -> QueryResult): (r: Result<Value, PyError>)
    ensures r.Ok? <==> Lines(cs, Some(300)).Ok?
    ensures r.Ok? && ask(PlanCall(FastModel, query, intent, Lines(cs, Some(300)).value, verification)).NoResult? ==> r.value == Str(PlanningPlaceholder)
    ensures r.Ok? && !ask(PlanCall(FastModel, query, intent, Lines(cs, Some(300)).value, verification)).NoResult? ==>
              r.value == Content(ask(PlanCall(FastModel, query, intent, Lines(cs, Some(300)).value, verification)))
  {
    match Lines(cs, Some(300))
    case Err(x) => Err(x)
    case Ok(lines) => Ok(ContentOr(ask(PlanCall(FastModel, query, intent, lines, verification)), PlanningPlaceholder))
  }

  /** stage_editorial_guidelines: the fast model writes style guidelines from the intent and the plan; the contributions it is given are not read. */
  function EditorialStage(query: string, intent: Value, plan: Value, ask: Call -> QueryResult): (v: Value)
    ensures ask(EditorialCall(FastModel, query, intent, plan)).NoResult? ==> v == Str(EditorialPlaceholder)
    ensures !ask(EditorialCall(FastModel, query, intent, plan)).NoResult? ==> v == Content(ask(EditorialCall(FastModel, query, intent, plan)))
  {
    ContentOr(ask(EditorialCall(FastModel, query, intent, plan)), EditorialPlaceholder)
  }

  /** The result of stage 3: the chairman model and its answer. */
  datatype FinalResult = FinalResult(model: string, response: Value)

  /** stage3_synthesize_final: the chairman writes the answer from the whole contributions and the three review outputs. */
  function FinalStage(chairman: string, query: string, cs: seq<Contribution>, intent: Value, verification: Value, plan: Value, editorial: Value,
                      ask: Call -> QueryResult): (r: Result<FinalResult, PyError>)
    ensures r.Ok? <==> Lines(cs, None).Ok?
    ensures r.Ok? ==> r.value.model == chairman
    ensures r.Ok? && ask(FinalCall(chairman, query, intent, Lines(cs, None).value, verification, plan, editorial)).NoResult? ==>
              r.value.response == Str(SynthesisPlaceholder)
    ensures r.Ok? && !ask(FinalCall(chairman, query, intent, Lines(cs, None).value, verification, plan, editorial)).NoResult? ==>
              r.value.response == Content(ask(FinalCall(chairman, query, intent, Lines(cs, None).value, verification, plan, editorial)))
  {
    match Lines(cs, None)
    case Err(x) => Err(x)
    case Ok(lines) => Ok(FinalResult(chairman, ContentOr(ask(FinalCall(chairman, query, intent, lines, verification, plan, editorial)), SynthesisPlaceholder)))
  }

  // ---------------------------------------------------------------------------
  // run_full_council.

  /** The metadata dict of a completed run. */
  datatype Metadata = Metadata(intent: Value, verification: Value, plan: Value, editorial: Value, numExperts: nat)

  /** The eight results of run_full_council; `metadata` is None for the empty dict of a failed collaboration. */
  datatype CouncilOutput = CouncilOutput(intent: Value, experts: seq<Value>, contributions: seq<Contribution>,
                                         verification: Value, plan: Value, editorial: Value, final: FinalResult, metadata: Option<Metadata>)

  const CollaborationFailed: FinalResult := FinalResult("error", Str("Collaboration failed. Please try again."))

  /**
   * run_full_council after stage 1: the failure answer when there are no
   * contributions, else verification, planning, editorial guidelines and the
   * final synthesis in turn, the metadata counting the contributions.
   */
  function CompleteCouncil(query: string, intent: Value, experts: seq<Value>, cs: seq<Contribution>, chairman: string,
                           ask: Call -> QueryResult): (r: Result<CouncilOutput, PyError>)
    ensures cs == [] ==> r == Ok(CouncilOutput(intent, experts, [], Str(""), Str(""), Str(""), CollaborationFailed, None))
    ensures r.Ok? ==> r.value.intent == intent && r.value.experts == experts && r.value.contributions == cs
    ensures cs != [] && r.Ok? ==> r.value.metadata.Some? && r.value.metadata.value.numExperts == |cs| && r.value.final.model == chairman
  {
    if cs == [] then Ok(CouncilOutput(intent, experts, [], Str(""), Str(""), Str(""), CollaborationFailed, None))
    else
      match VerificationStage(query, cs, ask)
      case Err(x) => Err(x)
      case Ok(verification) =>
        match PlanningStage(query, cs, intent, verification, ask)
        case Err(x) => Err(x)
        case Ok(plan) =>
          var editorial := EditorialStage(query, intent, plan, ask);
          match FinalStage(chairman, query, cs, intent, verification, plan, editorial, ask)
          case Err(x) => Err(x)
          case Ok(final) => Ok(CouncilOutput(intent, experts, cs, verification, plan, editorial, final, Some(Metadata(intent, verification, plan, editorial, |cs|))))
  }

  /**
   * In a completed run each review stage is fed what the one before it
   * produced: the plan reads the verification, the editorial guidelines read
   * the plan, the chairman reads all three, and the metadata records them.
   */
  lemma CompleteCouncilFlow(query: string, intent: Value, experts: seq<Value>, cs: seq<Contribution>, chairman: string, ask: Call -> QueryResult)
    requires cs != [] && CompleteCouncil(query, intent, experts, cs, chairman, ask).Ok?
    ensures var out := CompleteCouncil(query, intent, experts, cs, chairman, ask).value;
            && VerificationStage(query, cs, ask) == Ok(out.verification)
            && PlanningStage(query, cs, intent, out.verification, ask) == Ok(out.plan)
            && out.editorial == EditorialStage(query, intent, out.plan, ask)
            && FinalStage(chairman, query, cs, intent, out.verification, out.plan, out.editorial, ask) == Ok(out.final)
            && out.metadata == Some(Metadata(intent, out.verification, out.plan, out.editorial, |cs|))
  {
  }

  /** Past stage 1, only the verification prompt can raise, and the collaboration-failed answer needs an empty contribution list. */
  lemma CompleteCouncilFails(query: string, intent: Value, experts: seq<Value>, cs: seq<Contribution>, chairman: string, ask: Call -> QueryResult)
    requires cs != []
    ensures CompleteCouncil(query, intent, experts, cs, chairman, ask).Ok? <==> Lines(cs, Some(200)).Ok?
    ensures CompleteCouncil(query, intent, experts, cs, chairman, ask).Err? ==>
              CompleteCouncil(query, intent, experts, cs, chairman, ask).error == Lines(cs, Some(200)).error
  {
    ReviewPromptsAgree(cs);
  }

  /** run_full_council from the value stage 1 is handed on: stage 1 over it, then the rest of the council. */
  function CouncilFrom(query: string, intent: Value, experts: seq<Value>, models: seq<string>, chairman: string,
                       ask: Call -> QueryResult): Result<CouncilOutput, PyError>
  {
    match ContributionsUpTo(query, experts, |experts|, intent, models, ask)
    case Err(x) => Err(x)
    case Ok(cs) => CompleteCouncil(query, intent, experts, cs, chairman, ask)
  }

  /**
   * Handed a six-entry readable panel, a completed run has all six experts
   * contributing in order and carries metadata counting six, so it never
   * takes the collaboration-failed return; a run that raises does so with a
   * TypeError or a ZeroDivisionError.
   */
  lemma PanelCouncilOutcome(query: string, intent: Value, panel: seq<Value>, models: seq<string>, chairman: string, ask: Call -> QueryResult)
    requires |panel| == NumExperts && forall i :: 0 <= i < NumExperts ==> PanelEntry(panel[i])
    ensures var r := CouncilFrom(query, intent, panel, models, chairman, ask);
            && (r.Ok? ==> && r.value.experts == panel && |r.value.contributions| == NumExperts
                          && r.value.metadata.Some? && r.value.metadata.value.numExperts == NumExperts
                          && BuiltInOrder(r.value.contributions, query, panel, NumExperts, intent, models, ask))
            && (r.Err? ==> r.error == TypeError || r.error == ZeroDivisionError)
  {
    var stage1 := ContributionsUpTo(query, panel, |panel|, intent, models, ask);
    if stage1.Err? {
      PanelStageOneErrors(query, intent, panel, models, ask);
    } else {
      var cs := stage1.value;
      assert CouncilFrom(query, intent, panel, models, chairman, ask) == CompleteCouncil(query, intent, panel, cs, chairman, ask);
      ContributionsInOrder(query, panel, |panel|, intent, models, ask);
      CompleteCouncilFails(query, intent, panel, cs, chairman, ask);
      StageOneLines(cs, Some(200), query, panel, intent, models, ask);
    }
  }

  /** On readable panel entries stage 1 raises only what the model index raises. */
  lemma PanelStageOneErrors(query: string, intent: Value, panel: seq<Value>, models: seq<string>, ask: Call -> QueryResult)
    requires forall i :: 0 <= i < |panel| ==> PanelEntry(panel[i])
    ensures var r := ContributionsUpTo(query, panel, |panel|, intent, models, ask);
            r.Err? ==> r.error == TypeError || r.error == ZeroDivisionError
  {
    var r := ContributionsUpTo(query, panel, |panel|, intent, models, ask);
    ContributionsFirstError(query, panel, |panel|, intent, models, ask);
    if r.Err? {
      var k :| 0 <= k < |panel| && FirstRaiser(panel, k, |models|, r.error);
      PanelEntryErrors(panel[k], k, |models|);
    }
  }

  /** run_full_council with the panel, not the brainstorm pair, handed to stage 1. */
  function CouncilSpec(query: string, models: seq<string>, chairman: string, ask: Call -> QueryResult,
                       parse: string -> Option<Value>, repr: Value -> string): Result<CouncilOutput, PyError>
  {
    var intent := IntentStage(ask, query);
    CouncilFrom(query, intent, BrainstormPanel(models, chairman, query, intent, ask, parse, repr), models, chairman, ask)
  }

  /** The whole corrected run: the brainstormed panel always satisfies what PanelCouncilOutcome needs. */
  lemma CouncilOutcome(query: string, models: seq<string>, chairman: string, ask: Call -> QueryResult,
                       parse: string -> Option<Value>, repr: Value -> string)
    ensures var r := CouncilSpec(query, models, chairman, ask, parse, repr);
            && (r.Ok? ==> && |r.value.contributions| == NumExperts
                          && r.value.metadata.Some? && r.value.metadata.value.numExperts == NumExperts)
            && (r.Err? ==> r.error == TypeError || r.error == ZeroDivisionError)
  {
    var intent := IntentStage(ask, query);
    PanelCouncilOutcome(query, intent, BrainstormPanel(models, chairman, query, intent, ask, parse, repr), models, chairman, ask);
  }

  /** run_full_council: the stages in turn, each exception ending the run. */
  method RunFullCouncil(query: string, models: seq<string>, chairman: string, ask: Call -> QueryResult,
                        parse: string -> Option<Value>, repr: Value -> string)
      returns (r: Result<CouncilOutput, PyError>)
    ensures r == CouncilSpec(query, models, chairman, ask, parse, repr)
  {
    var intent := IntentStage(ask, query);
    var display, panel := BrainstormExperts(models, chairman, query, intent, ask, parse, repr);
    var contributions := SequentialContributions(query, panel, intent, models, ask);
    if contributions.Err? {
      return Err(contributions.error);
    }
    r := CompleteCouncil(query, intent, panel, contributions.value, chairman, ask);
  }

  /** run_full_council as written: `experts` is bound to the (display, panel) pair, and stage 1 iterates the pair. */
  function CouncilAsWritten(query: string, models: seq<string>, chairman: string, ask: Call -> QueryResult,
                            parse: string -> Option<Value>, repr: Value -> string): Result<CouncilOutput, PyError>
  {
    var intent := IntentStage(ask, query);
    var pair := [Str(BrainstormDisplay(models, chairman, query, intent, ask, parse, repr)),
                 List(BrainstormPanel(models, chairman, query, intent, ask, parse, repr))];
    CouncilFrom(query, intent, pair, models, chairman, ask)
  }

  /** As written, every run raises AttributeError: the first "expert" stage 1 meets is the display string, which has no `get`. */
  lemma AsWrittenAlwaysRaises(query: string, models: seq<string>, chairman: string, ask: Call -> QueryResult,
                              parse: string -> Option<Value>, repr: Value -> string)
    ensures CouncilAsWritten(query, models, chairman, ask, parse, repr) == Err(AttributeError)
  {
    var intent := IntentStage(ask, query);
    var pair := [Str(BrainstormDisplay(models, chairman, query, intent, ask, parse, repr)),
                 List(BrainstormPanel(models, chairman, query, intent, ask, parse, repr))];
    assert ContributionsUpTo(query, pair, 1, intent, models, ask) == Err(AttributeError);
    ErrorEndsContributions(query, pair, 0, 2, intent, models, ask);
  }

  /** run_full_council as written, step by step. */
  method RunFullCouncilAsWritten(query: string, models: seq<string>, chairman: string, ask: Call -> QueryResult,
                                 parse: string -> Option<Value>, repr: Value -> string)
      returns (r: Result<CouncilOutput, PyError>)
    ensures r == CouncilAsWritten(query, models, chairman, ask, parse, repr)
  {
    var intent := IntentStage(ask, query);
    var display, panel := BrainstormExperts(models, chairman, query, intent, ask, parse, repr);
    var experts := [Str(display), List(panel)];
    var contributions := SequentialContributions(query, experts, intent, models, ask);
    if contributions.Err? {
      return Err(contributions.error);
    }
    r := CompleteCouncil(query, intent, experts, contributions.value, chairman, ask);
  }
}
