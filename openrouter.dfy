/**
 * The OpenRouter gateway: the per-model reasoning ("thinking") directive, the
 * request body of a chat completion call, and the bounded retry loop that
 * turns a sequence of per-attempt HTTP outcomes into one result.
 */
module OpenRouter {
  import opened Wrappers
  import opened Json
  import Text

  /**
   * The model sets and defaults the configuration provides:
   * THINKING_SUPPORTED_MODELS, REASONING_EFFORT_MODELS,
   * REASONING_MAX_TOKENS_MODELS, THINKING_EFFORT and THINKING_MAX_TOKENS.
   */
  datatype ThinkingSettings = ThinkingSettings(
    supported: set<string>,
    effortModels: set<string>,
    maxTokensModels: set<string>,
    defaultEffort: string,
    defaultMaxTokens: int)

  /** The keys a per-model thinking dict may pass on to the reasoning directive. */
  const ConfigKeys: set<string> := {"effort", "max_tokens", "exclude"}

  /** `thinking_by_model.get(model)`, `None` standing in when there is no map at all. */
  function Setting(model: string, thinking: Option<map<string, Value>>): Value
  {
    match thinking
    case None => Null
    case Some(m) => if model in m then m[model] else Null
  }

  /** `d.get(key)` on a dict the code builds itself. */
  function GetKey(d: map<string, Value>, key: string): Value
  {
    if key in d then d[key] else Null
  }

  /** `_thinking_enabled_for_model`. */
  predicate ThinkingEnabled(model: string, thinking: Option<map<string, Value>>)
  {
    if thinking.None? || thinking.value == map[] then false
    else
      var raw := Setting(model, thinking);
      if raw.Obj? then Lookup(raw.fields, "enabled") != Some(Bool(false)) else Truthy(raw)
  }

  /**
   * Thinking is off without a (non-empty) map; a dict setting turns it on
   * unless its "enabled" is exactly False; any other setting by its truthiness.
   */
  lemma ThinkingEnabledCases(model: string, thinking: Option<map<string, Value>>)
    ensures thinking.None? || thinking.value == map[] ==> !ThinkingEnabled(model, thinking)
    ensures thinking.Some? && thinking.value != map[] && model !in thinking.value ==> !ThinkingEnabled(model, thinking)
    ensures thinking.Some? && thinking.value != map[] && Setting(model, thinking).Obj? ==>
              (ThinkingEnabled(model, thinking) <==> Lookup(Setting(model, thinking).fields, "enabled") != Some(Bool(false)))
    ensures thinking.Some? && thinking.value != map[] && !Setting(model, thinking).Obj? ==>
              (ThinkingEnabled(model, thinking) <==> Truthy(Setting(model, thinking)))
  {
  }

  /** The entries of a thinking dict whose key is one of ConfigKeys. */
  function CopyConfigKeys(fields: seq<(string, Value)>): (c: map<string, Value>)
    ensures forall k :: k in c <==> k in ConfigKeys && k in Keys(fields)
    ensures forall k :: k in c ==> Lookup(fields, k) == Some(c[k])
  {
    map k | k in ConfigKeys && Lookup(fields, k).Some? :: Lookup(fields, k).value
  }

  /**
   * `_extract_reasoning_config`: no directive for a missing, None or False
   * setting or a dict saying `"enabled": false`; an empty config for True;
   * otherwise the present keys among effort, max_tokens and exclude.
   */
  function ExtractReasoningConfig(model: string, thinking: Option<map<string, Value>>): (r: Option<map<string, Value>>)
    ensures r.Some? ==> ThinkingEnabled(model, thinking)
    ensures Setting(model, thinking) == Bool(true) ==> r == Some(map[])
    ensures Setting(model, thinking).Obj? && r.Some? ==>
              forall k :: k in r.value <==> k in ConfigKeys && k in Keys(Setting(model, thinking).fields)
    ensures Setting(model, thinking).Obj? && r.Some? ==>
              forall k :: k in r.value ==> Lookup(Setting(model, thinking).fields, k) == Some(r.value[k])
    ensures Setting(model, thinking).Obj? ==>
              (r.None? <==> Lookup(Setting(model, thinking).fields, "enabled") == Some(Bool(false)))
    ensures ThinkingEnabled(model, thinking) && r.None? ==>
              var raw := Setting(model, thinking); raw.Int? || raw.Float? || raw.Str? || raw.List?
    // a setting that is neither None, a bool nor a dict gives no directive
    ensures var raw := Setting(model, thinking); raw.Int? || raw.Float? || raw.Str? || raw.List? ==> r.None?
  {
    if thinking.None? || thinking.value == map[] then None
    else
      var raw := Setting(model, thinking);
      match raw
      case Null => None
      case Bool(b) => if b then Some(map[]) else None
      case Obj(fields) =>
        if Lookup(fields, "enabled") == Some(Bool(false)) then None
        else Some(CopyConfigKeys(fields))
      case _ => None
  }

  /** Python's `None` for a value the code reset to None, else the value kept. */
  function Dropped(v: Value, drop: bool): Value
  {
    if drop then Null else v
  }

  /**
   * The entries of the reasoning dict built by `build_reasoning_payload`
   * from a config, in insertion order.
   */
  function ReasoningFields(settings: ThinkingSettings, model: string, config: map<string, Value>): (r: seq<(string, Value)>)
    // never empty, so the `not reasoning and exclude is True` branch cannot fire
    ensures r != []
    ensures Keys(r) <= {"exclude", "effort", "max_tokens", "enabled"}
    // effort and max_tokens are never both sent
    ensures !("effort" in Keys(r) && "max_tokens" in Keys(r))
    // exclude is passed on exactly when it is a boolean
    ensures "exclude" in Keys(r) <==> GetKey(config, "exclude").Bool?
    ensures GetKey(config, "exclude").Bool? ==> Lookup(r, "exclude") == Some(GetKey(config, "exclude"))
    // when both were given, max_tokens wins for max-tokens models and effort otherwise
    ensures Truthy(GetKey(config, "effort")) && Truthy(GetKey(config, "max_tokens")) ==>
              if model in settings.maxTokensModels then "effort" !in Keys(r)
              else Lookup(r, "effort") == Some(GetKey(config, "effort"))
    // ... and then the max_tokens sent is the given one if it is an integer, else the default
    ensures Truthy(GetKey(config, "effort")) && Truthy(GetKey(config, "max_tokens")) && model in settings.maxTokensModels ==>
              Lookup(r, "max_tokens") ==
                Some(if AsInt(GetKey(config, "max_tokens")).Some? then GetKey(config, "max_tokens") else Int(settings.defaultMaxTokens))
    ensures Truthy(GetKey(config, "effort")) && !Truthy(GetKey(config, "max_tokens")) ==>
              Lookup(r, "effort") == Some(GetKey(config, "effort"))
    ensures !Truthy(GetKey(config, "effort")) && AsInt(GetKey(config, "max_tokens")).Some? ==>
              Lookup(r, "max_tokens") == Some(GetKey(config, "max_tokens"))
    // the defaults, max-tokens models first
    ensures !Truthy(GetKey(config, "effort")) && AsInt(GetKey(config, "max_tokens")).None? ==>
              if model in settings.maxTokensModels then Lookup(r, "max_tokens") == Some(Int(settings.defaultMaxTokens))
              else if model in settings.effortModels then Lookup(r, "effort") == Some(Str(settings.defaultEffort))
              else Lookup(r, "enabled") == Some(Bool(true))
  {
    var exclude := GetKey(config, "exclude");
    var head := if exclude.Bool? then [("exclude", exclude)] else [];
    var effort0 := GetKey(config, "effort");
    var budget0 := GetKey(config, "max_tokens");
    var both := Truthy(effort0) && Truthy(budget0);
    var effort := Dropped(effort0, both && model in settings.maxTokensModels);
    var budget := Dropped(budget0, both && model !in settings.maxTokensModels);
    var choice :=
      if Truthy(effort) then ("effort", effort)
      else if AsInt(budget).Some? then ("max_tokens", budget)
      else if model in settings.maxTokensModels then ("max_tokens", Int(settings.defaultMaxTokens))
      else if model in settings.effortModels then ("effort", Str(settings.defaultEffort))
      else ("enabled", Bool(true));
    var fields := head + [choice];
    KeysAppend(head, [choice]);
    LookupAppend(head, [choice], "effort");
    LookupAppend(head, [choice], "max_tokens");
    LookupAppend(head, [choice], "enabled");
    LookupAppend(head, [choice], "exclude");
    assert Keys([choice]) == {choice.0};
    if fields == [] && exclude == Bool(true) then fields + [("enabled", Bool(true))] else fields
  }

  /**
   * `build_reasoning_payload`: nothing when thinking is off or the model does
   * not support it, otherwise exactly one key, "reasoning", holding a
   * non-empty dict.
   */
  function BuildReasoningPayload(settings: ThinkingSettings, model: string, thinking: Option<map<string, Value>>): (p: map<string, Value>)
    ensures p == map[] <==> !ThinkingEnabled(model, thinking) || model !in settings.supported
    ensures p != map[] ==> p.Keys == {"reasoning"} && p["reasoning"].Obj? && p["reasoning"].fields != []
    ensures p != map[] ==> !("effort" in Keys(p["reasoning"].fields) && "max_tokens" in Keys(p["reasoning"].fields))
    // the directive is built from the extracted config, `{}` standing in for none
    ensures p != map[] ==>
              p["reasoning"] == Obj(ReasoningFields(settings, model, match ExtractReasoningConfig(model, thinking) case Some(c) => c case None => map[]))
  {
    if !ThinkingEnabled(model, thinking) then map[]
    else if model !in settings.supported then map[]
    else
      var config := match ExtractReasoningConfig(model, thinking) case Some(c) => c case None => map[];
      var p := map["reasoning" := Obj(ReasoningFields(settings, model, config))];
      assert "reasoning" in p && p.Keys == {"reasoning"};
      p
  }

  // ---------------------------------------------------------------------------
  // The request body of query_model.

  /** The payload before sizing: model and messages, overridden by extra_body's keys. */
  function BasePayload(model: string, messages: Value, extraBody: Option<map<string, Value>>): (p: map<string, Value>)
    ensures extraBody.Some? ==> forall k :: k in extraBody.value ==> k in p && p[k] == extraBody.value[k]
    ensures p.Keys == {"model", "messages"} + (if extraBody.Some? then extraBody.value.Keys else {})
    // model and messages keep their values unless extra_body overrides them
    ensures (extraBody.None? || "model" !in extraBody.value) ==> p["model"] == Str(model)
    ensures (extraBody.None? || "messages" !in extraBody.value) ==> p["messages"] == messages
  {
    var payload := map["model" := Str(model), "messages" := messages];
    if extraBody.Some? && extraBody.value != map[] then payload + extraBody.value else payload
  }

  /** `payload.pop("reasoning", None)`. */
  function Stripped(payload: map<string, Value>): (q: map<string, Value>)
    ensures "reasoning" !in q
    ensures q.Keys == payload.Keys - {"reasoning"}
    ensures forall k :: k in q ==> q[k] == payload[k]
  {
    payload - {"reasoning"}
  }

  /** The integer `payload["reasoning"]["max_tokens"]`, when the reasoning entry is a dict holding one. */
  function ReasoningBudget(payload: map<string, Value>): Option<int>
  {
    if "reasoning" in payload && payload["reasoning"].Obj? then
      match Lookup(payload["reasoning"].fields, "max_tokens")
      case Some(v) => AsInt(v)
      case None => None
    else None
  }

  /** The payload already holds an integer max_tokens larger than `budget`. */
  predicate RoomBeyond(payload: map<string, Value>, budget: int)
  {
    "max_tokens" in payload && AsInt(payload["max_tokens"]).Some? && AsInt(payload["max_tokens"]).value > budget
  }

  /**
   * Sizes `max_tokens` so that the answer has room beyond the reasoning
   * budget: budget + 512, unless an integer larger than the budget was
   * already there.
   */
  function SizeMaxTokens(payload: map<string, Value>): (q: map<string, Value>)
    ensures ReasoningBudget(payload).None? ==> q == payload
    ensures ReasoningBudget(payload).Some? ==>
              "max_tokens" in q && AsInt(q["max_tokens"]).Some? &&
              AsInt(q["max_tokens"]).value > ReasoningBudget(payload).value
    // an integer max_tokens already above the budget is kept, anything else becomes budget + 512
    ensures ReasoningBudget(payload).Some? && RoomBeyond(payload, ReasoningBudget(payload).value) ==> q == payload
    ensures ReasoningBudget(payload).Some? && !RoomBeyond(payload, ReasoningBudget(payload).value) ==>
              q == payload["max_tokens" := Int(ReasoningBudget(payload).value + 512)]
    ensures forall k :: k in payload && k != "max_tokens" ==> k in q && q[k] == payload[k]
    ensures q.Keys <= payload.Keys + {"max_tokens"}
  {
    match ReasoningBudget(payload)
    case None => payload
    case Some(budget) =>
      var existing := if "max_tokens" in payload then AsInt(payload["max_tokens"]) else None;
      if existing.None? || existing.value <= budget then payload["max_tokens" := Int(budget + 512)]
      else payload
  }

  /** `can_retry_without_reasoning`: extra_body was given and put a truthy reasoning entry in the payload. */
  predicate CanDropReasoning(extraBody: Option<map<string, Value>>, payload: map<string, Value>)
  {
    extraBody.Some? && extraBody.value != map[] && "reasoning" in payload && Truthy(payload["reasoning"])
  }

  // ---------------------------------------------------------------------------
  // One attempt.

  /** What the server sent back: the decoded JSON body, when it decodes, and the raw text. */
  datatype Body = Body(json: Option<Value>, text: string)

  /** The outcome of one HTTP attempt. */
  datatype Attempt =
    | Responded(status: int, body: Body)
    | TimedOut   // httpx.TimeoutException
    | Failed     // any other exception of the transport

  /** What query_model returns: None, the first choice's message, or an error record whose content is None. */
  datatype QueryResult =
    | NoResult
    | Reply(content: Value, reasoningDetails: Value, annotations: Value)
    | ErrorRecord(error: Value, status: int)

  /** What the loop does with one attempt. */
  datatype Step =
    | Finish(result: QueryResult)  // return from query_model
    | RateLimited                  // 429: sleep, then the next attempt
    | DropReasoning                // pop "reasoning", clear the flag, next attempt at once
    | Raised                       // an exception reached the handler

  /**
   * The text a 400/422 is searched for: `error.message`, else `message`, else the
   * whole body, as `str(...)`; None when the lookups themselves raise.
   */
  function ErrorText(body: Body, repr: Value -> string): Option<string>
  {
    var data := match body.json case Some(v) => v case None => Obj([]);
    if !data.Obj? then None
    else
      var err := Get(data.fields, "error", Obj([]));
      if !err.Obj? then None
      else
        var message := Get(err.fields, "message", Null);
        var outer := Get(data.fields, "message", Null);
        var chosen := if Truthy(message) then message else if Truthy(outer) then outer else data;
        Some(ToText(chosen, repr))
  }

  /** The rejection names the reasoning directive. */
  predicate MentionsReasoning(message: string)
  {
    var low := Text.Lower(message);
    Text.Contains(low, "reasoning") || Text.Contains(low, "unsupported")
  }

  /** `data['choices'][0]['message']`, when every step of that lookup succeeds on a dict. */
  function FirstMessage(choices: Value): Option<seq<(string, Value)>>
  {
    match choices
    case List(xs) =>
      if xs != [] && xs[0].Obj? then
        match Lookup(xs[0].fields, "message")
        case Some(Obj(m)) => Some(m)
        case _ => None
      else None
    case _ => None
  }

  /** `raise_for_status`, then the body: an error record when there are no choices, else the message. */
  function Accept(status: int, body: Body): (s: Step)
    ensures s.Finish? ==> 200 <= status < 300 && !s.result.NoResult?
  {
    if !(200 <= status < 300) then Raised
    else
      match body.json
      case None => Raised
      case Some(data) =>
        if !data.Obj? then Raised
        else
          var choices := Get(data.fields, "choices", Null);
          if !Truthy(choices) then Finish(ErrorRecord(data, status))
          else
            match FirstMessage(choices)
            case None => Raised
            case Some(m) => Finish(Reply(Get(m, "content", Null), Get(m, "reasoning_details", Null), Get(m, "annotations", Null)))
  }

  /**
   * The cases of a response past the status checks: raise_for_status, a body
   * that does not decode or is not a dict, and a dict without a first message
   * are exceptions; falsy choices give the error record, and otherwise the
   * first choice's message is the answer.
   */
  lemma AcceptCases(status: int, body: Body)
    ensures !(200 <= status < 300) || body.json.None? || !body.json.value.Obj? ==> Accept(status, body) == Raised
    ensures 200 <= status < 300 && body.json.Some? && body.json.value.Obj? ==>
              var data := body.json.value;
              var choices := Get(data.fields, "choices", Null);
              && (!Truthy(choices) ==> Accept(status, body) == Finish(ErrorRecord(data, status)))
              && (Truthy(choices) && FirstMessage(choices).None? ==> Accept(status, body) == Raised)
              && (Truthy(choices) && FirstMessage(choices).Some? ==>
                    var m := FirstMessage(choices).value;
                    Accept(status, body) == Finish(Reply(Get(m, "content", Null), Get(m, "reasoning_details", Null), Get(m, "annotations", Null))))
  {
  }

  /** The body of the loop for one attempt, given whether the reasoning directive may still be dropped. */
  function StepFor(outcome: Attempt, canDrop: bool, repr: Value -> string): (s: Step)
    ensures s.DropReasoning? ==> canDrop
    ensures s.Finish? ==> !s.result.NoResult?
    ensures outcome.Responded? && (outcome.status == 401 || outcome.status == 403) ==>
              s.Finish? && s.result.ErrorRecord? && s.result.status == outcome.status
    ensures outcome.Responded? && outcome.status == 429 ==> s.RateLimited?
    ensures outcome.Failed? ==> s.Raised?
  {
    match outcome
    case TimedOut => if canDrop then DropReasoning else Raised
    case Failed => Raised
    case Responded(status, body) =>
      if status == 429 then RateLimited
      else if status == 401 || status == 403 then
        Finish(ErrorRecord(match body.json case Some(v) => v case None => Str(body.text), status))
      else if (status == 400 || status == 422) && canDrop then
        match ErrorText(body, repr)
        case None => Raised
        case Some(message) => if MentionsReasoning(message) then DropReasoning else Accept(status, body)
      else Accept(status, body)
  }

  /**
   * The triggers of the retry state machine: a timeout drops the directive
   * when it still may and is an exception otherwise; a 400/422 drops it only
   * when the flag is set and its error text names reasoning or says
   * unsupported, and is an exception otherwise; 401/403 end the loop with an
   * error record; every other status goes through raise_for_status and the body.
   */
  lemma StepForCases(outcome: Attempt, canDrop: bool, repr: Value -> string)
    ensures outcome.TimedOut? ==> StepFor(outcome, canDrop, repr) == (if canDrop then DropReasoning else Raised)
    ensures outcome.Responded? && (outcome.status == 400 || outcome.status == 422) ==>
              StepFor(outcome, canDrop, repr) ==
                (if canDrop && ErrorText(outcome.body, repr).Some? && MentionsReasoning(ErrorText(outcome.body, repr).value)
                 then DropReasoning else Raised)
    ensures outcome.Responded? && outcome.status !in {429, 401, 403, 400, 422} ==>
              StepFor(outcome, canDrop, repr) == Accept(outcome.status, outcome.body)
    // so the directive is dropped exactly on a timeout or a reasoning rejection while the flag is set
    ensures StepFor(outcome, canDrop, repr).DropReasoning? <==>
              canDrop && (outcome.TimedOut? ||
                          (outcome.Responded? && (outcome.status == 400 || outcome.status == 422) &&
                           ErrorText(outcome.body, repr).Some? && MentionsReasoning(ErrorText(outcome.body, repr).value)))
  {
  }

  // ---------------------------------------------------------------------------
  // The retry loop.

  const MaxRetries: nat := 3
  /** base_delay, in seconds. */
  const BaseDelay: nat := 2

  function Pow2(n: nat): (r: nat)
    ensures r >= 1
  {
    if n == 0 then 1 else 2 * Pow2(n - 1)
  }

  /** The back-off before the attempt after `attempt`: base_delay * 2^attempt. */
  function Delay(attempt: nat): nat
  {
    BaseDelay * Pow2(attempt)
  }

  /** The sleep that follows a step of attempt `attempt` (0 for none). */
  function WaitAfter(s: Step, attempt: nat): nat
  {
    if s.RateLimited? || (s.Raised? && attempt < MaxRetries - 1) then Delay(attempt) else 0
  }

  /** One attempt made: the payload sent and the sleep that followed. */
  datatype Sent = Sent(payload: map<string, Value>, wait: nat)

  /** The result of query_model and the attempts it made. */
  datatype Trace = Trace(result: QueryResult, log: seq<Sent>)

  /**
   * The loop from attempt `attempt` on, the payload and the flag being what
   * earlier attempts left.
   */
  function Run(outcomes: seq<Attempt>, attempt: nat, payload: map<string, Value>, canDrop: bool, repr: Value -> string): (t: Trace)
    requires attempt <= MaxRetries <= |outcomes|
    ensures |t.log| <= MaxRetries - attempt
    ensures attempt < MaxRetries ==> |t.log| >= 1
    decreases MaxRetries - attempt
  {
    if attempt == MaxRetries then Trace(NoResult, [])
    else
      var s := StepFor(outcomes[attempt], canDrop, repr);
      var here := Sent(payload, WaitAfter(s, attempt));
      match s
      case Finish(r) => Trace(r, [here])
      case RateLimited =>
        var rest := Run(outcomes, attempt + 1, payload, canDrop, repr);
        Trace(rest.result, [here] + rest.log)
      case DropReasoning =>
        var rest := Run(outcomes, attempt + 1, Stripped(payload), false, repr);
        Trace(rest.result, [here] + rest.log)
      case Raised =>
        if attempt < MaxRetries - 1 then
          var rest := Run(outcomes, attempt + 1, payload, canDrop, repr);
          Trace(rest.result, [here] + rest.log)
        else Trace(NoResult, [here])
  }

  /** What query_model does, attempt by attempt. */
  function QuerySpec(apiKey: bool, model: string, messages: Value, extraBody: Option<map<string, Value>>,
                     outcomes: seq<Attempt>, repr: Value -> string): Trace
    requires MaxRetries <= |outcomes|
  {
    if !apiKey then Trace(NoResult, [])
    else
      var payload := SizeMaxTokens(BasePayload(model, messages, extraBody));
      Run(outcomes, 0, payload, CanDropReasoning(extraBody, payload), repr)
  }

  /**
   * Every attempt sends the original payload or, only when dropping was
   * allowed, the payload without "reasoning".
   */
  lemma {:induction false} RunPayloads(outcomes: seq<Attempt>, attempt: nat, payload: map<string, Value>, canDrop: bool, repr: Value -> string)
    requires attempt <= MaxRetries <= |outcomes|
    ensures SendsOnly(Run(outcomes, attempt, payload, canDrop, repr).log, payload, canDrop)
    decreases MaxRetries - attempt
  {
    if attempt < MaxRetries {
      var t := Run(outcomes, attempt, payload, canDrop, repr);
      var s := StepFor(outcomes[attempt], canDrop, repr);
      var here := Sent(payload, WaitAfter(s, attempt));
      RunStep(outcomes, attempt, payload, canDrop, repr);
      if s.RateLimited? || (s.Raised? && attempt < MaxRetries - 1) {
        var rest := Run(outcomes, attempt + 1, payload, canDrop, repr);
        assert t.log == [here] + rest.log;
        RunPayloads(outcomes, attempt + 1, payload, canDrop, repr);
        SendsOnlyPrepend(here, rest.log, payload, canDrop);
      } else if s.DropReasoning? {
        var rest := Run(outcomes, attempt + 1, Stripped(payload), false, repr);
        assert t.log == [here] + rest.log;
        RunNoDrop(outcomes, attempt + 1, Stripped(payload), repr);
        assert SendsOnly(rest.log, payload, canDrop);
        SendsOnlyPrepend(here, rest.log, payload, canDrop);
      }
    }
  }

  /** Every entry of `log` sent `payload` or, when dropping was allowed, `payload` without "reasoning". */
  predicate SendsOnly(log: seq<Sent>, payload: map<string, Value>, canDrop: bool)
  {
    forall i :: 0 <= i < |log| ==> log[i].payload == payload || (canDrop && log[i].payload == Stripped(payload))
  }

  lemma SendsOnlyPrepend(here: Sent, log: seq<Sent>, payload: map<string, Value>, canDrop: bool)
    requires here.payload == payload && SendsOnly(log, payload, canDrop)
    ensures SendsOnly([here] + log, payload, canDrop)
  {
    forall i | 0 <= i < |[here] + log|
      ensures ([here] + log)[i].payload == payload || (canDrop && ([here] + log)[i].payload == Stripped(payload))
    {
      if i > 0 {
        assert ([here] + log)[i] == log[i - 1];
      }
    }
  }

  /** Once an entry of `log` sends something other than `payload`, every later entry sends the same. */
  predicate StaysDropped(log: seq<Sent>, payload: map<string, Value>)
  {
    forall i, j :: 0 <= i <= j < |log| && log[i].payload != payload ==> log[j].payload == log[i].payload
  }

  /** Whether the outcome of attempt `k` makes a run that may still drop the directive drop it. */
  predicate DropStep(outcomes: seq<Attempt>, k: nat, repr: Value -> string)
  {
    k < |outcomes| && StepFor(outcomes[k], true, repr).DropReasoning?
  }

  /**
   * In `log`, recorded from attempt `attempt` on, the payload changes only from
   * `payload` itself, only when dropping was allowed, and only right after an
   * attempt whose step drops the directive.
   */
  predicate ChangesOnlyOnDrop(log: seq<Sent>, outcomes: seq<Attempt>, attempt: nat, payload: map<string, Value>, canDrop: bool, repr: Value -> string)
  {
    forall i :: 0 < i < |log| && log[i].payload != log[i - 1].payload ==>
      canDrop && log[i - 1].payload == payload && DropStep(outcomes, attempt + i - 1, repr)
  }

  lemma KeepPrepend(here: Sent, log: seq<Sent>, outcomes: seq<Attempt>, attempt: nat, payload: map<string, Value>, canDrop: bool, repr: Value -> string)
    requires here.payload == payload
    requires |log| > 0 ==> log[0].payload == payload
    requires StaysDropped(log, payload) && ChangesOnlyOnDrop(log, outcomes, attempt + 1, payload, canDrop, repr)
    ensures StaysDropped([here] + log, payload) && ChangesOnlyOnDrop([here] + log, outcomes, attempt, payload, canDrop, repr)
  {
    var full := [here] + log;
    forall i, j | 0 <= i <= j < |full| && full[i].payload != payload
      ensures full[j].payload == full[i].payload
    {
      assert full[i] == log[i - 1] && full[j] == log[j - 1];
    }
    forall i | 0 < i < |full| && full[i].payload != full[i - 1].payload
      ensures canDrop && full[i - 1].payload == payload && DropStep(outcomes, attempt + i - 1, repr)
    {
      assert full[i] == log[i - 1];
      if i > 1 {
        assert full[i - 1] == log[i - 2];
        assert attempt + i - 1 == (attempt + 1) + (i - 1) - 1;
      }
    }
  }

  lemma DropPrepend(here: Sent, log: seq<Sent>, outcomes: seq<Attempt>, attempt: nat, payload: map<string, Value>, repr: Value -> string)
    requires here.payload == payload && DropStep(outcomes, attempt, repr)
    requires forall i :: 0 <= i < |log| ==> log[i].payload == Stripped(payload)
    ensures StaysDropped([here] + log, payload) && ChangesOnlyOnDrop([here] + log, outcomes, attempt, payload, true, repr)
  {
    var full := [here] + log;
    forall i | 0 < i < |full|
      ensures full[i].payload == Stripped(payload)
    {
      assert full[i] == log[i - 1];
    }
    assert full[0] == here;
  }

  /**
   * The reasoning directive is dropped at most once: the payload changes only
   * right after an attempt whose step drops it, and once changed it stays so.
   */
  lemma {:induction false} DropAtMostOnce(outcomes: seq<Attempt>, attempt: nat, payload: map<string, Value>, canDrop: bool, repr: Value -> string)
    requires attempt <= MaxRetries <= |outcomes|
    ensures StaysDropped(Run(outcomes, attempt, payload, canDrop, repr).log, payload)
    ensures ChangesOnlyOnDrop(Run(outcomes, attempt, payload, canDrop, repr).log, outcomes, attempt, payload, canDrop, repr)
    decreases MaxRetries - attempt
  {
    if attempt < MaxRetries {
      var s := StepFor(outcomes[attempt], canDrop, repr);
      if s.RateLimited? || (s.Raised? && attempt < MaxRetries - 1) {
        DropAtMostOnce(outcomes, attempt + 1, payload, canDrop, repr);
        KeptOnRetry(outcomes, attempt, payload, canDrop, repr);
      } else if s.DropReasoning? {
        DroppedOnce(outcomes, attempt, payload, repr);
      } else {
        RunStep(outcomes, attempt, payload, canDrop, repr);
      }
    }
  }

  /** A retried attempt keeps the payload, and the rest of the run drops at most once. */
  lemma KeptOnRetry(outcomes: seq<Attempt>, attempt: nat, payload: map<string, Value>, canDrop: bool, repr: Value -> string)
    requires attempt < MaxRetries <= |outcomes|
    requires var s := StepFor(outcomes[attempt], canDrop, repr); s.RateLimited? || (s.Raised? && attempt < MaxRetries - 1)
    requires StaysDropped(Run(outcomes, attempt + 1, payload, canDrop, repr).log, payload)
    requires ChangesOnlyOnDrop(Run(outcomes, attempt + 1, payload, canDrop, repr).log, outcomes, attempt + 1, payload, canDrop, repr)
    ensures StaysDropped(Run(outcomes, attempt, payload, canDrop, repr).log, payload)
    ensures ChangesOnlyOnDrop(Run(outcomes, attempt, payload, canDrop, repr).log, outcomes, attempt, payload, canDrop, repr)
  {
    var s := StepFor(outcomes[attempt], canDrop, repr);
    var here := Sent(payload, WaitAfter(s, attempt));
    var rest := Run(outcomes, attempt + 1, payload, canDrop, repr);
    RunStep(outcomes, attempt, payload, canDrop, repr);
    FirstChange(outcomes, attempt + 1, payload, canDrop, repr);
    KeepPrepend(here, rest.log, outcomes, attempt, payload, canDrop, repr);
  }

  /** The attempt that drops the directive is followed only by stripped payloads. */
  lemma DroppedOnce(outcomes: seq<Attempt>, attempt: nat, payload: map<string, Value>, repr: Value -> string)
    requires attempt < MaxRetries <= |outcomes|
    requires StepFor(outcomes[attempt], true, repr).DropReasoning?
    ensures StaysDropped(Run(outcomes, attempt, payload, true, repr).log, payload)
    ensures ChangesOnlyOnDrop(Run(outcomes, attempt, payload, true, repr).log, outcomes, attempt, payload, true, repr)
  {
    var here := Sent(payload, WaitAfter(DropReasoning, attempt));
    var rest := Run(outcomes, attempt + 1, Stripped(payload), false, repr);
    RunStep(outcomes, attempt, payload, true, repr);
    RunNoDrop(outcomes, attempt + 1, Stripped(payload), repr);
    DropPrepend(here, rest.log, outcomes, attempt, payload, repr);
  }

  /** A run sends the payload it was given on its first attempt. */
  lemma FirstChange(outcomes: seq<Attempt>, attempt: nat, payload: map<string, Value>, canDrop: bool, repr: Value -> string)
    requires attempt <= MaxRetries <= |outcomes|
    ensures var t := Run(outcomes, attempt, payload, canDrop, repr);
            |t.log| > 0 ==> t.log[0].payload == payload
  {
  }

  /** Without the flag the payload never changes. */
  lemma {:induction false} RunNoDrop(outcomes: seq<Attempt>, attempt: nat, payload: map<string, Value>, repr: Value -> string)
    requires attempt <= MaxRetries <= |outcomes|
    ensures var t := Run(outcomes, attempt, payload, false, repr);
            forall i :: 0 <= i < |t.log| ==> t.log[i].payload == payload
    decreases MaxRetries - attempt
  {
    if attempt < MaxRetries {
      var t := Run(outcomes, attempt, payload, false, repr);
      var s := StepFor(outcomes[attempt], false, repr);
      if !s.Finish? && !(s.Raised? && attempt == MaxRetries - 1) {
        RunNoDrop(outcomes, attempt + 1, payload, repr);
        var next := if s.DropReasoning? then Stripped(payload) else payload;
        assert !s.DropReasoning?;
        var rest := Run(outcomes, attempt + 1, payload, false, repr);
        assert t.log == [Sent(payload, WaitAfter(s, attempt))] + rest.log;
      }
    }
  }

  // ---------------------------------------------------------------------------
  // What each attempt of a run did.

  /**
   * Whether the flag was still set at entry `i` of `log`, for a run started with
   * `payload` and `canDrop`: it is cleared exactly when the payload is stripped.
   */
  function FlagOf(log: seq<Sent>, i: nat, payload: map<string, Value>, canDrop: bool): bool
    requires i < |log|
  {
    canDrop && log[i].payload == payload
  }

  /** The step that entry `i` of `log`, recorded from attempt `attempt` on, took. */
  function StepOf(log: seq<Sent>, outcomes: seq<Attempt>, attempt: nat, i: nat, payload: map<string, Value>, canDrop: bool, repr: Value -> string): Step
    requires i < |log| && attempt + i < |outcomes|
  {
    StepFor(outcomes[attempt + i], FlagOf(log, i, payload, canDrop), repr)
  }

  /**
   * `t` is what the loop from attempt `attempt` on yields: each entry slept as its
   * step demands, only the last one may have finished, a result other than None
   * is that last step's, and None means every remaining attempt was made
   * without finishing.
   */
  predicate Explains(t: Trace, outcomes: seq<Attempt>, attempt: nat, payload: map<string, Value>, canDrop: bool, repr: Value -> string)
  {
    && attempt <= MaxRetries
    && attempt + |t.log| <= |outcomes|
    && (forall i :: 0 <= i < |t.log| ==> t.log[i].wait == WaitAfter(StepOf(t.log, outcomes, attempt, i, payload, canDrop, repr), attempt + i))
    && (forall i :: 0 <= i < |t.log| - 1 ==> !StepOf(t.log, outcomes, attempt, i, payload, canDrop, repr).Finish?)
    && (!t.result.NoResult? ==>
          |t.log| > 0 && StepOf(t.log, outcomes, attempt, |t.log| - 1, payload, canDrop, repr) == Finish(t.result))
    && (t.result.NoResult? ==>
          |t.log| == MaxRetries - attempt &&
          (|t.log| > 0 ==> !StepOf(t.log, outcomes, attempt, |t.log| - 1, payload, canDrop, repr).Finish?))
  }

  lemma ExplainsKeep(rest: Trace, outcomes: seq<Attempt>, attempt: nat, payload: map<string, Value>, canDrop: bool, repr: Value -> string)
    requires attempt < MaxRetries <= |outcomes|
    requires !StepFor(outcomes[attempt], canDrop, repr).Finish?
    requires |rest.log| > 0 ==> rest.log[0].payload == payload
    requires Explains(rest, outcomes, attempt + 1, payload, canDrop, repr)
    ensures Explains(Trace(rest.result, [Sent(payload, WaitAfter(StepFor(outcomes[attempt], canDrop, repr), attempt))] + rest.log),
                     outcomes, attempt, payload, canDrop, repr)
  {
    var here := Sent(payload, WaitAfter(StepFor(outcomes[attempt], canDrop, repr), attempt));
    var full := [here] + rest.log;
    assert full[0] == here;
    StepsShift(here, rest.log, outcomes, attempt, payload, canDrop, repr);
    assert StepOf(full, outcomes, attempt, 0, payload, canDrop, repr) == StepFor(outcomes[attempt], canDrop, repr);
  }

  /** Prepending an entry shifts the steps of the later entries by one attempt. */
  lemma StepsShift(here: Sent, log: seq<Sent>, outcomes: seq<Attempt>, attempt: nat, payload: map<string, Value>, canDrop: bool, repr: Value -> string)
    requires attempt + 1 + |log| <= |outcomes|
    ensures forall i :: 0 < i < |[here] + log| ==>
              StepOf([here] + log, outcomes, attempt, i, payload, canDrop, repr) == StepOf(log, outcomes, attempt + 1, i - 1, payload, canDrop, repr)
  {
    var full := [here] + log;
    forall i | 0 < i < |full|
      ensures StepOf(full, outcomes, attempt, i, payload, canDrop, repr) == StepOf(log, outcomes, attempt + 1, i - 1, payload, canDrop, repr)
    {
      assert full[i] == log[i - 1];
      assert FlagOf(full, i, payload, canDrop) == FlagOf(log, i - 1, payload, canDrop);
      assert attempt + i == (attempt + 1) + (i - 1);
    }
  }

  lemma ExplainsDrop(rest: Trace, outcomes: seq<Attempt>, attempt: nat, payload: map<string, Value>, repr: Value -> string)
    requires attempt < MaxRetries <= |outcomes|
    requires "reasoning" in payload
    requires StepFor(outcomes[attempt], true, repr).DropReasoning?
    requires forall i :: 0 <= i < |rest.log| ==> rest.log[i].payload == Stripped(payload)
    requires Explains(rest, outcomes, attempt + 1, Stripped(payload), false, repr)
    ensures Explains(Trace(rest.result, [Sent(payload, 0)] + rest.log), outcomes, attempt, payload, true, repr)
  {
    var full := [Sent(payload, 0)] + rest.log;
    assert full[0] == Sent(payload, 0);
    forall i | 0 < i < |full|
      ensures StepOf(full, outcomes, attempt, i, payload, true, repr) == StepOf(rest.log, outcomes, attempt + 1, i - 1, Stripped(payload), false, repr)
    {
      assert full[i] == rest.log[i - 1];
      assert full[i].payload != payload;
      assert attempt + i == (attempt + 1) + (i - 1);
    }
  }

  lemma ExplainsLast(outcomes: seq<Attempt>, attempt: nat, payload: map<string, Value>, canDrop: bool, repr: Value -> string)
    requires attempt < MaxRetries <= |outcomes|
    requires var s := StepFor(outcomes[attempt], canDrop, repr); s.Finish? || (s.Raised? && attempt == MaxRetries - 1)
    ensures var s := StepFor(outcomes[attempt], canDrop, repr);
            Explains(Trace(if s.Finish? then s.result else NoResult, [Sent(payload, WaitAfter(s, attempt))]), outcomes, attempt, payload, canDrop, repr)
  {
    var s := StepFor(outcomes[attempt], canDrop, repr);
    var log := [Sent(payload, WaitAfter(s, attempt))];
    assert StepOf(log, outcomes, attempt, 0, payload, canDrop, repr) == s;
  }

  /** A retried attempt extends an accounted-for rest of the run. */
  lemma RetryExplained(outcomes: seq<Attempt>, attempt: nat, payload: map<string, Value>, canDrop: bool, repr: Value -> string)
    requires attempt < MaxRetries <= |outcomes|
    requires var s := StepFor(outcomes[attempt], canDrop, repr); s.RateLimited? || (s.Raised? && attempt < MaxRetries - 1)
    requires Explains(Run(outcomes, attempt + 1, payload, canDrop, repr), outcomes, attempt + 1, payload, canDrop, repr)
    ensures Explains(Run(outcomes, attempt, payload, canDrop, repr), outcomes, attempt, payload, canDrop, repr)
  {
    var rest := Run(outcomes, attempt + 1, payload, canDrop, repr);
    RunStep(outcomes, attempt, payload, canDrop, repr);
    FirstChange(outcomes, attempt + 1, payload, canDrop, repr);
    ExplainsKeep(rest, outcomes, attempt, payload, canDrop, repr);
  }

  /** The attempt that drops the reasoning directive extends an accounted-for rest of the run. */
  lemma DropExplained(outcomes: seq<Attempt>, attempt: nat, payload: map<string, Value>, repr: Value -> string)
    requires attempt < MaxRetries <= |outcomes|
    requires "reasoning" in payload
    requires StepFor(outcomes[attempt], true, repr).DropReasoning?
    requires Explains(Run(outcomes, attempt + 1, Stripped(payload), false, repr), outcomes, attempt + 1, Stripped(payload), false, repr)
    ensures Explains(Run(outcomes, attempt, payload, true, repr), outcomes, attempt, payload, true, repr)
  {
    var rest := Run(outcomes, attempt + 1, Stripped(payload), false, repr);
    RunStep(outcomes, attempt, payload, true, repr);
    RunNoDrop(outcomes, attempt + 1, Stripped(payload), repr);
    ExplainsDrop(rest, outcomes, attempt, payload, repr);
  }

  /** Each attempt of a run is accounted for by its outcome, as `Explains` says. */
  lemma {:induction false} RunExplained(outcomes: seq<Attempt>, attempt: nat, payload: map<string, Value>, canDrop: bool, repr: Value -> string)
    requires attempt <= MaxRetries <= |outcomes|
    requires canDrop ==> "reasoning" in payload
    ensures Explains(Run(outcomes, attempt, payload, canDrop, repr), outcomes, attempt, payload, canDrop, repr)
    decreases MaxRetries - attempt
  {
    if attempt < MaxRetries {
      var s := StepFor(outcomes[attempt], canDrop, repr);
      if s.RateLimited? || (s.Raised? && attempt < MaxRetries - 1) {
        RunExplained(outcomes, attempt + 1, payload, canDrop, repr);
        RetryExplained(outcomes, attempt, payload, canDrop, repr);
      } else if s.DropReasoning? {
        RunExplained(outcomes, attempt + 1, Stripped(payload), false, repr);
        DropExplained(outcomes, attempt, payload, repr);
      } else {
        RunStep(outcomes, attempt, payload, canDrop, repr);
        ExplainsLast(outcomes, attempt, payload, canDrop, repr);
      }
    }
  }

  /** The payload query_model first sends, after merging extra_body and sizing max_tokens. */
  function InitialPayload(model: string, messages: Value, extraBody: Option<map<string, Value>>): map<string, Value>
  {
    SizeMaxTokens(BasePayload(model, messages, extraBody))
  }

  /** With a key, every attempt of query_model is accounted for by its outcome. */
  lemma QueryExplained(model: string, messages: Value, extraBody: Option<map<string, Value>>, outcomes: seq<Attempt>, repr: Value -> string)
    requires MaxRetries <= |outcomes|
    ensures var payload := InitialPayload(model, messages, extraBody);
            Explains(QuerySpec(true, model, messages, extraBody, outcomes, repr), outcomes, 0, payload, CanDropReasoning(extraBody, payload), repr)
  {
    var payload := InitialPayload(model, messages, extraBody);
    RunExplained(outcomes, 0, payload, CanDropReasoning(extraBody, payload), repr);
  }

  /** Without a key nothing is sent and the result is None. */
  lemma NoKeyNoRequest(model: string, messages: Value, extraBody: Option<map<string, Value>>, outcomes: seq<Attempt>, repr: Value -> string)
    requires MaxRetries <= |outcomes|
    ensures QuerySpec(false, model, messages, extraBody, outcomes, repr) == Trace(NoResult, [])
  {
  }

  /** A 401 or 403 at attempt `k`, reached from attempt `attempt`, ends the run there with an error record carrying its status. */
  lemma {:induction false} AuthorizationFailureEndsLoop(outcomes: seq<Attempt>, attempt: nat, payload: map<string, Value>, canDrop: bool, repr: Value -> string, k: nat)
    requires attempt <= k < MaxRetries <= |outcomes|
    requires k - attempt < |Run(outcomes, attempt, payload, canDrop, repr).log|
    requires outcomes[k].Responded? && (outcomes[k].status == 401 || outcomes[k].status == 403)
    ensures var t := Run(outcomes, attempt, payload, canDrop, repr);
            |t.log| == k - attempt + 1 && t.result.ErrorRecord? && t.result.status == outcomes[k].status
    decreases MaxRetries - attempt
  {
    if attempt < k {
      match StepFor(outcomes[attempt], canDrop, repr)
      case Finish(_) => assert false;
      case RateLimited => AuthorizationFailureEndsLoop(outcomes, attempt + 1, payload, canDrop, repr, k);
      case DropReasoning => AuthorizationFailureEndsLoop(outcomes, attempt + 1, Stripped(payload), false, repr, k);
      case Raised => AuthorizationFailureEndsLoop(outcomes, attempt + 1, payload, canDrop, repr, k);
    }
  }

  /** A 401 or 403 ends the loop at once with an error record carrying that status. */
  lemma AuthorizationFailureEndsRun(model: string, messages: Value, extraBody: Option<map<string, Value>>, outcomes: seq<Attempt>, repr: Value -> string, k: nat)
    requires MaxRetries <= |outcomes|
    requires k < |QuerySpec(true, model, messages, extraBody, outcomes, repr).log|
    requires outcomes[k].Responded? && (outcomes[k].status == 401 || outcomes[k].status == 403)
    ensures var t := QuerySpec(true, model, messages, extraBody, outcomes, repr);
            |t.log| == k + 1 && t.result.ErrorRecord? && t.result.status == outcomes[k].status
  {
    var payload := InitialPayload(model, messages, extraBody);
    AuthorizationFailureEndsLoop(outcomes, 0, payload, CanDropReasoning(extraBody, payload), repr, k);
  }

  /** Three 429s in a row: back-offs of 2, 4 and 8 seconds, then None. */
  lemma RateLimitedThroughout(model: string, messages: Value, extraBody: Option<map<string, Value>>, outcomes: seq<Attempt>, repr: Value -> string)
    requires MaxRetries <= |outcomes|
    requires forall k :: 0 <= k < MaxRetries ==> outcomes[k].Responded? && outcomes[k].status == 429
    ensures var t := QuerySpec(true, model, messages, extraBody, outcomes, repr);
            t.result == NoResult && |t.log| == 3 && [t.log[0].wait, t.log[1].wait, t.log[2].wait] == [2, 4, 8]
  {
    QueryExplained(model, messages, extraBody, outcomes, repr);
    var payload := InitialPayload(model, messages, extraBody);
    var canDrop := CanDropReasoning(extraBody, payload);
    var t := QuerySpec(true, model, messages, extraBody, outcomes, repr);
    forall i | 0 <= i < |t.log|
      ensures StepOf(t.log, outcomes, 0, i, payload, canDrop, repr).RateLimited?
    {
    }
    assert Delay(1) == 4 && Delay(2) == 8;
  }

  /** Three transport failures: back-offs of 2 and 4 seconds, none after the last, then None. */
  lemma FailedThroughout(model: string, messages: Value, extraBody: Option<map<string, Value>>, outcomes: seq<Attempt>, repr: Value -> string)
    requires MaxRetries <= |outcomes|
    requires forall k :: 0 <= k < MaxRetries ==> outcomes[k].Failed?
    ensures var t := QuerySpec(true, model, messages, extraBody, outcomes, repr);
            t.result == NoResult && |t.log| == 3 && [t.log[0].wait, t.log[1].wait, t.log[2].wait] == [2, 4, 0]
  {
    QueryExplained(model, messages, extraBody, outcomes, repr);
    var payload := InitialPayload(model, messages, extraBody);
    var canDrop := CanDropReasoning(extraBody, payload);
    var t := QuerySpec(true, model, messages, extraBody, outcomes, repr);
    forall i | 0 <= i < |t.log|
      ensures StepOf(t.log, outcomes, 0, i, payload, canDrop, repr).Raised?
    {
    }
    assert Delay(1) == 4;
  }

  /**
   * A 400/422 naming the reasoning directive, then an accepted answer: two
   * attempts without a wait, the second sending the payload without
   * "reasoning", and the answer as the result.
   */
  lemma RejectedForReasoningThenAnswered(model: string, messages: Value, extraBody: Option<map<string, Value>>, outcomes: seq<Attempt>, repr: Value -> string)
    requires MaxRetries <= |outcomes|
    requires CanDropReasoning(extraBody, InitialPayload(model, messages, extraBody))
    requires outcomes[0].Responded? && (outcomes[0].status == 400 || outcomes[0].status == 422)
    requires ErrorText(outcomes[0].body, repr).Some? && MentionsReasoning(ErrorText(outcomes[0].body, repr).value)
    requires outcomes[1].Responded? && 200 <= outcomes[1].status < 300 && Accept(outcomes[1].status, outcomes[1].body).Finish?
    ensures var payload := InitialPayload(model, messages, extraBody);
            var t := QuerySpec(true, model, messages, extraBody, outcomes, repr);
            && t.log == [Sent(payload, 0), Sent(Stripped(payload), 0)]
            && t.result == Accept(outcomes[1].status, outcomes[1].body).result
  {
    var payload := InitialPayload(model, messages, extraBody);
    StepForCases(outcomes[0], true, repr);
    StepForCases(outcomes[1], false, repr);
    RunStep(outcomes, 0, payload, true, repr);
    RunStep(outcomes, 1, Stripped(payload), false, repr);
  }

  /**
   * A timeout while the directive may be dropped, then an accepted answer:
   * the retry goes out at once without "reasoning".
   */
  lemma TimedOutThenAnswered(model: string, messages: Value, extraBody: Option<map<string, Value>>, outcomes: seq<Attempt>, repr: Value -> string)
    requires MaxRetries <= |outcomes|
    requires CanDropReasoning(extraBody, InitialPayload(model, messages, extraBody))
    requires outcomes[0].TimedOut?
    requires outcomes[1].Responded? && 200 <= outcomes[1].status < 300 && Accept(outcomes[1].status, outcomes[1].body).Finish?
    ensures var payload := InitialPayload(model, messages, extraBody);
            var t := QuerySpec(true, model, messages, extraBody, outcomes, repr);
            && t.log == [Sent(payload, 0), Sent(Stripped(payload), 0)]
            && t.result == Accept(outcomes[1].status, outcomes[1].body).result
  {
    var payload := InitialPayload(model, messages, extraBody);
    StepForCases(outcomes[1], false, repr);
    RunStep(outcomes, 0, payload, true, repr);
    RunStep(outcomes, 1, Stripped(payload), false, repr);
  }

  // ---------------------------------------------------------------------------
  // query_model itself.

  /** One unfolding of `Run`: the entry of attempt `attempt`, followed by the rest of the run when the loop goes on. */
  lemma RunStep(outcomes: seq<Attempt>, attempt: nat, payload: map<string, Value>, canDrop: bool, repr: Value -> string)
    requires attempt < MaxRetries <= |outcomes|
    ensures var s := StepFor(outcomes[attempt], canDrop, repr);
            var here := Sent(payload, WaitAfter(s, attempt));
            var t := Run(outcomes, attempt, payload, canDrop, repr);
            var next := Run(outcomes, attempt + 1, if s.DropReasoning? then Stripped(payload) else payload, canDrop && !s.DropReasoning?, repr);
            if s.Finish? then t == Trace(s.result, [here])
            else if s.Raised? && attempt == MaxRetries - 1 then t == Trace(NoResult, [here])
            else t == Trace(next.result, [here] + next.log)
  {
  }

  lemma AppendAssoc(log: seq<Sent>, here: Sent, rest: seq<Sent>)
    ensures log + ([here] + rest) == (log + [here]) + rest
  {
  }

  /**
   * query_model: build the payload, then try up to three times, sleeping,
   * dropping the reasoning directive once, or returning, as each outcome demands.
   * `apiKey` says whether OPENROUTER_API_KEY is set; `outcomes[k]` is what the
   * transport yields on attempt k.
   */
  method QueryModel(apiKey: bool, model: string, messages: Value, extraBody: Option<map<string, Value>>,
                    outcomes: seq<Attempt>, repr: Value -> string) returns (t: Trace)
    requires MaxRetries <= |outcomes|
    ensures t == QuerySpec(apiKey, model, messages, extraBody, outcomes, repr)
  {
    if !apiKey {
      return Trace(NoResult, []);
    }
    var payload := BasePayload(model, messages, extraBody);
    payload := SizeMaxTokens(payload);
    var canDrop := CanDropReasoning(extraBody, payload);
    t := RetryLoop(outcomes, payload, canDrop, repr);
  }

  /** The whole run `total` is the attempts logged so far followed by the run from `attempt` on. */
  predicate Resumes(total: Trace, log: seq<Sent>, outcomes: seq<Attempt>, attempt: nat, payload: map<string, Value>, canDrop: bool, repr: Value -> string)
    requires attempt <= MaxRetries <= |outcomes|
  {
    var rest := Run(outcomes, attempt, payload, canDrop, repr);
    total == Trace(rest.result, log + rest.log)
  }

  /** One pass of the retry loop: the attempt is logged, and the run either ends here or resumes at the next attempt. */
  lemma LoopStep(total: Trace, log: seq<Sent>, outcomes: seq<Attempt>, attempt: nat, payload: map<string, Value>, canDrop: bool, repr: Value -> string)
    requires attempt < MaxRetries <= |outcomes|
    requires Resumes(total, log, outcomes, attempt, payload, canDrop, repr)
    ensures var s := StepFor(outcomes[attempt], canDrop, repr);
            var logged := log + [Sent(payload, WaitAfter(s, attempt))];
            if s.Finish? then total == Trace(s.result, logged)
            else if s.Raised? && attempt == MaxRetries - 1 then total == Trace(NoResult, logged)
            else Resumes(total, logged, outcomes, attempt + 1, if s.DropReasoning? then Stripped(payload) else payload, canDrop && !s.DropReasoning?, repr)
  {
    var s := StepFor(outcomes[attempt], canDrop, repr);
    var here := Sent(payload, WaitAfter(s, attempt));
    var next := Run(outcomes, attempt + 1, if s.DropReasoning? then Stripped(payload) else payload, canDrop && !s.DropReasoning?, repr);
    RunStep(outcomes, attempt, payload, canDrop, repr);
    AppendAssoc(log, here, next.log);
  }

  /** Once every attempt is spent the run is the attempts logged, without a result. */
  lemma LoopEnd(total: Trace, log: seq<Sent>, outcomes: seq<Attempt>, payload: map<string, Value>, canDrop: bool, repr: Value -> string)
    requires MaxRetries <= |outcomes|
    requires Resumes(total, log, outcomes, MaxRetries, payload, canDrop, repr)
    ensures total == Trace(NoResult, log)
  {
    assert log + [] == log;
  }

  /** The `for attempt in range(max_retries)` loop of query_model, on the payload and flag it built. */
  method RetryLoop(outcomes: seq<Attempt>, payload0: map<string, Value>, canDrop0: bool, repr: Value -> string) returns (t: Trace)
    requires MaxRetries <= |outcomes|
    ensures t == Run(outcomes, 0, payload0, canDrop0, repr)
  {
    var payload := payload0;
    var canDrop := canDrop0;
    var log: seq<Sent> := [];
    var attempt: nat := 0;
    ghost var total := Run(outcomes, 0, payload0, canDrop0, repr);
    while attempt < MaxRetries
      invariant attempt <= MaxRetries
      invariant Resumes(total, log, outcomes, attempt, payload, canDrop, repr)
      decreases MaxRetries - attempt
    {
      var s := StepFor(outcomes[attempt], canDrop, repr);
      var here := Sent(payload, WaitAfter(s, attempt));
      LoopStep(total, log, outcomes, attempt, payload, canDrop, repr);
      log := log + [here];
      if s.Finish? {
        return Trace(s.result, log);
      } else if s.DropReasoning? {
        payload := Stripped(payload);
        canDrop := false;
      } else if s.Raised? && attempt == MaxRetries - 1 {
        return Trace(NoResult, log);
      }
      attempt := attempt + 1;
    }
    LoopEnd(total, log, outcomes, payload, canDrop, repr);
    return Trace(NoResult, log);
  }

  /**
   * A reasoning directive built by `build_reasoning_payload` and passed as
   * extra_body may be dropped on a rejection or a timeout.
   */
  lemma ReasoningPayloadMayBeDropped(settings: ThinkingSettings, model: string, thinking: Option<map<string, Value>>, messages: Value)
    requires BuildReasoningPayload(settings, model, thinking) != map[]
    ensures var extra := Some(BuildReasoningPayload(settings, model, thinking));
            CanDropReasoning(extra, InitialPayload(model, messages, extra))
  {
    var extra := BuildReasoningPayload(settings, model, thinking);
    var base := BasePayload(model, messages, Some(extra));
    assert base["reasoning"] == extra["reasoning"];
  }

  // ---------------------------------------------------------------------------
  // query_search_model.

  /** The search models that take no tools list. */
  const SearchModelsWithoutTools: set<string> := {"openai/gpt-4o-mini-search-preview", "openai/gpt-4o-search-preview"}

  /** `model or SEARCH_MODEL`. */
  function SearchModelFor(model: Option<string>, configured: string): (m: string)
    ensures model.Some? && model.value != "" ==> m == model.value
    ensures model.None? || model.value == "" ==> m == configured
  {
    if model.Some? && model.value != "" then model.value else configured
  }

  /** The extra body of a search query: deterministic, bounded, with web search options and, unless the model forbids it, the web search tool. */
  function SearchExtraBody(searchModel: string, maxTokens: int, contextSize: string): (e: map<string, Value>)
    ensures "reasoning" !in e && "model" !in e && "messages" !in e
    ensures "temperature" in e && e["temperature"] == Int(0)
    ensures "max_tokens" in e && e["max_tokens"] == Int(maxTokens)
    ensures ("tools" in e <==> searchModel !in SearchModelsWithoutTools) && ("tool_choice" in e <==> searchModel !in SearchModelsWithoutTools)
    ensures "web_search_options" in e && e["web_search_options"] == Obj([("search_context_size", Str(contextSize))])
    ensures "tools" in e ==> e["tools"] == List([Obj([("type", Str("web_search"))])])
    ensures "tool_choice" in e ==> e["tool_choice"] == Str("auto")
    ensures e.Keys == {"temperature", "max_tokens", "web_search_options"} +
                      (if searchModel in SearchModelsWithoutTools then {} else {"tools", "tool_choice"})
  {
    var base := map["temperature" := Int(0), "max_tokens" := Int(maxTokens),
                    "web_search_options" := Obj([("search_context_size", Str(contextSize))])];
    if searchModel !in SearchModelsWithoutTools then
      base["tools" := List([Obj([("type", Str("web_search"))])])]["tool_choice" := Str("auto")]
    else base
  }

  /**
   * The payload of a search query: temperature 0, the requested max_tokens, no
   * reasoning directive, and the web search tool exactly when the model accepts
   * tools; it cannot be dropped from.
   */
  lemma SearchPayloadShape(searchModel: string, maxTokens: int, contextSize: string, messages: Value)
    ensures var extra := Some(SearchExtraBody(searchModel, maxTokens, contextSize));
            var payload := InitialPayload(searchModel, messages, extra);
            && payload["model"] == Str(searchModel) && payload["messages"] == messages
            && payload["temperature"] == Int(0) && payload["max_tokens"] == Int(maxTokens)
            && "reasoning" !in payload
            && ("tools" in payload <==> searchModel !in SearchModelsWithoutTools)
            && ("tool_choice" in payload <==> searchModel !in SearchModelsWithoutTools)
            && !CanDropReasoning(extra, payload)
  {
    var extra := SearchExtraBody(searchModel, maxTokens, contextSize);
    var base := BasePayload(searchModel, messages, Some(extra));
    assert "reasoning" !in base;
    assert base["model"] == Str(searchModel) && base["messages"] == messages;
  }

  /** A search query sends that same payload on every attempt. */
  lemma SearchPayloadFixed(searchModel: string, maxTokens: int, contextSize: string, messages: Value, outcomes: seq<Attempt>, repr: Value -> string)
    requires MaxRetries <= |outcomes|
    ensures var extra := Some(SearchExtraBody(searchModel, maxTokens, contextSize));
            var t := QuerySpec(true, searchModel, messages, extra, outcomes, repr);
            forall i :: 0 <= i < |t.log| ==> t.log[i].payload == InitialPayload(searchModel, messages, extra)
  {
    var extra := Some(SearchExtraBody(searchModel, maxTokens, contextSize));
    var payload := InitialPayload(searchModel, messages, extra);
    SearchPayloadShape(searchModel, maxTokens, contextSize, messages);
    assert QuerySpec(true, searchModel, messages, extra, outcomes, repr) == Run(outcomes, 0, payload, false, repr);
    RunNoDrop(outcomes, 0, payload, repr);
  }

  /** The max_tokens of a search query when the caller passes none. */
  const DefaultSearchMaxTokens: int := 800

  /**
   * query_search_model: query_model on `model or SEARCH_MODEL` with the search
   * extra body; `configured` and `contextSize` stand for SEARCH_MODEL and
   * SEARCH_CONTEXT_SIZE, and an absent `maxTokens` for the default 800.
   */
  method QuerySearchModel(apiKey: bool, messages: Value, model: Option<string>, configured: string, maxTokens: Option<int>,
                          contextSize: string, outcomes: seq<Attempt>, repr: Value -> string) returns (t: Trace)
    requires MaxRetries <= |outcomes|
    ensures var m := SearchModelFor(model, configured);
            var budget := if maxTokens.Some? then maxTokens.value else DefaultSearchMaxTokens;
            t == QuerySpec(apiKey, m, messages, Some(SearchExtraBody(m, budget, contextSize)), outcomes, repr)
  {
    var searchModel := SearchModelFor(model, configured);
    var budget := if maxTokens.Some? then maxTokens.value else DefaultSearchMaxTokens;
    var extraBody := SearchExtraBody(searchModel, budget, contextSize);
    t := QueryModel(apiKey, searchModel, messages, Some(extraBody), outcomes, repr);
  }
}
