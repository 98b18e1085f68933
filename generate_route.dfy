/**
 * The document-generation endpoint (src/app/api/generate/route.ts): the
 * guards of `POST`, the injection of the current date into the answers, and
 * the clean-up of the model's text before it is parsed. The generative
 * model, `JSON.parse`, `req.json()` and the locale-formatted date are inputs.
 */
module GenerateRoute {
  import opened Wrappers
  import opened JsValue
  import opened Text

  /** An HTTP response: its status and its JSON body. */
  datatype Response = Response(status: int, body: Value)

  /** `NextResponse.json({ error: message }, { status })`. */
  function ErrorResponse(message: string, status: int): Response {
    Response(status, Object(map["error" := Str(message)]))
  }

  /**
   * `bodySchema.safeParse(body)`: the body must be an object whose `answers`
   * is a plain object (a record with string keys, any values); yields that record.
   */
  function ParseBody(body: Value): (r: Option<map<string, Value>>)
    ensures r.Some? <==> body.Object? && Field(body.fields, "answers").Object?
    ensures r.Some? ==> Object(r.value) == body.fields["answers"]
  {
    if body.Object? && Field(body.fields, "answers").Object? then Some(body.fields["answers"].fields)
    else None
  }

  /** The API key is missing: `!apiKey` holds for an unset and for an empty key. */
  predicate MissingKey(apiKey: Option<string>) {
    apiKey == None || apiKey == Some("")
  }

  /** `after` is `before` with `currentDate` set to `today` and no other key added, removed or changed. */
  ghost predicate DateInjected(before: map<string, Value>, after: map<string, Value>, today: string) {
    && "currentDate" in after && after["currentDate"] == Str(today)
    && after.Keys == before.Keys + {"currentDate"}
    && forall key | key in before && key != "currentDate" :: after[key] == before[key]
  }

  /**
   * The answers after `answers.currentDate = today`: the date overwrites any
   * `currentDate` the client sent, and every other answer is kept.
   */
  function WithCurrentDate(answers: map<string, Value>, today: string): (r: map<string, Value>)
    ensures DateInjected(answers, r, today)
  {
    answers["currentDate" := Str(today)]
  }

  /** The fence the clean-up strips together with its `json` tag. */
  const JsonFence := "```json"

  /** The clean-up `text.replace(/```json/g, "").replace(/```/g, "").trim()`. */
  function Clean(text: string): (r: string)
    ensures !Contains(r, Fence)
    ensures r == [] || (!IsJsWhitespace(r[0]) && !IsJsWhitespace(r[|r| - 1]))
  {
    var unfenced := RemoveAll(RemoveAll(text, JsonFence), Fence);
    RemoveFencesLeavesNone(RemoveAll(text, JsonFence));
    TrimKeepsAbsent(unfenced, Fence);
    Trim(unfenced)
  }

  /**
   * What the clean-up is for: a reply wrapped in a `json`-tagged fence comes
   * out as the trimmed text inside the fence, provided that text itself holds
   * no backtick.
   */
  lemma CleanUnwrapsFencedJson(t: string)
    requires '`' !in t
    ensures Clean(JsonFence + t + Fence) == Trim(t)
  {
    var s := JsonFence + t + Fence;
    assert s[..|JsonFence|] == JsonFence && s[|JsonFence|..] == t + Fence;
    RemoveAllKeepsPrefix(t, Fence, JsonFence);
    assert RemoveAll(Fence, JsonFence) == Fence;
    RemoveAllKeepsPrefix(t, Fence, Fence);
    assert Fence[..|Fence|] == Fence && Fence[|Fence|..] == [];
    assert t + [] == t;
  }

  /** Trimming cannot create an occurrence of a pattern. */
  lemma TrimKeepsAbsent(s: string, p: string)
    requires !Contains(s, p)
    ensures !Contains(Trim(s), p)
  {
    InfixContains(s, p, TrimOffset(s), |Trim(s)|);
  }

  /** A string without a bare fence has no tagged fence either. */
  lemma NoFenceNoJsonFence(s: string)
    requires !Contains(s, Fence)
    ensures !Contains(s, JsonFence)
  {
    forall i: nat | i <= |s| && OccursAt(s, JsonFence, i) ensures OccursAt(s, Fence, i) {
      assert s[i..i + 3] == s[i..i + 7][..3];
    }
  }

  /** Cleaning its own output changes nothing. */
  lemma CleanIdempotent(text: string)
    ensures Clean(Clean(text)) == Clean(text)
  {
    var c := Clean(text);
    NoFenceNoJsonFence(c);
    RemoveAllAbsent(c, JsonFence);
    RemoveAllAbsent(c, Fence);
    TrimIdempotent(RemoveAll(RemoveAll(text, JsonFence), Fence));
  }

  /**
   * `POST`: the guards in order (a missing API key, a body that is not JSON,
   * a body that fails the schema), then the date injection, the generation,
   * the clean-up and the parse. Every thrown error becomes a 500 carrying its
   * message; success returns the parsed value, unchecked, under `documents`.
   */
  method Post(
    apiKey: Option<string>,
    body: Result<Value, string>,
    today: string,
    generate: map<string, Value> -> Result<string, string>,
    parse: string -> Result<Value, string>)
    returns (response: Response)
    ensures response.status == 200 || response.status == 400 || response.status == 500
    ensures MissingKey(apiKey) ==> response == ErrorResponse("API Key ausente", 500)
    ensures !MissingKey(apiKey) && body.Failure? ==> response == ErrorResponse(body.error, 500)
    ensures response.status == 400 <==>
      !MissingKey(apiKey) && body.Success? && ParseBody(body.value).None?
    ensures response.status == 400 ==> response == ErrorResponse("Dados inválidos", 400)
    ensures !MissingKey(apiKey) && body.Success? && ParseBody(body.value).Some? ==>
      var answers := WithCurrentDate(ParseBody(body.value).value, today);
      match generate(answers)
      case Failure(message) => response == ErrorResponse(message, 500)
      case Success(text) =>
        match parse(Clean(text))
        case Failure(message) => response == ErrorResponse(message, 500)
        case Success(documents) => response == Response(200, Object(map["documents" := documents]))
  {
    if MissingKey(apiKey) {
      return ErrorResponse("API Key ausente", 500);
    }
    if body.Failure? {
      return ErrorResponse(body.error, 500);
    }
    var validation := ParseBody(body.value);
    if validation.None? {
      return ErrorResponse("Dados inválidos", 400);
    }
    var answers := validation.value;
    answers := WithCurrentDate(answers, today);
    var generated := generate(answers);
    if generated.Failure? {
      return ErrorResponse(generated.error, 500);
    }
    var text := Clean(generated.value);
    var documents := parse(text);
    if documents.Failure? {
      return ErrorResponse(documents.error, 500);
    }
    return Response(200, Object(map["documents" := documents.value]));
  }
}
