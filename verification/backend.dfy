/** The back end's `generate_music` handler (POST /api/generate-music), with its outside calls
    (the Suno HTTP request, the MusicGen generator, the environment) as inputs. */
module Backend {
  import opened Wrappers
  import opened Text
  import opened Http

  /** The request body; `generator` is `None` when the client omits it. */
  datatype GenerateRequest = GenerateRequest(prompt: string, generator: Option<string>)

  /** The generator used when the request names none. */
  const DefaultGenerator := "suno"

  /** What the upstream Suno request produced. */
  datatype SunoCall =
    | RequestFailed(error: string)       // a `requests` exception: connection, timeout, error status, body not JSON
    | Malformed                          // the JSON (or its "data") is not an object, so `.get` raises
    | Answered(taskId: Option<string>)   // `data.taskId`, `None` when absent

  /** What `musicgen.generate_music(prompt)` did. */
  datatype MusicGenCall =
    | Raised(error: string)              // it raised; `error` is the exception's text
    | Returned(result: Option<JsonObject>)

  const PromptRequiredDetail := "프롬프트가 필요합니다."
  const ApiKeyMissingDetail := "Suno API 키가 설정되지 않았습니다."
  const NoTaskIdDetail := "Suno API에서 task_id를 받지 못했습니다."
  const SunoFailedPrefix := "Suno API 호출에 실패했습니다: "
  const SunoAcceptedMessage := "음악 생성 중입니다. 잠시 후 자동으로 재생됩니다."
  const SunoSource := "from Suno"
  const MusicGenFailedDetail := "MusicGen으로 음악 생성에 실패했습니다."
  const MusicGenErrorPrefix := "MusicGen 예외 발생: "
  const UnsupportedDetail := "지원하지 않는 생성기입니다."

  /** The generator actually used. */
  function Generator(req: GenerateRequest): string {
    req.generator.GetOr(DefaultGenerator)
  }

  /** `prompt.split(',')[0].strip()`: the track title derived from a prompt. It has no comma and no
      whitespace at either end. */
  function Title(prompt: string): (t: string)
    ensures ',' !in t
    ensures t == "" || (!IsSpace(t[0]) && !IsSpace(t[|t| - 1]))
  {
    var first := Split(prompt, ',')[0];
    var t := Strip(first);
    StrippedPieceShape(first, t);
    t
  }

  /** A stripped piece of comma-free text is comma-free and has no whitespace at either end. */
  lemma StrippedPieceShape(p: string, t: string)
    requires ',' !in p
    requires exists i :: StrippedAt(p, t, i)
    ensures ',' !in t
    ensures t == "" || (!IsSpace(t[0]) && !IsSpace(t[|t| - 1]))
  {
    var i :| StrippedAt(p, t, i);
    OccursInPrefix(p, p, t, i);
  }

  /** The title is what stripping the text before the prompt's first comma gives (the whole prompt
      when it has no comma), so it is a comma-free piece of the prompt with no whitespace at either end. */
  lemma TitleSpec(prompt: string)
    ensures var t := Title(prompt); var p := Split(prompt, ',')[0];
      && |p| <= |prompt| && p == prompt[..|p|]
      && ',' !in p
      && (|p| == |prompt| || prompt[|p|] == ',')
      && (exists i :: StrippedAt(p, t, i))
      && ',' !in t
      && (t == "" || (!IsSpace(t[0]) && !IsSpace(t[|t| - 1])))
      && exists i :: OccursAt(prompt, t, i)
  {
    var first := Split(prompt, ',')[0];
    var t := Strip(first);
    assert t == Title(prompt);
    FirstPieceIsPrefix(prompt, ',');
    StrippedPieceOfPrefix(prompt, first, t);
  }

  /** A stripped piece of a comma-free prefix is a comma-free piece of the whole string,
      with no whitespace at either end. */
  lemma StrippedPieceOfPrefix(s: string, p: string, t: string)
    requires |p| <= |s| && p == s[..|p|] && ',' !in p
    requires exists i :: StrippedAt(p, t, i)
    ensures ',' !in t
    ensures t == "" || (!IsSpace(t[0]) && !IsSpace(t[|t| - 1]))
    ensures exists i :: OccursAt(s, t, i)
  {
    var i :| StrippedAt(p, t, i);
    OccursInPrefix(s, p, t, i);
  }

  /** A prompt without a comma is titled by the whole prompt, stripped. */
  lemma TitleWithoutComma(prompt: string)
    requires ',' !in prompt
    ensures Title(prompt) == Strip(prompt)
  {
    assert Split(prompt, ',') == [prompt];
  }

  /** A piece of a prefix is a piece of the whole string, and lacks what the prefix lacks. */
  lemma OccursInPrefix(s: string, p: string, t: string, i: int)
    requires |p| <= |s| && p == s[..|p|] && ',' !in p
    requires 0 <= i <= i + |t| <= |p| && t == p[i..i + |t|]
    ensures OccursAt(s, t, i) && ',' !in t
  {
    assert s[i..i + |t|] == p[i..i + |t|];
    forall k | 0 <= k < |t| ensures t[k] != ',' { assert t[k] == p[i + k]; }
  }

  /** Python truthiness of an optional string. */
  predicate Present(s: Option<string>) {
    s.Some? && Truthy(s.value)
  }

  /** The text Python gives for a raised `HTTPException` with status 500: "500: <detail>". */
  function ServerErrorText(detail: string): string {
    "500: " + detail
  }

  /** The body of the Suno branch's 202 reply: a title, a source label and a message, and nothing else. */
  function SunoAcceptedBody(prompt: string): (b: JsonObject)
    ensures b.Keys == {"title", "source", "message"}
    ensures b["title"] == Title(prompt) && b["source"] == SunoSource
  {
    var m := map["title" := Title(prompt), "source" := SunoSource];
    assert "message" !in m by { assert |"message"| != |"title"| && |"message"| != |"source"|; }
    m["message" := SunoAcceptedMessage]
  }

  /** The Suno branch, after the API key check. */
  function SunoBranch(prompt: string, call: SunoCall): (r: Reply)
    ensures r.status in {202, 500, 503}
    ensures r.status == 503 <==> call.RequestFailed?
    ensures r.status == 202 <==> (call.Answered? && Present(call.taskId))
    ensures r.status == 202 ==> r.body == Some(SunoAcceptedBody(prompt))
  {
    match call
    case RequestFailed(e) => ErrorReply(503, SunoFailedPrefix + e)
    case Malformed => Reply(500, None)
    case Answered(taskId) =>
      if Present(taskId) then
        Reply(202, Some(SunoAcceptedBody(prompt)))
      else
        ErrorReply(500, NoTaskIdDetail)
  }

  /** A generator result the handler accepts: a non-empty object with url, source and title. */
  predicate MusicGenSucceeded(call: MusicGenCall) {
    && call.Returned? && call.result.Some? && |call.result.value| > 0
    && "url" in call.result.value && "source" in call.result.value && "title" in call.result.value
  }

  /** The MusicGen branch: the generator's own failure is re-raised inside `except Exception`,
      so every failure reaches the client as a 500 whose detail starts with the MusicGen prefix. */
  function MusicGenBranch(prompt: string, call: MusicGenCall): (r: Reply)
    ensures r.status in {200, 500}
    ensures r.status == 200 <==> MusicGenSucceeded(call)
    ensures r.status == 200 ==> (r.body.Some? && r.body.value.Keys == {"url", "title", "source"}
                                 && r.body.value["url"] == call.result.value["url"]
                                 && r.body.value["source"] == call.result.value["source"]
                                 && r.body.value["title"] == Title(prompt))
    ensures r.status == 500 ==> (r.body.Some? && "detail" in r.body.value
                                 && |MusicGenErrorPrefix| <= |r.body.value["detail"]|
                                 && r.body.value["detail"][..|MusicGenErrorPrefix|] == MusicGenErrorPrefix)
  {
    match call
    case Raised(e) => ErrorReply(500, MusicGenErrorPrefix + e)
    case Returned(result) =>
      if result.None? || |result.value| == 0 then
        ErrorReply(500, MusicGenErrorPrefix + ServerErrorText(MusicGenFailedDetail))
      else
        var m := result.value;
        // the keys are read in the order url, source, title; a missing one raises KeyError('<key>')
        if "url" !in m then ErrorReply(500, MusicGenErrorPrefix + "'url'")
        else if "source" !in m then ErrorReply(500, MusicGenErrorPrefix + "'source'")
        else if "title" !in m then ErrorReply(500, MusicGenErrorPrefix + "'title'")
        else Reply(200, Some(map["url" := m["url"], "title" := Title(prompt), "source" := m["source"]]))
  }

  /** The handler. `apiKey` is the `SUNO_API_KEY` environment variable; `suno` and `musicgen` are what
      the outside calls would produce, consulted only on their own branch. */
  function HandleGenerate(req: GenerateRequest, apiKey: Option<string>, suno: SunoCall, musicgen: MusicGenCall): (r: Reply)
    ensures r.status in {200, 202, 400, 500, 503}
    // an empty prompt is refused before the generator is looked at
    ensures req.prompt == "" ==> r == ErrorReply(400, PromptRequiredDetail)
    ensures r.status == 400 <==> (req.prompt == "" || Generator(req) !in {"suno", "musicgen"})
    ensures req.prompt != "" && Generator(req) !in {"suno", "musicgen"} ==> r == ErrorReply(400, UnsupportedDetail)
    // the Suno branch
    ensures req.prompt != "" && Generator(req) == "suno" && !Present(apiKey) ==> r == ErrorReply(500, ApiKeyMissingDetail)
    ensures r.status == 503 <==> (req.prompt != "" && Generator(req) == "suno" && Present(apiKey) && suno.RequestFailed?)
    ensures r.status == 202 <==> (req.prompt != "" && Generator(req) == "suno" && Present(apiKey)
                                  && suno.Answered? && Present(suno.taskId))
    ensures r.status == 202 ==> (r.body.Some? && r.body.value.Keys == {"title", "source", "message"}
                                 && r.body.value["title"] == Title(req.prompt)
                                 && r.body.value["source"] == SunoSource)
    // the MusicGen branch
    ensures r.status == 200 <==> (req.prompt != "" && Generator(req) == "musicgen" && MusicGenSucceeded(musicgen))
    ensures r.status == 200 ==> (r.body.Some? && r.body.value.Keys == {"url", "title", "source"}
                                 && r.body.value["url"] == musicgen.result.value["url"]
                                 && r.body.value["source"] == musicgen.result.value["source"]
                                 && r.body.value["title"] == Title(req.prompt))
    ensures req.prompt != "" && Generator(req) == "musicgen" && !MusicGenSucceeded(musicgen) ==>
              (r.status == 500 && r.body.Some? && "detail" in r.body.value
               && |MusicGenErrorPrefix| <= |r.body.value["detail"]|
               && r.body.value["detail"][..|MusicGenErrorPrefix|] == MusicGenErrorPrefix)
  {
    if req.prompt == "" then
      ErrorReply(400, PromptRequiredDetail)
    else if Generator(req) == "suno" then
      if !Present(apiKey) then ErrorReply(500, ApiKeyMissingDetail)
      else SunoBranch(req.prompt, suno)
    else if Generator(req) == "musicgen" then
      MusicGenBranch(req.prompt, musicgen)
    else
      ErrorReply(400, UnsupportedDetail)
  }

  /** Omitting the generator is the same as asking for Suno. */
  lemma GeneratorDefaultsToSuno(prompt: string, apiKey: Option<string>, suno: SunoCall, musicgen: MusicGenCall)
    ensures HandleGenerate(GenerateRequest(prompt, None), apiKey, suno, musicgen)
         == HandleGenerate(GenerateRequest(prompt, Some("suno")), apiKey, suno, musicgen)
  {
  }

  /** The Suno branch never looks at the MusicGen outcome, and the MusicGen branch never looks at the
      API key or the Suno outcome. */
  lemma BranchesIndependent(req: GenerateRequest, k1: Option<string>, k2: Option<string>,
                            s1: SunoCall, s2: SunoCall, m1: MusicGenCall, m2: MusicGenCall)
    ensures Generator(req) == "suno" ==> HandleGenerate(req, k1, s1, m1) == HandleGenerate(req, k1, s1, m2)
    ensures Generator(req) == "musicgen" ==> HandleGenerate(req, k1, s1, m1) == HandleGenerate(req, k2, s2, m1)
  {
  }

  /** The generator's failure to produce a result surfaces with its detail rewritten by the outer handler. */
  lemma MusicGenNoneDetail(prompt: string, apiKey: Option<string>, suno: SunoCall)
    requires prompt != ""
    ensures HandleGenerate(GenerateRequest(prompt, Some("musicgen")), apiKey, suno, Returned(None))
         == ErrorReply(500, MusicGenErrorPrefix + "500: " + MusicGenFailedDetail)
  {
    assert MusicGenErrorPrefix + ServerErrorText(MusicGenFailedDetail)
        == MusicGenErrorPrefix + "500: " + MusicGenFailedDetail;
  }

  /** The Suno failure replies, one per upstream outcome. */
  lemma SunoFailures(prompt: string, apiKey: Option<string>, musicgen: MusicGenCall, e: string)
    requires prompt != "" && Present(apiKey)
    ensures HandleGenerate(GenerateRequest(prompt, Some("suno")), apiKey, RequestFailed(e), musicgen)
         == ErrorReply(503, SunoFailedPrefix + e)
    ensures HandleGenerate(GenerateRequest(prompt, Some("suno")), apiKey, Answered(None), musicgen)
         == ErrorReply(500, NoTaskIdDetail)
    ensures HandleGenerate(GenerateRequest(prompt, Some("suno")), apiKey, Answered(Some("")), musicgen)
         == ErrorReply(500, NoTaskIdDetail)
    ensures HandleGenerate(GenerateRequest(prompt, Some("suno")), apiKey, Malformed, musicgen) == Reply(500, None)
  {
  }
}
