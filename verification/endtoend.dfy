/** Properties of the page and the back end together: the page always asks for the Suno generator,
    and its reading of the replies meets what the handler sends. */
module EndToEnd {
  import opened Wrappers
  import opened Text
  import opened Http
  import opened Composer
  import opened Client
  import opened Backend

  /** The request the page sends for a prompt: the generator is always "suno". */
  function PageRequest(prompt: string): GenerateRequest {
    GenerateRequest(prompt, Some("suno"))
  }

  /** The Suno branch's accepted reply carries neither `task_id` nor `url`, so the page reads it as an
      invalid response; no Suno reply is ever deferred or played. */
  lemma SunoReplyNeverPlays(prompt: string, apiKey: Option<string>, suno: SunoCall, musicgen: MusicGenCall)
    ensures var o := Classify(HandleGenerate(PageRequest(prompt), apiKey, suno, musicgen));
      o.Failed? || o.Invalid?
    ensures var r := HandleGenerate(PageRequest(prompt), apiKey, suno, musicgen);
      r.status == 202 ==> Classify(r) == Invalid
  {
    var r := HandleGenerate(PageRequest(prompt), apiKey, suno, musicgen);
    if r.status == 202 {
      var b := SunoAcceptedBody(prompt);
      assert r.body == Some(b);
      assert "task_id" !in b by { assert "task_id"[0] != "message"[0]; }
      assert "url" !in b;
    }
  }

  /** Hence, with the generator the page uses, a generation attempt never adds a track: the playlist is
      unchanged and the user sees an alert. */
  lemma PageNeverGrowsPlaylist(p: Playlist, prompt: string, apiKey: Option<string>, suno: SunoCall,
                               musicgen: MusicGenCall, parseError: string)
    ensures var (q, e) := Receive(p, HandleGenerate(PageRequest(prompt), apiKey, suno, musicgen), parseError);
      q == p && e.Alert?
  {
    SunoReplyNeverPlays(prompt, apiKey, suno, musicgen);
  }

  /** Every error the handler raises reaches the user with the handler's own detail text. */
  lemma HandlerErrorsShowDetail(req: GenerateRequest, apiKey: Option<string>, suno: SunoCall, musicgen: MusicGenCall)
    ensures var r := HandleGenerate(req, apiKey, suno, musicgen);
      r.status != 200 && r.status != 202 ==>
        && Classify(r).Failed?
        && (r.body.Some? ==> Classify(r).message == r.body.value["detail"])
        && (r.body.None? ==> Classify(r).message == GenerationFailed)
  {
  }

  /** A prompt the page composes is never refused as empty or as naming an unknown generator. */
  lemma ComposedPromptAccepted(f: Fields, input: string, call: TransformCall,
                               apiKey: Option<string>, suno: SunoCall, musicgen: MusicGenCall)
    ensures ComposeFromFields(f).Success? ==>
      HandleGenerate(PageRequest(ComposeFromFields(f).value), apiKey, suno, musicgen).status != 400
    ensures ComposeFromText(input, call).Submit? ==>
      HandleGenerate(PageRequest(ComposeFromText(input, call).prompt), apiKey, suno, musicgen).status != 400
  {
  }

  /** Were the page to ask for MusicGen, a successful generation would be played, titled by the prompt
      (or by its playlist position when that title is empty) and labelled by the generator. */
  lemma MusicGenReplyPlays(prompt: string, apiKey: Option<string>, suno: SunoCall, musicgen: MusicGenCall)
    requires prompt != "" && MusicGenSucceeded(musicgen) && Truthy(musicgen.result.value["url"])
    ensures var m := musicgen.result.value;
      Classify(HandleGenerate(GenerateRequest(prompt, Some("musicgen")), apiKey, suno, musicgen))
      == Immediate(m["url"],
                   if Truthy(Title(prompt)) then Some(Title(prompt)) else None,
                   if Truthy(m["source"]) then Some(m["source"]) else None)
  {
  }
}
