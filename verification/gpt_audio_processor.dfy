/** The audio pipeline of `GPTAudioProcessor`: build the transcription request, normalise
    the reply to text, build the chat request (optionally asking for a tagged answer), and
    pull the tagged content back out. The two OpenAI endpoints are the fields of a
    `Service`: functions from the request's keyword arguments to a reply or an error. */
module GptAudioProcessor {
  import opened Wrappers
  import opened Text

  const WhisperModel := "whisper-1"
  const Gpt4oMiniTranscribe := "gpt-4o-mini-transcribe"
  const DefaultProcessModel := "gpt-3.5-turbo"
  const DefaultSystemMessage := "Eres un asistente útil."
  const DefaultTagName := "text_to_cursor"
  const DefaultTemperature: real := 0.7
  /** The placeholder `prompt_template.format(text=...)` fills. */
  const TextPlaceholder := "{text}"

  /** The audio given to `transcribe_audio`: a path it opens (and closes) itself, or an
      already open binary file object. */
  datatype AudioFile = Path(path: string) | Handle(id: nat)

  datatype Message = Message(role: string, content: string)

  /** A keyword-argument value of a request. */
  datatype Param =
    | PText(s: string)
    | PFile(file: AudioFile)
    | PReal(x: real)
    | PInt(n: int)
    | PMessages(messages: seq<Message>)

  type Params = map<string, Param>

  /** The shapes a transcription reply can take: an object with a `text` attribute, a
      plain string, a dict (without a `text` attribute), or anything else. `repr` is what
      Python's `str(reply)` gives. */
  datatype Reply =
    | WithText(text: string, repr: string)
    | Str(s: string)
    | Dict(entries: map<string, string>, repr: string)
    | Other(repr: string)

  /** The remote endpoints: `audio.transcriptions.create` and the content of the first
      choice of `chat.completions.create`; an `Err` is the exception either raises. */
  datatype Service = Service(
    transcribe: Params -> Result<Reply, string>,
    complete: Params -> Result<string, string>)

  /** `get_available_transcription_models`: the two supported models, the default of
      `transcribe_audio` first. */
  function AvailableTranscriptionModels(): (r: seq<string>)
    ensures |r| == 2 && r[0] == WhisperModel && r[1] == Gpt4oMiniTranscribe && r[0] != r[1]
  {
    [WhisperModel, Gpt4oMiniTranscribe]
  }

  // ---------------------------------------------------------------------------
  // Transcription
  // ---------------------------------------------------------------------------

  /** The keyword arguments `transcribe_audio` sends: model, file and response format
      always; language and prompt only when non-empty; temperature whenever it is given
      (so 0.0 is sent). */
  function TranscriptionRequest(file: AudioFile, model: string, language: Option<string>,
                                prompt: Option<string>, responseFormat: string,
                                temperature: Option<real>): Params
  {
    var base := map["model" := PText(model), "file" := PFile(file),
                    "response_format" := PText(responseFormat)];
    var withLanguage :=
      if language.Some? && language.value != "" then base["language" := PText(language.value)]
      else base;
    var withPrompt :=
      if prompt.Some? && prompt.value != "" then withLanguage["prompt" := PText(prompt.value)]
      else withLanguage;
    if temperature.Some? then withPrompt["temperature" := PReal(temperature.value)]
    else withPrompt
  }

  /** The transcription request, key by key. */
  lemma TranscriptionRequestSpec(file: AudioFile, model: string, language: Option<string>,
                                 prompt: Option<string>, responseFormat: string,
                                 temperature: Option<real>)
    ensures var p := TranscriptionRequest(file, model, language, prompt, responseFormat, temperature);
            && ("model" in p && p["model"] == PText(model))
            && ("file" in p && p["file"] == PFile(file))
            && ("response_format" in p && p["response_format"] == PText(responseFormat))
            && ("language" in p <==> language.Some? && language.value != "")
            && ("language" in p ==> p["language"] == PText(language.value))
            && ("prompt" in p <==> prompt.Some? && prompt.value != "")
            && ("prompt" in p ==> p["prompt"] == PText(prompt.value))
            && ("temperature" in p <==> temperature.Some?)
            && ("temperature" in p ==> p["temperature"] == PReal(temperature.value))
            && (p.Keys <= {"model", "file", "response_format", "language", "prompt", "temperature"})
  {
  }

  /** Python's `str(reply)`. */
  function PyStr(reply: Reply): string
  {
    match reply
    case WithText(_, repr) => repr
    case Str(s) => s
    case Dict(_, repr) => repr
    case Other(repr) => repr
  }

  /** How `transcribe_audio` turns the reply into text, branch by branch on the requested
      format. It never fails: a `text` attribute wins, then a plain string, then (for any
      format but "text") a dict's 'text' entry, and `str(reply)` is the last resort. */
  function NormalizeReply(reply: Reply, responseFormat: string): (r: string)
    ensures reply.WithText? ==> r == reply.text
    ensures reply.Str? ==> r == reply.s
    ensures reply.Dict? ==> r == (if responseFormat != "text" && "text" in reply.entries
                                  then reply.entries["text"] else reply.repr)
    ensures reply.Other? ==> r == reply.repr
  {
    if responseFormat == "text" then
      if reply.WithText? then reply.text
      else if reply.Str? then reply.s
      else PyStr(reply)
    else if responseFormat == "json" then
      if reply.WithText? then reply.text
      else if reply.Dict? && "text" in reply.entries then reply.entries["text"]
      else PyStr(reply)
    else
      if reply.WithText? then reply.text
      else if reply.Str? then reply.s
      else if reply.Dict? && "text" in reply.entries then reply.entries["text"]
      else PyStr(reply)
  }

  /** What `transcribe_audio` returns: the endpoint's reply to the request, normalised, or
      the endpoint's error passed on. */
  function TranscriptionResult(service: Service, file: AudioFile, model: string,
                               language: Option<string>, prompt: Option<string>,
                               responseFormat: string, temperature: Option<real>)
    : Result<string, string>
  {
    match service.transcribe(TranscriptionRequest(file, model, language, prompt, responseFormat,
                                                  temperature))
    case Ok(reply) => Ok(NormalizeReply(reply, responseFormat))
    case Err(e) => Err(e)
  }

  /** `transcribe_audio`: builds the request's keyword arguments one by one, calls the
      endpoint and normalises its reply; an error from the endpoint is passed on. */
  method TranscribeAudio(service: Service, file: AudioFile, model: string := WhisperModel,
                         language: Option<string> := None, prompt: Option<string> := None,
                         responseFormat: string := "text", temperature: Option<real> := None)
    returns (r: Result<string, string>)
    ensures r == TranscriptionResult(service, file, model, language, prompt, responseFormat,
                                     temperature)
  {
    var params := map["model" := PText(model), "file" := PFile(file),
                      "response_format" := PText(responseFormat)];
    if language.Some? && language.value != "" {
      params := params["language" := PText(language.value)];
    }
    if prompt.Some? && prompt.value != "" {
      params := params["prompt" := PText(prompt.value)];
    }
    if temperature.Some? {
      params := params["temperature" := PReal(temperature.value)];
    }
    assert params == TranscriptionRequest(file, model, language, prompt, responseFormat, temperature);
    var reply := service.transcribe(params);
    match reply {
      case Ok(value) => r := Ok(NormalizeReply(value, responseFormat));
      case Err(e) => r := Err(e);
    }
  }

  // ---------------------------------------------------------------------------
  // Refinement
  // ---------------------------------------------------------------------------

  function OpenTag(tag: string): string { "[" + tag + "]" }

  function CloseTag(tag: string): string { "[/" + tag + "]" }

  /** The sentence appended to the system message when a tagged answer is wanted; it names
      the opening tag at index 51 and the closing tag right after " y ". */
  function TagInstruction(tag: string): (r: string)
    ensures OccursAt(r, OpenTag(tag), 51)
    ensures OccursAt(r, CloseTag(tag), 51 + |OpenTag(tag)| + 3)
  {
    var lead := " Envuelve tu respuesta exactamente entre etiquetas ";
    var tail := ". No añadas ningún texto adicional fuera de estas etiquetas.";
    var mid := " y ";
    var r := lead + OpenTag(tag) + mid + CloseTag(tag) + tail;
    assert |lead| == 51 && |mid| == 3;
    SliceOfConcat(lead, OpenTag(tag), mid + CloseTag(tag) + tail);
    SliceOfConcat(lead + OpenTag(tag) + mid, CloseTag(tag), tail);
    r
  }

  function SystemMessage(systemMessage: string, tagOutput: bool, tag: string): string
  {
    if tagOutput then systemMessage + TagInstruction(tag) else systemMessage
  }

  /** The extra keyword arguments that `params.update` applies (`None` and `{}` add nothing). */
  function Extra(additional: Option<Params>): Params
  {
    if additional.Some? then additional.value else map[]
  }

  /** The keyword arguments `process_text_with_gpt` sends: exactly two messages, system then
      user, the user content being the input unchanged and the system message augmented
      with the tag instruction when asked; `max_tokens` only when truthy; and the additional
      parameters overriding every earlier key. */
  function ChatRequest(text: string, model: string, systemMessage: string, tagOutput: bool,
                       tag: string, temperature: real, maxTokens: Option<int>,
                       additional: Option<Params>): Params
  {
    var base := map["model" := PText(model),
                    "messages" := PMessages([Message("system", SystemMessage(systemMessage, tagOutput, tag)),
                                             Message("user", text)]),
                    "temperature" := PReal(temperature)];
    var withMax :=
      if maxTokens.Some? && maxTokens.value != 0 then base["max_tokens" := PInt(maxTokens.value)]
      else base;
    if additional.Some? && additional.value != map[] then withMax + additional.value else withMax
  }

  /** The chat request, key by key. */
  lemma ChatRequestSpec(text: string, model: string, systemMessage: string, tagOutput: bool,
                        tag: string, temperature: real, maxTokens: Option<int>,
                        additional: Option<Params>)
    ensures var p := ChatRequest(text, model, systemMessage, tagOutput, tag, temperature,
                                 maxTokens, additional);
            var extra := Extra(additional);
            var withMax := maxTokens.Some? && maxTokens.value != 0;
            && p.Keys == {"model", "messages", "temperature"}
                         + (if withMax then {"max_tokens"} else {}) + extra.Keys
            && (forall k :: k in extra ==> p[k] == extra[k])
            && ("model" !in extra ==> p["model"] == PText(model))
            && ("temperature" !in extra ==> p["temperature"] == PReal(temperature))
            && ("messages" !in extra ==>
                  p["messages"] == PMessages([Message("system", SystemMessage(systemMessage, tagOutput, tag)),
                                              Message("user", text)]))
            && (withMax && "max_tokens" !in extra ==> p["max_tokens"] == PInt(maxTokens.value))
  {
  }

  /** Without additional parameters the request carries exactly two messages: the system
      message (augmented when tagging is asked for), then the text, unchanged, as the user
      message. */
  lemma ChatRequestMessages(text: string, model: string, systemMessage: string, tagOutput: bool,
                            tag: string, temperature: real, maxTokens: Option<int>)
    ensures var p := ChatRequest(text, model, systemMessage, tagOutput, tag, temperature,
                                 maxTokens, None);
            && "messages" in p
            && p["messages"] == PMessages([Message("system", SystemMessage(systemMessage, tagOutput, tag)),
                                           Message("user", text)])
  {
  }

  /** `process_text_with_gpt`: augments the system message, builds the keyword arguments
      one by one and returns the endpoint's answer (or its error). */
  method ProcessTextWithGpt(service: Service, text: string, model: string := DefaultProcessModel,
                            systemMessage: string := DefaultSystemMessage, tagOutput: bool := true,
                            tag: string := DefaultTagName, temperature: real := DefaultTemperature,
                            maxTokens: Option<int> := None, additional: Option<Params> := None)
    returns (r: Result<string, string>)
    ensures r == service.complete(ChatRequest(text, model, systemMessage, tagOutput, tag,
                                              temperature, maxTokens, additional))
  {
    var system := systemMessage;
    if tagOutput {
      system := system + TagInstruction(tag);
    }
    var params := map["model" := PText(model),
                      "messages" := PMessages([Message("system", system), Message("user", text)]),
                      "temperature" := PReal(temperature)];
    if maxTokens.Some? && maxTokens.value != 0 {
      params := params["max_tokens" := PInt(maxTokens.value)];
    }
    if additional.Some? && additional.value != map[] {
      params := params + additional.value;
    }
    r := service.complete(params);
  }

  // ---------------------------------------------------------------------------
  // Tag extraction
  // ---------------------------------------------------------------------------

  /** `[tag]` at `i` and `[/tag]` at `j`, the closing tag starting after the opening one ends. */
  predicate PairAt(text: string, tag: string, i: int, j: int)
  {
    OccursAt(text, OpenTag(tag), i) && i + |OpenTag(tag)| <= j && OccursAt(text, CloseTag(tag), j)
  }

  ghost predicate HasTagPair(text: string, tag: string)
  {
    exists i, j :: PairAt(text, tag, i, j)
  }

  /** The match `re.search(r"\[tag\](.*?)\[/tag\]", text, re.DOTALL)` finds: the leftmost
      start at which a pair exists, and the shortest content from there. */
  ghost predicate IsFirstPair(text: string, tag: string, i: int, j: int)
  {
    && PairAt(text, tag, i, j)
    && (forall i2, j2 :: i2 < i ==> !PairAt(text, tag, i2, j2))
    && (forall j2 :: i + |OpenTag(tag)| <= j2 < j ==> !OccursAt(text, CloseTag(tag), j2))
  }

  lemma FirstPairUnique(text: string, tag: string, i: int, j: int, i2: int, j2: int)
    requires IsFirstPair(text, tag, i, j) && IsFirstPair(text, tag, i2, j2)
    ensures i == i2 && j == j2
  {
  }

  /** With no `[tag]` anywhere there is no pair. */
  lemma NoPairWithoutOpen(text: string, tag: string)
    requires FindFrom(text, OpenTag(tag), 0).None?
    ensures !HasTagPair(text, tag)
  {
    FindFromNone(text, OpenTag(tag), 0);
  }

  /** With no `[/tag]` after the first `[tag]` there is no pair at all. */
  lemma NoPairWithoutClose(text: string, tag: string, i: nat)
    requires FindFrom(text, OpenTag(tag), 0) == Some(i)
    requires i + |OpenTag(tag)| <= |text|
    requires FindFrom(text, CloseTag(tag), i + |OpenTag(tag)|).None?
    ensures !HasTagPair(text, tag)
  {
    FindFromSome(text, OpenTag(tag), 0, i);
    FindFromNone(text, CloseTag(tag), i + |OpenTag(tag)|);
    forall i2, j2 ensures !PairAt(text, tag, i2, j2) {
      if OccursAt(text, OpenTag(tag), i2) {
        assert i <= i2;
      }
    }
  }

  /** The first `[tag]` and the first `[/tag]` after it form the regex match. */
  lemma FoundPairIsFirst(text: string, tag: string, i: nat, j: nat)
    requires FindFrom(text, OpenTag(tag), 0) == Some(i)
    requires i + |OpenTag(tag)| <= |text|
    requires FindFrom(text, CloseTag(tag), i + |OpenTag(tag)|) == Some(j)
    ensures IsFirstPair(text, tag, i, j)
  {
    FindFromSome(text, OpenTag(tag), 0, i);
    FindFromSome(text, CloseTag(tag), i + |OpenTag(tag)|, j);
  }

  /** The first `[tag]` and the first `[/tag]` after it form the regex match, and it is the
      only one. */
  lemma FirstOpenFirstClose(text: string, tag: string, i: nat, j: nat)
    requires FindFrom(text, OpenTag(tag), 0) == Some(i)
    requires i + |OpenTag(tag)| <= |text|
    requires FindFrom(text, CloseTag(tag), i + |OpenTag(tag)|) == Some(j)
    ensures IsFirstPair(text, tag, i, j)
    ensures forall i2, j2 :: IsFirstPair(text, tag, i2, j2) ==> i2 == i && j2 == j
  {
    FoundPairIsFirst(text, tag, i, j);
    forall i2, j2 | IsFirstPair(text, tag, i2, j2) ensures i2 == i && j2 == j {
      FirstPairUnique(text, tag, i, j, i2, j2);
    }
  }

  /** `_extract_tagged_content`: the stripped content of the first `[tag]...[/tag]` pair
      (newlines included), or the whole text stripped when there is no pair. */
  function ExtractTaggedContent(text: string, tag: string): string
  {
    var open, close := OpenTag(tag), CloseTag(tag);
    match FindFrom(text, open, 0)
    case None => Strip(text)
    case Some(i) =>
      match FindFrom(text, close, i + |open|)
      case None => Strip(text)
      case Some(j) => Strip(text[i + |open|..j])
  }

  /** Without a pair, extraction falls back to the whole text stripped; either way the result
      neither starts nor ends with whitespace. */
  lemma ExtractTaggedContentFallback(text: string, tag: string)
    ensures NoEdgeSpace(ExtractTaggedContent(text, tag))
    ensures !HasTagPair(text, tag) ==> ExtractTaggedContent(text, tag) == Strip(text)
  {
    var open, close := OpenTag(tag), CloseTag(tag);
    var r := ExtractTaggedContent(text, tag);
    var oi := FindFrom(text, open, 0);
    if oi.None? {
      assert r == Strip(text);
      NoPairWithoutOpen(text, tag);
      StripSpec(text);
    } else {
      var i := oi.value;
      var cj := FindFrom(text, close, i + |open|);
      if cj.None? {
        assert r == Strip(text);
        NoPairWithoutClose(text, tag, i);
        StripSpec(text);
      } else {
        var j := cj.value;
        assert r == Strip(text[i + |open|..j]);
        assert PairAt(text, tag, i, j) by {
          FindFromSome(text, open, 0, i);
          FindFromSome(text, close, i + |open|, j);
        }
        StripSpec(text[i + |open|..j]);
      }
    }
  }

  /** Extraction reads the content between the opening tag `find` returns and the closing
      tag `find` returns after it. */
  lemma ExtractTaggedContentAt(text: string, tag: string, i: nat, j: nat)
    requires FindFrom(text, OpenTag(tag), 0) == Some(i)
    requires i + |OpenTag(tag)| <= |text|
    requires FindFrom(text, CloseTag(tag), i + |OpenTag(tag)|) == Some(j)
    ensures ExtractTaggedContent(text, tag) == Strip(text[i + |OpenTag(tag)|..j])
  {
  }

  /** When the text holds a pair, extraction returns the stripped content of the match the
      regex finds: the text between the first `[tag]` and the first `[/tag]` after it. */
  lemma ExtractTaggedContentOfPair(text: string, tag: string, i: int, j: int)
    requires IsFirstPair(text, tag, i, j)
    ensures ExtractTaggedContent(text, tag) == Strip(text[i + |OpenTag(tag)|..j])
  {
    var open, close := OpenTag(tag), CloseTag(tag);
    FindFromReaches(text, open, 0, i);
    FindFromSome(text, open, 0, FindFrom(text, open, 0).value);
    assert FindFrom(text, open, 0) == Some(i) by {
      if FindFrom(text, open, 0).value < i {
        assert PairAt(text, tag, FindFrom(text, open, 0).value, j);
      }
    }
    FindFromReaches(text, close, i + |open|, j);
    FindFromSome(text, close, i + |open|, FindFrom(text, close, i + |open|).value);
    ExtractTaggedContentAt(text, tag, i, j);
  }

  /** Whenever some pair exists, the regex match exists. */
  lemma FirstPairExists(text: string, tag: string)
    requires HasTagPair(text, tag)
    ensures exists i, j :: IsFirstPair(text, tag, i, j)
  {
    var open, close := OpenTag(tag), CloseTag(tag);
    var i2, j2 :| PairAt(text, tag, i2, j2);
    FindFromReaches(text, open, 0, i2);
    var i := FindFrom(text, open, 0).value;
    FindFromSome(text, open, 0, i);
    FindFromReaches(text, close, i + |open|, j2);
    var j := FindFrom(text, close, i + |open|).value;
    FoundPairIsFirst(text, tag, i, j);
  }

  /** No `[/tag]` overlaps the boundary where a `[/tag]` begins, as long as the tag has no '['. */
  lemma NoCloseStraddles(text: string, tag: string, j: int, j2: int)
    requires '[' !in tag
    requires OccursAt(text, CloseTag(tag), j)
    requires j2 < j < j2 + |CloseTag(tag)|
    ensures !OccursAt(text, CloseTag(tag), j2)
  {
    var close := CloseTag(tag);
    var d := j - j2;
    assert text[j] == '[' by {
      assert close[0] == '[';
      assert text[j..j + |close|] == close;
      assert text[j..j + |close|][0] == text[j];
    }
    assert close[d] != '[' by {
      if 2 <= d < |close| - 1 {
        assert close[d] == tag[d - 2];
      }
    }
    if 0 <= j2 && j2 + |close| <= |text| {
      assert text[j2..j2 + |close|][d] == text[j];
    }
  }

  /** No pair starts inside a prefix free of '['. */
  lemma NoPairBefore(text: string, tag: string, i: int)
    requires forall k :: 0 <= k < i && k < |text| ==> text[k] != '['
    ensures forall i2, j2 :: i2 < i ==> !PairAt(text, tag, i2, j2)
  {
    var open := OpenTag(tag);
    forall i2, j2 | i2 < i ensures !PairAt(text, tag, i2, j2) {
      if 0 <= i2 && i2 + |open| <= |text| {
        assert open[0] == '[';
        assert text[i2..i2 + |open|][0] == text[i2];
      }
    }
  }

  /** Inside `pre + "[tag]" + s + "[/tag]" + post`, no `[/tag]` starts between the opening
      tag and the closing tag that follows `s`, when `s` holds none and the tag has no '['. */
  lemma NoCloseInside(pre: string, tag: string, s: string, post: string)
    requires '[' !in tag
    requires forall k :: !OccursAt(s, CloseTag(tag), k)
    ensures var open, close := OpenTag(tag), CloseTag(tag);
            var text := pre + open + s + close + post;
            forall j2 :: |pre| + |open| <= j2 < |pre| + |open| + |s| ==> !OccursAt(text, close, j2)
  {
    var open, close := OpenTag(tag), CloseTag(tag);
    var text := pre + open + s + close + post;
    var i, j := |pre|, |pre| + |open| + |s|;
    assert OccursAt(text, close, j) by {
      assert text[j..j + |close|] == close;
    }
    forall j2 | i + |open| <= j2 < j ensures !OccursAt(text, close, j2) {
      if j2 + |close| <= j {
        var k := j2 - i - |open|;
        assert text[j2..j2 + |close|] == s[k..k + |close|];
        assert !OccursAt(s, close, k);
      } else {
        NoCloseStraddles(text, tag, j, j2);
      }
    }
  }

  /** Extraction from `pre + "[tag]" + s + "[/tag]" + post` gives `strip(s)` when `pre` and
      the tag have no '[' and `s` holds no `[/tag]`: the example "noise [foo]hello
      world[/foo] trailing" is one instance. */
  lemma ExtractFramed(pre: string, tag: string, s: string, post: string)
    requires '[' !in pre && '[' !in tag
    requires forall k :: !OccursAt(s, CloseTag(tag), k)
    ensures ExtractTaggedContent(pre + OpenTag(tag) + s + CloseTag(tag) + post, tag) == Strip(s)
  {
    var open, close := OpenTag(tag), CloseTag(tag);
    var text := pre + open + s + close + post;
    var i, j := |pre|, |pre| + |open| + |s|;
    assert PairAt(text, tag, i, j) by {
      assert text[i..i + |open|] == open;
      assert text[j..j + |close|] == close;
    }
    NoPairBefore(text, tag, i);
    NoCloseInside(pre, tag, s, post);
    assert IsFirstPair(text, tag, i, j);
    assert text[i + |open|..j] == s;
    ExtractTaggedContentOfPair(text, tag, i, j);
  }

  /** Round trip: wrapping `s` in the tag pair and extracting gives `strip(s)` back. */
  lemma ExtractRoundTrip(tag: string, s: string)
    requires '[' !in tag
    requires forall k :: !OccursAt(s, CloseTag(tag), k)
    ensures ExtractTaggedContent(OpenTag(tag) + s + CloseTag(tag), tag) == Strip(s)
  {
    var text := OpenTag(tag) + s + CloseTag(tag);
    assert "" + OpenTag(tag) + s + CloseTag(tag) + "" == text;
    ExtractFramed("", tag, s, "");
  }

  // ---------------------------------------------------------------------------
  // The whole pipeline
  // ---------------------------------------------------------------------------

  /** `prompt_template.format(text=transcript)` for a template whose only braces are
      `{text}` placeholders. */
  function FormatPrompt(template: string, transcript: string): string
  {
    ReplaceAll(template, TextPlaceholder, transcript)
  }

  /** What `process_audio` computes: transcribe (format "text", no temperature), put the
      transcript into the template, ask for a refinement tagged with `tag`, and extract the
      tagged content exactly when `cleanResponse` is set. A failing stage fails the whole. */
  function ProcessAudioResult(service: Service, file: AudioFile, transcriptionModel: string,
                              processModel: string, systemMessage: string, template: string,
                              tag: string, cleanResponse: bool,
                              transcriptionPrompt: Option<string>,
                              transcriptionLanguage: Option<string>): Result<string, string>
  {
    match TranscriptionResult(service, file, transcriptionModel, transcriptionLanguage,
                              transcriptionPrompt, "text", None)
    case Err(e) => Err(e)
    case Ok(transcript) =>
      RefinedResult(service, FormatPrompt(template, transcript), processModel, systemMessage, tag,
                    cleanResponse)
  }

  /** The second half of `process_audio`: the refinement model's answer to the formatted
      prompt, asked for with tagging, and its tagged content when `cleanResponse` is set. */
  function RefinedResult(service: Service, prompt: string, processModel: string,
                         systemMessage: string, tag: string, cleanResponse: bool)
    : Result<string, string>
  {
    match service.complete(ChatRequest(prompt, processModel, systemMessage, true, tag,
                                       DefaultTemperature, None, None))
    case Err(e) => Err(e)
    case Ok(answer) => Ok(if cleanResponse then ExtractTaggedContent(answer, tag) else answer)
  }

  /** Refine with tagging, then extract if asked: the steps after the prompt is formatted. */
  method RefineTagged(service: Service, prompt: string, processModel: string,
                      systemMessage: string, tag: string, cleanResponse: bool)
    returns (r: Result<string, string>)
    ensures r == RefinedResult(service, prompt, processModel, systemMessage, tag, cleanResponse)
  {
    var processed := ProcessTextWithGpt(service, prompt, processModel, systemMessage, true, tag);
    if processed.Err? {
      return Err(processed.error);
    }
    var text := processed.value;
    if cleanResponse {
      text := ExtractTaggedContent(text, tag);
    }
    r := Ok(text);
  }

  /** `process_audio`: the fixed sequence transcribe, format, refine with tagging, extract. */
  method ProcessAudio(service: Service, file: AudioFile,
                      transcriptionModel: string := WhisperModel,
                      processModel: string := DefaultProcessModel,
                      systemMessage: string := DefaultSystemMessage,
                      template: string := TextPlaceholder, tag: string := DefaultTagName,
                      cleanResponse: bool := true, transcriptionPrompt: Option<string> := None,
                      transcriptionLanguage: Option<string> := None)
    returns (r: Result<string, string>)
    ensures r == ProcessAudioResult(service, file, transcriptionModel, processModel, systemMessage,
                                    template, tag, cleanResponse, transcriptionPrompt,
                                    transcriptionLanguage)
  {
    var transcribed := TranscribeAudio(service, file, transcriptionModel, transcriptionLanguage,
                                       transcriptionPrompt);
    if transcribed.Err? {
      return Err(transcribed.error);
    }
    var prompt := FormatPrompt(template, transcribed.value);
    r := RefineTagged(service, prompt, processModel, systemMessage, tag, cleanResponse);
  }

  /** The refinement model echoes the user message of any well-formed chat request back,
      wrapped in the tag pair it was asked for. */
  ghost predicate EchoesTagged(service: Service, tag: string)
  {
    forall p: Params ::
      "messages" in p && p["messages"].PMessages? && |p["messages"].messages| == 2
      ==> service.complete(p) == Ok(OpenTag(tag) + p["messages"].messages[1].content + CloseTag(tag))
  }

  /** With a refinement model that echoes its input inside the requested tags, the pipeline
      hands back the formatted prompt, stripped: for the template "{text}" that is the
      stripped transcript itself. */
  lemma ProcessAudioEchoRoundTrip(service: Service, file: AudioFile, transcriptionModel: string,
                                  processModel: string, systemMessage: string, pre: string,
                                  post: string, tag: string, transcriptionPrompt: Option<string>,
                                  transcriptionLanguage: Option<string>, reply: Reply)
    requires service.transcribe(TranscriptionRequest(file, transcriptionModel, transcriptionLanguage,
                                                     transcriptionPrompt, "text", None)) == Ok(reply)
    requires EchoesTagged(service, tag)
    requires '{' !in pre && '{' !in post && '[' !in tag
    requires forall k :: !OccursAt(pre + NormalizeReply(reply, "text") + post, CloseTag(tag), k)
    ensures ProcessAudioResult(service, file, transcriptionModel, processModel, systemMessage,
                               pre + TextPlaceholder + post, tag, true, transcriptionPrompt,
                               transcriptionLanguage)
            == Ok(Strip(pre + NormalizeReply(reply, "text") + post))
  {
    var t := NormalizeReply(reply, "text");
    ReplaceAllSingle(pre, post, TextPlaceholder, t);
    var prompt := pre + t + post;
    assert FormatPrompt(pre + TextPlaceholder + post, t) == prompt;
    var req := ChatRequest(prompt, processModel, systemMessage, true, tag, DefaultTemperature, None, None);
    ChatRequestMessages(prompt, processModel, systemMessage, true, tag, DefaultTemperature, None);
    assert service.complete(req) == Ok(OpenTag(tag) + prompt + CloseTag(tag));
    ExtractRoundTrip(tag, prompt);
  }
}
