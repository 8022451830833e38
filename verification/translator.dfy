/**
 Service selection and result mapping of the translator. The LLM call, the
 JSON parser and Google Translate are inputs: the chat reply (or the
 exception it raised), a parse function that yields the list of strings or
 fails, and a per-text Google outcome.
 */
module Translator {
  import opened Basics
  import opened Records
  import Text

  /** The configuration the constructor reads. */
  datatype Config = Config(service: string, mistralKey: Option<string>, openrouterKey: Option<string>)

  /** `TRANSLATION_SERVICE` when the environment does not set it. */
  const DefaultService := "mistral"

  const MistralUrl := "https://api.mistral.ai/v1"
  const MistralModel := "mistral-small-latest"
  const OpenRouterUrl := "https://openrouter.ai/api/v1"
  const OpenRouterModel := "z-ai/glm-4.5-air:free"

  datatype Client = Client(baseUrl: string, apiKey: string)

  datatype Translator = Translator(target: string, service: string, client: Option<Client>, model: Option<string>)

  /** `Translator(target_language, service_override)`. The model name is set
      for a known LLM service even when its key is missing. */
  function Init(target: string, serviceOverride: Option<string>, config: Config): (t: Translator)
    ensures t.target == target
    ensures t.service == (if Truthy(serviceOverride) then serviceOverride.value else config.service)
    ensures t.client.Some? <==>
              (t.service == "mistral" && Truthy(config.mistralKey))
              || (t.service == "openrouter" && Truthy(config.openrouterKey))
    ensures t.client.Some? && t.service == "mistral" ==> t.client.value == Client(MistralUrl, config.mistralKey.value)
    ensures t.client.Some? && t.service == "openrouter" ==> t.client.value == Client(OpenRouterUrl, config.openrouterKey.value)
    ensures t.service == "mistral" ==> t.model == Some(MistralModel)
    ensures t.service == "openrouter" ==> t.model == Some(OpenRouterModel)
    ensures t.service != "mistral" && t.service != "openrouter" ==> t.model.None?
  {
    var service := if Truthy(serviceOverride) then serviceOverride.value else config.service;
    if service == "google" then Translator(target, service, None, None)
    else if service == "mistral" then
      Translator(target, service,
                 if Truthy(config.mistralKey) then Some(Client(MistralUrl, config.mistralKey.value)) else None,
                 Some(MistralModel))
    else if service == "openrouter" then
      Translator(target, service,
                 if Truthy(config.openrouterKey) then Some(Client(OpenRouterUrl, config.openrouterKey.value)) else None,
                 Some(OpenRouterModel))
    else Translator(target, service, None, None)
  }

  /** The markdown-fence clean-up applied to the reply before parsing. */
  function StripFences(content: string): (r: string)
    ensures var c := Text.Strip(content);
            && (Text.StartsWith(c, "```json") ==> r == Text.PySlice(c, 7, -3))
            && (!Text.StartsWith(c, "```json") && Text.StartsWith(c, "```") ==> r == Text.PySlice(c, 3, -3))
            && (!Text.StartsWith(c, "```") ==> r == c)
  {
    var c := Text.Strip(content);
    if Text.StartsWith(c, "```json") then Text.PySlice(c, 7, -3)
    else if Text.StartsWith(c, "```") then Text.PySlice(c, 3, -3)
    else c
  }

  /** A reply fenced as a JSON block yields exactly its body. */
  lemma StripJsonFence(body: string)
    ensures StripFences("```json" + body + "```") == body
  {
    var c := "```json" + body + "```";
    Text.StripTrimmed(c);
    assert Text.StartsWith(c, "```json");
    assert c[7..|c| - 3] == body;
  }

  /** A plain fence yields its body too, unless the body starts with `json`,
      which would be taken for a JSON fence. */
  lemma StripPlainFence(body: string)
    requires !Text.StartsWith(body, "json")
    ensures StripFences("```" + body + "```") == body
  {
    var c := "```" + body + "```";
    Text.StripTrimmed(c);
    assert Text.StartsWith(c, "```");
    assert !Text.StartsWith(c, "```json") by {
      if |body| >= 4 {
        assert c[3..7] == body[..4];
      } else {
        assert c[3 + |body|] == '`';
      }
    }
    assert c[3..|c| - 3] == body;
  }

  /** An unfenced reply is only stripped of surrounding white space. */
  lemma StripUnfenced(content: string)
    requires !Text.StartsWith(Text.Strip(content), "```")
    ensures StripFences(content) == Text.Strip(content)
  {
  }

  function WithTranslation(seg: Segment, text: string): Segment {
    seg.(translated := Some(text))
  }

  /** Copies of the segments in order, entry `i` of `list` as the translation
      of segment `i`, the segment's own text where the list is too short. */
  function MapTranslations(segs: seq<Segment>, list: seq<string>): (r: seq<Segment>)
    ensures |r| == |segs|
    ensures forall i :: 0 <= i < |segs| ==>
              r[i] == WithTranslation(segs[i], if i < |list| then list[i] else segs[i].text)
  {
    seq(|segs|, i requires 0 <= i < |segs| => WithTranslation(segs[i], if i < |list| then list[i] else segs[i].text))
  }

  /** The translations of a mapped list. */
  function Translations(segs: seq<Segment>): seq<Option<string>> {
    seq(|segs|, i requires 0 <= i < |segs| => segs[i].translated)
  }

  /** A list of the right size is taken over entry for entry. */
  lemma MapExactList(segs: seq<Segment>, list: seq<string>)
    requires |list| == |segs|
    ensures Translations(MapTranslations(segs, list)) == seq(|list|, i requires 0 <= i < |list| => Some(list[i]))
  {
  }

  /** Extra entries beyond the segment count are ignored. */
  lemma MapIgnoresExtra(segs: seq<Segment>, list: seq<string>, extra: seq<string>)
    requires |list| >= |segs|
    ensures MapTranslations(segs, list + extra) == MapTranslations(segs, list)
  {
  }

  /** `_use_fallback_translation`: Google's translation of each text, or the
      text itself where Google fails (`google` yields `None`). */
  function Fallback(segs: seq<Segment>, google: string -> Option<string>): (r: seq<Segment>)
    ensures |r| == |segs|
    ensures forall i :: 0 <= i < |segs| ==>
              r[i] == WithTranslation(segs[i], google(segs[i].text).GetOr(segs[i].text))
  {
    seq(|segs|, i requires 0 <= i < |segs| => WithTranslation(segs[i], google(segs[i].text).GetOr(segs[i].text)))
  }

  /** The chat call: a reply text, or the exception it raised (rate limit,
      authentication, connection or any other). */
  datatype Reply = Replied(content: string) | Raised(message: string)

  /** `translate_segments`: without a client, or when any step of the LLM
      path fails (the call, or parsing the cleaned reply), the Google
      fallback; otherwise the parsed list mapped onto the segments. */
  function TranslateSegments(t: Translator, segs: seq<Segment>, reply: Reply,
                             parse: string -> Option<seq<string>>, google: string -> Option<string>): (r: seq<Segment>)
    ensures t.client.None? ==> r == Fallback(segs, google)
    ensures t.client.Some? && reply.Raised? ==> r == Fallback(segs, google)
    ensures t.client.Some? && reply.Replied? ==>
              match parse(StripFences(reply.content))
              case None => r == Fallback(segs, google)
              case Some(list) => r == MapTranslations(segs, list)
  {
    if t.client.None? then Fallback(segs, google)
    else
      match reply
      case Raised(_) => Fallback(segs, google)
      case Replied(content) =>
        match parse(StripFences(content))
        case None => Fallback(segs, google)
        case Some(list) => MapTranslations(segs, list)
  }

  /** Whatever path is taken, the result has one segment per input, in
      order, equal to it except that a translation is set, and each
      translation comes from the LLM list, from Google, or is the original
      text. */
  lemma TranslationOnlyAddsText(t: Translator, segs: seq<Segment>, reply: Reply,
                                parse: string -> Option<seq<string>>, google: string -> Option<string>)
    ensures var r := TranslateSegments(t, segs, reply, parse, google);
            && |r| == |segs|
            && forall i :: 0 <= i < |segs| ==>
                 && r[i].translated.Some?
                 && r[i] == segs[i].(translated := r[i].translated)
                 && (|| r[i].translated.value == segs[i].text
                     || Some(r[i].translated.value) == google(segs[i].text)
                     || (reply.Replied? && exists list :: (parse(StripFences(reply.content)) == Some(list)
                           && i < |list| && list[i] == r[i].translated.value)))
  {
    var r := TranslateSegments(t, segs, reply, parse, google);
    if t.client.Some? && reply.Replied? && parse(StripFences(reply.content)).Some? {
      var list := parse(StripFences(reply.content)).value;
      assert r == MapTranslations(segs, list);
    }
  }
}
