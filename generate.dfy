/**
 * generateSocialMediaPost and the validation step of the POST handler:
 * the tone selects a template family and a hashtag count, the platform
 * name is echoed back unchanged.
 */
module Generate {
  import opened Optional
  import opened JsText
  import opened Labels
  import opened Templates
  import opened Hashtags

  datatype GeneratedPost = GeneratedPost(platform: string, content: string, hashtags: seq<string>)

  /** How many hashtags each arm of the tone `switch` asks for. */
  function HashtagCount(t: Tone): (n: int)
    ensures 3 <= n <= 5
  {
    match t
    case Professional => 3
    case Casual => 4
    case Enthusiastic => 5
    case Humorous => 3
    case Inspirational => 4
  }

  /** The template function each arm of the tone `switch` calls. */
  function ToneContent(t: Tone, topic: string, platform: string): (content: string)
    ensures Contains(content, topic)
  {
    match t
    case Professional => ProfessionalContent(topic, platform)
    case Casual => CasualContent(topic, platform)
    case Enthusiastic => EnthusiasticContent(topic, platform)
    case Humorous => HumorousContent(topic, platform)
    case Inspirational => InspirationalContent(topic, platform)
  }

  /** Within every tone, an unrecognised platform name gets the facebook text. */
  lemma ToneContentFallback(t: Tone, topic: string, platform: string)
    requires platform !in PlatformNames
    ensures ToneContent(t, topic, platform) == ToneContent(t, topic, "facebook")
  {
    match t
    case Professional => ProfessionalContentFallback(topic, platform);
    case Casual => CasualContentFallback(topic, platform);
    case Enthusiastic => EnthusiasticContentFallback(topic, platform);
    case Humorous => HumorousContentFallback(topic, platform);
    case Inspirational => InspirationalContentFallback(topic, platform);
  }

  /**
   * generateSocialMediaPost: `None` when generating the hashtags throws,
   * which happens exactly for the platform names inherited from
   * `Object.prototype`.
   */
  function GenerateSocialMediaPost(topic: string, platform: string, tone: string): (post: Option<GeneratedPost>)
    ensures post.Some? <==> platform !in ObjectPrototypeKeys
    ensures post.Some? ==> post.value.platform == platform
    ensures post.Some? ==> Contains(post.value.content, topic)
    ensures post.Some? ==> BaseHashtags(topic) <= post.value.hashtags
    ensures post.Some? ==> |post.value.hashtags| == HashtagCount(ToneOf(tone))
  {
    var t := ToneOf(tone);
    var content := ToneContent(t, topic, platform);
    match GenerateHashtags(topic, platform, HashtagCount(t))
    case None => None
    case Some(tags) =>
      HashtagCountExact(topic, platform, HashtagCount(t));
      Some(GeneratedPost(platform, content, tags))
  }

  /** The post of a request whose hashtag lookup does not throw, spelled out. */
  lemma GenerateSocialMediaPostOk(topic: string, platform: string, tone: string)
    requires platform !in ObjectPrototypeKeys
    ensures GenerateHashtags(topic, platform, HashtagCount(ToneOf(tone))).Some?
    ensures GenerateSocialMediaPost(topic, platform, tone) == Some(GeneratedPost(
      platform,
      ToneContent(ToneOf(tone), topic, platform),
      GenerateHashtags(topic, platform, HashtagCount(ToneOf(tone))).value))
  {
  }

  /** An unrecognised tone takes the `default` arm: the professional post, with three hashtags. */
  lemma UnknownToneIsProfessional(topic: string, platform: string, tone: string)
    requires tone !in ToneNames
    ensures GenerateSocialMediaPost(topic, platform, tone)
      == GenerateSocialMediaPost(topic, platform, "professional")
    ensures GenerateSocialMediaPost(topic, platform, tone).Some? ==>
      |GenerateSocialMediaPost(topic, platform, tone).value.hashtags| == 3
  {
  }

  /**
   * An unrecognised platform name gets the facebook text of its tone and
   * the twitter filler hashtags, and is echoed back as it was given.
   */
  lemma UnknownPlatformFallbacks(topic: string, platform: string, tone: string)
    requires platform !in PlatformNames && platform !in ObjectPrototypeKeys
    ensures var post := GenerateSocialMediaPost(topic, platform, tone);
      && post.Some?
      && post.value.platform == platform
      && post.value.content == GenerateSocialMediaPost(topic, "facebook", tone).value.content
      && post.value.hashtags == GenerateSocialMediaPost(topic, "twitter", tone).value.hashtags
  {
    var t := ToneOf(tone);
    ToneContentFallback(t, topic, platform);
    UnknownPlatformUsesTwitterTags(topic, platform, HashtagCount(t));
    PlatformNamesAreOwnKeys();
    GenerateSocialMediaPostOk(topic, platform, tone);
    GenerateSocialMediaPostOk(topic, "facebook", tone);
    GenerateSocialMediaPostOk(topic, "twitter", tone);
  }

  /**
   * The post for a recognised tone name has that tone's number of
   * hashtags: 3, 4, 5, 3 and 4 for professional, casual, enthusiastic,
   * humorous and inspirational.
   */
  lemma HashtagsPerTone(topic: string, platform: string, t: Tone)
    requires platform !in ObjectPrototypeKeys
    ensures |GenerateSocialMediaPost(topic, platform, ToneName(t)).value.hashtags| == HashtagCount(t)
  {
    ToneNameRoundTrip(t, ToneName(t));
  }

  /** A request body: `topic` is `None` when the field is absent or null. */
  datatype Request = Request(topic: Option<string>, platform: string, tone: string)

  /** The three outcomes of the POST handler, by HTTP status 200, 400 and 500. */
  datatype Response =
    | Generated(post: GeneratedPost)
    | BadRequest(error: string)
    | ServerError(error: string)

  const TopicRequired: string := "Topic is required"
  const GenerationFailed: string := "Failed to generate content"

  /**
   * The POST handler once the body is parsed: `!topic` rejects an absent
   * or empty topic before anything is generated; an exception while
   * generating becomes the generic failure.
   */
  function HandlePost(req: Request): (resp: Response)
    ensures resp.BadRequest? <==> req.topic == None || req.topic == Some("")
    ensures resp.BadRequest? ==> resp.error == TopicRequired
    ensures resp.ServerError? <==>
      req.topic.Some? && req.topic.value != "" && req.platform in ObjectPrototypeKeys
    ensures resp.ServerError? ==> resp.error == GenerationFailed
    ensures resp.Generated? ==>
      && resp.post.platform == req.platform
      && Contains(resp.post.content, req.topic.value)
      && |resp.post.content| > 0
      && |resp.post.hashtags| == HashtagCount(ToneOf(req.tone))
  {
    match req.topic
    case None => BadRequest(TopicRequired)
    case Some(topic) =>
      if topic == "" then BadRequest(TopicRequired)
      else
        match GenerateSocialMediaPost(topic, req.platform, req.tone)
        case None => ServerError(GenerationFailed)
        case Some(post) => Generated(post)
  }

  /** A topic of spaces only passes the `!topic` check and is generated for. */
  lemma BlankTopicIsAccepted(spaces: string, platform: string, tone: string)
    requires |spaces| > 0 && forall i :: 0 <= i < |spaces| ==> spaces[i] == ' '
    requires platform !in ObjectPrototypeKeys
    ensures HandlePost(Request(Some(spaces), platform, tone)).Generated?
  {
  }
}
