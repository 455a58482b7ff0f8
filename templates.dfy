/**
 * The template families of the content generator. Each template is fixed
 * text with the topic spliced in verbatim, once, or twice for four of the
 * LinkedIn templates. The `config` argument of the source's template
 * functions is never read by them and is not modelled.
 */
module Templates {
  import opened Optional
  import opened JsText
  import opened Labels

  /** Fixed text around one or two occurrences of the topic. */
  datatype Template =
    | Once(pre: string, post: string)
    | Twice(pre: string, mid: string, post: string)

  /** How many times the template splices in the topic. */
  function Slots(t: Template): nat {
    match t
    case Once(_, _) => 1
    case Twice(_, _, _) => 2
  }

  /** The length of the template's own text. */
  function FixedLength(t: Template): nat {
    match t
    case Once(pre, post) => |pre| + |post|
    case Twice(pre, mid, post) => |pre| + |mid| + |post|
  }

  /** Where each part of `pre + topic + post` sits. */
  lemma OnceLayout(pre: string, topic: string, post: string)
    ensures var c := pre + topic + post;
      && c[..|pre|] == pre
      && c[|pre|..|pre| + |topic|] == topic
      && topic <= c[|pre|..]
      && c[|c| - |post|..] == post
  {
  }

  /** Where each part of `pre + topic + mid + topic + post` sits. */
  lemma TwiceLayout(pre: string, topic: string, mid: string, post: string)
    ensures var c := pre + topic + mid + topic + post;
      && c[..|pre|] == pre
      && c[|pre|..|pre| + |topic|] == topic
      && topic <= c[|pre|..]
      && c[|pre| + |topic|..|pre| + |topic| + |mid|] == mid
      && c[|pre| + |topic| + |mid|..|pre| + |topic| + |mid| + |topic|] == topic
      && c[|c| - |post|..] == post
  {
  }

  /** The template literal with `${topic}` replaced by the topic. */
  function Render(t: Template, topic: string): (content: string)
    ensures |content| == FixedLength(t) + Slots(t) * |topic|
    ensures content[..|t.pre|] == t.pre
    ensures content[|t.pre|..|t.pre| + |topic|] == topic
    ensures Contains(content, topic)
  {
    match t
    case Once(pre, post) =>
      OnceLayout(pre, topic, post);
      pre + topic + post
    case Twice(pre, mid, post) =>
      TwiceLayout(pre, topic, mid, post);
      pre + topic + mid + topic + post
  }

  /**
   * The rest of the layout of a rendered template: it ends with the
   * template's closing text and, for two slots, the middle text follows the
   * first copy of the topic and the second copy follows the middle text.
   */
  lemma RenderLayout(t: Template, topic: string)
    ensures var content := Render(t, topic);
      content[|content| - |t.post|..] == t.post
    ensures var content := Render(t, topic);
      t.Twice? ==>
        && content[|t.pre| + |topic|..|t.pre| + |topic| + |t.mid|] == t.mid
        && content[|t.pre| + |topic| + |t.mid|..|t.pre| + |topic| + |t.mid| + |topic|] == topic
  {
    match t
    case Once(pre, post) => OnceLayout(pre, topic, post);
    case Twice(pre, mid, post) => TwiceLayout(pre, topic, mid, post);
  }

  /**
   * Reading the topic back out of a rendered template, or `None` when the
   * text is not an instance of the template.
   */
  function Unrender(t: Template, content: string): (topic: Option<string>)
    ensures topic.Some? ==> Render(t, topic.value) == content
  {
    var n := |content| - FixedLength(t);
    match t
    case Once(pre, post) =>
      if n < 0 then None
      else
        var candidate := content[|pre|..|pre| + n];
        if Render(t, candidate) == content then Some(candidate) else None
    case Twice(pre, mid, post) =>
      if n < 0 || n % 2 != 0 then None
      else
        var candidate := content[|pre|..|pre| + n / 2];
        if Render(t, candidate) == content then Some(candidate) else None
  }

  /** `UnrenderRender` for a one-slot template. */
  lemma UnrenderRenderOnce(pre: string, post: string, topic: string)
    ensures Unrender(Once(pre, post), Render(Once(pre, post), topic)) == Some(topic)
  {
    var content := Render(Once(pre, post), topic);
    assert content[|pre|..|pre| + |topic|] == topic;
  }

  /** `UnrenderRender` for a two-slot template. */
  lemma UnrenderRenderTwice(pre: string, mid: string, post: string, topic: string)
    ensures Unrender(Twice(pre, mid, post), Render(Twice(pre, mid, post), topic)) == Some(topic)
  {
    var content := Render(Twice(pre, mid, post), topic);
    var n := |content| - FixedLength(Twice(pre, mid, post));
    assert n == 2 * |topic| && n % 2 == 0 && n / 2 == |topic|;
    assert content[|pre|..|pre| + n / 2] == topic;
  }

  /** The topic is spliced in verbatim: it can always be read back. */
  lemma UnrenderRender(t: Template, topic: string)
    ensures Unrender(t, Render(t, topic)) == Some(topic)
  {
    match t
    case Once(pre, post) => UnrenderRenderOnce(pre, post, topic);
    case Twice(pre, mid, post) => UnrenderRenderTwice(pre, mid, post, topic);
  }

  /** Different topics never produce the same text from one template. */
  lemma RenderInjective(t: Template, a: string, b: string)
    requires Render(t, a) == Render(t, b)
    ensures a == b
  {
    UnrenderRender(t, a);
    UnrenderRender(t, b);
  }

  /**
   * The platform as the template functions see it: their `if`/`else`
   * chains recognise twitter, linkedin and instagram, and send every other
   * name, `facebook` included, to the final `else` branch.
   */
  function TemplatePlatform(name: string): (p: Platform)
    ensures name in PlatformNames ==> PlatformName(p) == name
    ensures name !in PlatformNames ==> p == Facebook
  {
    PlatformOf(name, Facebook)
  }

  /**
   * The platform-by-platform templates of the professional tone: the
   * `if`/`else` chain of generateProfessionalContent, whose final `else` (taken by
   * `facebook`) is selected here by the Facebook case.
   */
  function ProfessionalTemplate(p: Platform): (t: Template)
  {
    match p
    case Twitter =>
      Once(
        "Excited to share insights on ",
        ". Key takeaway: consistency and quality drive results. What's your experience? \U{1F4BC}")
    case LinkedIn =>
      Twice(
        "I wanted to take a moment to discuss ",
        ", which has been a key focus for our team recently.\n" +
        "\n" +
        "After considerable research and implementation, we've discovered that the most effective approach involves:\n" +
        "\n" +
        "\U{2022} Strategic planning and clear objectives\n" +
        "\U{2022} Consistent execution and measurement\n" +
        "\U{2022} Continuous learning and adaptation\n" +
        "\n" +
        "The results speak for themselves, and I believe there's value in sharing these insights with the professional community.\n" +
        "\n" +
        "What has been your experience with ",
        "? I'd love to hear your perspective in the comments.")
    case Instagram =>
      Once(
        "Diving deep into ",
        " today! \U{2728}\n" +
        "\n" +
        "Swipe through to see our journey and the incredible results we've achieved. This has been a game-changer for how we approach our work.\n" +
        "\n" +
        "The key? Stay focused, stay consistent, and never stop learning.\n" +
        "\n" +
        "What's your take on this? Drop a comment below! \U{1F447}")
    case Facebook =>
      Once(
        "I wanted to share some thoughts on ",
        ". After working on this extensively, I've learned that success comes from careful planning, consistent effort, and a willingness to adapt. Would love to hear your thoughts and experiences!")
  }

  /** generateProfessionalContent: the template of the platform, around the topic. */
  function ProfessionalContent(topic: string, platform: string): (content: string)
    ensures Contains(content, topic)
    ensures Unrender(ProfessionalTemplate(TemplatePlatform(platform)), content) == Some(topic)
  {
    var t := ProfessionalTemplate(TemplatePlatform(platform));
    UnrenderRender(t, topic);
    Render(t, topic)
  }

  /** A platform name other than twitter, linkedin and instagram gets the facebook text. */
  lemma ProfessionalContentFallback(topic: string, platform: string)
    requires platform !in PlatformNames
    ensures ProfessionalContent(topic, platform) == ProfessionalContent(topic, "facebook")
  {
    assert TemplatePlatform(platform) == Facebook == TemplatePlatform("facebook");
  }

  /**
   * The platform-by-platform templates of the casual tone: the
   * `if`/`else` chain of generateCasualContent, whose final `else` (taken by
   * `facebook`) is selected here by the Facebook case.
   */
  function CasualTemplate(p: Platform): (t: Template)
  {
    match p
    case Twitter =>
      Once(
        "Just spent the day working on ",
        " and honestly? Mind = blown \U{1F92F} Who else is into this?")
    case LinkedIn =>
      Once(
        "So, ",
        " has been on my mind lately...\n" +
        "\n" +
        "Not gonna lie, when I first started exploring this, I had no idea what I was getting into. But here's what I've learned:\n" +
        "\n" +
        "\U{2192} It's way more interesting than I thought\n" +
        "\U{2192} The community around it is amazing\n" +
        "\U{2192} There's always something new to discover\n" +
        "\n" +
        "Anyone else working on something similar? Let's connect!")
    case Instagram =>
      Once(
        "Real talk about ",
        " \U{1F4AD}\n" +
        "\n" +
        "Been working on this for a while now and wanted to share the journey with you all. It's been a wild ride - lots of ups, downs, and everything in between.\n" +
        "\n" +
        "But that's what makes it exciting, right?\n" +
        "\n" +
        "Who else is on this path? Let's chat! \U{1F44B}")
    case Facebook =>
      Once(
        "Hey everyone! Been diving into ",
        " lately and it's been quite the adventure. Thought I'd share what I've been learning. Anyone else working on something similar? Would love to connect and swap stories!")
  }

  /** generateCasualContent: the template of the platform, around the topic. */
  function CasualContent(topic: string, platform: string): (content: string)
    ensures Contains(content, topic)
    ensures Unrender(CasualTemplate(TemplatePlatform(platform)), content) == Some(topic)
  {
    var t := CasualTemplate(TemplatePlatform(platform));
    UnrenderRender(t, topic);
    Render(t, topic)
  }

  /** A platform name other than twitter, linkedin and instagram gets the facebook text. */
  lemma CasualContentFallback(topic: string, platform: string)
    requires platform !in PlatformNames
    ensures CasualContent(topic, platform) == CasualContent(topic, "facebook")
  {
    assert TemplatePlatform(platform) == Facebook == TemplatePlatform("facebook");
  }

  /**
   * The platform-by-platform templates of the enthusiastic tone: the
   * `if`/`else` chain of generateEnthusiasticContent, whose final `else` (taken by
   * `facebook`) is selected here by the Facebook case.
   */
  function EnthusiasticTemplate(p: Platform): (t: Template)
  {
    match p
    case Twitter =>
      Once(
        "OMG! Just made a breakthrough with ",
        "! \U{1F680} This is EXACTLY what I've been working towards! Who's ready to see what's next? \U{1F525}")
    case LinkedIn =>
      Twice(
        "I am THRILLED to share what we've been working on with ",
        "! \U{1F389}\n" +
        "\n" +
        "This has been an incredible journey, and I couldn't be more excited about where we're headed!\n" +
        "\n" +
        "Here's what makes this so special:\n" +
        "\n" +
        "\U{2728} Game-changing innovation\n" +
        "\U{2728} Real-world impact\n" +
        "\U{2728} Endless possibilities\n" +
        "\n" +
        "The energy around this project has been absolutely electric, and I can't wait to see where it takes us!\n" +
        "\n" +
        "Who else is excited about ",
        "? Let's celebrate these wins together! \U{1F680}")
    case Instagram =>
      Once(
        "THIS IS IT! \U{1F38A}\U{2728}\U{1F680}\n" +
        "\n" +
        "Everything we've been working on with ",
        " is finally coming together and I'm beyond excited to share it with you all!\n" +
        "\n" +
        "The journey has been INCREDIBLE:\n" +
        "\U{26A1} Amazing discoveries\n" +
        "\U{26A1} Awesome people\n" +
        "\U{26A1} Unforgettable moments\n" +
        "\n" +
        "Can't wait to show you what's next! Stay tuned! \U{1F31F}\n" +
        "\n" +
        "Tag someone who needs to see this! \U{1F447}")
    case Facebook =>
      Once(
        "I'm so excited to share this! We've been working on ",
        " and the results are absolutely amazing! \U{1F389} This is the kind of breakthrough that makes all the hard work worth it. Can't wait to see where this journey takes us next! Who's with me?!")
  }

  /** generateEnthusiasticContent: the template of the platform, around the topic. */
  function EnthusiasticContent(topic: string, platform: string): (content: string)
    ensures Contains(content, topic)
    ensures Unrender(EnthusiasticTemplate(TemplatePlatform(platform)), content) == Some(topic)
  {
    var t := EnthusiasticTemplate(TemplatePlatform(platform));
    UnrenderRender(t, topic);
    Render(t, topic)
  }

  /** A platform name other than twitter, linkedin and instagram gets the facebook text. */
  lemma EnthusiasticContentFallback(topic: string, platform: string)
    requires platform !in PlatformNames
    ensures EnthusiasticContent(topic, platform) == EnthusiasticContent(topic, "facebook")
  {
    assert TemplatePlatform(platform) == Facebook == TemplatePlatform("facebook");
  }

  /**
   * The platform-by-platform templates of the humorous tone: the
   * `if`/`else` chain of generateHumorousContent, whose final `else` (taken by
   * `facebook`) is selected here by the Facebook case.
   */
  function HumorousTemplate(p: Platform): (t: Template)
  {
    match p
    case Twitter =>
      Once(
        "Me: I'll just quickly work on ",
        "\n" +
        "*6 hours later*\n" +
        "Me: Wait, it's dark outside?\n" +
        "\n" +
        "Worth it though \U{1F605}")
    case LinkedIn =>
      Twice(
        "Let's talk about ",
        " for a second... \U{1F604}\n" +
        "\n" +
        "You know that moment when you think \"this will take 5 minutes\" and suddenly it's 3 days later and you're questioning all your life choices?\n" +
        "\n" +
        "Yeah, that's been my week.\n" +
        "\n" +
        "But here's the thing - somewhere between the coffee-fueled debugging sessions and the \"why isn't this working\" moments, something magical happened. We actually figured it out!\n" +
        "\n" +
        "Turns out ",
        " is like pizza: even when it's bad, it's still pretty good.\n" +
        "\n" +
        "Anyone else living this reality? \U{1F355}")
    case Instagram =>
      Once(
        "POV: You're me trying to explain ",
        " at a party \U{1F913}\n" +
        "\n" +
        "Everyone else: *slowly backs away*\n" +
        "\n" +
        "But seriously though, this stuff is actually hilarious when you think about it. Like, who decided this was a good idea? Oh wait... that was us \U{1F602}\n" +
        "\n" +
        "Swipe for the chaos \U{2192} ")
    case Facebook =>
      Once(
        "Alright, confession time: I thought ",
        " would be easy. I was wrong. SO wrong. \U{1F605} It's been a rollercoaster of \"aha!\" moments followed by \"wait, what?\" moments. But hey, at least we're learning, right? Anyone else feel personally attacked by this? \U{1F602}")
  }

  /** generateHumorousContent: the template of the platform, around the topic. */
  function HumorousContent(topic: string, platform: string): (content: string)
    ensures Contains(content, topic)
    ensures Unrender(HumorousTemplate(TemplatePlatform(platform)), content) == Some(topic)
  {
    var t := HumorousTemplate(TemplatePlatform(platform));
    UnrenderRender(t, topic);
    Render(t, topic)
  }

  /** A platform name other than twitter, linkedin and instagram gets the facebook text. */
  lemma HumorousContentFallback(topic: string, platform: string)
    requires platform !in PlatformNames
    ensures HumorousContent(topic, platform) == HumorousContent(topic, "facebook")
  {
    assert TemplatePlatform(platform) == Facebook == TemplatePlatform("facebook");
  }

  /**
   * The platform-by-platform templates of the inspirational tone: the
   * `if`/`else` chain of generateInspirationalContent, whose final `else` (taken by
   * `facebook`) is selected here by the Facebook case.
   */
  function InspirationalTemplate(p: Platform): (t: Template)
  {
    match p
    case Twitter =>
      Once(
        "Every expert in ",
        " was once a beginner who refused to give up. Your journey starts with a single step. Take it. \U{1F4AB}")
    case LinkedIn =>
      Twice(
        "Today, I want to talk about ",
        " and why it matters more than you might think.\n" +
        "\n" +
        "When I started this journey, I had doubts. We all do. But here's what I've learned:\n" +
        "\n" +
        "\U{1F31F} Growth happens outside your comfort zone\n" +
        "\U{1F31F} Every challenge is an opportunity to learn\n" +
        "\U{1F31F} Your unique perspective adds value\n" +
        "\U{1F31F} Progress, not perfection, is the goal\n" +
        "\n",
        " has taught me that success isn't about being the best immediately. It's about showing up consistently, learning from setbacks, and believing in your vision even when others don't see it yet.\n" +
        "\n" +
        "To anyone starting their journey: You have what it takes. Trust the process.\n" +
        "\n" +
        "What's one lesson that changed your perspective? Share below - your story might inspire someone else. \U{2B07}\U{FE0F}")
    case Instagram =>
      Once(
        "Your journey with ",
        " is uniquely yours \U{2728}\n" +
        "\n" +
        "Remember:\n" +
        "\U{1F305} Every sunrise brings new possibilities\n" +
        "\U{1F4AA} Your courage inspires others\n" +
        "\U{1F680} Small steps lead to big transformations\n" +
        "\U{1F4AB} You're capable of more than you know\n" +
        "\n" +
        "Don't compare your chapter 1 to someone else's chapter 20. Focus on your growth, celebrate your wins, and keep moving forward.\n" +
        "\n" +
        "The world needs what only you can offer.\n" +
        "\n" +
        "Save this for when you need a reminder \U{1F499}\n" +
        "\n" +
        "Who's ready to take the next step? \U{1F447}")
    case Facebook =>
      Once(
        "Working on ",
        " has reminded me of something important: every expert was once a beginner, and every success story started with someone who decided not to give up. Your path may be different, but your potential is limitless. Keep going, keep learning, keep believing. You've got this! \U{1F4AA}\U{2728}")
  }

  /** generateInspirationalContent: the template of the platform, around the topic. */
  function InspirationalContent(topic: string, platform: string): (content: string)
    ensures Contains(content, topic)
    ensures Unrender(InspirationalTemplate(TemplatePlatform(platform)), content) == Some(topic)
  {
    var t := InspirationalTemplate(TemplatePlatform(platform));
    UnrenderRender(t, topic);
    Render(t, topic)
  }

  /** A platform name other than twitter, linkedin and instagram gets the facebook text. */
  lemma InspirationalContentFallback(topic: string, platform: string)
    requires platform !in PlatformNames
    ensures InspirationalContent(topic, platform) == InspirationalContent(topic, "facebook")
  {
    assert TemplatePlatform(platform) == Facebook == TemplatePlatform("facebook");
  }
}
