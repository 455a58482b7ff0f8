/**
 * The two labels a request carries besides its topic: the tone (which
 * family of templates, and how many hashtags) and the target platform
 * (which template inside the family, and which list of filler hashtags).
 * Both arrive as free-form strings; the generator compares them against
 * fixed names and falls back to a default for anything else.
 */
module Labels {

  datatype Tone = Professional | Casual | Enthusiastic | Humorous | Inspirational

  datatype Platform = Twitter | LinkedIn | Instagram | Facebook

  function ToneName(t: Tone): string {
    match t
    case Professional => "professional"
    case Casual => "casual"
    case Enthusiastic => "enthusiastic"
    case Humorous => "humorous"
    case Inspirational => "inspirational"
  }

  function PlatformName(p: Platform): string {
    match p
    case Twitter => "twitter"
    case LinkedIn => "linkedin"
    case Instagram => "instagram"
    case Facebook => "facebook"
  }

  const ToneNames: set<string> :=
    {"professional", "casual", "enthusiastic", "humorous", "inspirational"}

  const PlatformNames: set<string> := {"twitter", "linkedin", "instagram", "facebook"}

  /**
   * The `switch (tone)` of the generator: a recognised name selects its
   * tone, anything else takes the `default` arm, which behaves as
   * `professional`.
   */
  function ToneOf(name: string): (t: Tone)
    ensures name in ToneNames ==> ToneName(t) == name
    ensures name !in ToneNames ==> t == Professional
  {
    if name == "casual" then Casual
    else if name == "enthusiastic" then Enthusiastic
    else if name == "humorous" then Humorous
    else if name == "inspirational" then Inspirational
    else Professional
  }

  /**
   * Resolving a platform name: a recognised name selects its platform,
   * anything else selects `fallback` (Facebook for the templates, Twitter
   * for the hashtag lists).
   */
  function PlatformOf(name: string, fallback: Platform): (p: Platform)
    ensures name in PlatformNames ==> PlatformName(p) == name
    ensures name !in PlatformNames ==> p == fallback
  {
    if name == "twitter" then Twitter
    else if name == "linkedin" then LinkedIn
    else if name == "instagram" then Instagram
    else if name == "facebook" then Facebook
    else fallback
  }

  /** Every tone is recognised by its own name, and only by it. */
  lemma ToneNameRoundTrip(t: Tone, name: string)
    ensures ToneName(t) in ToneNames
    ensures ToneOf(ToneName(t)) == t
    ensures name in ToneNames && ToneOf(name) == t ==> name == ToneName(t)
  {
  }

  /** Every platform is recognised by its own name, whatever the fallback. */
  lemma PlatformNameRoundTrip(p: Platform, fallback: Platform, name: string)
    ensures PlatformName(p) in PlatformNames
    ensures PlatformOf(PlatformName(p), fallback) == p
    ensures name in PlatformNames && PlatformOf(name, fallback) == p ==> name == PlatformName(p)
  {
  }
}
