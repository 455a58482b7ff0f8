/**
 * generateHashtags: up to two hashtags made from the topic's long words,
 * then filler hashtags from a fixed per-platform list.
 */
module Hashtags {
  import opened Optional
  import opened JsText
  import opened Labels

  const TwitterTags: seq<string> :=
    ["#Tech", "#Innovation", "#Business", "#Success", "#Growth", "#Tips"]
  const LinkedInTags: seq<string> :=
    ["#Professional", "#CareerGrowth", "#Business", "#Leadership", "#Innovation", "#Success"]
  const InstagramTags: seq<string> :=
    ["#Inspo", "#Motivation", "#Goals", "#Success", "#Growth", "#Community"]
  const FacebookTags: seq<string> :=
    ["#Community", "#Share", "#Connect", "#Life", "#Updates", "#News"]

  /** The `commonHashtags` table. */
  function PlatformTags(p: Platform): (tags: seq<string>)
    ensures |tags| == 6
    ensures forall i :: 0 <= i < |tags| ==> |tags[i]| > 1 && tags[i][0] == '#'
  {
    match p
    case Twitter => TwitterTags
    case LinkedIn => LinkedInTags
    case Instagram => InstagramTags
    case Facebook => FacebookTags
  }

  /**
   * The property names every JavaScript object literal inherits from
   * `Object.prototype`. Looking one of them up in `commonHashtags` yields
   * a function (or, for `__proto__`, the prototype object itself): a truthy
   * value, so the `||` fallback is not taken, and one without a `slice`
   * method, so the call that follows throws a TypeError.
   */
  const ObjectPrototypeKeys: set<string> := {
    "constructor", "__proto__", "hasOwnProperty", "isPrototypeOf",
    "propertyIsEnumerable", "toString", "toLocaleString", "valueOf",
    "__defineGetter__", "__defineSetter__", "__lookupGetter__", "__lookupSetter__"
  }

  /** The four platform names are own properties of `commonHashtags`, not inherited ones. */
  lemma PlatformNamesAreOwnKeys()
    ensures "twitter" !in ObjectPrototypeKeys && "linkedin" !in ObjectPrototypeKeys
    ensures "instagram" !in ObjectPrototypeKeys && "facebook" !in ObjectPrototypeKeys
  {
    assert "twitter"[0] != "valueOf"[0];
    assert "linkedin"[0] != "toString"[0];
    assert "facebook"[0] != "toString"[0];
    assert "instagram"[0] != "__proto__"[0];
  }

  /**
   * `commonHashtags[platform] || commonHashtags.twitter`, followed by the
   * `slice` call: `None` when that call throws.
   */
  function TagListFor(platform: string): (tags: Option<seq<string>>)
    ensures tags.None? <==> platform in ObjectPrototypeKeys
    ensures platform in PlatformNames ==>
      tags.Some? && tags.value == PlatformTags(PlatformOf(platform, Twitter))
    ensures platform !in PlatformNames && platform !in ObjectPrototypeKeys ==>
      tags == Some(TwitterTags)
  {
    if platform in ObjectPrototypeKeys then None
    else Some(PlatformTags(PlatformOf(platform, Twitter)))
  }

  /** `topic.toLowerCase().split(' ')`: split on the space character only. */
  function TopicWords(topic: string): (words: seq<string>)
    ensures |words| >= 1
    ensures forall i :: 0 <= i < |words| ==> ' ' !in words[i] && IsLower(words[i])
    ensures Join(words, ' ') == ToLower(topic)
  {
    ToLowerIsLower(topic);
    SplitKeepsLower(ToLower(topic), ' ');
    JoinSplit(ToLower(topic), ' ');
    SplitPiecesOmitSeparator(ToLower(topic), ' ');
    Split(ToLower(topic), ' ')
  }

  /** The pieces of a lower-case string are lower-case. */
  lemma {:induction false} SplitKeepsLower(s: string, sep: char)
    requires IsLower(s)
    ensures forall i :: 0 <= i < |Split(s, sep)| ==> IsLower(Split(s, sep)[i])
    decreases |s|
  {
    if |s| > 0 {
      var rest := Split(s[1..], sep);
      SplitKeepsLower(s[1..], sep);
      if s[0] != sep {
        var first := [s[0]] + rest[0];
        assert IsLower(first) by {
          forall j | 0 <= j < |first| ensures !('A' <= first[j] <= 'Z') {
            if j > 0 { assert first[j] == rest[0][j - 1]; }
          }
        }
      }
    }
  }

  /** `.filter(word => word.length > 3)`: the words of more than three characters, in order. */
  function LongWords(words: seq<string>): (kept: seq<string>)
    ensures |kept| <= |words|
  {
    if |words| == 0 then []
    else (if |words[0]| > 3 then [words[0]] else []) + LongWords(words[1..])
  }

  /** The filter keeps exactly the words longer than three characters. */
  lemma {:induction false} LongWordsKeepsLong(words: seq<string>)
    ensures forall w :: w in LongWords(words) <==> w in words && |w| > 3
    decreases |words|
  {
    if |words| > 0 {
      LongWordsKeepsLong(words[1..]);
      assert words == [words[0]] + words[1..];
    }
  }

  /** Filtering keeps the order of the words: it distributes over concatenation. */
  lemma {:induction false} LongWordsAppend(a: seq<string>, b: seq<string>)
    ensures LongWords(a + b) == LongWords(a) + LongWords(b)
    decreases |a|
  {
    if |a| == 0 {
      assert a + b == b;
    } else {
      var head := if |a[0]| > 3 then [a[0]] else [];
      assert (a + b)[0] == a[0];
      assert (a + b)[1..] == a[1..] + b;
      LongWordsAppend(a[1..], b);
      calc {
        LongWords(a + b);
        head + LongWords(a[1..] + b);
        head + (LongWords(a[1..]) + LongWords(b));
        (head + LongWords(a[1..])) + LongWords(b);
      }
    }
  }

  /** `word.charAt(0).toUpperCase() + word.slice(1)`. */
  function Capitalize(word: string): (r: string)
    ensures |r| == |word|
    ensures |word| > 0 ==> !('a' <= r[0] <= 'z') && r[1..] == word[1..]
    ensures ToLower(r) == ToLower(word)
  {
    if |word| == 0 then ""
    else
      var r := [UpperChar(word[0])] + word[1..];
      assert forall i :: 0 <= i < |r| ==> LowerChar(r[i]) == LowerChar(word[i]);
      r
  }

  /** `#` followed by the capitalised word. */
  function Hashtag(word: string): (tag: string)
    ensures |tag| == |word| + 1 && tag[0] == '#'
    ensures |word| > 0 ==> !('a' <= tag[1] <= 'z') && tag[2..] == word[1..]
    ensures ToLower(tag[1..]) == ToLower(word)
  {
    var tag := "#" + Capitalize(word);
    assert tag[1..] == Capitalize(word);
    tag
  }

  /** The qualifying words of a topic: its long lower-cased words, in order. */
  function QualifyingWords(topic: string): seq<string>
  {
    LongWords(TopicWords(topic))
  }

  /** `words.slice(0, 2).map(...)`: hashtags of the first two qualifying words. */
  function BaseHashtags(topic: string): (tags: seq<string>)
    ensures |tags| <= 2 && |tags| <= |QualifyingWords(topic)|
    ensures |tags| == 2 || |tags| == |QualifyingWords(topic)|
    ensures forall i :: 0 <= i < |tags| ==> tags[i] == Hashtag(QualifyingWords(topic)[i])
  {
    var first := SliceTo(QualifyingWords(topic), 2);
    seq(|first|, i requires 0 <= i < |first| => Hashtag(first[i]))
  }

  /**
   * generateHashtags: the base hashtags, then
   * `platformTags.slice(0, count - base.length)`; `None` when the platform
   * lookup throws.
   */
  function GenerateHashtags(topic: string, platform: string, count: int): (tags: Option<seq<string>>)
    ensures tags.Some? <==> platform !in ObjectPrototypeKeys
    ensures tags.Some? ==> BaseHashtags(topic) <= tags.value
    ensures tags.Some? ==> tags.value[|BaseHashtags(topic)|..] <= TagListFor(platform).value
  {
    var base := BaseHashtags(topic);
    match TagListFor(platform)
    case None => None
    case Some(list) =>
      var tags := base + SliceTo(list, count - |base|);
      assert tags[|base|..] == SliceTo(list, count - |base|);
      Some(tags)
  }

  /** The result of a lookup that does not throw, spelled out. */
  lemma GenerateHashtagsOk(topic: string, platform: string, count: int)
    requires platform !in ObjectPrototypeKeys
    ensures TagListFor(platform).Some? && |TagListFor(platform).value| == 6
    ensures GenerateHashtags(topic, platform, count)
      == Some(BaseHashtags(topic) + SliceTo(TagListFor(platform).value, count - |BaseHashtags(topic)|))
  {
  }

  /**
   * Each base hashtag is `#` and a qualifying word of the topic, of more
   * than three characters, whose lower-cased spelling it carries exactly.
   */
  lemma BaseHashtagSpellsWord(topic: string, i: nat)
    requires i < |BaseHashtags(topic)|
    ensures var word := QualifyingWords(topic)[i];
      && word in TopicWords(topic)
      && |word| > 3
      && BaseHashtags(topic)[i][0] == '#'
      && !('a' <= BaseHashtags(topic)[i][1] <= 'z')
      && BaseHashtags(topic)[i][2..] == word[1..]
      && ToLower(BaseHashtags(topic)[i][1..]) == word
  {
    var word := QualifyingWords(topic)[i];
    LongWordsKeepsLong(TopicWords(topic));
    assert word in QualifyingWords(topic);
    var k :| 0 <= k < |TopicWords(topic)| && TopicWords(topic)[k] == word;
    assert IsLower(word);
    LowerOfLower(word);
  }

  /** `toLowerCase` leaves a lower-case string as it is. */
  lemma LowerOfLower(s: string)
    requires IsLower(s)
    ensures ToLower(s) == s
  {
    assert forall i :: 0 <= i < |s| ==> ToLower(s)[i] == s[i];
  }

  /**
   * The qualifying words keep the order of the topic: those before a
   * space come before those after it.
   */
  lemma QualifyingWordsInTopicOrder(a: string, b: string)
    ensures QualifyingWords(a + " " + b) == QualifyingWords(a) + QualifyingWords(b)
  {
    ToLowerConcat(a + " ", b);
    ToLowerConcat(a, " ");
    assert ToLower(" ") == " ";
    assert ToLower(a + " " + b) == ToLower(a) + [' '] + ToLower(b);
    SplitAround(ToLower(a), ToLower(b), ' ');
    LongWordsAppend(Split(ToLower(a), ' '), Split(ToLower(b), ' '));
  }

  /**
   * With a count of at least two and at most the list's six entries, the
   * result has exactly `count` hashtags.
   */
  lemma HashtagCountExact(topic: string, platform: string, count: int)
    requires platform !in ObjectPrototypeKeys
    requires 2 <= count <= 6
    ensures GenerateHashtags(topic, platform, count).Some?
    ensures |GenerateHashtags(topic, platform, count).value| == count
  {
    GenerateHashtagsOk(topic, platform, count);
  }


  /** A topic without qualifying words gets the first `count` filler hashtags. */
  lemma NoQualifyingWordsGivesListPrefix(topic: string, platform: string, count: int)
    requires platform !in ObjectPrototypeKeys
    requires QualifyingWords(topic) == []
    requires 0 <= count <= 6
    ensures GenerateHashtags(topic, platform, count) == Some(TagListFor(platform).value[..count])
  {
    GenerateHashtagsOk(topic, platform, count);
    var base := BaseHashtags(topic);
    assert base == [] by {
      assert |base| <= |QualifyingWords(topic)|;
    }
    assert base + SliceTo(TagListFor(platform).value, count) == TagListFor(platform).value[..count];
  }


  /**
   * A count below the number of base hashtags makes the end of the slice
   * negative, which counts back from the end of the list. For
   * `-4 <= count < base.length` the result has `6 + count` entries: the base
   * hashtags, then the first `6 + count - base.length` entries of the list
   * (none when `count == base.length - 6`).
   */
  lemma CountBelowBaseCountsFromEnd(topic: string, platform: string, count: int)
    requires platform !in ObjectPrototypeKeys
    requires -4 <= count < |BaseHashtags(topic)|
    ensures var tags := GenerateHashtags(topic, platform, count).value;
      |tags| == 6 + count && tags[|BaseHashtags(topic)|..] == TagListFor(platform).value[..6 + count - |BaseHashtags(topic)|]
  {
    GenerateHashtagsOk(topic, platform, count);
    var base := BaseHashtags(topic);
    var list := TagListFor(platform).value;
    assert SliceTo(list, count - |base|) == list[..6 + count - |base|];
    assert (base + list[..6 + count - |base|])[|base|..] == list[..6 + count - |base|];
  }


  /** An unrecognised platform name takes its filler hashtags from the twitter list. */
  lemma UnknownPlatformUsesTwitterTags(topic: string, platform: string, count: int)
    requires platform !in PlatformNames && platform !in ObjectPrototypeKeys
    ensures GenerateHashtags(topic, platform, count) == GenerateHashtags(topic, "twitter", count)
  {
  }
}
