/** `scrape_topic_information`: the article address built from a topic, and the fetch.
    The HTTP request and the extraction of the paragraphs of the page are one oracle
    from the address to the extracted text, or None when the status is not 200. */
module Enricher {
  import opened Wrappers

  /** `requests.get(url)` followed by the paragraph extraction from the page's content. */
  type HttpGet = string -> Option<string>

  const WikiPrefix: string := "https://en.wikipedia.org/wiki/"

  /** The address segment `topic.replace(' ', '_')`. */
  function Slug(topic: string): (s: string)
    ensures |s| == |topic|
    ensures ' ' !in s
    ensures forall i :: 0 <= i < |topic| ==>
      if topic[i] == ' ' then s[i] == '_' else s[i] == topic[i]
  {
    if topic == [] then []
    else [if topic[0] == ' ' then '_' else topic[0]] + Slug(topic[1..])
  }

  /** The address the fetch requests: the fixed article prefix, then the topic with
      its spaces turned into underscores. */
  function WikiUrl(topic: string): (url: string)
    ensures |url| == |WikiPrefix| + |topic|
    ensures url[..|WikiPrefix|] == WikiPrefix
    ensures ' ' !in url
    ensures forall i :: 0 <= i < |topic| && topic[i] != ' ' ==> url[|WikiPrefix| + i] == topic[i]
    ensures forall i :: 0 <= i < |topic| && topic[i] == ' ' ==> url[|WikiPrefix| + i] == '_'
  {
    WikiPrefix + Slug(topic)
  }

  /** `scrape_topic_information(topic)`: the fetch outcome for the topic's address. */
  function Scrape(topic: string, get: HttpGet): Option<string>
  {
    get(WikiUrl(topic))
  }

  /** A topic without spaces is used in the address unchanged. */
  lemma SlugKeepsSpaceFree(topic: string)
    requires ' ' !in topic
    ensures Slug(topic) == topic
  {
  }

  /** Space or underscore: the two characters that give '_' in the address. */
  predicate IsGap(c: char)
  {
    c == ' ' || c == '_'
  }

  /** Two topics request the same page exactly when they agree everywhere except that a
      space in one may stand where the other has an underscore. So if the matcher reports no
      close match, a question that differs from a stored topic only in spaces and underscores
      fetches the same article and stores it under a second topic. */
  lemma SameAddressIff(a: string, b: string)
    ensures WikiUrl(a) == WikiUrl(b) <==>
      |a| == |b| && forall i :: 0 <= i < |a| ==> a[i] == b[i] || (IsGap(a[i]) && IsGap(b[i]))
  {
    if WikiUrl(a) == WikiUrl(b) {
      assert Slug(a) == WikiUrl(a)[|WikiPrefix|..];
      assert Slug(b) == WikiUrl(b)[|WikiPrefix|..];
      forall i | 0 <= i < |a| ensures a[i] == b[i] || (IsGap(a[i]) && IsGap(b[i])) {
        assert Slug(a)[i] == Slug(b)[i];
      }
    }
    if |a| == |b| && forall i :: 0 <= i < |a| ==> a[i] == b[i] || (IsGap(a[i]) && IsGap(b[i])) {
      assert Slug(a) == Slug(b) by {
        forall i | 0 <= i < |a| ensures Slug(a)[i] == Slug(b)[i] {
        }
      }
    }
  }
}
