/**
 * The one piece of the YouTube data collector that is pure logic: pulling the
 * video id out of a watch URL, a short youtu.be link, or a bare id.
 */
module DataCollector {
  import opened Strings

  /**
   * The video id in `url`. A URL with `v=` gives the text after the first
   * `v=`, up to the next `v=` or `&`; otherwise a URL with `youtu.be/` gives
   * the text after the first `youtu.be/`, up to the next `youtu.be/` or `?`;
   * anything else is taken to be an id already.
   */
  function ExtractVideoId(url: string): (id: string)
    ensures Contains(url, "v=") ==> IsCutAtFirst(id, After(url, "v="), "v=", "&")
    ensures !Contains(url, "v=") && Contains(url, "youtu.be/") ==>
      IsCutAtFirst(id, After(url, "youtu.be/"), "youtu.be/", "?")
    ensures !Contains(url, "v=") && !Contains(url, "youtu.be/") ==> id == url
  {
    if Contains(url, "v=") then
      SplitSecond(url, "v=");
      CutTwice(After(url, "v="), "v=", "&");
      Split(Split(url, "v=")[1], "&")[0]
    else if Contains(url, "youtu.be/") then
      SplitSecond(url, "youtu.be/");
      CutTwice(After(url, "youtu.be/"), "youtu.be/", "?");
      Split(Split(url, "youtu.be/")[1], "?")[0]
    else
      url
  }

  /** An id taken from a `v=` URL has no `&`; one taken from a `youtu.be/` link has no `?`. */
  lemma ExtractedIdIsClean(url: string)
    ensures Contains(url, "v=") ==> !Contains(ExtractVideoId(url), "&")
    ensures !Contains(url, "v=") && Contains(url, "youtu.be/") ==> !Contains(ExtractVideoId(url), "?")
  {
    if Contains(url, "v=") {
      CutIsClean(ExtractVideoId(url), After(url, "v="), "v=", "&");
    } else if Contains(url, "youtu.be/") {
      CutIsClean(ExtractVideoId(url), After(url, "youtu.be/"), "youtu.be/", "?");
    }
  }

  /** `c` does not appear in `s`. */
  predicate Lacks(s: string, c: char) {
    forall j :: 0 <= j < |s| ==> s[j] != c
  }

  /** A string with neither `v=` nor `youtu.be/` is taken to be the id itself. */
  lemma {:induction false} BareId(id: string)
    requires Lacks(id, 'v') && Lacks(id, 'y')
    ensures ExtractVideoId(id) == id
  {
    IndexOfByFirstChar(id, "v=", |id|);
    IndexOfByFirstChar(id, "youtu.be/", |id|);
  }

  /** A watch URL `…v=<id>` whose id has no `v` or `&` gives that id. */
  lemma {:induction false} WatchUrlId(prefix: string, id: string)
    requires Lacks(prefix, 'v') && Lacks(id, 'v') && Lacks(id, '&')
    ensures ExtractVideoId(prefix + "v=" + id) == id
  {
    var url := prefix + "v=" + id;
    IndexOfByFirstChar(id, "v=", |id|);
    IndexOfByFirstChar(id, "&", |id|);
    assert IsCutAtFirst(id, id, "v=", "&");
    assert url[|prefix|..|prefix| + 2] == "v=";
    IndexOfByFirstChar(url, "v=", |prefix|);
    assert After(url, "v=") == id;
    CutIsUnique(ExtractVideoId(url), id, id, "v=", "&");
  }

  /** A short link `…youtu.be/<id>` with no `v` and whose id has no `y` or `?` gives that id. */
  lemma {:induction false} ShortLinkId(prefix: string, id: string)
    requires Lacks(prefix, 'v') && Lacks(prefix, 'y') && Lacks(id, 'v') && Lacks(id, 'y') && Lacks(id, '?')
    ensures ExtractVideoId(prefix + "youtu.be/" + id) == id
  {
    var url := prefix + "youtu.be/" + id;
    IndexOfByFirstChar(id, "youtu.be/", |id|);
    IndexOfByFirstChar(id, "?", |id|);
    assert IsCutAtFirst(id, id, "youtu.be/", "?");
    assert Lacks(url, 'v');
    IndexOfByFirstChar(url, "v=", |url|);
    assert url[|prefix|..|prefix| + 9] == "youtu.be/";
    IndexOfByFirstChar(url, "youtu.be/", |prefix|);
    assert After(url, "youtu.be/") == id;
    CutIsUnique(ExtractVideoId(url), id, id, "youtu.be/", "?");
  }

  /** The watch URL in the repository's test script (test_pipeline.py) gives the id `ggJg6CcKtZE`. */
  lemma WatchUrlExample(id: string)
    requires id == "ggJg6CcKtZE"
    ensures ExtractVideoId("https://www.youtube.com/watch?v=" + id) == id
  {
    WatchUrlId("https://www.youtube.com/watch?", id);
    assert "https://www.youtube.com/watch?" + "v=" + id == "https://www.youtube.com/watch?v=" + id;
  }

  /** The short link in the repository's test script (test_pipeline.py) gives the same id. */
  lemma ShortLinkExample(id: string)
    requires id == "ggJg6CcKtZE"
    ensures ExtractVideoId("https://youtu.be/" + id) == id
  {
    assert "https://" + "youtu.be/" + id == "https://youtu.be/" + id;
    assert Lacks("https://", 'v') && Lacks("https://", 'y') by { }
    assert Lacks(id, 'v') && Lacks(id, 'y') && Lacks(id, '?') by { }
    ShortLinkId("https://", id);
  }

  /** The bare id in the repository's test script (test_pipeline.py) is kept as it is. */
  lemma BareIdExample(id: string)
    requires id == "ggJg6CcKtZE"
    ensures ExtractVideoId(id) == id
  {
    BareId(id);
  }
}
