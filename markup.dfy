/** The clickable-ad markup that both the server (`get_ad_server_zone`) and
    the browser (`adServerFormatAd`) build: the image wrapped in a link. */
module Markup {

  const Open: string := "<a href=\""
  const Mid: string := "\">"
  const Close: string := "</a>"

  /** `'<a href="' . href . '">' . inner . '</a>'` */
  function Anchor(href: string, inner: string): (r: string)
    ensures |r| == |href| + |inner| + 15
    ensures r[..9] == Open && r[|r| - 4..] == Close
    ensures r[9..9 + |href|] == href && r[9 + |href|..11 + |href|] == Mid
    ensures r[11 + |href|..|r| - 4] == inner
  {
    Open + href + Mid + inner + Close
  }

  /** The link target is written without escaping, so it can be read back
      from the markup only when it holds no double quote. */
  predicate QuoteFree(s: string)
  {
    forall i :: 0 <= i < |s| ==> s[i] != '"'
  }

  /** With quote-free targets the markup determines both the target and
      the wrapped HTML. */
  lemma AnchorInjective(h1: string, i1: string, h2: string, i2: string)
    requires QuoteFree(h1) && QuoteFree(h2)
    requires Anchor(h1, i1) == Anchor(h2, i2)
    ensures h1 == h2 && i1 == i2
  {
    var s := Anchor(h1, i1);
    assert s[9 + |h1|] == '"' && s[9 + |h2|] == '"';
    assert forall j :: 9 <= j < 9 + |h1| ==> s[j] != '"';
    assert forall j :: 9 <= j < 9 + |h2| ==> s[j] != '"';
    assert h1 == s[9..9 + |h1|] == h2;
    assert i1 == s[11 + |h1|..|s| - 4] == i2;
  }
}
