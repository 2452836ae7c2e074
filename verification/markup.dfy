/** Page-level settings and the HTML / configuration fragments the export
    assembles from them.  Only the parameters the fragments splice in, and
    whether a fragment is emitted at all, are modelled; the fixed snippet text
    around them is abbreviated. */
module Markup {
  import opened Outcome
  import opened Values

  datatype CookiesPolicy = CookiesPolicy(enabled: bool, pdf: string)

  /** An Open Graph tag, `{property, content}`. */
  datatype OgTag = OgTag(property: string, content: string)

  /** One own property of `settings.styles`, in `Object.keys` order. */
  datatype StyleEntry = StyleEntry(key: string, value: string)

  /** The builder's page settings.  `css`, `script` and `styles` may be unset. */
  datatype Settings = Settings(
    title: string,
    css: Option<string>,
    script: Option<string>,
    styles: Option<seq<StyleEntry>>,
    fullPageScroll: string,
    cookiesPolicy: CookiesPolicy,
    gtmId: string,
    ogTags: seq<OgTag>,
    favicon: string)

  /** JavaScript truthiness of a possibly unset string. */
  predicate Truthy(s: Option<string>) {
    s.Some? && s.value != ""
  }

  // ---------------------------------------------------------------- cookies

  const CookieNoticeOpen := "<div id=\"cookies-policy\" class=\"cookies-policy\"><h2 class=\"cookies-policy__title\">Cookies policy</h2><p class=\"cookies-policy__description\">This website uses cookies. Please read the <a "
  const CookieNoticeClose := " target=\"_blank\">Cookies Policy</a> for more information.</p></div>"

  function PolicyLink(pdf: string): string {
    "href=\"" + pdf + "\""
  }

  /** The cookie-notice block: empty unless the policy is enabled and a policy
      document is set, and then it links to that document. */
  function CookiesPreview(s: Settings): (r: string)
    ensures r == "" <==> !(s.cookiesPolicy.enabled && s.cookiesPolicy.pdf != "")
    ensures r != "" ==> Contains(r, PolicyLink(s.cookiesPolicy.pdf))
  {
    var p := s.cookiesPolicy;
    if !p.enabled || p.pdf == "" then ""
    else
      OccursInMiddle(CookieNoticeOpen, PolicyLink(p.pdf), CookieNoticeClose);
      CookieNoticeOpen + PolicyLink(p.pdf) + CookieNoticeClose
  }

  // ------------------------------------------------------------ css and js

  /** The custom CSS, or `''` when unset. */
  function CustomCss(s: Settings): (r: string)
    ensures r == s.css.GetOr("")
    ensures r == "" <==> !Truthy(s.css)
  {
    if Truthy(s.css) then s.css.value else ""
  }

  /** The custom script, or `''` when unset. */
  function JsScript(s: Settings): (r: string)
    ensures r == s.script.GetOr("")
    ensures r == "" <==> !Truthy(s.script)
  {
    if Truthy(s.script) then s.script.value else ""
  }

  // ------------------------------------------------------------ body styles

  predicate IsUpper(c: char) {
    'A' <= c <= 'Z'
  }

  function Lower(c: char): char {
    if IsUpper(c) then (c as int + 32) as char else c
  }

  /** `kebabCase` for camelCase property names: every upper-case letter becomes
      `-` and its lower-case form (no dash at the very start). */
  function KebabCase(key: string): string {
    KebabFrom(key, true)
  }

  function KebabFrom(s: string, atStart: bool): string {
    if |s| == 0 then ""
    else
      var head := if IsUpper(s[0]) then (if atStart then "" else "-") + [Lower(s[0])] else [s[0]];
      head + KebabFrom(s[1..], false)
  }

  const OverflowHidden := "overflow:hidden!important;"

  /** The CSS declaration one style entry contributes; an empty value contributes
      nothing, and a background image is wrapped in `url(...)`. */
  function Declaration(e: StyleEntry): string {
    if e.value == "" then ""
    else if e.key == "backgroundImage" then KebabCase(e.key) + ": url(" + e.value + ");"
    else KebabCase(e.key) + ": " + e.value + ";"
  }

  /** The declarations of all entries, in key order. */
  function Declarations(es: seq<StyleEntry>): string {
    ConcatMap(es, Declaration)
  }

  /** The inline body style: `''` without a styles object, otherwise the
      declarations followed, under full-page scroll, by the overflow lock. */
  function BodyStyles(s: Settings): string {
    match s.styles
    case None => ""
    case Some(es) => Declarations(es) + (if s.fullPageScroll == "yes" then OverflowHidden else "")
  }

  /** The source's loop over the style keys, accumulating into a string. */
  method BuildBodyStyles(s: Settings) returns (styles: string)
    ensures styles == BodyStyles(s)
  {
    if s.styles.None? {
      return "";
    }
    var es := s.styles.value;
    styles := "";
    var i := 0;
    while i < |es|
      invariant i <= |es|
      invariant styles == Declarations(es[..i])
    {
      ConcatMapInOrder(es, i, Declaration);
      if es[i].value != "" && es[i].key != "backgroundImage" {
        styles := styles + (KebabCase(es[i].key) + ": " + es[i].value + ";");
      }
      if es[i].value != "" && es[i].key == "backgroundImage" {
        styles := styles + (KebabCase(es[i].key) + ": url(" + es[i].value + ");");
      }
      i := i + 1;
    }
    assert es[..|es|] == es;
    if s.fullPageScroll == "yes" {
      styles := styles + OverflowHidden;
    }
  }

  /** Each entry's declaration appears in the style string, in key order, and an
      entry with an empty value can be dropped without changing the result. */
  lemma DeclarationsInOrder(es: seq<StyleEntry>, i: nat)
    requires i < |es|
    ensures OccursAt(Declarations(es), Declaration(es[i]), |Declarations(es[..i])|)
    ensures es[i].value == "" ==> Declarations(es) == Declarations(es[..i] + es[i + 1..])
  {
    ConcatMapInOrder(es, i, Declaration);
    assert es == es[..i + 1] + es[i + 1..];
    ConcatMapAppend(es[..i + 1], es[i + 1..], Declaration);
    ConcatMapAppend(es[..i], es[i + 1..], Declaration);
  }

  /** The body gets no inline style exactly when there is no styles object, or
      full-page scroll is off and every style value is empty. */
  lemma BodyStylesGating(s: Settings)
    ensures BodyStyles(s) == "" <==>
      s.styles.None? || (s.fullPageScroll != "yes" && forall i :: 0 <= i < |s.styles.value| ==> s.styles.value[i].value == "")
  {
    if s.styles.Some? {
      var es := s.styles.value;
      ConcatMapEmpty(es, Declaration);
      forall i | 0 <= i < |es|
        ensures Declaration(es[i]) == "" <==> es[i].value == ""
      {
        if es[i].value != "" {
          assert |Declaration(es[i])| > 0;
        }
      }
    }
  }

  // ------------------------------------------------------- full-page scroll

  const JQueryUrl := "https://ajax.googleapis.com/ajax/libs/jquery/3.3.1/jquery.min.js"

  /** Width in pixels below which full-page scroll is switched off. */
  const MobileBreakpoint := "500"

  datatype ScrollSetup = ScrollSetup(style: string, setup: string)

  const ScrollScriptOpen := "<script src=\"" + JQueryUrl + "\"></script><script src=\""
  const ScrollScriptClose := "\"></script><link href=\""
  const ScrollLinkClose := "\" rel=\"stylesheet\">"

  function ScrollLibraryTags(origin: string): string {
    ScrollScriptOpen + (origin + "/js/onepage-scroll.min.js") + ScrollScriptClose
    + (origin + "/css/onepage-scroll.css") + ScrollLinkClose
  }

  const ActivationOpen := "<script>function detectMobile () { return $(window).width() < "
  const ActivationClose := " ? true : false; } if (!detectMobile()) { $(\".main\").onepage_scroll(); } $(window).resize(toggleOnepageScroll);</script>"

  /** The activation script: scroll is enabled unless the window is narrower
      than the breakpoint, and re-toggled on resize across it. */
  const ScrollActivation := ActivationOpen + MobileBreakpoint + ActivationClose

  /** The scroll library tags and activation script; both empty unless
      full-page scroll is `'yes'`.  `origin` is the page origin. */
  function GetScrollSetup(s: Settings, origin: string): (r: ScrollSetup)
    ensures r.style == "" && r.setup == "" <==> s.fullPageScroll != "yes"
    ensures s.fullPageScroll == "yes" ==>
      && Contains(r.style, origin + "/js/onepage-scroll.min.js")
      && Contains(r.style, origin + "/css/onepage-scroll.css")
      && Contains(r.setup, MobileBreakpoint)
  {
    if s.fullPageScroll == "yes" then
      ScrollTagsContents(origin);
      OccursInMiddle(ActivationOpen, MobileBreakpoint, ActivationClose);
      ScrollSetup(ScrollLibraryTags(origin), ScrollActivation)
    else ScrollSetup("", "")
  }

  lemma ScrollTagsContents(origin: string)
    ensures OccursAt(ScrollLibraryTags(origin), origin + "/js/onepage-scroll.min.js", |ScrollScriptOpen|)
    ensures Contains(ScrollLibraryTags(origin), origin + "/css/onepage-scroll.css")
  {
    var js, css := origin + "/js/onepage-scroll.min.js", origin + "/css/onepage-scroll.css";
    var front := ScrollScriptOpen + js + ScrollScriptClose;
    OccursInMiddle(ScrollScriptOpen, js, ScrollScriptClose);
    OccursExtended(front, js, |ScrollScriptOpen|, css);
    OccursExtended(front + css, js, |ScrollScriptOpen|, ScrollLinkClose);
    OccursInMiddle(front, css, ScrollLinkClose);
  }

  // ------------------------------------------------------ Google Tag Manager

  const GtmHeadOpen := "<!-- Google Tag Manager --><script>(function(w,d,s,l,i){ /* loads gtm.js?id=i */ })(window,document,'script','dataLayer','"
  const GtmHeadClose := "');</script><!-- End Google Tag Manager -->"
  const GtmBodyOpen := "<!-- Google Tag Manager (noscript) --><noscript><iframe src=\"https://www.googletagmanager.com/ns.html?id="
  const GtmBodyClose := "\" height=\"0\" width=\"0\" style=\"display:none;visibility:hidden\"></iframe></noscript><!-- End Google Tag Manager (noscript) -->"

  datatype GtmSnippets = GtmSnippets(head: string, body: string)

  /** The GTM head and body snippets: both empty exactly when no container id is
      set, and otherwise both carry that id. */
  function GtmSetup(s: Settings): (r: GtmSnippets)
    ensures r.head == "" <==> s.gtmId == ""
    ensures r.body == "" <==> s.gtmId == ""
    ensures s.gtmId != "" ==> Contains(r.head, s.gtmId) && Contains(r.body, s.gtmId)
  {
    if |s.gtmId| > 0 then
      OccursInMiddle(GtmHeadOpen, s.gtmId, GtmHeadClose);
      OccursInMiddle(GtmBodyOpen, s.gtmId, GtmBodyClose);
      GtmSnippets(GtmHeadOpen + s.gtmId + GtmHeadClose, GtmBodyOpen + s.gtmId + GtmBodyClose)
    else GtmSnippets("", "")
  }

  // ---------------------------------------------------------------- manifest

  const OgDescription := "og:description"

  /** `_.find(tags, t => t.property === property)`: the first tag with that property. */
  function FirstTag(tags: seq<OgTag>, property: string): (r: Option<OgTag>)
    ensures r.None? <==> forall i :: 0 <= i < |tags| ==> tags[i].property != property
    ensures r.Some? ==> exists i :: (0 <= i < |tags| && tags[i] == r.value
      && tags[i].property == property
      && forall j :: 0 <= j < i ==> tags[j].property != property)
  {
    if |tags| == 0 then None
    else if tags[0].property == property then
      Some(tags[0])
    else
      var r := FirstTag(tags[1..], property);
      assert forall i :: 1 <= i < |tags| ==> tags[i] == tags[1..][i - 1];
      if r.Some? then
        var k :| 0 <= k < |tags[1..]| && tags[1..][k] == r.value && tags[1..][k].property == property
          && forall j :: 0 <= j < k ==> tags[1..][j].property != property;
        assert tags[k + 1] == r.value;
        r
      else r
  }

  datatype Icon = Icon(src: string, sizes: string)
  datatype Manifest = Manifest(name: string, description: string, icons: seq<Icon>, startUrl: string)

  /** The web-app manifest (as a structured value): named after the page, one
      64x64 favicon icon, start url `.`, and the description of the first
      `og:description` tag, or `''` when there is none. */
  function GetManifest(s: Settings): (r: Manifest)
    ensures r.name == s.title
    ensures r.icons == [Icon(s.favicon, "64x64")]
    ensures r.startUrl == "."
    ensures (forall i :: 0 <= i < |s.ogTags| ==> s.ogTags[i].property != OgDescription) ==> r.description == ""
    ensures forall i :: (0 <= i < |s.ogTags| && s.ogTags[i].property == OgDescription
      && (forall j :: 0 <= j < i ==> s.ogTags[j].property != OgDescription)
      ==> r.description == s.ogTags[i].content)
  {
    var found := FirstTag(s.ogTags, OgDescription);
    var description := if found.Some? then found.value.content else "";
    Manifest(s.title, description, [Icon(s.favicon, "64x64")], ".")
  }

  // --------------------------------------------------------- Open Graph tags

  function MetaTag(t: OgTag): string {
    "<meta property=\"" + t.property + "\" content=\"" + t.content + "\">"
  }

  /** One `<meta>` element per tag, in order. */
  function MetaTags(tags: seq<OgTag>): string {
    ConcatMap(tags, MetaTag)
  }

  /** The source's loop over the tags, accumulating into a string. */
  method OgMetaTags(tags: seq<OgTag>) returns (og: string)
    ensures og == MetaTags(tags)
  {
    og := "";
    var i := 0;
    while i < |tags|
      invariant i <= |tags|
      invariant og == MetaTags(tags[..i])
    {
      ConcatMapInOrder(tags, i, MetaTag);
      og := og + ("<meta property=\"" + tags[i].property + "\" content=\"" + tags[i].content + "\">");
      i := i + 1;
    }
    assert tags[..|tags|] == tags;
  }

  /** The i-th tag's `<meta>` element follows the elements of the tags before
      it, and the tags of two lists render as the two renderings joined. */
  lemma MetaTagsInOrder(tags: seq<OgTag>, more: seq<OgTag>, i: nat)
    requires i < |tags|
    ensures OccursAt(MetaTags(tags), MetaTag(tags[i]), |MetaTags(tags[..i])|)
    ensures MetaTags(tags + more) == MetaTags(tags) + MetaTags(more)
  {
    ConcatMapInOrder(tags, i, MetaTag);
    ConcatMapAppend(tags, more, MetaTag);
  }
}
