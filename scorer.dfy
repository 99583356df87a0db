/** The evidence scorer `analyzeResponseForUmbraco` (server.js:1262-1475):
    a classifier of one HTTP response (body text, headers, status code and the
    URL that was requested) into "Umbraco" or "not Umbraco", with an ordered
    list of human-readable evidence lines. */
module Scorer {
  import opened Wrappers
  import opened Strings

  /** What the scorer returns: the verdict and its evidence lines. */
  datatype Verdict = Verdict(isUmbraco: bool, evidence: seq<string>)

  /** One weighted rule: its weight, whether it fired on this response, and
      the evidence line it contributes when it does. */
  datatype Rule = Rule(weight: nat, fired: bool, line: string)

  // ---------------------------------------------------------------------
  // The fixed lists of the source
  // ---------------------------------------------------------------------

  /** Generators of other platforms; a meta generator containing one of these
      (after lower-casing) excludes the response (server.js:1278-1300). */
  const TraditionalCms: seq<string> := [
    "wordpress", "drupal", "joomla", "typo3", "modx", "concrete5", "textpattern",
    "processwire", "craft cms", "expressionengine"
  ]
  const EcommerceCms: seq<string> := ["magento", "opencart", "prestashop", "woocommerce", "shopify", "bigcommerce"]
  const StaticSiteGenerators: seq<string> := [
    "jekyll", "hugo", "gatsby", "next.js", "nuxt.js", "hexo", "pelican", "middleman"
  ]
  const WebsiteBuilders: seq<string> := ["wix.com", "squarespace", "weebly", "webflow"]
  const WikiPlatforms: seq<string> := ["mediawiki", "dokuwiki", "tiddlywiki", "gitiles"]
  const BloggingPlatforms: seq<string> := ["ghost", "blogger", "tumblr"]
  const EnterpriseCms: seq<string> := ["sitecore", "adobe experience manager", "episerver", "optimizely", "kentico"]
  const HeadlessCms: seq<string> := ["contentful", "strapi", "sanity"]
  const ForumSoftware: seq<string> := ["phpbb", "vbulletin", "xenforo", "discourse"]

  const NonUmbracoGenerators: seq<string> :=
    TraditionalCms + EcommerceCms + StaticSiteGenerators + WebsiteBuilders + WikiPlatforms
    + BloggingPlatforms + EnterpriseCms + HeadlessCms + ForumSoftware

  const UmbracoPaths: seq<string> := [
    "/App_Plugins/", "/umbraco_client/", "/Views/",
    "/umbraco/umbraco.aspx", "/umbraco/login.aspx", "/umbraco/dashboard.aspx"
  ]

  const AspNetHeaders: seq<string> := ["x-aspnet-version", "x-aspnetmvc-version", "x-powered-by"]

  const UmbracoDirs: seq<string> := [
    "App_Plugins", "umbraco_client", "umbraco/Views", "umbraco/App_Plugins", "umbraco/umbraco"
  ]

  const CdfPatterns: seq<string> := [
    "umbraco.clientdependency", "umbraco_client", "ClientDependency", "umbraco.css", "umbraco.js"
  ]

  const UmbracoElements: seq<string> := [
    "class=\"umbraco", "id=\"umbraco", "<umbraco", "umbraco-login", "umbraco-dashboard", "umbraco-content"
  ]

  const UmbracoJs: seq<string> := ["umbraco.js", "umbraco.min.js", "umbraco_client", "umbraco/scripts"]

  const UmbracoTextPatterns: seq<string> := [
    "umbraco", "Umbraco", "UMBRACO", "umbraco.aspx", "umbraco-login", "umbraco-dashboard"
  ]

  /** The detection threshold. */
  const Threshold: nat := 3

  // ---------------------------------------------------------------------
  // The meta generator tag (server.js:1273):
  //   /<meta\s+name=['"]generator['"]\s+content=['"]([^'"]+)['"]/i
  // ---------------------------------------------------------------------

  /** One element of the pattern. */
  datatype Piece =
    | Text(lit: string)  // a literal without upper-case letters, matched up to ASCII case (the `i` flag)
    | Blank              // `\s+`
    | QuoteMark          // `['"]`
    | Group              // `([^'"]+)`, the captured generator

  /** A pattern: its pieces, first to last. */
  datatype Pattern = End | Then(piece: Piece, rest: Pattern)

  /** The generator pattern, piece by piece. Each repetition in it is followed
      by a character it cannot consume (`\s+` by a letter, `[^'"]+` by a
      quote), so matching every repetition greedily finds exactly the matches
      the backtracking regular-expression engine finds. */
  const GeneratorPattern: Pattern :=
    Then(Text("<meta"), Then(Blank, Then(Text("name="), Then(QuoteMark,
    Then(Text("generator"), Then(QuoteMark, Then(Blank, Then(Text("content="),
    Then(QuoteMark, Then(Group, Then(QuoteMark, End)))))))))))

  /** A successful match: the position after it and what the group captured. */
  datatype Match = Match(end: nat, group: string)

  predicate IsQuote(c: char) {
    c == '\'' || c == '"'
  }

  /** The pattern has a group. */
  predicate HasGroup(p: Pattern) {
    match p
    case End => false
    case Then(q, rest) => q == Group || HasGroup(rest)
  }

  /** s holds the literal lit at position i, up to ASCII case. */
  predicate LiteralAt(s: string, i: nat, lit: string) {
    i + |lit| <= |s| && Lower(s[i..i + |lit|]) == lit
  }

  /** The end of the run of white space that starts at i. */
  function SkipWhitespace(s: string, i: nat): (j: nat)
    requires i <= |s|
    ensures i <= j <= |s|
    ensures forall k :: i <= k < j ==> IsWhitespace(s[k])
    ensures j < |s| ==> !IsWhitespace(s[j])
    decreases |s| - i
  {
    if i < |s| && IsWhitespace(s[i]) then SkipWhitespace(s, i + 1) else i
  }

  /** The end of the run of non-quote characters that starts at i. */
  function SkipNonQuote(s: string, i: nat): (j: nat)
    requires i <= |s|
    ensures i <= j <= |s|
    ensures forall k :: i <= k < j ==> !IsQuote(s[k])
    ensures j < |s| ==> IsQuote(s[j])
    decreases |s| - i
  {
    if i < |s| && !IsQuote(s[i]) then SkipNonQuote(s, i + 1) else i
  }

  /** Matches the pattern p against s from position i. The group is a block
      of s without quotes, and it is non-empty when p has a group. */
  function MatchFrom(p: Pattern, s: string, i: nat): (r: Option<Match>)
    requires i <= |s|
    ensures r.Some? ==> i <= r.value.end <= |s| && Contains(s, r.value.group)
    ensures r.Some? ==> forall k :: 0 <= k < |r.value.group| ==> !IsQuote(r.value.group[k])
    ensures r.Some? && HasGroup(p) ==> |r.value.group| > 0
    decreases p
  {
    match p
    case End =>
      assert StartsWith(s, "");
      Some(Match(i, ""))
    case Then(Text(lit), rest) =>
      if LiteralAt(s, i, lit) then MatchFrom(rest, s, i + |lit|) else None
    case Then(Blank, rest) =>
      var j := SkipWhitespace(s, i);
      if j == i then None else MatchFrom(rest, s, j)
    case Then(QuoteMark, rest) =>
      if i < |s| && IsQuote(s[i]) then MatchFrom(rest, s, i + 1) else None
    case Then(Group, rest) =>
      var j := SkipNonQuote(s, i);
      if j == i then None
      else
        match MatchFrom(rest, s, j)
        case None => None
        case Some(m) =>
          assert BlockAt(s, s[i..j], i);
          ContainsAt(s, s[i..j], i);
          Some(Match(m.end, s[i..j]))
  }

  /** The group of the leftmost match that starts at or after position i. */
  function FirstGenerator(s: string, i: nat): (r: Option<string>)
    requires i <= |s|
    ensures r.Some? ==> |r.value| > 0 && Contains(s, r.value)
    ensures r.Some? ==> forall k :: 0 <= k < |r.value| ==> !IsQuote(r.value[k])
    decreases |s| - i
  {
    assert HasGroup(GeneratorPattern);
    match MatchFrom(GeneratorPattern, s, i)
    case Some(m) => Some(m.group)
    case None => if i == |s| then None else FirstGenerator(s, i + 1)
  }

  /** `content.match(...)` followed by `[1]`: the generator named by the first
      generator meta tag, if any. */
  function MetaGenerator(content: string): Option<string> {
    FirstGenerator(content, 0)
  }

  // The partner of the matcher: every renderable pattern matches its own
  // plain text, so the plain generator tag is recognised.

  /** The text a piece stands for in a tag written the plain way: one space
      for `\s+`, a double quote for `['"]`, g for the group. */
  function RenderPiece(q: Piece, g: string): string {
    match q
    case Text(lit) => lit
    case Blank => " "
    case QuoteMark => "\""
    case Group => g
  }

  /** The plain text of a pattern. */
  function Render(p: Pattern, g: string): string {
    match p
    case End => ""
    case Then(q, rest) => RenderPiece(q, g) + Render(rest, g)
  }

  /** A possible capture of the group: non-empty and free of quotes. */
  predicate GroupText(g: string) {
    |g| > 0 && forall k :: 0 <= k < |g| ==> !IsQuote(g[k])
  }

  /** t has no upper-case ASCII letter. */
  predicate NoUpper(t: string) {
    forall k :: 0 <= k < |t| ==> !('A' <= t[k] <= 'Z')
  }

  /** A piece that matches its own plain text when the pattern rest follows
      it: a literal is non-empty and has no upper-case letter, `\s+` is
      followed by a literal that starts with a visible character, a group by
      a quote. */
  predicate PieceFits(q: Piece, rest: Pattern) {
    match q
    case Text(lit) => |lit| > 0 && NoUpper(lit)
    case Blank => rest.Then? && rest.piece.Text? && |rest.piece.lit| > 0 && !IsWhitespace(rest.piece.lit[0])
    case QuoteMark => true
    case Group => rest.Then? && rest.piece == QuoteMark
  }

  /** Every piece of the pattern fits. */
  predicate Renderable(p: Pattern) {
    match p
    case End => true
    case Then(q, rest) => PieceFits(q, rest) && Renderable(rest)
  }

  /** The group a renderable pattern captures from its own plain text. */
  function Captured(p: Pattern, g: string): string {
    if HasGroup(p) then g else ""
  }

  /** The plain text of a pattern starts with the plain text of its first
      piece, which is not empty. */
  lemma RenderHead(p: Pattern, g: string)
    requires p.Then? && Renderable(p) && GroupText(g)
    ensures |RenderPiece(p.piece, g)| > 0
    ensures |Render(p, g)| >= |RenderPiece(p.piece, g)|
    ensures Render(p, g)[0] == RenderPiece(p.piece, g)[0]
  {
  }

  /** t occurs in s at position i, character by character. */
  predicate TextAt(s: string, i: nat, t: string) {
    i + |t| <= |s| && forall k :: 0 <= k < |t| ==> s[i + k] == t[k]
  }

  /** Text made of two parts is the first part followed by the second. */
  lemma TextAtSplit(s: string, i: nat, a: string, b: string)
    requires TextAt(s, i, a + b)
    ensures TextAt(s, i, a) && TextAt(s, i + |a|, b)
  {
    forall k | 0 <= k < |a|
      ensures s[i + k] == a[k]
    {
      assert (a + b)[k] == a[k];
    }
    forall k | 0 <= k < |b|
      ensures s[i + |a| + k] == b[k]
    {
      assert (a + b)[|a| + k] == b[k];
    }
  }

  /** Every renderable pattern matches its own plain text, wherever that text
      occurs, and captures g when it has a group. */
  lemma {:induction false} MatchRendered(p: Pattern, g: string, s: string, i: nat)
    requires Renderable(p) && GroupText(g) && TextAt(s, i, Render(p, g))
    ensures MatchFrom(p, s, i) == Some(Match(i + |Render(p, g)|, Captured(p, g)))
    decreases p
  {
    if p.Then? {
      var head, tail := RenderPiece(p.piece, g), Render(p.rest, g);
      TextAtSplit(s, i, head, tail);
      MatchRendered(p.rest, g, s, i + |head|);
      RenderedStep(p, g, s, i);
    }
  }

  /** The induction step of MatchRendered. */
  lemma RenderedStep(p: Pattern, g: string, s: string, i: nat)
    requires p.Then? && Renderable(p) && GroupText(g) && TextAt(s, i, Render(p, g))
    requires TextAt(s, i, RenderPiece(p.piece, g))
    requires TextAt(s, i + |RenderPiece(p.piece, g)|, Render(p.rest, g))
    requires MatchFrom(p.rest, s, i + |RenderPiece(p.piece, g)|)
             == Some(Match(i + |Render(p, g)|, Captured(p.rest, g)))
    ensures MatchFrom(p, s, i) == Some(Match(i + |Render(p, g)|, Captured(p, g)))
  {
    if p.piece == Group {
      RenderedGroup(p, g, s, i);
    } else {
      RenderedPlain(p, g, s, i);
    }
  }

  lemma RenderedGroup(p: Pattern, g: string, s: string, i: nat)
    requires p.Then? && Renderable(p) && GroupText(g) && TextAt(s, i, Render(p, g))
    requires TextAt(s, i, RenderPiece(p.piece, g))
    requires TextAt(s, i + |RenderPiece(p.piece, g)|, Render(p.rest, g))
    requires MatchFrom(p.rest, s, i + |RenderPiece(p.piece, g)|)
             == Some(Match(i + |Render(p, g)|, Captured(p.rest, g)))
    requires p.piece == Group
    ensures MatchFrom(p, s, i) == Some(Match(i + |Render(p, g)|, Captured(p, g)))
  {
    RenderHead(p.rest, g);
    SkipGroup(s, i, g);
    assert s[i..i + |g|] == g;
  }

  lemma RenderedPlain(p: Pattern, g: string, s: string, i: nat)
    requires p.Then? && Renderable(p) && GroupText(g) && TextAt(s, i, Render(p, g))
    requires TextAt(s, i, RenderPiece(p.piece, g))
    requires TextAt(s, i + |RenderPiece(p.piece, g)|, Render(p.rest, g))
    requires MatchFrom(p.rest, s, i + |RenderPiece(p.piece, g)|)
             == Some(Match(i + |Render(p, g)|, Captured(p.rest, g)))
    requires p.piece != Group
    ensures MatchFrom(p, s, i) == Some(Match(i + |Render(p, g)|, Captured(p, g)))
  {
    match p.piece
    case Blank => RenderedBlank(p, g, s, i);
    case QuoteMark => RenderedQuote(p, g, s, i);
    case Text(lit) => RenderedText(p, g, s, i, lit);
  }

  lemma RenderedBlank(p: Pattern, g: string, s: string, i: nat)
    requires p.Then? && Renderable(p) && GroupText(g) && TextAt(s, i, Render(p, g))
    requires TextAt(s, i, RenderPiece(p.piece, g))
    requires TextAt(s, i + |RenderPiece(p.piece, g)|, Render(p.rest, g))
    requires MatchFrom(p.rest, s, i + |RenderPiece(p.piece, g)|)
             == Some(Match(i + |Render(p, g)|, Captured(p.rest, g)))
    requires p.piece == Blank
    ensures MatchFrom(p, s, i) == Some(Match(i + |Render(p, g)|, Captured(p, g)))
  {
    RenderHead(p.rest, g);
    assert s[i + 1] == Render(p.rest, g)[0];
    assert s[i] == RenderPiece(p.piece, g)[0];
    StepBlank(p, s, i);
  }

  lemma RenderedQuote(p: Pattern, g: string, s: string, i: nat)
    requires p.Then? && Renderable(p) && GroupText(g) && TextAt(s, i, Render(p, g))
    requires TextAt(s, i, RenderPiece(p.piece, g))
    requires TextAt(s, i + |RenderPiece(p.piece, g)|, Render(p.rest, g))
    requires MatchFrom(p.rest, s, i + |RenderPiece(p.piece, g)|)
             == Some(Match(i + |Render(p, g)|, Captured(p.rest, g)))
    requires p.piece == QuoteMark
    ensures MatchFrom(p, s, i) == Some(Match(i + |Render(p, g)|, Captured(p, g)))
  {
    assert s[i] == RenderPiece(p.piece, g)[0];
    StepQuote(p, s, i);
  }

  lemma RenderedText(p: Pattern, g: string, s: string, i: nat, lit: string)
    requires p.Then? && Renderable(p) && GroupText(g) && TextAt(s, i, Render(p, g))
    requires TextAt(s, i, RenderPiece(p.piece, g))
    requires TextAt(s, i + |RenderPiece(p.piece, g)|, Render(p.rest, g))
    requires MatchFrom(p.rest, s, i + |RenderPiece(p.piece, g)|)
             == Some(Match(i + |Render(p, g)|, Captured(p.rest, g)))
    requires p.piece == Text(lit)
    ensures MatchFrom(p, s, i) == Some(Match(i + |Render(p, g)|, Captured(p, g)))
  {
    StepText(p, s, i, lit);
  }

  /** The steps of a match on plain text, one per kind of piece. */
  lemma StepText(p: Pattern, s: string, i: nat, lit: string)
    requires p.Then? && p.piece == Text(lit) && TextAt(s, i, lit) && NoUpper(lit)
    ensures MatchFrom(p, s, i) == MatchFrom(p.rest, s, i + |lit|)
  {
    assert s[i..i + |lit|] == lit;
    assert Lower(lit) == lit;
    assert LiteralAt(s, i, lit);
  }

  lemma StepBlank(p: Pattern, s: string, i: nat)
    requires p.Then? && p.piece == Blank
    requires i + 1 < |s| && s[i] == ' ' && !IsWhitespace(s[i + 1])
    ensures MatchFrom(p, s, i) == MatchFrom(p.rest, s, i + 1)
  {
    assert SkipWhitespace(s, i) == i + 1 by {
      assert SkipWhitespace(s, i + 1) == i + 1;
    }
  }

  lemma StepQuote(p: Pattern, s: string, i: nat)
    requires p.Then? && p.piece == QuoteMark
    requires i < |s| && s[i] == '"'
    ensures MatchFrom(p, s, i) == MatchFrom(p.rest, s, i + 1)
  {
  }

  /** The group skip stops exactly after g when a quote follows it. */
  lemma {:induction false} SkipGroup(s: string, i: nat, g: string)
    requires TextAt(s, i, g) && i + |g| < |s| && IsQuote(s[i + |g|])
    requires forall k :: 0 <= k < |g| ==> !IsQuote(g[k])
    ensures SkipNonQuote(s, i) == i + |g|
    decreases |g|
  {
    if |g| > 0 {
      assert s[i] == g[0];
      assert TextAt(s, i + 1, g[1..]) by {
        forall k | 0 <= k < |g[1..]|
          ensures s[i + 1 + k] == g[1..][k]
        {
          assert s[i + (k + 1)] == g[k + 1];
        }
      }
      SkipGroup(s, i + 1, g[1..]);
    }
  }

  /** The plain generator tag, `<meta name="generator" content="` followed
      by g and a closing `"`: the plain text of the generator pattern. */
  function GeneratorTag(g: string): string {
    Render(GeneratorPattern, g)
  }

  /** The generator pattern matches its own plain text. */
  lemma GeneratorPatternRenderable()
    ensures Renderable(GeneratorPattern)
  {
    assert NoUpper("<meta") && NoUpper("name=") && NoUpper("generator") && NoUpper("content=");
  }

  /** No match starts where there is no `<`. */
  lemma NoMatchWithoutTag(s: string, i: nat)
    requires i <= |s| && (i == |s| || s[i] != '<')
    ensures MatchFrom(GeneratorPattern, s, i) == None
  {
    if i + 5 <= |s| {
      assert Lower(s[i..i + 5])[0] == LowerChar(s[i]);
    }
  }

  /** Scanning text that has no `<` finds nothing before position j. */
  lemma {:induction false} ScanPast(s: string, i: nat, j: nat)
    requires i <= j <= |s|
    requires forall k :: i <= k < j ==> s[k] != '<'
    ensures FirstGenerator(s, i) == FirstGenerator(s, j)
    decreases j - i
  {
    if i < j {
      NoMatchWithoutTag(s, i);
      ScanOn(s, i);
      ScanPast(s, i + 1, j);
    }
  }

  /** The scan moves on from a position where the pattern does not match. */
  lemma ScanOn(s: string, i: nat)
    requires i < |s| && Miss(s, i)
    ensures FirstGenerator(s, i) == FirstGenerator(s, i + 1)
  {
  }

  /** A text without `<` names no generator. */
  lemma NoGeneratorWithoutTag(s: string)
    requires '<' !in s
    ensures MetaGenerator(s) == None
  {
    ScanPast(s, 0, |s|);
    NoMatchWithoutTag(s, |s|);
  }

  /** The middle part of a concatenation sits right after the first part. */
  lemma TextAtMiddle(pre: string, t: string, post: string)
    ensures TextAt(pre + t + post, |pre|, t)
  {
    var s := pre + t + post;
    forall k | 0 <= k < |t|
      ensures s[|pre| + k] == t[k]
    {
    }
  }

  /** No match of the generator pattern starts at position k. */
  predicate Miss(s: string, k: nat)
    requires k <= |s|
  {
    MatchFrom(GeneratorPattern, s, k) == None
  }

  /** The scan passes over positions where no match starts. */
  lemma {:induction false} ScanMisses(s: string, i: nat, j: nat)
    requires i <= j <= |s|
    requires forall k :: i <= k < j ==> Miss(s, k)
    ensures FirstGenerator(s, i) == FirstGenerator(s, j)
    decreases j - i
  {
    if i < j {
      ScanOn(s, i);
      ScanMisses(s, i + 1, j);
    }
  }

  /** A plain generator tag names its generator, whatever follows it, when no
      match of the pattern starts in the text before it. */
  lemma GeneratorOfTag(pre: string, g: string, post: string)
    requires forall k :: 0 <= k < |pre| ==> MatchFrom(GeneratorPattern, pre + GeneratorTag(g) + post, k) == None
    requires GroupText(g)
    ensures MetaGenerator(pre + GeneratorTag(g) + post) == Some(g)
  {
    var s := pre + GeneratorTag(g) + post;
    assert forall k :: 0 <= k < |pre| ==> Miss(s, k);
    ScanMisses(s, 0, |pre|);
    GeneratorPatternRenderable();
    TextAtMiddle(pre, GeneratorTag(g), post);
    MatchRendered(GeneratorPattern, g, s, |pre|);
    assert Captured(GeneratorPattern, g) == g;
  }

  /** No `<meta`, in any letter case, starts in t: markup such as `<html>`,
      `<head>` or `<title>` may come before the tag. */
  predicate NoMetaIn(t: string) {
    forall k :: 0 <= k < |t| ==> !LiteralAt(t, k, "<meta")
  }

  /** A `<` at position k + d, 0 < d < 5, rules out `<meta` at k. */
  lemma TagBreaksMeta(s: string, k: nat, d: nat)
    requires 0 < d < 5 && k + d < |s| && s[k + d] == '<'
    ensures !LiteralAt(s, k, "<meta")
  {
    if k + 5 <= |s| {
      assert Lower(s[k..k + 5])[d] == LowerChar(s[k + d]);
    }
  }

  /** Before a plain generator tag that follows text without `<meta`, no
      match of the pattern starts. */
  lemma NoMatchBeforeTag(pre: string, g: string, post: string)
    requires NoMetaIn(pre)
    ensures forall k :: 0 <= k < |pre| ==> MatchFrom(GeneratorPattern, pre + GeneratorTag(g) + post, k) == None
  {
    var s := pre + GeneratorTag(g) + post;
    assert GeneratorTag(g) == "<meta" + Render(GeneratorPattern.rest, g);
    assert s[|pre|] == '<';
    forall k | 0 <= k < |pre|
      ensures MatchFrom(GeneratorPattern, s, k) == None
    {
      if k + 5 <= |pre| {
        assert s[k..k + 5] == pre[k..k + 5];
        assert !LiteralAt(pre, k, "<meta");
      } else {
        TagBreaksMeta(s, k, |pre| - k);
      }
    }
  }

  /** `nonUmbracoGenerators.some(nonUmbraco => generator.includes(nonUmbraco))`
      on the lower-cased generator. */
  predicate NamesOtherPlatform(generator: string) {
    exists k :: 0 <= k < |NonUmbracoGenerators| && Contains(generator, NonUmbracoGenerators[k])
  }

  /** The content names another platform in its generator tag. */
  predicate Excluded(content: string) {
    var g := MetaGenerator(content);
    g.Some? && NamesOtherPlatform(Lower(g.value))
  }

  /** A generator that starts with a listed platform names it. */
  lemma LeadingPlatform(generator: string, k: nat)
    requires k < |NonUmbracoGenerators|
    requires |NonUmbracoGenerators[k]| <= |generator|
    requires generator[..|NonUmbracoGenerators[k]|] == NonUmbracoGenerators[k]
    ensures NamesOtherPlatform(generator)
  {
    ContainsAt(generator, NonUmbracoGenerators[k], 0);
  }

  /** A page whose first generator tag, after ordinary markup, names another
      platform is excluded, with the tag's value in the only evidence line. */
  lemma OtherPlatformExcluded(pre: string, g: string, post: string,
                              headers: map<string, string>, url: string)
    requires NoMetaIn(pre) && GroupText(g) && NamesOtherPlatform(Lower(g))
    ensures Excluded(pre + GeneratorTag(g) + post)
    ensures Classify(pre + GeneratorTag(g) + post, headers, 200, url) == Verdict(false, [ExclusionLine(g)])
  {
    NoMatchBeforeTag(pre, g, post);
    GeneratorOfTag(pre, g, post);
  }

  /** Head markup before the generator tag: no `<meta` in it. */
  const HeadMarkup: string := "<html><head><title>Blog</title>"

  lemma HeadMarkupHasNoMeta()
    ensures NoMetaIn(HeadMarkup)
  {
    forall k | 0 <= k < |HeadMarkup|
      ensures !LiteralAt(HeadMarkup, k, "<meta")
    {
      if k + 5 <= |HeadMarkup| {
        assert Lower(HeadMarkup[k..k + 5])[1] == LowerChar(HeadMarkup[k + 1]);
        assert Lower(HeadMarkup[k..k + 5])[0] == LowerChar(HeadMarkup[k]);
      }
    }
  }

  /** A WordPress generator value. */
  const WordPressGenerator: string := "WordPress 6.4"

  lemma WordPressNamesOtherPlatform()
    ensures GroupText(WordPressGenerator) && NamesOtherPlatform(Lower(WordPressGenerator))
  {
    var lw := Lower(WordPressGenerator);
    assert lw[..9] == "wordpress";
    assert NonUmbracoGenerators[0] == "wordpress";
    LeadingPlatform(lw, 0);
  }

  /** A WordPress page whose generator tag follows plain head markup is
      excluded, whatever comes after the tag. */
  lemma WordPressExcluded(post: string, headers: map<string, string>, url: string)
    ensures Classify(HeadMarkup + GeneratorTag(WordPressGenerator) + post, headers, 200, url)
            == Verdict(false, [ExclusionLine(WordPressGenerator)])
  {
    HeadMarkupHasNoMeta();
    WordPressNamesOtherPlatform();
    OtherPlatformExcluded(HeadMarkup, WordPressGenerator, post, headers, url);
  }

  // ---------------------------------------------------------------------
  // The nine weighted rules (server.js:1312-1454)
  // ---------------------------------------------------------------------

  function AdminPathRule(url: string): Rule {
    Rule(3, Contains(url, "/umbraco/") || Contains(url, "/umbraco"),
         "PRIMARY: Admin path /umbraco/ detected")
  }

  /** `paths.filter(path => url.includes(path) || content.includes(path))` */
  function FoundFilePaths(paths: seq<string>, url: string, content: string): seq<string> {
    if paths == [] then []
    else (if Contains(url, paths[0]) || Contains(content, paths[0]) then [paths[0]] else [])
         + FoundFilePaths(paths[1..], url, content)
  }

  function FilePathRule(content: string, url: string): Rule {
    var found := FoundFilePaths(UmbracoPaths, url, content);
    Rule(3, |found| > 0, "PRIMARY: Umbraco file paths detected: " + Join(found, ", "))
  }

  /** `headers[name] || Object.keys(headers).some(key => key.toLowerCase().includes(name.toLowerCase()))`;
      an empty header value is falsy. */
  predicate HeaderPresent(headers: map<string, string>, name: string) {
    || (name in headers && headers[name] != "")
    || exists key :: key in headers && Contains(Lower(key), Lower(name))
  }

  /** `names.filter(header => headers[header] || ...)` */
  function FoundHeaders(names: seq<string>, headers: map<string, string>): seq<string> {
    if names == [] then []
    else (if HeaderPresent(headers, names[0]) then [names[0]] else [])
         + FoundHeaders(names[1..], headers)
  }

  function HeaderRule(headers: map<string, string>): Rule {
    var found := FoundHeaders(AspNetHeaders, headers);
    Rule(2, |found| > 0, "SECONDARY: ASP.NET/IIS headers detected: " + Join(found, ", "))
  }

  /** `dirs.filter(dir => content.includes(dir) || content.includes(`/${dir}/`))` */
  function FoundDirs(dirs: seq<string>, content: string): seq<string> {
    if dirs == [] then []
    else (if Contains(content, dirs[0]) || Contains(content, "/" + dirs[0] + "/") then [dirs[0]] else [])
         + FoundDirs(dirs[1..], content)
  }

  function DirRule(content: string): Rule {
    var found := FoundDirs(UmbracoDirs, content);
    Rule(2, |found| > 0, "SECONDARY: Umbraco directory structures: " + Join(found, ", "))
  }

  /** `patterns.filter(p => content.toLowerCase().includes(p.toLowerCase()))`,
      the case-insensitive filter of three rules. */
  function FoundFolded(patterns: seq<string>, content: string): seq<string> {
    if patterns == [] then []
    else (if Contains(Lower(content), Lower(patterns[0])) then [patterns[0]] else [])
         + FoundFolded(patterns[1..], content)
  }

  function CdfRule(content: string): Rule {
    var found := FoundFolded(CdfPatterns, content);
    Rule(2, |found| > 0, "SECONDARY: Client Dependency Framework patterns: " + Join(found, ", "))
  }

  function AspxRule(content: string, url: string): Rule {
    Rule(1, Contains(content, ".aspx") || Contains(url, ".aspx"),
         "TERTIARY: ASPX extensions detected (.NET application)")
  }

  /** `elements.filter(element => content.includes(element))` */
  function FoundElements(elements: seq<string>, content: string): seq<string> {
    if elements == [] then []
    else (if Contains(content, elements[0]) then [elements[0]] else [])
         + FoundElements(elements[1..], content)
  }

  function ElementRule(content: string): Rule {
    var found := FoundElements(UmbracoElements, content);
    Rule(1, |found| > 0, "TERTIARY: Umbraco HTML elements: " + Join(found, ", "))
  }

  function JsRule(content: string): Rule {
    var found := FoundFolded(UmbracoJs, content);
    Rule(1, |found| > 0, "TERTIARY: Umbraco JavaScript references: " + Join(found, ", "))
  }

  function TextRule(content: string): Rule {
    var found := FoundFolded(UmbracoTextPatterns, content);
    Rule(1, |found| > 0, "TERTIARY: Umbraco text patterns: " + Join(found, ", "))
  }

  /** A filter keeps exactly the elements it tests true, in order. */
  lemma {:induction false} FoundElementsMembers(elements: seq<string>, content: string)
    ensures forall x :: x in FoundElements(elements, content) <==> x in elements && Contains(content, x)
    ensures |FoundElements(elements, content)| > 0
            <==> exists k :: 0 <= k < |elements| && Contains(content, elements[k])
  {
    if elements != [] {
      FoundElementsMembers(elements[1..], content);
      assert elements == [elements[0]] + elements[1..];
      if exists k :: 0 <= k < |elements[1..]| && Contains(content, elements[1..][k]) {
        var k :| 0 <= k < |elements[1..]| && Contains(content, elements[1..][k]);
        assert elements[k + 1] == elements[1..][k];
      }
      if exists k :: 0 <= k < |elements| && Contains(content, elements[k]) {
        var k :| 0 <= k < |elements| && Contains(content, elements[k]);
        if k > 0 {
          assert elements[1..][k - 1] == elements[k];
        }
      }
    }
  }

  /** The case-insensitive filter keeps exactly the patterns whose
      lower-cased form occurs in the lower-cased content. */
  lemma {:induction false} FoundFoldedMembers(patterns: seq<string>, content: string)
    ensures forall x :: x in FoundFolded(patterns, content)
                        <==> x in patterns && Contains(Lower(content), Lower(x))
  {
    if patterns != [] {
      FoundFoldedMembers(patterns[1..], content);
      assert patterns == [patterns[0]] + patterns[1..];
    }
  }

  /** In the directory rule the `/dir/` alternative adds nothing: a content
      that holds `/dir/` holds dir. */
  lemma {:induction false} FoundDirsPlain(dirs: seq<string>, content: string)
    ensures FoundDirs(dirs, content) == FoundElements(dirs, content)
  {
    if dirs != [] {
      var d := dirs[0];
      if Contains(content, "/" + d + "/") {
        ContainsSelf(d);
        ContainsInConcat("/", d, "/", d);
        ContainsTrans(content, "/" + d + "/", d);
      }
      FoundDirsPlain(dirs[1..], content);
    }
  }

  /** In the header rule the exact-name test adds nothing: a header named
      exactly `name` with a non-empty value also passes the substring test
      on its own key. */
  lemma HeaderPresentByKey(headers: map<string, string>, name: string)
    ensures HeaderPresent(headers, name)
            <==> exists key :: key in headers && Contains(Lower(key), Lower(name))
  {
    if name in headers && headers[name] != "" {
      ContainsSelf(Lower(name));
    }
  }

  /** The admin path rule fires exactly when the URL contains `/umbraco`:
      its `/umbraco/` alternative adds nothing. */
  lemma AdminPathRuleFires(url: string)
    ensures AdminPathRule(url).fired <==> Contains(url, "/umbraco")
  {
    if Contains(url, "/umbraco/") {
      assert BlockAt("/umbraco/", "/umbraco", 0);
      ContainsAt("/umbraco/", "/umbraco", 0);
      ContainsTrans(url, "/umbraco/", "/umbraco");
    }
  }

  /** The element rule fires exactly when one of the element markers occurs
      in the content. */
  lemma ElementRuleFires(content: string)
    ensures ElementRule(content).fired
            <==> exists k :: 0 <= k < |UmbracoElements| && Contains(content, UmbracoElements[k])
  {
    FoundElementsMembers(UmbracoElements, content);
  }

  /** No element is found when every element has a character the content
      lacks. */
  lemma {:induction false} ElementsNone(elements: seq<string>, content: string, c: char)
    requires c !in content
    requires forall k :: 0 <= k < |elements| ==> c in elements[k]
    ensures FoundElements(elements, content) == []
  {
    if elements != [] {
      var j :| 0 <= j < |elements[0]| && elements[0][j] == c;
      CharAbsent(content, elements[0], j);
      ElementsNone(elements[1..], content, c);
    }
  }

  /** No pattern is found case-insensitively when every pattern has the
      letter c, in either case, and the lower-cased content lacks it. */
  lemma {:induction false} FoldedNone(patterns: seq<string>, content: string, c: char, upper: char)
    requires LowerChar(upper) == c && LowerChar(c) == c
    requires c !in Lower(content)
    requires forall k :: 0 <= k < |patterns| ==> c in patterns[k] || upper in patterns[k]
    ensures FoundFolded(patterns, content) == []
  {
    if patterns != [] {
      var p := patterns[0];
      var j :| 0 <= j < |p| && (p[j] == c || p[j] == upper);
      assert Lower(p)[j] == c;
      CharAbsent(Lower(content), Lower(p), j);
      FoldedNone(patterns[1..], content, c, upper);
    }
  }

  // ---------------------------------------------------------------------
  // Accumulating the score and the evidence
  // ---------------------------------------------------------------------

  /** The running score and the evidence lines pushed so far. */
  datatype Tally = Tally(score: nat, lines: seq<string>)

  /** What a rule adds to the score. */
  function Contribution(r: Rule): nat {
    if r.fired then r.weight else 0
  }

  /** 1 for a rule that fired, 0 otherwise. */
  function Hit(r: Rule): nat {
    if r.fired then 1 else 0
  }

  /** The evidence a rule pushes: its line if it fired, nothing otherwise. */
  function LineOf(r: Rule): seq<string> {
    if r.fired then [r.line] else []
  }

  /** One rule step, `score += weight; evidence.push(line)` when the rule
      fired. */
  function Award(t: Tally, r: Rule): Tally {
    if r.fired then Tally(t.score + r.weight, t.lines + [r.line]) else t
  }

  /** A step adds the rule's contribution to the score and puts the rule's
      line after every line pushed before it. */
  lemma AwardStep(t: Tally, r: Rule)
    ensures Award(t, r).score == t.score + Contribution(r)
    ensures Award(t, r).lines == t.lines + LineOf(r)
    ensures |Award(t, r).lines| == |t.lines| + Hit(r)
  {
  }

  /** The nine rule steps, in order, from score 0 and no evidence. */
  function Accumulate(r1: Rule, r2: Rule, r3: Rule, r4: Rule, r5: Rule,
                      r6: Rule, r7: Rule, r8: Rule, r9: Rule): Tally
  {
    var t1 := Award(Tally(0, []), r1);
    var t2 := Award(t1, r2);
    var t3 := Award(t2, r3);
    var t4 := Award(t3, r4);
    var t5 := Award(t4, r5);
    var t6 := Award(t5, r6);
    var t7 := Award(t6, r7);
    var t8 := Award(t7, r8);
    Award(t8, r9)
  }

  /** After the nine steps the score is the sum of the fired rules' weights,
      and the evidence holds one line per fired rule, in rule order. */
  lemma AccumulateSums(r1: Rule, r2: Rule, r3: Rule, r4: Rule, r5: Rule,
                       r6: Rule, r7: Rule, r8: Rule, r9: Rule)
    ensures Accumulate(r1, r2, r3, r4, r5, r6, r7, r8, r9).score
            == Contribution(r1) + Contribution(r2) + Contribution(r3) + Contribution(r4) + Contribution(r5)
             + Contribution(r6) + Contribution(r7) + Contribution(r8) + Contribution(r9)
    ensures Accumulate(r1, r2, r3, r4, r5, r6, r7, r8, r9).lines
            == LineOf(r1) + LineOf(r2) + LineOf(r3) + LineOf(r4) + LineOf(r5)
             + LineOf(r6) + LineOf(r7) + LineOf(r8) + LineOf(r9)
    ensures |Accumulate(r1, r2, r3, r4, r5, r6, r7, r8, r9).lines|
            == Hit(r1) + Hit(r2) + Hit(r3) + Hit(r4) + Hit(r5) + Hit(r6) + Hit(r7) + Hit(r8) + Hit(r9)
  {
    var t1 := Award(Tally(0, []), r1);
    var t2 := Award(t1, r2);
    var t3 := Award(t2, r3);
    var t4 := Award(t3, r4);
    var t5 := Award(t4, r5);
    var t6 := Award(t5, r6);
    var t7 := Award(t6, r7);
    var t8 := Award(t7, r8);
    AwardStep(Tally(0, []), r1);
    AwardStep(t1, r2);
    AwardStep(t2, r3);
    AwardStep(t3, r4);
    AwardStep(t4, r5);
    AwardStep(t5, r6);
    AwardStep(t6, r7);
    AwardStep(t7, r8);
    AwardStep(t8, r9);
    assert [] + LineOf(r1) == LineOf(r1);
    assert t1.lines == LineOf(r1);
    assert t2.lines == LineOf(r1) + LineOf(r2);
    assert t3.lines == LineOf(r1) + LineOf(r2) + LineOf(r3);
    assert t4.lines == LineOf(r1) + LineOf(r2) + LineOf(r3) + LineOf(r4);
    assert t5.lines == LineOf(r1) + LineOf(r2) + LineOf(r3) + LineOf(r4) + LineOf(r5);
    assert t6.lines == LineOf(r1) + LineOf(r2) + LineOf(r3) + LineOf(r4) + LineOf(r5) + LineOf(r6);
    assert t7.lines == LineOf(r1) + LineOf(r2) + LineOf(r3) + LineOf(r4) + LineOf(r5) + LineOf(r6) + LineOf(r7);
    assert t8.lines == LineOf(r1) + LineOf(r2) + LineOf(r3) + LineOf(r4) + LineOf(r5) + LineOf(r6) + LineOf(r7) + LineOf(r8);
  }

  /** The nine rules of the source, in its order, applied to one response. */
  function Tallied(content: string, headers: map<string, string>, url: string): Tally {
    Accumulate(AdminPathRule(url), FilePathRule(content, url), HeaderRule(headers),
               DirRule(content), CdfRule(content), AspxRule(content, url),
               ElementRule(content), JsRule(content), TextRule(content))
  }

  /** The score of a response, written as the sum of the weights of the rules
      that fire. */
  function WeightedScore(content: string, headers: map<string, string>, url: string): nat {
    Contribution(AdminPathRule(url)) + Contribution(FilePathRule(content, url))
    + Contribution(HeaderRule(headers)) + Contribution(DirRule(content))
    + Contribution(CdfRule(content)) + Contribution(AspxRule(content, url))
    + Contribution(ElementRule(content)) + Contribution(JsRule(content))
    + Contribution(TextRule(content))
  }

  /** How many of the nine rules fire on a response. */
  function FiredCount(content: string, headers: map<string, string>, url: string): nat {
    Hit(AdminPathRule(url)) + Hit(FilePathRule(content, url)) + Hit(HeaderRule(headers))
    + Hit(DirRule(content)) + Hit(CdfRule(content)) + Hit(AspxRule(content, url))
    + Hit(ElementRule(content)) + Hit(JsRule(content)) + Hit(TextRule(content))
  }

  // ---------------------------------------------------------------------
  // Confidence and the verdict (server.js:1456-1474)
  // ---------------------------------------------------------------------

  /** The confidence tier of a score. */
  function Confidence(score: nat): (c: string)
    ensures c == "high" <==> score >= 6
    ensures c == "medium" <==> Threshold <= score < 6
    ensures c == "low" <==> score < Threshold
  {
    if score >= 6 then "high" else if score >= Threshold then "medium" else "low"
  }

  function DetectedLine(score: nat): string {
    "Umbraco detected (Score: " + NatToString(score) + ", Confidence: " + Confidence(score) + ")"
  }

  function NotDetectedLine(score: nat): string {
    "Not Umbraco (Score: " + NatToString(score) + ", need 3+ points)"
  }

  /** The line `unshift` puts in front of the evidence of a scored response. */
  function SummaryLine(score: nat): string {
    if score >= Threshold then DetectedLine(score) else NotDetectedLine(score)
  }

  function StatusLine(statusCode: int): string {
    "Status code: " + IntToString(statusCode)
  }

  function ExclusionLine(generator: string): string {
    "EXCLUDED: Meta generator indicates non-Umbraco CMS: " + generator
  }

  /** The verdict a tally leads to: Umbraco exactly when the score reaches the
      threshold, and the summary line in front of the rules' lines. */
  function Summarize(t: Tally): (v: Verdict)
    ensures v.isUmbraco <==> t.score >= Threshold
    ensures |v.evidence| == 1 + |t.lines| && v.evidence[0] == SummaryLine(t.score) && v.evidence[1..] == t.lines
  {
    Verdict(t.score >= Threshold, [SummaryLine(t.score)] + t.lines)
  }

  /** The scorer as a function of its inputs: a non-200 status and an
      excluded generator each give a negative verdict with a single line,
      before any rule is looked at. */
  function Classify(content: string, headers: map<string, string>, statusCode: int, url: string): (r: Verdict)
    ensures statusCode != 200 ==> r == Verdict(false, [StatusLine(statusCode)])
    ensures statusCode == 200 && Excluded(content) ==>
              r == Verdict(false, [ExclusionLine(MetaGenerator(content).value)])
    ensures |r.evidence| >= 1
  {
    if statusCode != 200 then Verdict(false, [StatusLine(statusCode)])
    else if Excluded(content) then Verdict(false, [ExclusionLine(MetaGenerator(content).value)])
    else Summarize(Tallied(content, headers, url))
  }

  /** A rule adds at most its weight. */
  lemma ContributionBound(r: Rule)
    ensures Contribution(r) <= r.weight
  {
  }

  /** The verdict of nine rules with the source's weights: the score is at
      most 3+3+2+2+2+1+1+1+1 = 16, the verdict is positive exactly when it is
      at least 3, and the evidence is the summary line followed by one line
      per fired rule, in rule order. */
  lemma NineRuleVerdict(r1: Rule, r2: Rule, r3: Rule, r4: Rule, r5: Rule,
                        r6: Rule, r7: Rule, r8: Rule, r9: Rule, score: nat)
    requires r1.weight == 3 && r2.weight == 3
    requires r3.weight == 2 && r4.weight == 2 && r5.weight == 2
    requires r6.weight == 1 && r7.weight == 1 && r8.weight == 1 && r9.weight == 1
    requires score == Contribution(r1) + Contribution(r2) + Contribution(r3) + Contribution(r4) + Contribution(r5)
                    + Contribution(r6) + Contribution(r7) + Contribution(r8) + Contribution(r9)
    ensures score <= 16
    ensures Summarize(Accumulate(r1, r2, r3, r4, r5, r6, r7, r8, r9)).isUmbraco <==> score >= Threshold
    ensures |Summarize(Accumulate(r1, r2, r3, r4, r5, r6, r7, r8, r9)).evidence|
            == 1 + Hit(r1) + Hit(r2) + Hit(r3) + Hit(r4) + Hit(r5) + Hit(r6) + Hit(r7) + Hit(r8) + Hit(r9)
    ensures Summarize(Accumulate(r1, r2, r3, r4, r5, r6, r7, r8, r9)).evidence[0] == SummaryLine(score)
    ensures Summarize(Accumulate(r1, r2, r3, r4, r5, r6, r7, r8, r9)).evidence[1..]
            == LineOf(r1) + LineOf(r2) + LineOf(r3) + LineOf(r4) + LineOf(r5)
             + LineOf(r6) + LineOf(r7) + LineOf(r8) + LineOf(r9)
  {
    ContributionBound(r1); ContributionBound(r2); ContributionBound(r3);
    ContributionBound(r4); ContributionBound(r5); ContributionBound(r6);
    ContributionBound(r7); ContributionBound(r8); ContributionBound(r9);
    AccumulateSums(r1, r2, r3, r4, r5, r6, r7, r8, r9);
    var t := Accumulate(r1, r2, r3, r4, r5, r6, r7, r8, r9);
    assert t.score == score;
    var v := Summarize(t);
    assert |v.evidence| == 1 + |t.lines|;
  }

  /** A 200 response whose generator is not excluded: the score is the sum of
      the weights of the rules that fire and at most 16, the verdict is
      positive exactly when the score is at least 3, and the evidence is the
      summary line followed by one line per fired rule, in rule order. */
  lemma ScoredVerdict(content: string, headers: map<string, string>, url: string)
    requires !Excluded(content)
    ensures var v := Classify(content, headers, 200, url);
            var score := WeightedScore(content, headers, url);
            && score <= 16
            && (v.isUmbraco <==> score >= Threshold)
            && |v.evidence| == 1 + FiredCount(content, headers, url)
            && v.evidence[0] == SummaryLine(score)
            && v.evidence[1..] == LineOf(AdminPathRule(url)) + LineOf(FilePathRule(content, url))
                                + LineOf(HeaderRule(headers)) + LineOf(DirRule(content))
                                + LineOf(CdfRule(content)) + LineOf(AspxRule(content, url))
                                + LineOf(ElementRule(content)) + LineOf(JsRule(content))
                                + LineOf(TextRule(content))
  {
    NineRuleVerdict(AdminPathRule(url), FilePathRule(content, url), HeaderRule(headers),
                    DirRule(content), CdfRule(content), AspxRule(content, url),
                    ElementRule(content), JsRule(content), TextRule(content),
                    WeightedScore(content, headers, url));
  }

  /** A 200 response whose URL contains `/umbraco` is detected unless its
      generator is excluded: the admin path rule alone reaches the
      threshold. Both probes of a domain request `/umbraco/`, so any such
      page answered without a redirect counts as Umbraco. */
  lemma AdminPathDetects(content: string, headers: map<string, string>, url: string)
    requires !Excluded(content) && Contains(url, "/umbraco")
    ensures Classify(content, headers, 200, url).isUmbraco
  {
    AdminPathRuleFires(url);
    ScoredVerdict(content, headers, url);
  }

  /** A body that mentions `/App_Plugins/` with an `x-aspnet-version` header
      scores at least 7, with confidence "high": the path counts twice, for
      the file path rule (3) and for the directory rule (2, through its
      `App_Plugins` marker), and the header rule adds 2. */
  lemma PluginsAndHeaderScore(content: string, headers: map<string, string>, url: string)
    requires !Excluded(content)
    requires Contains(content, "/App_Plugins/") && HeaderPresent(headers, "x-aspnet-version")
    ensures WeightedScore(content, headers, url) >= 7
    ensures Confidence(WeightedScore(content, headers, url)) == "high"
    ensures Classify(content, headers, 200, url).isUmbraco
  {
    PluginsPathFires(content, url);
    assert FoundHeaders(AspNetHeaders, headers) != [];
    ScoredVerdict(content, headers, url);
  }

  /** `/App_Plugins/` in the body fires both the file path rule and the
      directory rule. */
  lemma PluginsPathFires(content: string, url: string)
    requires Contains(content, "/App_Plugins/")
    ensures FilePathRule(content, url).fired && DirRule(content).fired
  {
    assert FoundFilePaths(UmbracoPaths, url, content) != [];
    PluginsDirFound(content);
  }

  lemma PluginsDirFound(content: string)
    requires Contains(content, "/App_Plugins/")
    ensures FoundDirs(UmbracoDirs, content) != []
  {
    assert BlockAt("/App_Plugins/", "App_Plugins", 1);
    ContainsAt("/App_Plugins/", "App_Plugins", 1);
    ContainsTrans(content, "/App_Plugins/", "App_Plugins");
  }

  // ---------------------------------------------------------------------
  // The scorer as the source writes it: a score built with `+=`, evidence
  // built with `push`, then the summary put in front with `unshift`.
  // ---------------------------------------------------------------------

  /** `if (<rule fired>) { score += <weight>; evidence.push(<line>); }` */
  method Record(score: nat, evidence: seq<string>, rule: Rule) returns (score': nat, evidence': seq<string>)
    ensures Tally(score', evidence') == Award(Tally(score, evidence), rule)
  {
    score', evidence' := score, evidence;
    if rule.fired {
      score' := score + rule.weight;
      evidence' := evidence + [rule.line];
    }
  }

  /** The nine rule blocks, in the source's order. */
  method ApplyRules(content: string, headers: map<string, string>, url: string)
    returns (score: nat, evidence: seq<string>)
    ensures Tally(score, evidence) == Tallied(content, headers, url)
  {
    score, evidence := 0, [];
    score, evidence := Record(score, evidence, AdminPathRule(url));
    score, evidence := Record(score, evidence, FilePathRule(content, url));
    score, evidence := Record(score, evidence, HeaderRule(headers));
    score, evidence := Record(score, evidence, DirRule(content));
    score, evidence := Record(score, evidence, CdfRule(content));
    score, evidence := Record(score, evidence, AspxRule(content, url));
    score, evidence := Record(score, evidence, ElementRule(content));
    score, evidence := Record(score, evidence, JsRule(content));
    score, evidence := Record(score, evidence, TextRule(content));
  }

  /** The confidence tier, the verdict and the `unshift` of the summary line. */
  method Conclude(score: nat, evidence: seq<string>) returns (v: Verdict)
    ensures v == Summarize(Tally(score, evidence))
  {
    var confidence := "low";
    if score >= 6 {
      confidence := "high";
    } else if score >= 3 {
      confidence := "medium";
    }

    var isUmbraco := score >= 3;
    var lines := evidence;
    if isUmbraco {
      lines := ["Umbraco detected (Score: " + NatToString(score) + ", Confidence: " + confidence + ")"] + lines;
    } else {
      lines := ["Not Umbraco (Score: " + NatToString(score) + ", need 3+ points)"] + lines;
    }
    v := Verdict(isUmbraco, lines);
  }

  method AnalyzeResponseForUmbraco(content: string, headers: map<string, string>, statusCode: int, url: string)
    returns (v: Verdict)
    ensures v == Classify(content, headers, statusCode, url)
  {
    if statusCode != 200 {
      return Verdict(false, ["Status code: " + IntToString(statusCode)]);
    }

    var metaGeneratorMatch := MetaGenerator(content);
    if metaGeneratorMatch.Some? {
      var generator := Lower(metaGeneratorMatch.value);
      var isNonUmbraco := NamesOtherPlatform(generator);
      if isNonUmbraco {
        return Verdict(false, ["EXCLUDED: Meta generator indicates non-Umbraco CMS: " + metaGeneratorMatch.value]);
      }
    }

    var score, evidence := ApplyRules(content, headers, url);
    v := Conclude(score, evidence);
  }
}
