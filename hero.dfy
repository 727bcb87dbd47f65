/**
 * The hero section painted from the GitHub profile (`updateUserInfo`): the
 * display name, the bio, and the quick links, which always come in the order
 * email, website, Twitter, GitHub, each present only when its field is.
 */
module Hero {
  import opened Wrappers
  import opened JsText
  import opened Translations
  import About

  /** The fields of the GitHub user record the page reads; `None` is `null`. */
  datatype Profile = Profile(
    name: Option<string>,
    login: string,
    bio: Option<string>,
    avatarUrl: string,
    htmlUrl: string,
    blog: Option<string>,
    twitterUsername: Option<string>,
    email: Option<string>)

  /** The Font Awesome glyph in front of a link's text. */
  datatype Icon = Envelope | Globe | TwitterBird | GitHubMark

  /** One `a.hero-link`: its glyph, its text and its `href`. */
  datatype HeroLink = HeroLink(icon: Icon, text: string, url: string)

  const GitHubText := "GitHub"
  const MailtoScheme := "mailto:"
  const HttpsScheme := "https://"
  const TwitterBase := "https://twitter.com/"

  /** `userData.name || userData.login`. */
  function DisplayName(p: Profile): (r: string)
    ensures Truthy(p.name) ==> r == p.name.value
    ensures !Truthy(p.name) ==> r == p.login
  {
    Or(p.name, Some(p.login)).value
  }

  /** The bio markup: the profile's own bio with its line breaks kept, else `aboutText` as one paragraph block. */
  function BioMarkup(p: Profile, aboutText: string): string {
    if Truthy(p.bio) then About.BreakLines(p.bio.value)
    else "<p>" + aboutText + "</p>"
  }

  /** `` `${name} avatar` ``. */
  function AvatarAlt(p: Profile): string {
    DisplayName(p) + " avatar"
  }

  /** The website address of a non-empty `blog` field: kept when it starts with `http`, else given an `https://` scheme. */
  function BlogUrl(blog: string): (url: string)
    ensures StartsWith(url, "http")
  {
    if StartsWith(blog, "http") then blog else HttpsScheme + blog
  }

  /** `userInfo?.email || userData.email`: the email from the `info` file wins over the profile's. */
  function ContactEmail(infoEmail: Option<string>, p: Profile): Option<string> {
    Or(infoEmail, p.email)
  }

  /** The optional link for a field: a one-element list when the field is truthy, else nothing. */
  function LinkIf(field: Option<string>, link: HeroLink): seq<HeroLink> {
    if Truthy(field) then [link] else []
  }

  /** The hero links, in the order `updateUserInfo` appends them. */
  function HeroLinks(t: Labels, infoEmail: Option<string>, p: Profile): (links: seq<HeroLink>)
  {
    var email := ContactEmail(infoEmail, p);
    LinkIf(email, HeroLink(Envelope, t.email, MailtoScheme + email.GetOr("")))
    + LinkIf(p.blog, HeroLink(Globe, t.website, BlogUrl(p.blog.GetOr(""))))
    + LinkIf(p.twitterUsername, HeroLink(TwitterBird, t.twitter, TwitterBase + p.twitterUsername.GetOr("")))
    + [HeroLink(GitHubMark, GitHubText, p.htmlUrl)]
  }

  // ---------------------------------------------------------------- properties

  /** The position of each glyph in the fixed order. */
  function Rank(i: Icon): nat {
    match i
    case Envelope => 0
    case Globe => 1
    case TwitterBird => 2
    case GitHubMark => 3
  }

  /** A blog address is left alone exactly when it already starts with `http`. */
  lemma BlogUrlUnchangedIff(blog: string)
    ensures BlogUrl(blog) == blog <==> StartsWith(blog, "http")
  {
    if !StartsWith(blog, "http") {
      assert |BlogUrl(blog)| == |blog| + 8;
    }
  }

  /** Prefixing is idempotent: a second application changes nothing. */
  lemma BlogUrlIdempotent(blog: string)
    ensures BlogUrl(BlogUrl(blog)) == BlogUrl(blog)
  {
  }

  /** An address without a scheme gets `https://` in front and is otherwise kept. */
  lemma BlogUrlPrefixes(blog: string)
    requires !StartsWith(blog, "http")
    ensures BlogUrl(blog) == HttpsScheme + blog
  {
  }

  /** Two sample addresses: `example.com` is prefixed, `https://example.com` kept. */
  lemma BlogUrlExamples()
    ensures BlogUrl("example.com") == "https://example.com"
    ensures BlogUrl("https://example.com") == "https://example.com"
  {
    assert !StartsWith("example.com", "http") by { assert "example.com"[0] != 'h'; }
    assert "https://example.com"[..4] == "http";
  }

  /**
   * One to four links, glyphs in strictly increasing order (so each kind at
   * most once), GitHub always last and pointing at the profile page.
   */
  lemma HeroLinksOrder(t: Labels, infoEmail: Option<string>, p: Profile)
    ensures var links := HeroLinks(t, infoEmail, p);
      && 1 <= |links| <= 4
      && links[|links| - 1] == HeroLink(GitHubMark, GitHubText, p.htmlUrl)
      && (forall i, j | 0 <= i < j < |links| :: Rank(links[i].icon) < Rank(links[j].icon))
  {
  }

  /** Whether a link with a given glyph is in the list. */
  predicate HasIcon(links: seq<HeroLink>, icon: Icon) {
    exists l | l in links :: l.icon == icon
  }

  /** The link carrying `icon`, when there is one. */
  function LinkWith(links: seq<HeroLink>, icon: Icon): (r: Option<HeroLink>)
    ensures r.Some? <==> HasIcon(links, icon)
    ensures r.Some? ==> r.value in links && r.value.icon == icon
  {
    if links == [] then None
    else if links[0].icon == icon then Some(links[0])
    else LinkWith(links[1..], icon)
  }

  /**
   * Each optional link is there exactly when its field is truthy, and then
   * carries its label and address: `mailto:` the preferred email, the
   * prefixed blog, the Twitter profile of the handle.
   */
  lemma HeroLinksContent(t: Labels, infoEmail: Option<string>, p: Profile)
    ensures var links := HeroLinks(t, infoEmail, p);
      var email := ContactEmail(infoEmail, p);
      && (HasIcon(links, Envelope) <==> Truthy(email))
      && (Truthy(email) ==> LinkWith(links, Envelope) == Some(HeroLink(Envelope, t.email, MailtoScheme + email.value)))
      && (HasIcon(links, Globe) <==> Truthy(p.blog))
      && (Truthy(p.blog) ==> LinkWith(links, Globe) == Some(HeroLink(Globe, t.website, BlogUrl(p.blog.value))))
      && (HasIcon(links, TwitterBird) <==> Truthy(p.twitterUsername))
      && (Truthy(p.twitterUsername) ==>
            LinkWith(links, TwitterBird) == Some(HeroLink(TwitterBird, t.twitter, TwitterBase + p.twitterUsername.value)))
  {
    EmailLink(t, infoEmail, p);
    BlogLink(t, infoEmail, p);
    TwitterLink(t, infoEmail, p);
  }

  lemma EmailLink(t: Labels, infoEmail: Option<string>, p: Profile)
    ensures var links := HeroLinks(t, infoEmail, p);
      var email := ContactEmail(infoEmail, p);
      && (HasIcon(links, Envelope) <==> Truthy(email))
      && (Truthy(email) ==> LinkWith(links, Envelope) == Some(HeroLink(Envelope, t.email, MailtoScheme + email.value)))
  {
    HeroLinksOrder(t, infoEmail, p);
    UniqueIcons(HeroLinks(t, infoEmail, p), Envelope);
  }

  lemma BlogLink(t: Labels, infoEmail: Option<string>, p: Profile)
    ensures var links := HeroLinks(t, infoEmail, p);
      && (HasIcon(links, Globe) <==> Truthy(p.blog))
      && (Truthy(p.blog) ==> LinkWith(links, Globe) == Some(HeroLink(Globe, t.website, BlogUrl(p.blog.value))))
  {
    HeroLinksOrder(t, infoEmail, p);
    UniqueIcons(HeroLinks(t, infoEmail, p), Globe);
  }

  lemma TwitterLink(t: Labels, infoEmail: Option<string>, p: Profile)
    ensures var links := HeroLinks(t, infoEmail, p);
      && (HasIcon(links, TwitterBird) <==> Truthy(p.twitterUsername))
      && (Truthy(p.twitterUsername) ==>
            LinkWith(links, TwitterBird) == Some(HeroLink(TwitterBird, t.twitter, TwitterBase + p.twitterUsername.value)))
  {
    HeroLinksOrder(t, infoEmail, p);
    UniqueIcons(HeroLinks(t, infoEmail, p), TwitterBird);
  }

  /** In a list whose glyphs strictly increase, the link with a glyph is the one found by `LinkWith`. */
  lemma {:induction false} UniqueIcons(links: seq<HeroLink>, icon: Icon)
    requires forall i, j | 0 <= i < j < |links| :: Rank(links[i].icon) < Rank(links[j].icon)
    ensures forall l | l in links && l.icon == icon :: LinkWith(links, icon) == Some(l)
  {
    if links != [] && links[0].icon != icon {
      UniqueIcons(links[1..], icon);
    }
  }

  /** The email from the `info` file, when non-empty, is the one linked; the profile's is only the fallback. */
  lemma ContactEmailPreference(infoEmail: Option<string>, p: Profile)
    ensures Truthy(infoEmail) ==> ContactEmail(infoEmail, p) == infoEmail
    ensures !Truthy(infoEmail) ==> ContactEmail(infoEmail, p) == p.email
  {
  }
}
