/** The home page hero (`HeroSection`): the headline, the optional social
    icons with their case-insensitive icon lookup, and the navigation cards. */
module Hero {
  import opened Options
  import opened JsString
  import opened SiteContent
  import Contact

  // ---------------------------------------------------------------------------
  // SocialIcon.getIcon
  // ---------------------------------------------------------------------------

  /** The inline SVG icons the hero can draw. */
  datatype Glyph = FacebookSvg | InstagramSvg | TwitterSvg

  /** `switch (iconName.toLowerCase())`: facebook, instagram and twitter in any
      letter case; every other name, "star" included, draws nothing. */
  function HeroIcon(iconName: string): (r: Option<Glyph>)
    ensures var key := ToLowerCase(iconName);
      && (r == Some(FacebookSvg) <==> key == "facebook")
      && (r == Some(InstagramSvg) <==> key == "instagram")
      && (r == Some(TwitterSvg) <==> key == "twitter")
  {
    var key := ToLowerCase(iconName);
    if key == "facebook" then Some(FacebookSvg)
    else if key == "instagram" then Some(InstagramSvg)
    else if key == "twitter" then Some(TwitterSvg)
    else None
  }

  /** Names that differ only in letter case select the same icon; in particular
      a name and its lower-case form do. */
  lemma HeroIconIgnoresCase(a: string, b: string)
    ensures ToLowerCase(a) == ToLowerCase(b) ==> HeroIcon(a) == HeroIcon(b)
    ensures HeroIcon(ToLowerCase(a)) == HeroIcon(a)
  {
    ToLowerCaseIdempotent(a);
  }

  /** "Facebook" and "facebook" draw the same icon; "star" draws none. */
  lemma HeroIconExamples()
    ensures HeroIcon("Facebook") == HeroIcon("facebook") == Some(FacebookSvg)
    ensures HeroIcon("star") == None
  {
    CapitalisedFacebook();
    SmallFacebook();
    StarHasNoGlyph();
  }

  lemma CapitalisedFacebook()
    ensures HeroIcon("Facebook") == Some(FacebookSvg)
  {
    ToLowerCaseIs("Facebook", "facebook");
  }

  lemma SmallFacebook()
    ensures HeroIcon("facebook") == Some(FacebookSvg)
  {
    ToLowerCaseIs("facebook", "facebook");
  }

  lemma StarHasNoGlyph()
    ensures HeroIcon("star") == None
  {
    ToLowerCaseIs("star", "star");
  }

  /** The hero recognises a name exactly when the contact page recognises its
      lower-case form, except for "star", which only the contact page draws. */
  lemma HeroIconVersusContact(iconName: string)
    ensures HeroIcon(iconName).Some? <==>
      Contact.IconFor(ToLowerCase(iconName)).Some? && ToLowerCase(iconName) != "star"
  {
  }

  /** One `<SocialIcon key={social.name} name={social.icon} href={social.href} />`. */
  datatype SocialView = SocialView(key: string, href: string, glyph: Option<Glyph>)

  function SocialEntries(links: seq<SocialLink>): (views: seq<SocialView>)
    ensures |views| == |links|
    ensures forall i :: 0 <= i < |views| ==>
      views[i] == SocialView(links[i].name, links[i].href, HeroIcon(links[i].icon))
  {
    if links == [] then []
    else [SocialView(links[0].name, links[0].href, HeroIcon(links[0].icon))] + SocialEntries(links[1..])
  }

  /** `hero.socialLinks?.map(...)`: an absent list renders no icon and does not fail. */
  function SocialIcons(socialLinks: Option<seq<SocialLink>>): (views: seq<SocialView>)
    ensures socialLinks.None? ==> views == []
    ensures socialLinks.Some? ==> |views| == |socialLinks.value|
    ensures socialLinks.Some? ==> forall i :: 0 <= i < |views| ==>
      views[i].key == socialLinks.value[i].name && views[i].glyph == HeroIcon(socialLinks.value[i].icon)
  {
    match socialLinks
    case None => []
    case Some(links) => SocialEntries(links)
  }

  // ---------------------------------------------------------------------------
  // Headline
  // ---------------------------------------------------------------------------

  /** The children of the hero `<h1>`. */
  datatype HeadingNode = Text(text: string) | LineBreak

  /** `{hero.headline}<br />{hero.subheadline}`: an absent subheadline renders
      nothing after the break. */
  function Headline(headline: string, subheadline: Option<string>): (nodes: seq<HeadingNode>)
    ensures |nodes| >= 2 && nodes[0] == Text(headline) && nodes[1] == LineBreak
    ensures subheadline.None? ==> |nodes| == 2
    ensures subheadline.Some? ==> nodes[2..] == [Text(subheadline.value)]
  {
    [Text(headline), LineBreak] + match subheadline
      case None => []
      case Some(s) => [Text(s)]
  }

  // ---------------------------------------------------------------------------
  // Navigation cards
  // ---------------------------------------------------------------------------

  datatype NavigationCard = NavigationCard(id: string, labelText: string, href: string, image: string)

  /** One rendered `NavigationCard`, with the position it was given as `index`. */
  datatype CardView = CardView(key: string, labelText: string, href: string, image: string, index: nat)

  /** `navigationCards.map((card, index) => ...)`, numbering cards from `first`. */
  function CardViews(cards: seq<NavigationCard>, first: nat): (views: seq<CardView>)
    ensures |views| == |cards|
    ensures forall i :: 0 <= i < |views| ==>
      views[i] == CardView(cards[i].id, cards[i].labelText, cards[i].href, cards[i].image, first + i)
  {
    if cards == [] then []
    else
      var c := cards[0];
      [CardView(c.id, c.labelText, c.href, c.image, first)] + CardViews(cards[1..], first + 1)
  }

  /** One card per entry, in order, each told its own position. */
  function NavigationCards(cards: seq<NavigationCard>): (views: seq<CardView>)
    ensures |views| == |cards|
    ensures forall i :: 0 <= i < |views| ==> views[i].index == i && views[i].key == cards[i].id
  {
    CardViews(cards, 0)
  }
}
