/** The contact page (`ContactSection` and its cards): the social icon
    dispatch, the `tel:` and `mailto:` links, and the opening-hours list.
    The multi-line hero heading is `HeroTitle.Heading`. */
module Contact {
  import opened Options
  import opened JsString
  import opened SiteContent

  // ---------------------------------------------------------------------------
  // SocialIcon.getIcon
  // ---------------------------------------------------------------------------

  /** The icons `SocialIcon` can draw. */
  datatype Icon = Instagram | Facebook | Twitter | Star

  /** The exact name that selects each icon. */
  function IconName(icon: Icon): string
  {
    match icon
    case Instagram => "instagram"
    case Facebook => "facebook"
    case Twitter => "twitter"
    case Star => "star"
  }

  /** `switch (icon)`: an exact, case-sensitive match on the four names;
      every other name draws nothing. */
  function IconFor(name: string): (r: Option<Icon>)
    ensures r.Some? <==> name == "instagram" || name == "facebook" || name == "twitter" || name == "star"
    ensures r.Some? ==> IconName(r.value) == name
  {
    if name == "instagram" then Some(Instagram)
    else if name == "facebook" then Some(Facebook)
    else if name == "twitter" then Some(Twitter)
    else if name == "star" then Some(Star)
    else None
  }

  /** Every icon is reached by its own name, so the dispatch and `IconName` are inverse. */
  lemma IconForName(icon: Icon)
    ensures IconFor(IconName(icon)) == Some(icon)
  {
  }

  /** The match is case-sensitive: a capitalised name draws nothing. */
  lemma IconForIsCaseSensitive()
    ensures IconFor("Instagram") == None && IconFor("FACEBOOK") == None
  {
  }

  /** One `<SocialIcon key={link.name} icon={link.icon} href={link.href} />`. */
  datatype SocialView = SocialView(key: string, href: string, icon: Option<Icon>)

  /** `info.social.links.map(...)`: one link per entry, in order. */
  function SocialIcons(links: seq<SocialLink>): (views: seq<SocialView>)
    ensures |views| == |links|
    ensures forall i :: 0 <= i < |views| ==>
      views[i] == SocialView(links[i].name, links[i].href, IconFor(links[i].icon))
  {
    if links == [] then []
    else [SocialView(links[0].name, links[0].href, IconFor(links[0].icon))] + SocialIcons(links[1..])
  }

  // ---------------------------------------------------------------------------
  // tel: and mailto: links
  // ---------------------------------------------------------------------------

  /** `tel:${phone.replace(/\s/g, "")}`. */
  function PhoneHref(phone: string): (href: string)
    ensures |href| >= 4 && href[..4] == "tel:"
    ensures HasNoWhitespace(href[4..])
    ensures href[4..] == RemoveWhitespace(phone)
  {
    "tel:" + RemoveWhitespace(phone)
  }

  /** The dialled number keeps every digit and sign of the written one: only
      whitespace goes, so writing the number with or without spaces gives the same link. */
  lemma PhoneHrefIgnoresSpacing(phone: string, c: char)
    ensures !IsWhitespace(c) ==> Count(PhoneHref(phone)[4..], c) == Count(phone, c)
    ensures PhoneHref(PhoneHref(phone)[4..]) == PhoneHref(phone)
  {
    RemoveWhitespaceCounts(phone, c);
    RemoveWhitespaceIdempotent(phone);
  }

  /** `mailto:${email}`: the address is passed through unchanged. */
  function EmailHref(email: string): (href: string)
    ensures |href| == |email| + 7
    ensures href[..7] == "mailto:" && href[7..] == email
  {
    "mailto:" + email
  }

  // ---------------------------------------------------------------------------
  // OpeningCard
  // ---------------------------------------------------------------------------

  datatype Hours = Hours(day: string, time: string)

  /** One row of the hours list: keyed by position, day on the left, time on the right. */
  datatype HoursRow = HoursRow(key: nat, day: string, time: string)

  /** `opening.hours.map((item, index) => ...)`, numbering rows from `first`. */
  function HoursRows(hours: seq<Hours>, first: nat): (rows: seq<HoursRow>)
    ensures |rows| == |hours|
    ensures forall i :: 0 <= i < |rows| ==> rows[i] == HoursRow(first + i, hours[i].day, hours[i].time)
  {
    if hours == [] then []
    else [HoursRow(first, hours[0].day, hours[0].time)] + HoursRows(hours[1..], first + 1)
  }

  /** The hours card lists every entry once, in list order, keyed by position. */
  function OpeningRows(hours: seq<Hours>): (rows: seq<HoursRow>)
    ensures |rows| == |hours|
    ensures forall i :: 0 <= i < |rows| ==> rows[i].key == i && rows[i].day == hours[i].day && rows[i].time == hours[i].time
  {
    HoursRows(hours, 0)
  }
}
