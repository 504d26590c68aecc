/** Record shapes of the site's content object shared by several components. */
module SiteContent {
  /** One social link: a display name, a destination and an icon name. Both
      the contact page and the home hero read this shape. */
  datatype SocialLink = SocialLink(name: string, href: string, icon: string)
}
