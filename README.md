# Restaurant landing site: the logic inside the page components

The site is a set of static pages (home, menu, about, reservation, contact)
rendered from one content object. This project models the little logic its
React components contain, and proves what each piece promises:

- **About page** (`About`): two state machines.
  - The testimonial carousel keeps `currentIndex` and `direction` and steps
    forward or back with wrap-around. The slide-in and slide-out offsets
    follow the direction.
  - The chef-image carousel steps forward with wrap-around. The "featured"
    carousel steps modulo 1, so it never moves.
  - The page also renders the award badges, their star rows and the stack of
    customer avatars.
- **Menu page** (`Menu`): each category is paired with the items whose
  `category` equals its `id`. The page renders one block per category and one
  entry per item.
- **Contact page** (`Contact`):
  - the case-sensitive social-icon dispatch;
  - the `tel:` link, which strips all whitespace from the number, and the
    `mailto:` link;
  - the opening-hours list.
- **Reservation page** (`Reservation`): `FormField` wires the label, the
  input id and the input name to one `name`. The form has six fixed fields.
- **Hero headings of the contact and reservation pages** (`HeroTitle`): the
  title is split on line breaks into stacked spans.
- **Navigation** (`Navbar`): the overlay's `isOpen` cell. The hamburger sets
  it, and the close button and every overlay link clear it. The module also
  covers the two fixed link lists.
- **Home hero** (`Hero`): the case-insensitive icon dispatch, the optional
  social links, the headline and the navigation cards.

Component state (`useState` cells written by click handlers) is modelled as
classes whose methods update fields. Renders are pure functions from content
sequences to sequences of rendered entries. The JavaScript built-ins the
components call are modelled in `JsString`:

- `split` on one character;
- `replace(/\s/g, "")`;
- `toLowerCase` and `toUpperCase`.

JavaScript's `%` truncates toward zero, so it is modelled separately as
`About.JsRemainder`. Dafny's own `%` is Euclidean.

The carousels have no guard for an empty list: `% 0` yields NaN and
`reviews[currentIndex]` fails. The carousel constructors therefore require a
non-empty list.

## Model

| member | source | states |
|---|---|---|
| About.JsRemainder | src/components/about/AboutSection.tsx:163 | JavaScript `%` with a positive divisor: for a non-negative dividend it is the Euclidean remainder, in `[0, n)`; for a negative dividend it is the negated remainder of its magnitude, in `(-n, 0]` |
| About.NextIndex | src/components/about/AboutSection.tsx:163 | `(i + 1) % n` stays in `[0, n)`: it is `i + 1`, except at `n - 1`, where it wraps to 0 |
| About.PrevIndex | src/components/about/AboutSection.tsx:168-171 | `(i - 1 + n) % n` stays in `[0, n)`: it is `i - 1`, except at 0, where it wraps to `n - 1` |
| About.PrevUndoesNext | src/components/about/AboutSection.tsx:163-171 | a step back after a step forward returns to the starting index |
| About.NextUndoesPrev | src/components/about/AboutSection.tsx:163-171 | a step forward after a step back returns to the starting index |
| About.NextTimes | src/components/about/AboutSection.tsx:163 | any number of forward steps keeps the index in `[0, n)` |
| About.NextTimesAdd | src/components/about/AboutSection.tsx:163 | `a` steps followed by `b` steps equal `a + b` steps |
| About.NextTimesClimbs | src/components/about/AboutSection.tsx:163 | without reaching the end, `k` steps raise the index by exactly `k` |
| About.FullCycle | src/components/about/AboutSection.tsx:163 | `n` forward steps in a carousel of `n` reviews return to the starting index |
| About.WholeRounds | src/components/about/AboutSection.tsx:163 | any whole number of rounds of `n` steps returns to the starting index |
| About.TestimonialCarousel.constructor | src/components/about/AboutSection.tsx:157-159 | index and direction start at 0 over a non-empty review list |
| About.TestimonialCarousel.NextTestimonial | src/components/about/AboutSection.tsx:161-164 | sets direction to 1 and the index to the next one with wrap-around; the old direction has no effect on the index; the index stays in range |
| About.TestimonialCarousel.PrevTestimonial | src/components/about/AboutSection.tsx:166-172 | sets direction to -1 and the index to the previous one with wrap-around; the index stays in range |
| About.TestimonialCarousel.CurrentReview | src/components/about/AboutSection.tsx:292 | the quote shown is always an element of the review list |
| About.TestimonialCarousel.CurrentSlide | src/components/about/AboutSection.tsx:174-187 | after "next" the new quote enters from +100 and the old one exits to -100; after "prev" the reverse |
| About.EnterOffset | src/components/about/AboutSection.tsx:175-178 | the enter offset is +100 exactly when the direction is positive, and -100 otherwise |
| About.ExitOffset | src/components/about/AboutSection.tsx:183-186 | the exit offset is +100 exactly when the direction is negative, and -100 otherwise |
| About.SlideMirrors | src/components/about/AboutSection.tsx:174-187 | for a non-zero direction the enter offset is the negation of the exit offset; for direction 0 both are -100 |
| About.AboutGallery.constructor | src/components/about/AboutSection.tsx:333-334 | both indices start at 0 over a non-empty chef-image list |
| About.AboutGallery.NextFeatured | src/components/about/AboutSection.tsx:336-338 | `(prev + 1) % 1` leaves the featured index at 0; the chef index is unchanged |
| About.AboutGallery.NextChef | src/components/about/AboutSection.tsx:340-342 | the chef index steps forward with wrap-around and stays in range; the featured index is unchanged |
| About.AboutGallery.ChefImage | src/components/about/AboutSection.tsx:414 | the chef image shown is always an element of `chefImages` |
| About.Stars | src/components/about/AboutSection.tsx:14-22 | one star per unit of `count`, none for a count of zero or below; star `i` is keyed `i` |
| About.AwardBadges | src/components/about/AboutSection.tsx:398-406 | one badge per award, in order, keyed by the award id, carrying its source, its title and `stars` stars |
| About.Avatars | src/components/about/AboutSection.tsx:235-254 | one avatar per image, in order; the avatar at position `k` is keyed `k`, captioned with number `k + 1` and shows image `k` |
| About.AvatarViews | src/components/about/AboutSection.tsx:235-254 | numbered from `first`: avatar `i` is keyed `first + i`, numbered `first + i + 1` and shows image `i` |
| Menu.ItemsOf | src/components/menu/MenuSection.tsx:134 | the filter keeps exactly the items whose `category` equals the id |
| Menu.GroupByCategory | src/components/menu/MenuSection.tsx:132-135 | one group per category, in declaration order, carrying that category; every grouped item belongs to the menu and has the group's id |
| Menu.GroupItems | src/components/menu/MenuSection.tsx:132-135 | group `k` holds the items selected by the id of category `k` |
| Menu.GroupMembership | src/components/menu/MenuSection.tsx:134 | an item is in group `k` if and only if it is a menu item whose category is the id of category `k` |
| Menu.ItemsOfIsSubsequence | src/components/menu/MenuSection.tsx:134 | filtering keeps the items in their original relative order |
| Menu.GroupKeepsOrder | src/components/menu/MenuSection.tsx:132-135 | each group's items form a subsequence of the menu's items |
| Menu.ItemsOfCounts | src/components/menu/MenuSection.tsx:134 | a matching item appears in its group as often as in the menu, and a non-matching item never appears |
| Menu.OrphanItemHidden | src/components/menu/MenuSection.tsx:132-135 | an item whose category matches no category id appears in no group |
| Menu.SameIdSameItems | src/components/menu/MenuSection.tsx:132-135 | two categories with the same id receive identical item lists |
| Menu.ExactlyOneGroup | src/components/menu/MenuSection.tsx:132-135 | with distinct category ids, an item of category `k` appears in group `k` and in no other |
| Menu.ItemEntries | src/components/menu/MenuSection.tsx:113-121 | one menu entry per item, in order, keyed by the item id |
| Menu.ItemEntry | src/components/menu/MenuSection.tsx:113-121 | an item's entry is keyed by its id and shows its name, description, price and image; category and emoji are not shown |
| Menu.CategoryViews | src/components/menu/MenuSection.tsx:176-184 | one category block per group, in order, keyed by the category id, with its name, time range and one entry per item of the group |
| Menu.RenderMenu | src/components/menu/MenuSection.tsx:176-184 | the page has one block per category, in declaration order, keyed by the category id and headed by its name and time range |
| Menu.RenderMenuShape | src/components/menu/MenuSection.tsx:132-135 | block `k` of the page shows category `k`'s id, name and time range, with one entry per matching item, in menu order |
| Menu.GroupingExample | src/components/menu/MenuSection.tsx:132-135 | categories `[A, B]` with items `[b, a1, a2]` give A the items `[a1, a2]` and B the item `[b]` |
| JsString.Split | src/components/contact/ContactSection.tsx:252 | `split` on one character gives one more piece than the character's occurrences, and no piece contains the separator |
| JsString.JoinSplit | src/components/contact/ContactSection.tsx:252 | joining the pieces of a split with the separator gives back the string |
| JsString.SplitJoin | src/components/reservation/ReservationSection.tsx:54 | splitting a join of separator-free pieces gives back those pieces |
| JsString.IsWhitespace | src/components/contact/ContactSection.tsx:212 | the `\s` class: within ASCII exactly the space and tab through carriage return, so no printable ASCII character (digits and `+` included) is whitespace |
| JsString.RemoveWhitespace | src/components/contact/ContactSection.tsx:212 | `replace(/\s/g, "")` leaves no whitespace and never lengthens the string |
| JsString.RemoveWhitespaceAppend | src/components/contact/ContactSection.tsx:212 | whitespace removal distributes over concatenation |
| JsString.RemoveWhitespaceSingle | src/components/contact/ContactSection.tsx:212 | a single character is dropped exactly when it is whitespace |
| JsString.RemoveWhitespaceKeepsClean | src/components/contact/ContactSection.tsx:212 | a string without whitespace is unchanged |
| JsString.RemoveWhitespaceIdempotent | src/components/contact/ContactSection.tsx:212 | stripping whitespace twice is stripping it once |
| JsString.RemoveWhitespaceCounts | src/components/contact/ContactSection.tsx:212 | each non-whitespace character survives as often as it occurred; whitespace never survives |
| JsString.RemoveWhitespaceKeepsOrder | src/components/contact/ContactSection.tsx:212 | the kept characters stay in their original order |
| JsString.ToLowerCase | src/components/home/HeroSection.tsx:16 | lower-casing keeps the length and maps each character on its own: ASCII capitals to small letters, the KELVIN SIGN to `k` |
| JsString.ToLowerCaseIdempotent | src/components/home/HeroSection.tsx:16 | lower-casing twice is lower-casing once |
| JsString.ToLowerCaseHasNoCapitals | src/components/home/HeroSection.tsx:16 | no ASCII capital letter survives lower-casing |
| JsString.ToUpperCase | src/components/Navbar.tsx:205 | upper-casing keeps the length and maps each ASCII small letter to its capital, position by position |
| JsString.ToUpperCaseHasNoSmallLetters | src/components/Navbar.tsx:205 | no ASCII small letter survives upper-casing |
| HeroTitle.TitleLines | src/components/contact/ContactSection.tsx:252 | the hero title splits into one more line than it has line breaks, and no line contains a line break |
| HeroTitle.LineSpans | src/components/reservation/ReservationSection.tsx:87-91 | one block span per line, in order; span `i` is keyed by its position |
| HeroTitle.Heading | src/components/contact/ContactSection.tsx:285-289 | one span per line of the split title, one more than the title's line breaks; span `i` is keyed `i` and shows line `i` |
| HeroTitle.HeadingShape | src/components/contact/ContactSection.tsx:285-289 | the heading has one span per line; span `i` is keyed `i` and holds no line break |
| HeroTitle.HeadingPreservesTitle | src/components/reservation/ReservationSection.tsx:54 | joining the span texts with line breaks reproduces the title |
| HeroTitle.HeadingOfJoinedLines | src/components/contact/ContactSection.tsx:252 | a title written as line-break-free lines renders exactly those lines, in order |
| HeroTitle.SpanTexts | src/components/contact/ContactSection.tsx:285-289 | one text per span: text `i` is the text of span `i` |
| Contact.IconFor | src/components/contact/ContactSection.tsx:38-51 | an icon is drawn if and only if the name is exactly "instagram", "facebook", "twitter" or "star"; the icon drawn is the one that name selects |
| Contact.IconForName | src/components/contact/ContactSection.tsx:38-51 | each icon is selected by its own name, so dispatch and naming are inverse |
| Contact.IconForIsCaseSensitive | src/components/contact/ContactSection.tsx:39 | a capitalised name such as "Instagram" draws nothing |
| Contact.SocialIcons | src/components/contact/ContactSection.tsx:238-240 | one social link per entry, in order, keyed by name, with the icon its name selects |
| Contact.PhoneHref | src/components/contact/ContactSection.tsx:212 | the phone link is "tel:" followed by the number with all whitespace removed, and the suffix holds no whitespace |
| Contact.PhoneHrefIgnoresSpacing | src/components/contact/ContactSection.tsx:212 | the dialled number keeps every non-whitespace character as often as written; building the link from an already stripped number changes nothing |
| Contact.EmailHref | src/components/contact/ContactSection.tsx:225 | the e-mail link is "mailto:" followed by the unchanged address |
| Contact.HoursRows | src/components/contact/ContactSection.tsx:87-93 | one row per entry, in order, keyed by position, showing the day then the time |
| Contact.OpeningRows | src/components/contact/ContactSection.tsx:87-93 | the hours list shows every entry once, in list order, keyed from 0 |
| Reservation.RenderField | src/components/reservation/ReservationSection.tsx:13-48 | the label's `htmlFor`, the input's `id` and its `name` all equal the `name` prop; the icon wrapper is present if and only if an icon is given |
| Reservation.BookingFields | src/components/reservation/ReservationSection.tsx:120-165 | the form's six fields have distinct names, and exactly the date and time pickers carry an icon |
| Reservation.RenderForm | src/components/reservation/ReservationSection.tsx:120-165 | one rendered field per field spec, in order |
| Reservation.BookingFormShape | src/components/reservation/ReservationSection.tsx:120-165 | the form has six fields, name, email, phone, people, date and time, of types text, email, tel, text, date and time; only date and time carry an icon |
| Reservation.BookingLabelsAreUnambiguous | src/components/reservation/ReservationSection.tsx:120-165 | every label points at its own input, and the six input ids are distinct |
| Navbar.MenuLinks | src/components/Navbar.tsx:9-14 | the overlay's destinations: Menu, Reservation, About and Contact, each to its own page |
| Navbar.NavLinks | src/components/Navbar.tsx:16-19 | the bar's destinations: Menu and About |
| Navbar.After | src/components/Navbar.tsx:118 | after one click the overlay is open if and only if the click was the hamburger, whatever its previous state |
| Navbar.AfterAllIsLastClick | src/components/Navbar.tsx:118 | after any series of clicks the overlay is open exactly when the last click was the hamburger |
| Navbar.HamburgerIdempotent | src/components/Navbar.tsx:118 | the hamburger sets rather than toggles: any number of presses leaves the overlay open |
| Navbar.NavbarState.constructor | src/components/Navbar.tsx:106 | `isOpen` starts false |
| Navbar.NavbarState.OpenMenu | src/components/Navbar.tsx:118 | the hamburger sets `isOpen` to true |
| Navbar.NavbarState.CloseMenu | src/components/Navbar.tsx:172 | the close button sets `isOpen` to false |
| Navbar.NavbarState.SelectLink | src/components/Navbar.tsx:197-205 | selecting any overlay link sets `isOpen` to false and leads to that link's destination |
| Navbar.NavbarState.Overlay | src/components/Navbar.tsx:161-162 | the overlay shows links if and only if `isOpen` is true |
| Navbar.OverlayEntries | src/components/Navbar.tsx:197-205 | one overlay entry per link, in order, keyed by name, linking to its destination and showing the upper-cased name |
| Navbar.OverlayLinks | src/components/Navbar.tsx:161-162 | a closed overlay shows nothing; an open one shows one entry per menu link |
| Navbar.OpenOverlayContents | src/components/Navbar.tsx:9-14 | the open overlay lists MENU, RESERVATION, ABOUT and CONTACT, in that order, linking to their pages |
| Navbar.BarLinks | src/components/Navbar.tsx:137-145 | the bar has one link per nav link, whatever `isOpen` is |
| Navbar.BarContents | src/components/Navbar.tsx:16-19 | the bar always lists Menu then About |
| Hero.HeroIcon | src/components/home/HeroSection.tsx:15-40 | the Facebook, Instagram and Twitter icons are drawn exactly when the lower-cased name is "facebook", "instagram" or "twitter" |
| Hero.HeroIconIgnoresCase | src/components/home/HeroSection.tsx:16 | names with the same lower-case form draw the same icon |
| Hero.HeroIconExamples | src/components/home/HeroSection.tsx:16-39 | "Facebook" and "facebook" both draw the Facebook icon; "star" draws nothing |
| Hero.HeroIconVersusContact | src/components/home/HeroSection.tsx:16-39 | the hero draws an icon exactly when the contact dispatch recognises the lower-cased name and that name is not "star" |
| Hero.SocialEntries | src/components/home/HeroSection.tsx:154-156 | one social icon per link, in order, keyed by name, with the icon its name selects |
| Hero.SocialIcons | src/components/home/HeroSection.tsx:154 | absent social links render no icon and do not fail; present ones render one icon each, in order |
| Hero.Headline | src/components/home/HeroSection.tsx:141-143 | the headline comes first and a line break second; a subheadline follows only when present |
| Hero.CardViews | src/components/home/HeroSection.tsx:163-171 | one card per entry, in order, carrying the entry's label, link and image, with `index` its position |
| Hero.NavigationCards | src/components/home/HeroSection.tsx:163-171 | card `i` is keyed by the entry's id and receives index `i` |

## Left out

- Animation is not modelled: timing, easing, springs and stagger delays are floating-point inputs to framer-motion with no logic of their own. This includes `0.25 + index * 0.05` and `0.2 + index * 0.1`.
- Framework and library components are not modelled: `motion.*`, `AnimatePresence`, `next/image`, `next/link`, the lucide icons and the `Button` component. Rendered output is an abstract sequence of entries.
- The map link's `encodeURIComponent` and the embedded map `iframe` are not modelled. They are a foreign call and an external resource.
- The route wrappers under `src/app` and the root layout are not modelled. They contain no logic.
- `src/data/types.ts` is not part of this model. Record shapes follow the fields the components read. The content object itself is an input.
- Form submission is not modelled: the booking form has no submit handler.
- Footer link lists, decorative images, the video and static text are not modelled. They are constant markup.
- An empty carousel is not modelled. `TestimonialCarousel.constructor` and `AboutGallery.constructor` require a non-empty list: with an empty list, the code computes `% 0` (NaN) and reads past the end.
- JsString.ToLowerCase: covers ASCII capitals and the KELVIN SIGN, the only non-ASCII character that lower-cases to an ASCII letter. Other Unicode case mappings are left out. None of them can turn a name into "facebook", "instagram" or "twitter".
- JsString.ToUpperCase: covers ASCII letters only. The component applies it only to the constant ASCII link names.
- About.Stars: models an integer `count`. `Array.from` truncates a fractional length, which is not modelled.
- About.Avatars: states the avatar's number, not the formatted caption text `Customer <n>`.
- Contact.SocialIcons and Hero.SocialEntries: assume each link has an `icon` string. With the icon missing, the hero's `toLowerCase` call would throw, and that failure is not modelled.
