/** The site navigation (`Navbar`): a bar with two fixed links, and a
    full-screen overlay that is open or closed. The hamburger opens it; the
    close button and every overlay link close it. */
module Navbar {
  import opened JsString

  datatype Link = Link(name: string, href: string)

  /** `menuLinks`: the overlay's destinations, in order. */
  const MenuLinks: seq<Link> := [
    Link("Menu", "/menu"),
    Link("Reservation", "/reservation"),
    Link("About", "/about"),
    Link("Contact", "/contact")
  ]

  /** `navLinks`: the bar's destinations, in order. */
  const NavLinks: seq<Link> := [
    Link("Menu", "/menu"),
    Link("About", "/about")
  ]

  // ---------------------------------------------------------------------------
  // The overlay state machine
  // ---------------------------------------------------------------------------

  /** The clicks that change `isOpen`. */
  datatype Event = Hamburger | CloseButton | LinkSelected(index: nat)

  /** `isOpen` after one click: the hamburger sets it, the other two clear it;
      none of them reads the previous value. */
  function After(isOpen: bool, e: Event): (open: bool)
    ensures open <==> e.Hamburger?
  {
    match e
    case Hamburger => true
    case CloseButton => false
    case LinkSelected(_) => false
  }

  /** `isOpen` after a series of clicks. */
  function AfterAll(isOpen: bool, events: seq<Event>): bool
    decreases events
  {
    if events == [] then isOpen else AfterAll(After(isOpen, events[0]), events[1..])
  }

  /** After any clicks, the overlay is open exactly when the last click was the
      hamburger; with no clicks it keeps its state. */
  lemma {:induction false} AfterAllIsLastClick(isOpen: bool, events: seq<Event>)
    ensures AfterAll(isOpen, events) == if events == [] then isOpen else events[|events| - 1].Hamburger?
    decreases events
  {
    if events != [] {
      AfterAllIsLastClick(After(isOpen, events[0]), events[1..]);
      if |events| > 1 {
        assert events[1..][|events[1..]| - 1] == events[|events| - 1];
      }
    }
  }

  /** The hamburger is a set, not a toggle: pressing it any number of times
      from any state leaves the overlay open. */
  lemma {:induction false} HamburgerIdempotent(isOpen: bool, presses: nat)
    requires presses > 0
    ensures AfterAll(isOpen, seq(presses, _ => Hamburger))
  {
    AfterAllIsLastClick(isOpen, seq(presses, _ => Hamburger));
  }

  /** The `isOpen` state cell of a mounted `Navbar`. */
  class NavbarState {
    var isOpen: bool

    /** `useState(false)`: the overlay starts closed. */
    constructor ()
      ensures !isOpen
    {
      isOpen := false;
    }

    /** The hamburger's `onClick`: `setIsOpen(true)`. */
    method OpenMenu()
      modifies this
      ensures isOpen == After(old(isOpen), Hamburger)
      ensures isOpen
    {
      isOpen := true;
    }

    /** The close button's `onClick`: `setIsOpen(false)`. */
    method CloseMenu()
      modifies this
      ensures isOpen == After(old(isOpen), CloseButton)
      ensures !isOpen
    {
      isOpen := false;
    }

    /** An overlay link's `onClick`: `setIsOpen(false)`; the link then
      navigates to its destination, which is returned. */
    method SelectLink(index: nat) returns (href: string)
      requires index < |MenuLinks|
      modifies this
      ensures isOpen == After(old(isOpen), LinkSelected(index))
      ensures !isOpen
      ensures href == MenuLinks[index].href
    {
      isOpen := false;
      href := MenuLinks[index].href;
    }

    /** What the overlay currently shows. */
    function Overlay(): (views: seq<LinkView>)
      reads this
      ensures views != [] <==> isOpen
    {
      OverlayLinks(isOpen)
    }
  }

  // ---------------------------------------------------------------------------
  // Rendering
  // ---------------------------------------------------------------------------

  /** One rendered link: its key, destination and visible text. */
  datatype LinkView = LinkView(key: string, href: string, text: string)

  /** `menuLinks.map(...)` inside the overlay: names shown upper-cased. */
  function OverlayEntries(links: seq<Link>): (views: seq<LinkView>)
    ensures |views| == |links|
    ensures forall i :: 0 <= i < |views| ==>
      views[i] == LinkView(links[i].name, links[i].href, ToUpperCase(links[i].name))
  {
    if links == [] then []
    else [LinkView(links[0].name, links[0].href, ToUpperCase(links[0].name))] + OverlayEntries(links[1..])
  }

  /** `{isOpen && (...)}`: the overlay and its links exist only while open. */
  function OverlayLinks(isOpen: bool): (views: seq<LinkView>)
    ensures !isOpen ==> views == []
    ensures isOpen ==> |views| == |MenuLinks|
  {
    if isOpen then OverlayEntries(MenuLinks) else []
  }

  /** `navLinks.map(...)` in the bar: names shown as written (upper-casing there
      is a CSS class, not part of the text); present whatever `isOpen` is. */
  function BarLinks(): (views: seq<LinkView>)
    ensures |views| == |NavLinks|
  {
    seq(|NavLinks|, i requires 0 <= i < |NavLinks| => LinkView(NavLinks[i].name, NavLinks[i].href, NavLinks[i].name))
  }

  /** The open overlay lists MENU, RESERVATION, ABOUT and CONTACT, in that order,
      each linking to its page. */
  lemma OpenOverlayContents()
    ensures OverlayLinks(true) == [
      LinkView("Menu", "/menu", "MENU"),
      LinkView("Reservation", "/reservation", "RESERVATION"),
      LinkView("About", "/about", "ABOUT"),
      LinkView("Contact", "/contact", "CONTACT")
    ]
  {
    MenuEntry();
    ReservationEntry();
    AboutEntry();
    ContactEntry();
    FourEntries(OverlayLinks(true));
  }

  /** Four entries, given one by one, make up the overlay's list. */
  lemma FourEntries(views: seq<LinkView>)
    requires |views| == 4
    requires views[0] == LinkView("Menu", "/menu", "MENU")
    requires views[1] == LinkView("Reservation", "/reservation", "RESERVATION")
    requires views[2] == LinkView("About", "/about", "ABOUT")
    requires views[3] == LinkView("Contact", "/contact", "CONTACT")
    ensures views == [
      LinkView("Menu", "/menu", "MENU"),
      LinkView("Reservation", "/reservation", "RESERVATION"),
      LinkView("About", "/about", "ABOUT"),
      LinkView("Contact", "/contact", "CONTACT")
    ]
  {
  }

  lemma MenuEntry()
    ensures |OverlayLinks(true)| == 4 && OverlayLinks(true)[0] == LinkView("Menu", "/menu", "MENU")
  {
    ToUpperCaseIs("Menu", "MENU");
  }

  lemma ReservationEntry()
    ensures OverlayLinks(true)[1] == LinkView("Reservation", "/reservation", "RESERVATION")
  {
    ToUpperCaseIs("Reservation", "RESERVATION");
  }

  lemma AboutEntry()
    ensures OverlayLinks(true)[2] == LinkView("About", "/about", "ABOUT")
  {
    ToUpperCaseIs("About", "ABOUT");
  }

  lemma ContactEntry()
    ensures OverlayLinks(true)[3] == LinkView("Contact", "/contact", "CONTACT")
  {
    ToUpperCaseIs("Contact", "CONTACT");
  }

  /** The bar always lists Menu then About. */
  lemma BarContents()
    ensures BarLinks() == [LinkView("Menu", "/menu", "Menu"), LinkView("About", "/about", "About")]
  {
  }
}
