/**
 * The mobile navigation drawer. A menu button is added when the page has
 * both the drawer and its mobile header; the button toggles the drawer,
 * Escape closes it, and a click outside both the drawer and the button
 * closes it. Opening marks the button `active`, sets its aria-expanded to
 * "true" and locks page scrolling (`overflow: hidden`); closing undoes
 * all three.
 */
module MobileMenu {

  /**
   * The drawer's `open` class, the button's aria-expanded attribute and
   * `active` class, and the body's inline overflow style.
   */
  datatype MenuState = MenuState(open: bool, ariaExpanded: string, active: bool, overflow: string)

  /** aria-expanded, `active` and the scroll lock all agree with the drawer. */
  predicate Mirrors(s: MenuState) {
    && s.ariaExpanded == (if s.open then "true" else "false")
    && s.active == s.open
    && s.overflow == (if s.open then "hidden" else "")
  }

  /** Right after the button is created; whether the drawer is open comes from the page's markup. */
  function Initial(openInMarkup: bool): (s: MenuState)
    ensures Mirrors(s) <==> !openInMarkup
    ensures s.ariaExpanded == "false" && !s.active
  {
    MenuState(openInMarkup, "false", false, "")
  }

  /** `toggleMenu` */
  function Toggle(s: MenuState): (t: MenuState)
    ensures t.open == !s.open && Mirrors(t)
  {
    var isOpen := !s.open;
    MenuState(isOpen, if isOpen then "true" else "false", isOpen, if isOpen then "hidden" else "")
  }

  /** `closeMenu` */
  function Close(s: MenuState): (t: MenuState)
    ensures !t.open && Mirrors(t)
  {
    MenuState(false, "false", false, "")
  }

  /** `handleKeyboard`: Escape closes an open drawer; every other key, and Escape on a closed drawer, does nothing. */
  function OnKey(s: MenuState, key: string): (t: MenuState)
    ensures key == "Escape" && s.open ==> !t.open && Mirrors(t)
    ensures !(key == "Escape" && s.open) ==> t == s
  {
    if key == "Escape" && s.open then Close(s) else s
  }

  /** The document's click listener: closes an open drawer when the click is outside both the drawer and the button. */
  function OnDocumentClick(s: MenuState, inDrawer: bool, inButton: bool): (t: MenuState)
    ensures s.open && !inDrawer && !inButton ==> !t.open && Mirrors(t)
    ensures !(s.open && !inDrawer && !inButton) ==> t == s
  {
    if s.open && !inDrawer && !inButton then Close(s) else s
  }

  /** What the visitor does. */
  datatype Event =
    | ButtonClick                          // click (or Enter/Space) on the menu button
    | KeyDown(key: string)                 // a key pressed anywhere in the document
    | Click(inDrawer: bool, inButton: bool) // a click as the document's listener sees it; Click(_, true) is the bubbling half of ButtonClick

  /**
   * One event. A click on the button runs `toggleMenu` and then bubbles
   * to the document's listener, whose target is inside the button.
   */
  function Step(s: MenuState, e: Event): (t: MenuState)
    ensures e.ButtonClick? ==> t == Toggle(s)
    ensures e.KeyDown? ==> t == OnKey(s, e.key)
    ensures e.Click? ==> t == OnDocumentClick(s, e.inDrawer, e.inButton)
  {
    match e
    case ButtonClick => OnDocumentClick(Toggle(s), false, true)
    case KeyDown(key) => OnKey(s, key)
    case Click(inDrawer, inButton) => OnDocumentClick(s, inDrawer, inButton)
  }

  function Run(s: MenuState, events: seq<Event>): MenuState
    decreases |events|
  {
    if events == [] then s else Run(Step(s, events[0]), events[1..])
  }

  /** The document's listener never undoes a button click: it is a plain toggle. */
  lemma ButtonClickToggles(s: MenuState)
    ensures Step(s, ButtonClick) == Toggle(s)
  {
  }

  /** Every event either leaves the state as it is or leaves it mirrored. */
  lemma StepMirrorsOrKeeps(s: MenuState, e: Event)
    ensures Step(s, e) == s || Mirrors(Step(s, e))
    ensures Mirrors(s) ==> Mirrors(Step(s, e))
  {
  }

  /** From a mirrored state, every sequence of events keeps the state mirrored. */
  lemma {:induction false} MirrorsInvariant(s: MenuState, events: seq<Event>)
    requires Mirrors(s)
    ensures Mirrors(Run(s, events))
    decreases |events|
  {
    if events != [] {
      StepMirrorsOrKeeps(s, events[0]);
      MirrorsInvariant(Step(s, events[0]), events[1..]);
    }
  }

  /**
   * Even when the markup starts with the drawer open, the state is
   * mirrored as soon as any event has changed it.
   */
  lemma {:induction false} MirroredOnceChanged(s: MenuState, events: seq<Event>)
    ensures Run(s, events) == s || Mirrors(Run(s, events))
    decreases |events|
  {
    if events != [] {
      var next := Step(s, events[0]);
      StepMirrorsOrKeeps(s, events[0]);
      if Mirrors(next) {
        MirrorsInvariant(next, events[1..]);
      } else {
        MirroredOnceChanged(next, events[1..]);
      }
    }
  }

  /** From the usual markup (drawer closed) the three indicators always agree with the drawer. */
  lemma AlwaysMirroredFromClosedMarkup(events: seq<Event>)
    ensures Mirrors(Run(Initial(false), events))
  {
    MirrorsInvariant(Initial(false), events);
  }

  /** Closing is idempotent, and two toggles from a mirrored state give it back. */
  lemma CloseIdempotentToggleInvolutive(s: MenuState)
    ensures Close(Close(s)) == Close(s)
    ensures Mirrors(s) ==> Toggle(Toggle(s)) == s
  {
  }

  class Menu {
    var mounted: bool        // both containers exist and the button was added
    var drawerOpen: bool     // the drawer's `open` class
    var ariaExpanded: string // the button's aria-expanded
    var buttonActive: bool   // the button's `active` class
    var bodyOverflow: string // document.body.style.overflow

    function State(): MenuState
      reads this
    {
      MenuState(drawerOpen, ariaExpanded, buttonActive, bodyOverflow)
    }

    /** `init`, on a page where each of the two containers may be missing. */
    constructor (drawerFound: bool, drawerMobileFound: bool, openInMarkup: bool)
      ensures mounted <==> drawerFound && drawerMobileFound
      ensures mounted ==> State() == Initial(openInMarkup)
      ensures !mounted ==> drawerOpen == openInMarkup && ariaExpanded == "" && !buttonActive && bodyOverflow == ""
    {
      mounted := drawerFound && drawerMobileFound;
      drawerOpen := openInMarkup;
      buttonActive := false;
      bodyOverflow := "";
      ariaExpanded := if drawerFound && drawerMobileFound then "false" else "";
    }

    /** `toggleMenu` */
    method ToggleMenu()
      requires mounted
      modifies this
      ensures mounted && State() == Toggle(old(State()))
    {
      drawerOpen := !drawerOpen;
      var isOpen := drawerOpen;
      ariaExpanded := if isOpen then "true" else "false";
      buttonActive := isOpen;
      bodyOverflow := if isOpen then "hidden" else "";
    }

    /** `closeMenu` */
    method CloseMenu()
      requires mounted
      modifies this
      ensures mounted && State() == Close(old(State()))
    {
      drawerOpen := false;
      ariaExpanded := "false";
      buttonActive := false;
      bodyOverflow := "";
    }

    /** `handleKeyboard` */
    method HandleKeyboard(key: string)
      requires mounted
      modifies this
      ensures mounted && State() == OnKey(old(State()), key)
    {
      if key == "Escape" && drawerOpen {
        CloseMenu();
      }
    }

    /** The document's click listener. */
    method HandleDocumentClick(inDrawer: bool, inButton: bool)
      requires mounted
      modifies this
      ensures mounted && State() == OnDocumentClick(old(State()), inDrawer, inButton)
    {
      if drawerOpen && !inDrawer && !inButton {
        CloseMenu();
      }
    }

    /** Deliver one event; without the button no listener was registered, so nothing happens. */
    method Dispatch(e: Event)
      modifies this
      ensures mounted == old(mounted)
      ensures !mounted ==> State() == old(State())
      ensures mounted ==> State() == Step(old(State()), e)
    {
      if !mounted {
        return;
      }
      match e
      case ButtonClick =>
        ToggleMenu();
        HandleDocumentClick(false, true);
      case KeyDown(key) =>
        HandleKeyboard(key);
      case Click(inDrawer, inButton) =>
        HandleDocumentClick(inDrawer, inButton);
    }
  }

  /**
   * Any sequence of events on a freshly mounted menu whose drawer starts
   * closed leaves aria-expanded, `active` and the scroll lock in agreement
   * with the drawer.
   */
  method Session(events: seq<Event>) returns (final: MenuState)
    ensures Mirrors(final)
    ensures final == Run(Initial(false), events)
  {
    var menu := new Menu(true, true, false);
    var i := 0;
    while i < |events|
      invariant 0 <= i <= |events|
      invariant menu.mounted
      invariant Run(menu.State(), events[i..]) == Run(Initial(false), events)
    {
      assert events[i..][0] == events[i] && events[i..][1..] == events[i + 1..];
      menu.Dispatch(events[i]);
      i := i + 1;
    }
    final := menu.State();
    AlwaysMirroredFromClosedMarkup(events);
  }
}
