/** The site navbar (components/ui/Navbar.tsx): the cart total shown in the
    cart panel, the list of navigation links, and the open/closed state of
    the menu and cart panels with the page scroll lock that follows them. */
module Navbar {
  import opened Util
  import opened Cart

  /** `state.items.reduce((sum, item) => sum + LineTotal(item), 0)`: a left
      fold, so the last item is added last. */
  function CartTotal(items: seq<CartItem>): real {
    if items == [] then 0.0
    else CartTotal(items[..|items| - 1]) + LineTotal(items[|items| - 1])
  }

  /** The cart total of two carts put together is the sum of their totals. */
  lemma {:induction false} CartTotalAppend(a: seq<CartItem>, b: seq<CartItem>)
    ensures CartTotal(a + b) == CartTotal(a) + CartTotal(b)
  {
    if b == [] {
      assert a + b == a;
    } else {
      var b' := b[..|b| - 1];
      assert (a + b)[..|a + b| - 1] == a + b';
      assert (a + b)[|a + b| - 1] == b[|b| - 1];
      CartTotalAppend(a, b');
    }
  }

  /** The total adds one line per item, whatever their number: the empty cart
      totals 0 and each item contributes its own price times its quantity. */
  lemma {:induction false} CartTotalCons(item: CartItem, rest: seq<CartItem>)
    ensures CartTotal([]) == 0.0
    ensures CartTotal([item] + rest) == PayPrice(item) * item.quantity as real + CartTotal(rest)
  {
    CartTotalAppend([item], rest);
    assert [item][..0] == [];
  }

  datatype NavStatus = NavStatus(isHidden: bool)

  /** An entry of the site configuration's navigation list. */
  datatype NavItem = NavItem(id: string, name: string, href: string, status: Option<NavStatus>)

  /** `!item.status?.isHidden` */
  predicate IsListed(item: NavItem) {
    !(item.status.Some? && item.status.value.isHidden)
  }

  /** `siteConfig.navItems.filter((item) => !item.status?.isHidden)` */
  function ListedNavItems(items: seq<NavItem>): seq<NavItem> {
    Filter(items, IsListed)
  }

  /** Exactly the entries that are not hidden are listed, and the listing
      follows the configuration's order: listing a concatenation lists each
      part in turn. */
  lemma ListedNavItemsSpec(a: seq<NavItem>, b: seq<NavItem>)
    ensures forall x :: x in ListedNavItems(a) <==> x in a && !(x.status.Some? && x.status.value.isHidden)
    ensures ListedNavItems(a + b) == ListedNavItems(a) + ListedNavItems(b)
    ensures (forall i :: 0 <= i < |a| ==> a[i].status.None?) ==> ListedNavItems(a) == a
  {
    FilterAppend(a, b, IsListed);
    if forall i :: 0 <= i < |a| ==> a[i].status.None? {
      FilterKeepsAll(a, IsListed);
    }
  }

  /** The cart badge: `mounted ? cartCount : 0`. */
  function Badge(mounted: bool, cartCount: int): (shown: int)
    ensures !mounted ==> shown == 0
    ensures mounted ==> shown == cartCount
  {
    if mounted then cartCount else 0
  }

  /** `document.body.style.overflow` as the effect sets it. */
  function BodyOverflow(openMenu: bool, openCart: bool): (overflow: string)
    ensures overflow == "hidden" <==> openMenu || openCart
  {
    if openMenu || openCart then "hidden" else ""
  }

  /** The navbar's mutable state. `swipeOpen` stands for the cart store's
      swipe state, which `resetSwipe` clears; the store itself is not part
      of this model. */
  class NavPanels {
    var openMenu: bool
    var openCart: bool
    var mounted: bool
    var swipeOpen: bool
    var bodyOverflow: string

    /** The menu and the cart are never open together, and the page scroll
        is locked exactly while one of them is open. */
    ghost predicate Valid()
      reads this
    {
      && !(openMenu && openCart)
      && bodyOverflow == BodyOverflow(openMenu, openCart)
    }

    constructor ()
      ensures Valid()
      ensures !openMenu && !openCart && !mounted && !swipeOpen
    {
      openMenu, openCart, mounted, swipeOpen := false, false, false, false;
      bodyOverflow := BodyOverflow(false, false);
    }

    /** The mount effect `setMounted(true)`. */
    method Mount()
      requires Valid()
      modifies this`mounted
      ensures Valid() && mounted
    {
      mounted := true;
    }

    /** The menu button: toggles the menu and always closes the cart. */
    method PressMenuButton()
      requires Valid()
      modifies this`openMenu, this`openCart, this`bodyOverflow
      ensures Valid()
      ensures openMenu == !old(openMenu) && !openCart
      ensures bodyOverflow == "hidden" <==> openMenu
    {
      openMenu, openCart := !openMenu, false;
      bodyOverflow := BodyOverflow(openMenu, openCart);
    }

    /** The cart button: toggles the cart, closes the menu and resets the swipe. */
    method PressCartButton()
      requires Valid()
      modifies this`openMenu, this`openCart, this`swipeOpen, this`bodyOverflow
      ensures Valid()
      ensures openCart == !old(openCart) && !openMenu && !swipeOpen
      ensures bodyOverflow == "hidden" <==> openCart
    {
      openCart, openMenu := !openCart, false;
      swipeOpen := false;
      bodyOverflow := BodyOverflow(openMenu, openCart);
    }

    /** The capturing mousedown/touchstart handler `handleClickOutside`. The
        cart panel is in the page (so `cartRef.current` is set) only while
        the navbar is mounted and the cart is open; the menu panel only while
        the menu is open. `insideCart` and `insideMenu` say whether the target
        lies in those panels and `onSwipeItem` whether it lies in a swipeable
        cart row. */
    method PressAnywhere(insideCart: bool, onSwipeItem: bool, insideMenu: bool)
      requires Valid()
      modifies this`openMenu, this`openCart, this`swipeOpen, this`bodyOverflow
      ensures Valid()
      ensures openCart == (old(openCart) && (!old(mounted) || insideCart))
      ensures openMenu == (old(openMenu) && insideMenu)
      ensures swipeOpen == (old(swipeOpen) && onSwipeItem && !(old(mounted) && old(openCart) && !insideCart))
    {
      var cartShown := mounted && openCart;
      if cartShown && !insideCart {
        openCart := false;
        swipeOpen := false;
      } else if !onSwipeItem {
        swipeOpen := false;
      }
      if openMenu && !insideMenu {
        openMenu := false;
      }
      bodyOverflow := BodyOverflow(openMenu, openCart);
    }

    /** The cart panel's close button and the checkout link. */
    method CloseCart()
      requires Valid()
      modifies this`openCart, this`bodyOverflow
      ensures Valid() && !openCart
      ensures bodyOverflow == "hidden" <==> openMenu
    {
      openCart := false;
      bodyOverflow := BodyOverflow(openMenu, openCart);
    }

    /** A click on one of the menu's links. */
    method CloseMenu()
      requires Valid()
      modifies this`openMenu, this`bodyOverflow
      ensures Valid() && !openMenu
      ensures bodyOverflow == "hidden" <==> openCart
    {
      openMenu := false;
      bodyOverflow := BodyOverflow(openMenu, openCart);
    }

    /** A touch gesture that swipes a cart row open (the cart store's
        startSwipe/moveSwipe/endSwipe); the rows are in the page only while
        the cart panel is shown. */
    method SwipeRow()
      requires Valid() && mounted && openCart
      modifies this`swipeOpen
      ensures Valid() && swipeOpen
    {
      swipeOpen := true;
    }
  }
}
