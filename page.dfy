/**
 * The page script public/script.js as a class whose fields are the parts of
 * the page the script changes. The lookup's network round trip is a
 * parameter: the page issues a request (recorded in `requests`) and then
 * settles with whatever the fetch produced.
 */
module LoyaltyPage {
  import opened JsValues
  import MobileInput
  import LoyaltyServer

  const FormSection := "form-section"
  const LoadingSection := "loading-section"
  const ErrorSection := "error-section"
  const SuccessSection := "success-section"

  /** The four mutually exclusive sections, in the order `showSection` visits them. */
  const Sections: seq<string> := [FormSection, LoadingSection, ErrorSection, SuccessSection]
  const SectionIds: set<string> := {FormSection, LoadingSection, ErrorSection, SuccessSection}

  const MenuClosedIcon := "☰"
  const MenuOpenIcon := "✕"

  const InvalidMobileToast := "Please enter a valid 10-digit mobile number"
  const NotFoundFallback := "Customer not found"
  const RetryText := "Unable to check loyalty points. Please try again later."
  const ErrorToast := "Error checking loyalty points"
  const LookupPath := "/api/check-loyalty?mobile="

  /** The three toast types; a toast without one is `Info`. */
  datatype ToastKind = Info | Success | Error

  datatype Toast = Toast(message: string, kind: ToastKind)

  /** The background colour a toast of each type gets. */
  function ToastColor(kind: ToastKind): (c: string)
    ensures kind == Error <==> c == "#dc2626"
    ensures kind == Success <==> c == "#10b981"
    ensures kind == Info <==> c == "#3b82f6"
  {
    match kind
    case Error => "#dc2626"
    case Success => "#10b981"
    case Info => "#3b82f6"
  }

  /** The icon that goes with a menu state. */
  function MenuIcon(shown: bool): string
  {
    if shown then MenuOpenIcon else MenuClosedIcon
  }

  /** What `await fetch(...)` and `await response.json()` produced: a parsed
      body, or a rejection of either promise. */
  datatype FetchOutcome = NetworkError | Answered(data: Json)

  /** How the try/catch of checkLoyalty ends (public/script.js:50-64). */
  datatype Settlement =
    | Welcomed(data: Json)     // `data.success` is truthy
    | Declined(text: string)   // a reply whose `success` is falsy
    | Crashed                  // the fetch failed, or `data.success` threw

  function Settle(outcome: FetchOutcome): (s: Settlement)
    ensures s.Crashed? <==> outcome.NetworkError? || AccessThrows(outcome.data)
    ensures s.Welcomed? <==> outcome.Answered? && !AccessThrows(outcome.data) && Truthy(Get(outcome.data, "success"))
    ensures s.Welcomed? ==> s.data == outcome.data
    ensures s.Declined? && Truthy(Get(outcome.data, "message")) ==> s.text == ToText(Get(outcome.data, "message"))
    ensures s.Declined? && !Truthy(Get(outcome.data, "message")) ==> s.text == NotFoundFallback
  {
    match outcome
    case NetworkError => Crashed
    case Answered(data) =>
      if AccessThrows(data) then Crashed
      else if Truthy(Get(data, "success")) then Welcomed(data)
      else
        var message := Get(data, "message");
        if Truthy(message) then Declined(TextOf(message)) else Declined(NotFoundFallback)
  }

  class Page {
    /** Ids of the sections that do not carry the `hidden` class. */
    var visible: set<string>
    var currentLoyaltyData: Json
    var submitDisabled: bool
    var inputValue: string
    /** The `.toast` elements in document order. */
    var toasts: seq<Toast>
    var menuShown: bool
    var menuIcon: string
    var customerName: string
    /** The points display once its counter animation has finished. */
    var pointsShown: string
    var errorMessage: string
    /** The lookup URLs the page has requested, oldest first. */
    var requests: seq<string>

    /** At most one section and at most one toast are showing, and the menu
        icon matches the menu. */
    ghost predicate Valid()
      reads this
    {
      && visible <= SectionIds
      && |visible| <= 1
      && |toasts| <= 1
      && menuIcon == MenuIcon(menuShown)
    }

    /** The page as loaded: the form showing, nothing looked up, menu closed. */
    constructor ()
      ensures Valid()
      ensures visible == {FormSection} && currentLoyaltyData == Null && !submitDisabled
      ensures inputValue == "" && toasts == [] && !menuShown && requests == []
    {
      visible := {FormSection};
      currentLoyaltyData := Null;
      submitDisabled := false;
      inputValue := "";
      toasts := [];
      menuShown := false;
      menuIcon := MenuClosedIcon;
      customerName := "";
      pointsShown := "";
      errorMessage := "";
      requests := [];
    }

    method ToggleMobileMenu()
      modifies this`menuShown, this`menuIcon
      ensures menuShown == !old(menuShown)
      ensures menuIcon == MenuOpenIcon <==> menuShown
      ensures menuIcon == MenuIcon(menuShown)
    {
      if menuShown {
        menuShown := false;
        menuIcon := MenuClosedIcon;
      } else {
        menuShown := true;
        menuIcon := MenuOpenIcon;
      }
    }

    /** The document click listener: a click outside the open menu and outside
        its toggle button closes the menu. */
    method OnDocumentClick(insideMenu: bool, onMenuButton: bool)
      modifies this`menuShown, this`menuIcon
      ensures old(menuShown) && !insideMenu && !onMenuButton ==> !menuShown && menuIcon == MenuClosedIcon
      ensures !(old(menuShown) && !insideMenu && !onMenuButton) ==> menuShown == old(menuShown) && menuIcon == old(menuIcon)
    {
      if menuShown && !insideMenu && !onMenuButton {
        ToggleMobileMenu();
      }
    }

    /** The input listener: the field holds the filtered value of what the
        browser put there. */
    method OnInput(raw: string)
      modifies this`inputValue
      ensures inputValue == MobileInput.Sanitise(raw)
    {
      inputValue := MobileInput.Sanitise(raw);
    }

    /** Hide every section, then reveal the one named, if it is a section. */
    method ShowSection(sectionId: string)
      modifies this`visible
      ensures visible == (old(visible) - SectionIds)
                         + (if sectionId in Sections then {sectionId} else {})
      ensures old(visible) <= SectionIds ==> visible == if sectionId in Sections then {sectionId} else {}
    {
      var i := 0;
      while i < |Sections|
        invariant 0 <= i <= |Sections|
        invariant visible == old(visible) - set j | 0 <= j < i :: Sections[j]
      {
        visible := visible - {Sections[i]};
        i := i + 1;
      }
      assert (set j | 0 <= j < |Sections| :: Sections[j]) == SectionIds by {
        assert Sections[0] == FormSection && Sections[1] == LoadingSection;
        assert Sections[2] == ErrorSection && Sections[3] == SuccessSection;
      }
      if sectionId in Sections {
        visible := visible + {sectionId};
      }
    }

    /** Remove the first existing toast, then append the new one. */
    method ShowToast(message: string, kind: ToastKind)
      modifies this`toasts
      ensures toasts == (if old(toasts) == [] then [] else old(toasts)[1..]) + [Toast(message, kind)]
      ensures |old(toasts)| <= 1 ==> toasts == [Toast(message, kind)]
    {
      if toasts != [] {
        toasts := toasts[1..];
      }
      toasts := toasts + [Toast(message, kind)];
    }

    /** Show the name and the points; the counter's last frame writes the
        target value itself. */
    method DisplaySuccessState(data: Json)
      modifies this`customerName, this`pointsShown, this`visible
      ensures customerName == TextOf(Get(data, "name"))
      ensures pointsShown == TextOf(Get(data, "points"))
      ensures visible == (old(visible) - SectionIds) + {SuccessSection}
      ensures old(visible) <= SectionIds ==> visible == {SuccessSection}
    {
      customerName := TextOf(Get(data, "name"));
      pointsShown := TextOf(Get(data, "points"));
      ShowSection(SuccessSection);
    }

    method DisplayErrorState(message: string)
      modifies this`errorMessage, this`visible
      ensures errorMessage == message
      ensures visible == (old(visible) - SectionIds) + {ErrorSection}
      ensures old(visible) <= SectionIds ==> visible == {ErrorSection}
    {
      errorMessage := message;
      ShowSection(ErrorSection);
    }

    /** checkLoyalty up to its `await` (public/script.js:34-51): an invalid
        value only raises a toast; a valid one shows the loading section,
        disables the button and issues the request. */
    method BeginLookup() returns (started: bool)
      requires Valid()
      modifies this`visible, this`toasts, this`submitDisabled, this`requests
      ensures Valid()
      ensures started == MobileInput.IsValidMobile(old(inputValue))
      ensures !started ==>
        && visible == old(visible) && submitDisabled == old(submitDisabled)
        && currentLoyaltyData == old(currentLoyaltyData) && requests == old(requests)
        && toasts == [Toast(InvalidMobileToast, Error)]
      ensures started ==>
        && visible == {LoadingSection} && submitDisabled
        && currentLoyaltyData == old(currentLoyaltyData) && toasts == old(toasts)
        && requests == old(requests) + [LookupPath + old(inputValue)]
      ensures inputValue == old(inputValue) && menuShown == old(menuShown) && menuIcon == old(menuIcon)
      ensures customerName == old(customerName) && pointsShown == old(pointsShown)
      ensures errorMessage == old(errorMessage)
    {
      var mobile := inputValue;
      if !MobileInput.IsValidMobile(mobile) {
        ShowToast(InvalidMobileToast, Error);
        return false;
      }
      ShowSection(LoadingSection);
      submitDisabled := true;
      requests := requests + [LookupPath + mobile];
      started := true;
    }

    /** The `data.success` branch: hold the data, show it, welcome the customer. */
    method Welcome(data: Json)
      requires Valid()
      modifies this`currentLoyaltyData, this`customerName, this`pointsShown, this`visible, this`toasts
      ensures Valid()
      ensures visible == {SuccessSection} && currentLoyaltyData == data
      ensures customerName == TextOf(Get(data, "name")) && pointsShown == TextOf(Get(data, "points"))
      ensures toasts == [Toast("Welcome back, " + ToText(Get(data, "name")) + "!", Success)]
    {
      currentLoyaltyData := data;
      DisplaySuccessState(data);
      ShowToast("Welcome back, " + ToText(Get(data, "name")) + "!", Success);
    }

    /** The `catch` block: the generic error text and an error toast. */
    method Crash()
      requires Valid()
      modifies this`errorMessage, this`visible, this`toasts
      ensures Valid()
      ensures visible == {ErrorSection} && errorMessage == RetryText
      ensures toasts == [Toast(ErrorToast, Error)]
    {
      DisplayErrorState(RetryText);
      ShowToast(ErrorToast, Error);
    }

    /** checkLoyalty after its `await`: the try, catch and finally blocks of
        public/script.js:53-67. */
    method SettleLookup(outcome: FetchOutcome)
      requires Valid()
      modifies this`currentLoyaltyData, this`customerName, this`pointsShown, this`errorMessage
      modifies this`visible, this`toasts, this`submitDisabled
      ensures Valid()
      ensures !submitDisabled
      ensures Settle(outcome).Welcomed? ==>
        var data := Settle(outcome).data;
        && visible == {SuccessSection} && currentLoyaltyData == data
        && customerName == TextOf(Get(data, "name")) && pointsShown == TextOf(Get(data, "points"))
        && errorMessage == old(errorMessage)
        && toasts == [Toast("Welcome back, " + ToText(Get(data, "name")) + "!", Success)]
      ensures Settle(outcome).Declined? ==>
        && visible == {ErrorSection} && currentLoyaltyData == old(currentLoyaltyData)
        && errorMessage == Settle(outcome).text && customerName == old(customerName)
        && pointsShown == old(pointsShown) && toasts == old(toasts)
      ensures Settle(outcome).Crashed? ==>
        && visible == {ErrorSection} && currentLoyaltyData == old(currentLoyaltyData)
        && errorMessage == RetryText && customerName == old(customerName)
        && pointsShown == old(pointsShown) && toasts == [Toast(ErrorToast, Error)]
      ensures inputValue == old(inputValue) && requests == old(requests)
      ensures menuShown == old(menuShown) && menuIcon == old(menuIcon)
    {
      var settlement := Settle(outcome);
      match settlement {
        case Welcomed(data) => Welcome(data);
        case Declined(text) => DisplayErrorState(text);
        case Crashed => Crash();
      }
      submitDisabled := false;
    }

    /** The whole submit handler, with the fetch's outcome given. */
    method CheckLoyalty(outcome: FetchOutcome) returns (started: bool)
      requires Valid()
      modifies this`visible, this`toasts, this`submitDisabled, this`requests
      modifies this`currentLoyaltyData, this`customerName, this`pointsShown, this`errorMessage
      ensures Valid()
      ensures started == MobileInput.IsValidMobile(old(inputValue))
      ensures !started ==>
        && visible == old(visible) && submitDisabled == old(submitDisabled)
        && currentLoyaltyData == old(currentLoyaltyData) && requests == old(requests)
        && toasts == [Toast(InvalidMobileToast, Error)]
        && customerName == old(customerName) && pointsShown == old(pointsShown)
        && errorMessage == old(errorMessage)
      ensures started ==> !submitDisabled && requests == old(requests) + [LookupPath + old(inputValue)]
      ensures started && Settle(outcome).Welcomed? ==>
        var data := Settle(outcome).data;
        && visible == {SuccessSection} && currentLoyaltyData == data
        && customerName == TextOf(Get(data, "name")) && pointsShown == TextOf(Get(data, "points"))
        && errorMessage == old(errorMessage)
        && toasts == [Toast("Welcome back, " + ToText(Get(data, "name")) + "!", Success)]
      ensures started && Settle(outcome).Declined? ==>
        && visible == {ErrorSection} && currentLoyaltyData == old(currentLoyaltyData)
        && errorMessage == Settle(outcome).text && customerName == old(customerName)
        && pointsShown == old(pointsShown) && toasts == old(toasts)
      ensures started && Settle(outcome).Crashed? ==>
        && visible == {ErrorSection} && currentLoyaltyData == old(currentLoyaltyData)
        && errorMessage == RetryText && customerName == old(customerName)
        && pointsShown == old(pointsShown) && toasts == [Toast(ErrorToast, Error)]
      ensures inputValue == old(inputValue) && menuShown == old(menuShown) && menuIcon == old(menuIcon)
    {
      started := BeginLookup();
      if started {
        SettleLookup(outcome);
      }
    }

    /** Clear the field, forget the last result and show the form again. */
    method ResetForm()
      requires Valid()
      modifies this`inputValue, this`currentLoyaltyData, this`visible
      ensures Valid()
      ensures inputValue == "" && currentLoyaltyData == Null && visible == {FormSection}
    {
      inputValue := "";
      currentLoyaltyData := Null;
      ShowSection(FormSection);
    }
  }

  /** Toggling the menu twice restores it, icon included. */
  method ToggleTwiceRestores(page: Page)
    requires page.Valid()
    modifies page`menuShown, page`menuIcon
    ensures page.menuShown == old(page.menuShown) && page.menuIcon == old(page.menuIcon)
  {
    page.ToggleMobileMenu();
    page.ToggleMobileMenu();
  }

  /** A second toast while one is showing leaves exactly one: the newest. */
  method SecondToastReplacesFirst(page: Page, first: string, k1: ToastKind, second: string, k2: ToastKind)
    requires page.Valid()
    modifies page`toasts
    ensures page.toasts == [Toast(second, k2)]
  {
    page.ShowToast(first, k1);
    page.ShowToast(second, k2);
  }

  /** A found customer with zero points sees "0" in the points display and
      is welcomed, not declined. */
  lemma ZeroPointsShownAsZero(name: string)
    requires name != ""
    ensures var data := Obj(map["success" := Bool(true), "name" := Str(name), "points" := Num(0)]);
      && Settle(Answered(data)) == Welcomed(data)
      && TextOf(Get(data, "points")) == "0"
  {
  }

  /** Whatever this server replies, the page reads `success` as the server
      meant it, and a failure shows the server's own message: the
      'Customer not found' fallback is never reached. A found customer's
      name and points reach the page's texts as the server took them from
      upstream, and the welcome toast names that customer. */
  lemma ServerRepliesSettle(mobile: string, env: LoyaltyServer.Env, upstream: LoyaltyServer.Upstream)
    ensures var body := LoyaltyServer.Handle(mobile, env, upstream).body;
      Settle(Answered(LoyaltyServer.BodyJson(body))) ==
        if body.Found? then Welcomed(LoyaltyServer.BodyJson(body)) else Declined(body.message)
    ensures var body := LoyaltyServer.Handle(mobile, env, upstream).body;
      var data := LoyaltyServer.BodyJson(body);
      body.Found? ==>
        && TextOf(Get(data, "name")) == TextOf(body.name)
        && TextOf(Get(data, "points")) == TextOf(body.points)
        && ToText(Get(data, "name")) == ToText(body.name)
        && Get(data, "mobile") == Str(mobile)
  {
  }
}
