/** The application shell: the login flag, the active page, and the payload
    (summary text and delivery fee) the invoice view hands to the delivery
    view. The views are mounted only while shown, so each activation starts
    from its initial state; only the shell's fields survive navigation. */
module Shell {
  import opened Wrappers
  import opened Session
  import Invoice
  import Delivery

  datatype Page = InvoicePage | DeliveryPage

  datatype AppState = AppState(
    isLoggedIn: bool,
    isLoading: bool,
    activePage: Page,
    transactionData: string,
    deliveryFeeData: Invoice.Money)

  /** The state before the startup check has run. */
  const Initial := AppState(false, true, InvoicePage, "", 0)

  /** The startup effect, given what storage holds under the logged-in key. */
  function Startup(s: AppState, storedFlag: Option<string>): AppState
  {
    var s' := if storedFlag == Some("true") then s.(isLoggedIn := true) else s;
    s'.(isLoading := false)
  }

  function LoginSuccess(s: AppState): AppState
  {
    s.(isLoggedIn := true)
  }

  function Logout(s: AppState): AppState
  {
    s.(isLoggedIn := false, activePage := InvoicePage)
  }

  function NavigateToDelivery(s: AppState, summary: string, fee: Invoice.Money): AppState
  {
    s.(transactionData := summary, deliveryFeeData := fee, activePage := DeliveryPage)
  }

  /** A tab click, or the delivery view's Back button (which selects the invoice page). */
  function SelectPage(s: AppState, p: Page): AppState
  {
    s.(activePage := p)
  }

  /** What the shell renders. */
  datatype Screen =
    | Spinner
    | LoginScreen
    | InvoiceScreen
    | DeliveryScreen(transactionData: string, deliveryFeeData: Invoice.Money)

  function ScreenOf(s: AppState): Screen
  {
    if s.isLoading then Spinner
    else if !s.isLoggedIn then LoginScreen
    else if s.activePage == DeliveryPage then DeliveryScreen(s.transactionData, s.deliveryFeeData)
    else InvoiceScreen
  }

  /** The startup check logs in exactly when the stored flag is the string "true",
      and always ends the loading state. */
  lemma StartupLogsInIffFlagTrue(storedFlag: Option<string>)
    ensures Startup(Initial, storedFlag).isLoggedIn <==> storedFlag == Some("true")
    ensures !Startup(Initial, storedFlag).isLoading
    ensures Startup(Initial, storedFlag).activePage == InvoicePage
  {
  }

  /** Once loaded, exactly one view is shown: delivery iff logged in on the delivery
      page, invoice iff logged in on any other page, login iff logged out. */
  lemma ScreensPartition(s: AppState)
    requires !s.isLoading
    ensures ScreenOf(s).DeliveryScreen? <==> s.isLoggedIn && s.activePage == DeliveryPage
    ensures ScreenOf(s) == InvoiceScreen <==> s.isLoggedIn && s.activePage == InvoicePage
    ensures ScreenOf(s) == LoginScreen <==> !s.isLoggedIn
    ensures ScreenOf(s).DeliveryScreen? ==>
      ScreenOf(s) == DeliveryScreen(s.transactionData, s.deliveryFeeData)
  {
  }

  /** User actions the shell reacts to after startup. */
  datatype Event =
    | Tab(page: Page)
    | LoggedIn
    | LoggedOut
    | Next(summary: string, fee: Invoice.Money)

  function Apply(s: AppState, e: Event): AppState
  {
    match e
    case Tab(p) => SelectPage(s, p)
    case LoggedIn => LoginSuccess(s)
    case LoggedOut => Logout(s)
    case Next(summary, fee) => NavigateToDelivery(s, summary, fee)
  }

  function Run(s: AppState, events: seq<Event>): AppState
    decreases |events|
  {
    if events == [] then s else Run(Apply(s, events[0]), events[1..])
  }

  predicate NoHandoff(events: seq<Event>)
  {
    forall i :: 0 <= i < |events| ==> !events[i].Next?
  }

  /** Tabs, Back, login and logout never touch the payload: after any run without
      a handoff the delivery view would be prefilled from the same summary and fee,
      even across a logout and a later login. */
  lemma {:induction false} PayloadSurvivesWithoutHandoff(s: AppState, events: seq<Event>)
    requires NoHandoff(events)
    ensures Run(s, events).transactionData == s.transactionData
    ensures Run(s, events).deliveryFeeData == s.deliveryFeeData
    ensures Run(s, events).isLoading == s.isLoading
    decreases |events|
  {
    if events != [] {
      assert !events[0].Next?;
      assert NoHandoff(events[1..]) by {
        forall i | 0 <= i < |events[1..]| ensures !events[1..][i].Next? {
          assert events[1..][i] == events[i + 1];
        }
      }
      PayloadSurvivesWithoutHandoff(Apply(s, events[0]), events[1..]);
    }
  }

  /** After a handoff, whatever tabs, Back, logout and login follow, the delivery
      view shows the handed-over summary and fee whenever it is shown again. */
  lemma ReenteringDeliveryReplaysPayload(s: AppState, summary: string, fee: Invoice.Money, later: seq<Event>)
    requires !s.isLoading && NoHandoff(later)
    requires Run(NavigateToDelivery(s, summary, fee), later).isLoggedIn
    requires Run(NavigateToDelivery(s, summary, fee), later).activePage == DeliveryPage
    ensures ScreenOf(Run(NavigateToDelivery(s, summary, fee), later)) == DeliveryScreen(summary, fee)
  {
    PayloadSurvivesWithoutHandoff(NavigateToDelivery(s, summary, fee), later);
  }

  /** The invoice view's Next, followed through the shell into a freshly mounted
      delivery form: the pickup field holds the whole summary (never empty, so it
      is always copied) and the fee field holds the fee's string form. */
  lemma HandoffPrefillsDeliveryForm(s: AppState, inp: Invoice.Inputs, fmt: Invoice.Money -> string,
                                    show: Invoice.Money -> string)
    requires !s.isLoading && s.isLoggedIn
    ensures var t := NavigateToDelivery(s, Invoice.SummaryText(inp, fmt), inp.deliveryFee);
      ScreenOf(t) == DeliveryScreen(Invoice.SummaryText(inp, fmt), inp.deliveryFee) &&
      Delivery.Prefilled(t.transactionData, Some(t.deliveryFeeData), show)
        == Delivery.FormData(Invoice.SummaryText(inp, fmt), show(inp.deliveryFee), "", "")
  {
    Invoice.SummaryTextShape(inp, fmt);
    Delivery.PrefilledFields(Invoice.SummaryText(inp, fmt), Some(inp.deliveryFee), show);
  }

  /** Opening the delivery tab before any handoff, after whatever tabs, logins
      and logouts, still prefills the fee, with the string form of 0, because the
      shell always passes a number; the pickup field stays empty. */
  lemma DeliveryTabBeforeHandoff(storedFlag: Option<string>, events: seq<Event>, show: Invoice.Money -> string)
    requires NoHandoff(events)
    requires Run(Startup(Initial, storedFlag), events).isLoggedIn
    requires Run(Startup(Initial, storedFlag), events).activePage == DeliveryPage
    ensures var t := Run(Startup(Initial, storedFlag), events);
      ScreenOf(t) == DeliveryScreen("", 0) &&
      Delivery.Prefilled(t.transactionData, Some(t.deliveryFeeData), show)
        == Delivery.FormData("", show(0), "", "")
  {
    PayloadSurvivesWithoutHandoff(Startup(Initial, storedFlag), events);
    Delivery.PrefilledFields("", Some(0), show);
  }

  /** The shell component's state. */
  class App {
    var isLoggedIn: bool
    var isLoading: bool
    var activePage: Page
    var transactionData: string
    var deliveryFeeData: Invoice.Money
    const storage: Storage

    function State(): AppState
      reads this
    {
      AppState(isLoggedIn, isLoading, activePage, transactionData, deliveryFeeData)
    }

    constructor (storage: Storage)
      ensures State() == Initial
      ensures this.storage == storage
    {
      isLoggedIn := false;
      isLoading := true;
      activePage := InvoicePage;
      transactionData := "";
      deliveryFeeData := 0;
      this.storage := storage;
    }

    /** The startup effect: read the logged-in flag from storage. */
    method CheckStoredLogin()
      modifies this
      ensures State() == Startup(old(State()),
        if LoggedInKey in storage.items then Some(storage.items[LoggedInKey]) else None)
    {
      var flag := storage.GetItem(LoggedInKey);
      if flag == Some("true") {
        isLoggedIn := true;
      }
      isLoading := false;
    }

    method HandleLoginSuccess()
      modifies this
      ensures State() == LoginSuccess(old(State()))
    {
      isLoggedIn := true;
    }

    method HandleLogout()
      modifies this, storage
      ensures State() == Logout(old(State()))
      ensures storage.items == old(storage.items) - {LoggedInKey, UserKey}
    {
      storage.RemoveItem(LoggedInKey);
      storage.RemoveItem(UserKey);
      isLoggedIn := false;
      activePage := InvoicePage;
    }

    method HandleNavigateToDelivery(summary: string, fee: Invoice.Money)
      modifies this
      ensures State() == NavigateToDelivery(old(State()), summary, fee)
    {
      transactionData := summary;
      deliveryFeeData := fee;
      activePage := DeliveryPage;
    }

    /** The tab buttons and the delivery view's Back. */
    method SetActivePage(p: Page)
      modifies this
      ensures State() == SelectPage(old(State()), p)
    {
      activePage := p;
    }
  }
}
