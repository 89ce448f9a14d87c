/**
 * The decisions taken by the log-in window (src/interface/windows/account/login.rs).
 *
 * `LoginWindow::to_window` shares the username and password between the two
 * input fields and three closures. The closures only read the two strings, so
 * each is modelled as a function of their current contents.
 */
module LoginWindow {
  import opened Wrappers

  /** The saved log-in settings the window starts from. */
  datatype LoginSettings = LoginSettings(
    username: string,
    password: string,
    rememberUsername: bool,
    rememberPassword: bool)

  datatype FocusMode = FocusNext | FocusPrevious

  /** The one user event this window emits. */
  datatype UserEvent = LogIn(username: string, password: string)

  /** `ClickAction::Event` and `ClickAction::FocusNext(mode)`. */
  datatype ClickAction = Event(event: UserEvent) | ChangeFocus(mode: FocusMode)

  /** The shared cells right after `to_window`, and the window class it registers. */
  datatype LoginForm = LoginForm(windowClass: string, username: string, password: string)

  const WINDOW_CLASS := "login"

  /** `window_class`: the class this prototype window registers under. */
  function WindowClass(): (windowClass: Option<string>)
    ensures windowClass.Some? && windowClass.value == WINDOW_CLASS
  {
    Some(WINDOW_CLASS)
  }

  /**
   * The cells start with the saved username and password, and the window is
   * built with the same class `window_class` reports.
   */
  function ToWindow(settings: LoginSettings): (form: LoginForm)
    ensures form.username == settings.username && form.password == settings.password
    ensures Some(form.windowClass) == WindowClass() && form.windowClass == "login"
  {
    LoginForm(WINDOW_CLASS, settings.username, settings.password)
  }

  /**
   * `selector`, the closure the "log in" button is given: both fields are
   * filled in, that is, Enter in the username field would move on and the
   * password is not empty.
   */
  predicate Selector(username: string, password: string): (filled: bool)
    ensures filled <==> UsernameAction(username).Some? && password != []
  {
    username != [] && password != []
  }

  /** `action`, the closure run when the "log in" button is pressed. */
  function ButtonAction(username: string, password: string): (r: Option<ClickAction>)
    ensures r.Some? && r.value.Event?
    ensures r.value.event.username == username && r.value.event.password == password
  {
    Some(Event(LogIn(username, password)))
  }

  /** Enter in the username field moves the focus on, unless the field is empty. */
  function UsernameAction(username: string): (r: Option<ClickAction>)
    ensures r.Some? <==> username != []
    ensures r.Some? ==> r.value == ChangeFocus(FocusNext)
  {
    if username == [] then None else Some(ChangeFocus(FocusNext))
  }

  /**
   * Enter in the password field. The guard on the username comes before the
   * match on the password, so an empty username always moves the focus back.
   */
  function PasswordAction(username: string, password: string): (r: Option<ClickAction>)
    // it logs in exactly when the button would be enabled, and then does what the button does
    ensures (r.Some? && r.value.Event?) <==> Selector(username, password)
    ensures r.Some? && r.value.Event? ==> r == ButtonAction(username, password)
    // otherwise: focus back on an empty username, nothing on an empty password
    ensures username == [] ==> r == Some(ChangeFocus(FocusPrevious))
    ensures username != [] && password == [] ==> r == None
  {
    if username == [] then Some(ChangeFocus(FocusPrevious))
    else if password == [] then None
    else Some(Event(LogIn(username, password)))
  }

  /**
   * The two Enter handlers agree on the username: Enter in the username field
   * moves the focus forward exactly when Enter in the password field would not
   * send the focus back to it.
   */
  lemma EnterHandlersAgree(username: string, password: string)
    ensures UsernameAction(username).Some?
        <==> PasswordAction(username, password) != Some(ChangeFocus(FocusPrevious))
  {
  }
}
