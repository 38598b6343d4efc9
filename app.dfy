/**
 * The application shell: the authentication context (`isAuthenticated`,
 * `walletAddress` and the `walletAddress` storage key) and the choice each
 * top-level route makes from it.
 *
 * The backend's session is an input: `hasSession` is whether the session
 * lookup, or the auth-change notification, carried a session.
 */
module App {
  import opened Wrappers
  import opened Browser

  /** The auth context's state. */
  class AuthContext {
    var isAuthenticated: bool
    var walletAddress: Option<string>
    const storage: LocalStorage

    /**
     * An authenticated context always has a non-empty address, and the
     * address key is in storage for the pages that read it from there.
     */
    ghost predicate Valid()
      reads this, storage
    {
      isAuthenticated ==>
        && walletAddress.Some? && walletAddress.value != ""
        && WalletAddressKey in storage.items
    }

    constructor (storage: LocalStorage)
      ensures this.storage == storage
      ensures !isAuthenticated && walletAddress == None
      ensures Valid()
    {
      this.storage := storage;
      isAuthenticated := false;
      walletAddress := None;
    }

    /**
     * The mount-time session check: authenticated with the stored address
     * exactly when there is a session and a non-empty stored address;
     * otherwise the key is removed and the context cleared.
     */
    method CheckSession(hasSession: bool)
      requires Valid()
      modifies this, storage
      ensures Valid()
      ensures var stored := old(storage.GetItem(WalletAddressKey));
        if hasSession && stored.Some? && stored.value != "" then
          && isAuthenticated && walletAddress == stored
          && storage.items == old(storage.items)
        else
          && !isAuthenticated && walletAddress == None
          && storage.items == old(storage.items) - {WalletAddressKey}
    {
      var address := storage.GetItem(WalletAddressKey);
      if hasSession && address.Some? && address.value != "" {
        isAuthenticated := true;
        walletAddress := address;
      } else {
        storage.RemoveItem(WalletAddressKey);
        isAuthenticated := false;
        walletAddress := None;
      }
    }

    /**
     * The auth-change listener. With a session and a non-empty stored address
     * it authenticates; with a session but no such address it changes nothing;
     * without a session it clears the context and leaves storage alone.
     */
    method OnAuthStateChange(hasSession: bool)
      requires Valid()
      modifies this
      ensures Valid()
      ensures var stored := storage.GetItem(WalletAddressKey);
        if !hasSession then !isAuthenticated && walletAddress == None
        else if stored.Some? && stored.value != "" then isAuthenticated && walletAddress == stored
        else isAuthenticated == old(isAuthenticated) && walletAddress == old(walletAddress)
    {
      if hasSession {
        var address := storage.GetItem(WalletAddressKey);
        if address.Some? && address.value != "" {
          isAuthenticated := true;
          walletAddress := address;
        }
      } else {
        isAuthenticated := false;
        walletAddress := None;
      }
    }

    /** Sign-out: the key is removed and the context cleared. */
    method Logout()
      requires Valid()
      modifies this, storage
      ensures Valid()
      ensures !isAuthenticated && walletAddress == None
      ensures storage.items == old(storage.items) - {WalletAddressKey}
    {
      storage.RemoveItem(WalletAddressKey);
      isAuthenticated := false;
      walletAddress := None;
    }
  }

  // ---------------------------------------------------------------------------
  // Routes
  // ---------------------------------------------------------------------------

  /** The pages nested under "/". */
  datatype Page = HomePage | MessagesPage | SearchPage | WalletPage | ProfilePage

  /** What the router renders for a path. */
  datatype Element = LoginScreen | Layout(page: Page) | Redirect(to: string) | NoMatch

  /** The nested page for a path under "/", if the path is one. */
  function PageAt(path: string): Option<Page> {
    if path == "/" then Some(HomePage)
    else if path == "/messages" then Some(MessagesPage)
    else if path == "/search" then Some(SearchPage)
    else if path == "/wallet" then Some(WalletPage)
    else if path == "/profile" then Some(ProfilePage)
    else None
  }

  /** The route table: "/login" only when signed out, everything under "/" only when signed in. */
  function Route(path: string, isAuthenticated: bool): Element {
    if path == "/login" then
      (if !isAuthenticated then LoginScreen else Redirect("/"))
    else if PageAt(path).Some? then
      (if isAuthenticated then Layout(PageAt(path).value) else Redirect("/login"))
    else NoMatch
  }

  /**
   * The login screen is shown exactly when signed out and asked for; the
   * layout exactly when signed in and on one of its pages; every other known
   * path redirects to the one place the current state allows.
   */
  lemma RouteGuard(path: string, isAuthenticated: bool)
    ensures Route(path, isAuthenticated) == LoginScreen <==> path == "/login" && !isAuthenticated
    ensures Route(path, isAuthenticated).Layout? <==> PageAt(path).Some? && isAuthenticated
    ensures Route(path, isAuthenticated).Redirect? ==>
      Route(path, isAuthenticated).to == (if isAuthenticated then "/" else "/login")
  {
  }

  /** Following a redirect lands on a rendered screen: the guard never loops. */
  lemma RedirectSettles(path: string, isAuthenticated: bool)
    requires Route(path, isAuthenticated).Redirect?
    ensures var next := Route(Route(path, isAuthenticated).to, isAuthenticated);
      next == LoginScreen || next == Layout(HomePage)
  {
  }
}
