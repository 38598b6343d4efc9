/**
 * The login page's connect action: ask the wallet provider for accounts,
 * derive a password credential from the first address, sign in, fall back to
 * a single sign-up, and on success store the address and go to "/".
 *
 * The wallet provider's answer and the two auth responses are inputs.
 */
module Login {
  import opened Wrappers
  import opened Text
  import opened Browser

  /** What `eth_requestAccounts` gave: no provider at all, a thrown error, or the account list. */
  datatype WalletResponse = NoProvider | RequestFailed(message: string) | Accounts(addresses: seq<string>)

  datatype AuthResponse = AuthOk | AuthFailed(message: string)

  /** A request made to the auth service, with the credential it carried. */
  datatype AuthCall =
    | SignIn(email: string, password: string)
    | SignUp(email: string, password: string, walletAddress: string)

  const EmailDomain: string := "@kraken.web3"
  const NotInstalledError: string := "MetaMask is not installed"
  const AuthFallbackError: string := "Failed to authenticate"

  /** The derived e-mail for a (lower-cased) address. */
  function Email(address: string): string {
    address + EmailDomain
  }

  /** The address a derived e-mail was made from. */
  function AddressOfEmail(email: string): string
    requires |email| >= |EmailDomain|
  {
    email[..|email| - |EmailDomain|]
  }

  /** The derived e-mail loses nothing: the address can be read back from it. */
  lemma EmailRoundTrip(address: string)
    ensures AddressOfEmail(Email(address)) == address
  {
    assert Email(address)[..|address|] == address;
  }

  /** Distinct addresses never share an account. */
  lemma EmailInjective(a: string, b: string)
    requires Email(a) == Email(b)
    ensures a == b
  {
    EmailRoundTrip(a);
    EmailRoundTrip(b);
  }

  /** `authError.message || 'Failed to authenticate'`. */
  function AuthErrorText(message: string): string {
    if message != "" then message else AuthFallbackError
  }

  /** What one connect action did. */
  datatype ConnectResult = ConnectResult(calls: seq<AuthCall>, error: string, stored: Option<string>, navigated: bool)

  /** The address the action authenticates with: the first account, lower-cased, if it is non-empty. */
  function ConnectAddress(wallet: WalletResponse): Option<string> {
    if wallet.Accounts? && wallet.addresses != [] && wallet.addresses[0] != "" then
      Some(Lower(wallet.addresses[0]))
    else None
  }

  /** The outcome of `connectMetamask` for given provider and auth responses. */
  function Connect(wallet: WalletResponse, signIn: AuthResponse, signUp: AuthResponse): ConnectResult {
    match wallet
    case NoProvider => ConnectResult([], NotInstalledError, None, false)
    case RequestFailed(message) => ConnectResult([], message, None, false)
    case Accounts(addresses) =>
      if addresses == [] || addresses[0] == "" then ConnectResult([], "", None, false)
      else
        var address := Lower(addresses[0]);
        var first := SignIn(Email(address), address);
        if signIn.AuthOk? then ConnectResult([first], "", Some(address), true)
        else
          var second := SignUp(Email(address), address, address);
          if signUp.AuthOk? then ConnectResult([first, second], "", Some(address), true)
          else ConnectResult([first, second], AuthErrorText(signUp.message), None, false)
  }

  /**
   * No auth call is made without an address; otherwise sign-in comes first
   * with the derived credential, and exactly one sign-up with the same
   * credential follows only when sign-in failed. The address is stored, and
   * the page navigates, exactly when one of them succeeded; otherwise the
   * error is non-empty whenever an auth call was made.
   */
  lemma ConnectSpec(wallet: WalletResponse, signIn: AuthResponse, signUp: AuthResponse)
    ensures var r := Connect(wallet, signIn, signUp);
      var address := ConnectAddress(wallet);
      && (address.None? ==> r.calls == [] && r.stored.None? && !r.navigated)
      && (wallet.NoProvider? ==> r.error == NotInstalledError)
      && (wallet.RequestFailed? ==> r.error == wallet.message)
      && (wallet.Accounts? && address.None? ==> r.error == "")
      && (address.Some? ==>
            var a := address.value;
            && r.calls == (if signIn.AuthOk? then [SignIn(Email(a), a)]
                           else [SignIn(Email(a), a), SignUp(Email(a), a, a)])
            && (r.stored.Some? <==> signIn.AuthOk? || signUp.AuthOk?)
            && (r.stored.Some? ==> r.stored == Some(a) && r.error == "")
            && (r.stored.None? ==> r.error != ""))
      && (r.navigated <==> r.stored.Some?)
  {
  }

  /** The stored address is lower case, so it is the key the profile page looks up. */
  lemma StoredAddressIsLowerCase(wallet: WalletResponse, signIn: AuthResponse, signUp: AuthResponse)
    requires Connect(wallet, signIn, signUp).stored.Some?
    ensures var a := Connect(wallet, signIn, signUp).stored.value;
      Lower(a) == a
  {
    LowerIdempotent(wallet.addresses[0]);
  }

  class LoginPage {
    var loading: bool
    var error: string
    var navigatedTo: Option<string>
    const storage: LocalStorage

    constructor (storage: LocalStorage)
      ensures this.storage == storage
      ensures !loading && error == "" && navigatedTo == None
    {
      this.storage := storage;
      loading, error, navigatedTo := false, "", None;
    }

    /**
     * `connectMetamask`: returns the auth calls it made. The error is cleared
     * first and loading ends false on every path; storage is written and the
     * page navigates only on success.
     */
    method ConnectMetamask(wallet: WalletResponse, signIn: AuthResponse, signUp: AuthResponse)
      returns (calls: seq<AuthCall>)
      modifies this, storage
      ensures var r := Connect(wallet, signIn, signUp);
        && calls == r.calls && error == r.error && !loading
        && storage.items == (if r.stored.Some? then old(storage.items)[WalletAddressKey := r.stored.value]
                             else old(storage.items))
        && navigatedTo == (if r.navigated then Some("/") else old(navigatedTo))
    {
      error := "";
      loading := true;
      calls := [];
      match wallet {
        case NoProvider =>
          error := NotInstalledError;
        case RequestFailed(message) =>
          error := message;
        case Accounts(addresses) =>
          if addresses != [] && addresses[0] != "" {
            var address := Lower(addresses[0]);
            calls := calls + [SignIn(Email(address), address)];
            var failed := signIn.AuthFailed?;
            if failed {
              calls := calls + [SignUp(Email(address), address, address)];
              if signUp.AuthFailed? {
                error := AuthErrorText(signUp.message);
              } else {
                failed := false;
              }
            }
            if !failed {
              storage.SetItem(WalletAddressKey, address);
              navigatedTo := Some("/");
            }
          }
      }
      loading := false;
    }
  }
}
