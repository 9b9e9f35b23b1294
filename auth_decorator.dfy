/** The authentication decorator of src/scryforgeauthdecorator.ts: it wraps
    the ScryForge server and, when a call fails with an authentication
    error, refreshes the tokens kept in the token vault and retries the
    call once.

    The wrapped server and the authentication server are not part of this
    model: what the first call, the retried call and the refresh request
    return are parameters. `Policy` is the specification of one decorated
    call; `ScryforgeAuthDecorator` holds the vault it updates in place. */
module AuthDecorator {
  import opened Types
  import ScryForgeCore

  /** The message of the error raised whenever recovery fails. */
  const RecoveryFailedMessage: string := "Authentication failed and token refresh unsuccessful"

  /** An error thrown by a server call: an `AuthenticationError`, or any
      other error. */
  datatype ServerError = AuthenticationError(message: string) | OtherError(message: string)

  datatype Outcome<T> = Ok(value: T) | Err(error: ServerError)

  /** What `refreshAuth` answers: the new pair of tokens, or a failure of
      any kind. */
  datatype RefreshOutcome = Refreshed(token: string, refreshToken: string) | RefreshFailed

  /** The two tokens the vault holds; a missing token is `None`. */
  datatype VaultState = VaultState(token: Option<string>, refreshToken: Option<string>)

  /** The vault after `clearToken`: neither token is left. */
  function Cleared(): VaultState
  {
    VaultState(None, None)
  }

  /** JavaScript truthiness of a token read from the vault: neither null nor
      the empty string. */
  predicate Present(t: Option<string>)
  {
    t.Some? && t.value != ""
  }

  /** Everything one decorated call does: its result, the vault afterwards,
      how often the wrapped server was called, and the tokens handed to
      the refresh request, if one was made. */
  datatype AuthRun<T> = AuthRun(
    result: Outcome<T>,
    vault: VaultState,
    innerCalls: nat,
    refreshedWith: Option<(string, string)>)

  /** `handleAuthError`: refresh the tokens and retry; any failure on the
      way clears the vault and raises the recovery-failed error. */
  function Recovery<T>(vault: VaultState, retry: Outcome<T>,
                     refresh: (string, string) -> RefreshOutcome): AuthRun<T>
  {
    var failed := Err(AuthenticationError(RecoveryFailedMessage));
    if !Present(vault.token) || !Present(vault.refreshToken) then
      AuthRun(failed, Cleared(), 0, None)
    else
      var asked := Some((vault.token.value, vault.refreshToken.value));
      match refresh(vault.token.value, vault.refreshToken.value)
      case RefreshFailed =>
        AuthRun(failed, Cleared(), 0, asked)
      case Refreshed(token, refreshToken) =>
        match retry
        case Ok(v) => AuthRun(Ok(v), VaultState(Some(token), Some(refreshToken)), 1, asked)
        case Err(_) => AuthRun(failed, Cleared(), 1, asked)
  }

  /** One decorated call (`getArucoLocations` or `getCategoryPositions`):
      an authentication error is handled, anything else passes through. */
  function Policy<T>(vault: VaultState, first: Outcome<T>, retry: Outcome<T>,
                     refresh: (string, string) -> RefreshOutcome): AuthRun<T>
  {
    match first
    case Ok(_) => AuthRun(first, vault, 1, None)
    case Err(OtherError(_)) => AuthRun(first, vault, 1, None)
    case Err(AuthenticationError(_)) =>
      var handled := Recovery(vault, retry, refresh);
      handled.(innerCalls := handled.innerCalls + 1)
  }

  /** The token vault. Its implementation is not part of this model;
      `clearToken` is taken to remove both tokens. */
  class TokenVault {
    var token: Option<string>
    var refreshToken: Option<string>

    function State(): VaultState
      reads this
    {
      VaultState(token, refreshToken)
    }

    constructor(token: Option<string>, refreshToken: Option<string>)
      ensures State() == VaultState(token, refreshToken)
    {
      this.token := token;
      this.refreshToken := refreshToken;
    }

    method SetKeys(token: string, refreshToken: string)
      modifies this
      ensures State() == VaultState(Some(token), Some(refreshToken))
    {
      this.token := Some(token);
      this.refreshToken := Some(refreshToken);
    }

    method ClearToken()
      modifies this
      ensures State() == Cleared()
    {
      token := None;
      refreshToken := None;
    }
  }

  class ScryforgeAuthDecorator {
    const vault: TokenVault

    constructor(vault: TokenVault)
      ensures this.vault == vault
    {
      this.vault := vault;
    }

    method HandleAuthError<T>(retry: Outcome<T>, refresh: (string, string) -> RefreshOutcome)
      returns (r: Outcome<T>)
      modifies vault
      ensures r == Recovery(old(vault.State()), retry, refresh).result
      ensures vault.State() == Recovery(old(vault.State()), retry, refresh).vault
    {
      var token := vault.token;
      var refreshToken := vault.refreshToken;
      if !Present(token) || !Present(refreshToken) {
        vault.ClearToken();
        return Err(AuthenticationError(RecoveryFailedMessage));
      }
      var response := refresh(token.value, refreshToken.value);
      if response.RefreshFailed? {
        vault.ClearToken();
        return Err(AuthenticationError(RecoveryFailedMessage));
      }
      vault.SetKeys(response.token, response.refreshToken);
      if retry.Err? {
        vault.ClearToken();
        return Err(AuthenticationError(RecoveryFailedMessage));
      }
      r := retry;
    }

    /** The shared body of both decorated calls. */
    method Call<T>(first: Outcome<T>, retry: Outcome<T>, refresh: (string, string) -> RefreshOutcome)
      returns (r: Outcome<T>)
      modifies vault
      ensures r == Policy(old(vault.State()), first, retry, refresh).result
      ensures vault.State() == Policy(old(vault.State()), first, retry, refresh).vault
    {
      if first.Err? && first.error.AuthenticationError? {
        r := HandleAuthError(retry, refresh);
        return;
      }
      r := first;
    }

    method GetArucoLocations(first: Outcome<MarkerSet>, retry: Outcome<MarkerSet>,
                             refresh: (string, string) -> RefreshOutcome)
      returns (r: Outcome<MarkerSet>)
      modifies vault
      ensures r == Policy(old(vault.State()), first, retry, refresh).result
      ensures vault.State() == Policy(old(vault.State()), first, retry, refresh).vault
    {
      r := Call(first, retry, refresh);
    }

    method GetCategoryPositions(first: Outcome<seq<ScryForgeCore.CategoryPosition>>,
                                retry: Outcome<seq<ScryForgeCore.CategoryPosition>>,
                                refresh: (string, string) -> RefreshOutcome)
      returns (r: Outcome<seq<ScryForgeCore.CategoryPosition>>)
      modifies vault
      ensures r == Policy(old(vault.State()), first, retry, refresh).result
      ensures vault.State() == Policy(old(vault.State()), first, retry, refresh).vault
    {
      r := Call(first, retry, refresh);
    }
  }

  // ---------------------------------------------------------------------
  // Properties of the policy
  // ---------------------------------------------------------------------

  /** A call that succeeds is passed through untouched: one call, no
      refresh, the vault unchanged. */
  lemma SuccessPassesThrough<T>(vault: VaultState, v: T, retry: Outcome<T>,
                                refresh: (string, string) -> RefreshOutcome)
    ensures Policy(vault, Ok(v), retry, refresh) == AuthRun(Ok(v), vault, 1, None)
  {
  }

  /** Any error other than an authentication error is re-thrown as it is,
      without touching the vault or the authentication server. */
  lemma OtherErrorPropagates<T>(vault: VaultState, m: string, retry: Outcome<T>,
                                refresh: (string, string) -> RefreshOutcome)
    ensures Policy(vault, Err(OtherError(m)), retry, refresh) ==
      AuthRun(Err(OtherError(m)), vault, 1, None)
  {
  }

  /** With a token or the refresh token missing or empty, no refresh is
      attempted: the vault is cleared and the recovery-failed error raised. */
  lemma MissingTokenClearsVault<T>(vault: VaultState, m: string, retry: Outcome<T>,
                                   refresh: (string, string) -> RefreshOutcome)
    requires !Present(vault.token) || !Present(vault.refreshToken)
    ensures Policy(vault, Err(AuthenticationError(m)), retry, refresh) ==
      AuthRun(Err(AuthenticationError(RecoveryFailedMessage)), Cleared(), 1, None)
  {
  }

  /** After an authentication error the refresh request carries exactly the
      two tokens held in the vault. */
  lemma RefreshUsesVaultTokens<T>(vault: VaultState, m: string, retry: Outcome<T>,
                                  refresh: (string, string) -> RefreshOutcome)
    requires Present(vault.token) && Present(vault.refreshToken)
    ensures Policy(vault, Err(AuthenticationError(m)), retry, refresh).refreshedWith ==
      Some((vault.token.value, vault.refreshToken.value))
  {
  }

  /** A successful refresh followed by a successful retry returns the
      retry's value and leaves the new tokens in the vault. */
  lemma RefreshThenRetry<T>(vault: VaultState, m: string, v: T, token: string, refreshToken: string,
                            refresh: (string, string) -> RefreshOutcome)
    requires Present(vault.token) && Present(vault.refreshToken)
    requires refresh(vault.token.value, vault.refreshToken.value) == Refreshed(token, refreshToken)
    ensures Policy(vault, Err(AuthenticationError(m)), Ok(v), refresh) ==
      AuthRun(Ok(v), VaultState(Some(token), Some(refreshToken)), 2,
              Some((vault.token.value, vault.refreshToken.value)))
  {
  }

  /** Whatever goes wrong after an authentication error (no tokens, a
      failed refresh, a retry that throws anything) ends the same way:
      vault cleared, recovery-failed error. */
  lemma RecoveryFailureClearsVault<T>(vault: VaultState, m: string, retry: Outcome<T>,
                                      refresh: (string, string) -> RefreshOutcome)
    ensures var run := Policy(vault, Err(AuthenticationError(m)), retry, refresh);
      run.result.Err? ==>
        run.result == Err(AuthenticationError(RecoveryFailedMessage)) && run.vault == Cleared()
  {
  }

  /** The wrapped server is called at most twice, and a second time exactly
      when an authentication error was followed by a successful refresh. */
  lemma AtMostOneRetry<T>(vault: VaultState, first: Outcome<T>, retry: Outcome<T>,
                          refresh: (string, string) -> RefreshOutcome)
    ensures var run := Policy(vault, first, retry, refresh);
      && 1 <= run.innerCalls <= 2
      && (run.innerCalls == 2 <==>
            first.Err? && first.error.AuthenticationError?
            && run.refreshedWith.Some?
            && refresh(run.refreshedWith.value.0, run.refreshedWith.value.1).Refreshed?)
  {
  }

  /** The vault ends in one of three states: as it was (no authentication
      error), holding freshly refreshed tokens (recovered), or cleared
      (recovery failed); an authentication error reaches the caller only as
      the recovery-failed error, and only with the vault cleared. */
  lemma VaultOutcomes<T>(vault: VaultState, first: Outcome<T>, retry: Outcome<T>,
                         refresh: (string, string) -> RefreshOutcome)
    ensures var run := Policy(vault, first, retry, refresh);
      && (run.vault == vault
          || run.vault == Cleared()
          || (run.result.Ok? && run.refreshedWith.Some?
              && refresh(run.refreshedWith.value.0, run.refreshedWith.value.1)
                 == Refreshed(run.vault.token.value, run.vault.refreshToken.value)))
      && (run.result.Err? && run.result.error.AuthenticationError? ==>
            run.result.error.message == RecoveryFailedMessage && run.vault == Cleared())
      && (run.result.Err? && run.result.error.OtherError? ==> run.result == first && run.vault == vault)
  {
  }
}
