/**
 * The root layout's start-up handler: once per process, wait a bounded number of times for the
 * auth token, restore the onboarding progress, pick the first route, and report that start-up is
 * done so the splash can go.
 */
module RootLayout {
  import opened Wrappers
  import opened Api
  import opened OnboardingSlice
  import opened OnboardingThunks

  const TabsRoute := "/(tabs)"
  const NameScreenRoute := "/name-screen"
  const OnboardingRoute := "/(onboarding)"
  const OnboardingSegment := "(onboarding)"

  /** getToken's retries after the first call. */
  const MaxTokenRetries := 10

  /** One answer of getToken: a token, which may be null or empty, or a thrown error. */
  datatype TokenReply = Got(token: Option<string>) | Threw

  predicate TokenPresent(r: TokenReply) {
    r.Got? && r.token.Some? && r.token.value != ""
  }

  /** How waiting for the token ends. */
  datatype TokenResult = TokenFound(token: string) | TokenMissing | TokenFailed

  /**
   * The token wait from call i on: stops at the first call that answers a token or throws, and
   * after the call with index 10, that is after ten retries. Returns the result and the number of
   * getToken calls made in all.
   */
  function AwaitToken(getToken: nat -> TokenReply, i: nat): (r: (TokenResult, nat))
    requires i <= MaxTokenRetries
    ensures i < r.1 <= MaxTokenRetries + 1
    ensures forall j :: i <= j < r.1 - 1 ==> getToken(j).Got? && !TokenPresent(getToken(j))
    ensures r.0.TokenFound? ==> getToken(r.1 - 1) == Got(Some(r.0.token)) && r.0.token != ""
    ensures r.0.TokenFailed? ==> getToken(r.1 - 1).Threw?
    ensures r.0.TokenMissing? ==> r.1 == MaxTokenRetries + 1 && getToken(MaxTokenRetries).Got? && !TokenPresent(getToken(MaxTokenRetries))
    decreases MaxTokenRetries - i
  {
    var reply := getToken(i);
    if reply.Threw? then (TokenFailed, i + 1)
    else if TokenPresent(reply) then (TokenFound(reply.token.value), i + 1)
    else if i == MaxTokenRetries then (TokenMissing, i + 1)
    else AwaitToken(getToken, i + 1)
  }

  /** A token that is there at the first call is used at once: getToken is called exactly once. */
  lemma TokenAtOnce(getToken: nat -> TokenReply)
    requires TokenPresent(getToken(0))
    ensures AwaitToken(getToken, 0) == (TokenFound(getToken(0).token.value), 1)
  {
  }

  /** With no token ever, the wait makes exactly eleven calls and gives up. */
  lemma {:induction false} NoTokenEver(getToken: nat -> TokenReply, i: nat)
    requires i <= MaxTokenRetries
    requires forall j :: getToken(j) == Got(None)
    ensures AwaitToken(getToken, i) == (TokenMissing, MaxTokenRetries + 1)
    decreases MaxTokenRetries - i
  {
    if i < MaxTokenRetries {
      NoTokenEver(getToken, i + 1);
    }
  }

  /**
   * The first route: signed out, the onboarding welcome unless already inside the onboarding
   * group (then the router is not touched); signed in, the catch route when getToken threw, the
   * name screen without a token or when the restore rejected, and otherwise the tabs for a
   * completed onboarding and the restored route for one in progress.
   */
  function StartupRoute(signedIn: bool, token: TokenResult, restored: RestoreOutcome, firstSegment: string,
                        previous: Option<string>): (r: Option<string>)
    ensures !signedIn && firstSegment == OnboardingSegment ==> r == previous
    ensures !signedIn && firstSegment != OnboardingSegment ==> r == Some(OnboardingRoute)
    ensures signedIn && token.TokenFailed? ==> r == Some(OnboardingRoute)
    ensures signedIn && token.TokenMissing? ==> r == Some(NameScreenRoute)
    ensures signedIn && token.TokenFound? && restored.RestoreRejected? ==> r == Some(NameScreenRoute)
    ensures signedIn && token.TokenFound? && restored.Resumed? ==>
              r == Some(if restored.isCompleted then TabsRoute else restored.route)
  {
    if !signedIn then (if firstSegment == OnboardingSegment then previous else Some(OnboardingRoute))
    else match token
      case TokenFailed => Some(OnboardingRoute)
      case TokenMissing => Some(NameScreenRoute)
      case TokenFound(_) =>
        match restored
        case RestoreRejected => Some(NameScreenRoute)
        case Resumed(_, route, completed) => Some(if completed then TabsRoute else route)
  }

  /**
   * Signed in, start-up always lands somewhere: on the tabs, on one of the fallback routes, or on
   * the screen the registry gives for some step. A completed onboarding goes to the tabs whatever
   * step was saved.
   */
  lemma SignedInRouteIsKnown(token: TokenResult, success: bool, data: Option<StatusData>, firstSegment: string,
                             previous: Option<string>)
    ensures var r := StartupRoute(true, token, RestoreFromStatus(success, data), firstSegment, previous);
            r.Some? &&
            (r.value == TabsRoute || r.value == NameScreenRoute || r.value == OnboardingRoute ||
             exists step :: ScreenFor(step) == Some(r.value))
    ensures var restored := RestoreFromStatus(success, data);
            token.TokenFound? && restored.Resumed? && restored.isCompleted ==>
              StartupRoute(true, token, restored, firstSegment, previous) == Some(TabsRoute)
  {
    var restored := RestoreFromStatus(success, data);
    if token.TokenFound? && restored.Resumed? && !restored.isCompleted {
      assert ScreenFor(restored.step) == Some(restored.route);
    }
  }

  /**
   * The process-wide start-up state: the two module-level flags, the root layout's own
   * completion flag, the route last replaced, and how often onReady has been called.
   */
  class AppSession {
    const store: OnboardingStore
    const api: ApiClient
    var authCheckHasRun: bool
    var authCheckIsComplete: bool
    /** The root layout's authCheckComplete state. */
    var authCheckComplete: bool
    var route: Option<string>
    var readyCalls: nat

    constructor (store: OnboardingStore, api: ApiClient)
      ensures this.store == store && this.api == api
      ensures !authCheckHasRun && !authCheckIsComplete && !authCheckComplete && route == None && readyCalls == 0
      ensures LayoutFollowsSession() && ShowSplash(true)
    {
      this.store := store;
      this.api := api;
      authCheckHasRun := false;
      authCheckIsComplete := false;
      authCheckComplete := false;
      route := None;
      readyCalls := 0;
    }

    /**
     * The layout's flag is set only once the module flag is: the layout copies the module flag
     * on mount, and onReady sets both.
     */
    predicate LayoutFollowsSession()
      reads this`authCheckComplete, this`authCheckIsComplete
    {
      authCheckComplete ==> authCheckIsComplete
    }

    /** A fresh root layout takes its state from the module flag, so it skips the splash once the check has completed. */
    method MountLayout()
      modifies this`authCheckComplete
      ensures authCheckComplete == authCheckIsComplete
      ensures LayoutFollowsSession()
      ensures ShowSplash(true) <==> !authCheckIsComplete
    {
      authCheckComplete := authCheckIsComplete;
    }

    /** handleAuthCheckComplete, the onReady callback: the module flag first, then the state. */
    method HandleAuthCheckComplete()
      modifies this`authCheckIsComplete, this`authCheckComplete, this`readyCalls
      ensures authCheckIsComplete && authCheckComplete && readyCalls == old(readyCalls) + 1
      ensures LayoutFollowsSession() && !ShowSplash(true)
    {
      authCheckIsComplete := true;
      authCheckComplete := true;
      readyCalls := readyCalls + 1;
    }

    /**
     * showSplash: always while the fonts load, never once the module flag says the check has
     * completed, and otherwise exactly until the sign-in check completes.
     */
    function ShowSplash(fontsLoaded: bool): (b: bool)
      reads this`authCheckComplete, this`authCheckIsComplete
      ensures !fontsLoaded ==> b
      ensures fontsLoaded && authCheckIsComplete ==> !b
      ensures LayoutFollowsSession() ==> (b <==> !fontsLoaded || !authCheckIsComplete)
    {
      !fontsLoaded || (!authCheckComplete && !authCheckIsComplete)
    }

    /**
     * The token wait: a first getToken, then up to ten retries while the token is null or empty.
     * A call that throws ends the wait.
     */
    method WaitForToken(getToken: nat -> TokenReply) returns (result: TokenResult, calls: nat)
      ensures (result, calls) == AwaitToken(getToken, 0)
    {
      var reply := getToken(0);
      calls := 1;
      if reply.Threw? {
        return TokenFailed, calls;
      }
      var retries := 0;
      while !TokenPresent(reply) && retries < MaxTokenRetries
        invariant 0 <= retries <= MaxTokenRetries && calls == retries + 1
        invariant reply == getToken(retries) && reply.Got?
        invariant AwaitToken(getToken, 0) == AwaitToken(getToken, retries)
      {
        reply := getToken(calls);
        calls := calls + 1;
        retries := retries + 1;
        if reply.Threw? {
          return TokenFailed, calls;
        }
      }
      if TokenPresent(reply) {
        result := TokenFound(reply.token.value);
      } else {
        result := TokenMissing;
      }
    }

    /**
     * InitialRouteHandler's effect. It does nothing until auth is loaded and nothing after its
     * first run; the run sets the guard before waiting, fetches the progress only when a token
     * arrived, replaces the route, and ends every path with onReady.
     */
    method InitialRouteHandler(isLoaded: bool, isSignedIn: bool, getToken: nat -> TokenReply, firstSegment: string,
                               status: Option<StatusData>) returns (tokenCalls: nat)
      modifies this`authCheckHasRun, this`authCheckIsComplete, this`authCheckComplete, this`route, this`readyCalls,
               store, api`log
      ensures !isLoaded || old(authCheckHasRun) ==>
                tokenCalls == 0 && authCheckHasRun == old(authCheckHasRun) && route == old(route) &&
                readyCalls == old(readyCalls) && api.log == old(api.log) && authCheckIsComplete == old(authCheckIsComplete) &&
                authCheckComplete == old(authCheckComplete)
      ensures isLoaded && !old(authCheckHasRun) ==>
                var wait := AwaitToken(getToken, 0);
                var fetched := isSignedIn && wait.0.TokenFound?;
                authCheckHasRun && authCheckIsComplete && authCheckComplete && readyCalls == old(readyCalls) + 1 &&
                tokenCalls == (if isSignedIn then wait.1 else 0) &&
                api.log == old(api.log) + (if fetched then [GetStatus] else []) &&
                route == StartupRoute(isSignedIn, wait.0, RestoreFromStatus(api.outcome(|old(api.log)|), status), firstSegment, old(route))
      ensures var fetched := isLoaded && !old(authCheckHasRun) && isSignedIn && AwaitToken(getToken, 0).0.TokenFound?;
              store.State() ==
                if fetched then RestoredState(old(store.State()), RestoreFromStatus(api.outcome(|old(api.log)|), status))
                else old(store.State())
      ensures tokenCalls <= MaxTokenRetries + 1
      ensures isLoaded && !old(authCheckHasRun) ==> LayoutFollowsSession() && !ShowSplash(true)
      ensures old(LayoutFollowsSession()) ==> LayoutFollowsSession()
    {
      tokenCalls := 0;
      if !isLoaded || authCheckHasRun {
        return;
      }
      authCheckHasRun := true;
      if isSignedIn {
        var token;
        token, tokenCalls := WaitForToken(getToken);
        if token.TokenFailed? {
          route := Some(OnboardingRoute);
          authCheckIsComplete := true;
          HandleAuthCheckComplete();
          return;
        }
        if token.TokenMissing? {
          route := Some(NameScreenRoute);
          HandleAuthCheckComplete();
          return;
        }
        var r := RestoreProgress(store, api, status);
        if r.Resumed? {
          route := Some(if r.isCompleted then TabsRoute else r.route);
        } else {
          route := Some(NameScreenRoute);
        }
      } else if firstSegment != OnboardingSegment {
        route := Some(OnboardingRoute);
      }
      authCheckIsComplete := true;
      HandleAuthCheckComplete();
    }
  }
}
