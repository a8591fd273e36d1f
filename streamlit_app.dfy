/** The application script: the session slots (`user`, `results`), the auth
    handlers and their error display, the reset-email guard, logout, the search
    step, and the routing between the auth screen and the tool finder. Every
    Streamlit rerun executes the script top to bottom; a button press is seen as
    that button returning true during one rerun. Replies of the identity provider
    and of the backend are parameters. */
module StreamlitApp {
  import opened Wrappers
  import opened Text
  import opened AuthErrors
  import opened Firebase
  import opened Finder

  /** The user record the identity provider returns on sign-in (opaque here). */
  datatype User = User(localId: string, idToken: string)

  /** A message the page shows: `st.toast`, `st.success`, `st.error`, `st.warning`. */
  datatype Notice = Toast(text: string) | SuccessBox(text: string) | ErrorBox(text: string) | WarningBox(text: string)

  /** A request sent to the identity provider through the auth service handle. */
  datatype ProviderCall =
    | SignIn(email: string, password: string)
    | CreateUser(email: string, password: string)
    | SendResetEmail(email: string)

  datatype Screen = AuthScreen | ToolFinder

  /** The screen the script renders for a session. */
  function Route(user: Option<User>): (screen: Screen)
    ensures screen == ToolFinder <==> user.Some?
  {
    if user.None? then AuthScreen else ToolFinder
  }

  /** What one handler did, as far as the session's user slot is concerned. */
  datatype SessionEvent = LoginSucceeded(user: User) | LoginFailed | SignupHandled | ResetHandled | LoggedOut

  /** The user slot after one event: only a successful login fills it, only a
      login or a logout changes it. */
  function NextUser(user: Option<User>, e: SessionEvent): (next: Option<User>)
    ensures next != user ==> e.LoginSucceeded? || e.LoggedOut?
    ensures next.Some? ==> next == user || e == LoginSucceeded(next.value)
    ensures e.LoggedOut? ==> next == None
    ensures e.LoginSucceeded? ==> next == Some(e.user)
  {
    match e
    case LoginSucceeded(u) => Some(u)
    case LoggedOut => None
    case _ => user
  }

  /** The user slot after a succession of events, oldest first: a final logout
      leaves it empty, a final successful login leaves that login's user. */
  function Replay(user: Option<User>, es: seq<SessionEvent>): (r: Option<User>)
    ensures es != [] && es[|es| - 1].LoggedOut? ==> r == None
    ensures es != [] && es[|es| - 1].LoginSucceeded? ==> r == Some(es[|es| - 1].user)
    ensures (forall j :: 0 <= j < |es| ==> !es[j].LoginSucceeded? && !es[j].LoggedOut?) ==> r == user
    decreases |es|
  {
    if es == [] then user else Replay(NextUser(user, es[0]), es[1..])
  }

  /** Replaying the events of one rerun after those of the earlier reruns is
      replaying all of them at once: a session is the concatenation of its reruns. */
  lemma {:induction false} ReplayAppend(u: Option<User>, a: seq<SessionEvent>, b: seq<SessionEvent>)
    ensures Replay(Replay(u, a), b) == Replay(u, a + b)
    decreases |a|
  {
    if a == [] {
      assert a + b == b;
    } else {
      ReplayAppend(NextUser(u, a[0]), a[1..], b);
      assert (a + b)[1..] == a[1..] + b;
    }
  }

  /** The session holds a user only if it started with that user or a successful
      login produced it: failed logins, signups and resets never set it. */
  lemma {:induction false} OnlyLoginSetsUser(u0: Option<User>, es: seq<SessionEvent>)
    requires Replay(u0, es).Some? && Replay(u0, es) != u0
    ensures exists i :: 0 <= i < |es| && es[i] == LoginSucceeded(Replay(u0, es).value)
    decreases |es|
  {
    var u1 := NextUser(u0, es[0]);
    if Replay(u1, es[1..]) == u1 {
      assert es[0] == LoginSucceeded(u1.value);
    } else {
      OnlyLoginSetsUser(u1, es[1..]);
      var i :| 0 <= i < |es[1..]| && es[1..][i] == LoginSucceeded(Replay(u1, es[1..]).value);
      assert es[i + 1] == es[1..][i];
    }
  }

  /** After a logout that no successful login follows, the session holds no user,
      whatever happened before; so logging out twice is logging out once. */
  lemma {:induction false} LogoutClearsUntilLogin(u0: Option<User>, es: seq<SessionEvent>, k: nat)
    requires k < |es| && es[k] == LoggedOut
    requires forall j :: k < j < |es| ==> !es[j].LoginSucceeded?
    ensures Replay(u0, es) == None
    decreases |es|
  {
    if k == 0 {
      StaysSignedOut(None, es[1..]);
    } else {
      LogoutClearsUntilLogin(NextUser(u0, es[0]), es[1..], k - 1);
    }
  }

  /** Without a successful login, a signed-out session stays signed out. */
  lemma {:induction false} StaysSignedOut(u0: Option<User>, es: seq<SessionEvent>)
    requires u0 == None
    requires forall j :: 0 <= j < |es| ==> !es[j].LoginSucceeded?
    ensures Replay(u0, es) == None
    decreases |es|
  {
    if es != [] {
      StaysSignedOut(NextUser(u0, es[0]), es[1..]);
    }
  }

  /** When the configuration misses settings, an auth handler's call to `auth()`
      raises the configuration error, and the classifier shows it behind the
      "Auth error: " prefix: the message carries no provider code. */
  lemma MissingConfigShownAsAuthError(env: map<string, string>)
    ensures ParseAuthError(MissingMessage(Missing(BuildConfig(env)))) ==
              FallbackPrefix + MissingMessage(Missing(BuildConfig(env)))
  {
    MissingMessageHasNoUnderscore(env);
    NoUnderscoreFallsBack(MissingMessage(Missing(BuildConfig(env))));
  }

  /** A button press on the auth screen during one rerun (at most one per rerun). */
  datatype AuthInput =
    | NoPress
    | LoginPressed(email: string, password: string)
    | SignupPressed(email: string, password: string)
    | ResetPressed(email: string)

  /** The tool finder's widgets during one rerun. */
  datatype FinderInput = FinderInput(logoutPressed: bool, query: string, findPressed: bool)

  /** What the outside world answers during one rerun, should it be asked:
      the handle pyrebase would create, the provider's replies and the backend's. */
  datatype Replies = Replies(
    created: AppHandle,
    signIn: Result<User, string>,
    signUp: Result<User, string>,
    resetMail: Outcome<string>,
    backend: BackendReply)

  /** `st.session_state` together with the Firebase module it calls into. */
  class App {
    var user: Option<User>
    var results: seq<Tool>
    const client: Client

    ghost predicate Valid()
      reads client
    {
      client.Valid()
    }

    /** First run of a session: no user, no results. */
    constructor (client: Client)
      requires client.Valid()
      ensures Valid() && this.client == client
      ensures user == None && results == []
    {
      this.client := client;
      user, results := None, [];
    }

    /** `do_login`: sign in with the stripped email; only success sets the user,
        any exception (including a configuration error raised by `auth()`) is
        classified and shown, and the user slot is left as it was. */
    method Login(email: string, password: string, created: AppHandle, reply: Result<User, string>)
      returns (call: Option<ProviderCall>, event: SessionEvent, notice: Notice)
      requires Valid()
      modifies this, client
      ensures Valid() && results == old(results)
      ensures call.Some? <==> Missing(client.config) == []
      ensures call.Some? ==> call.value == SignIn(Strip(email), password)
      ensures event == if call.Some? && reply.Success? then LoginSucceeded(reply.value) else LoginFailed
      ensures user == NextUser(old(user), event)
      ensures client.app == if old(client.app).Some? then old(client.app)
                            else if Missing(client.config) == [] then Some(created) else None
      ensures call.None? ==> notice == ErrorBox(ParseAuthError(MissingMessage(Missing(client.config))))
      ensures call.Some? && reply.Success? ==> notice == Toast("Logged in")
      ensures call.Some? && !reply.Success? ==> notice == ErrorBox(ParseAuthError(reply.error))
    {
      var service := client.Auth(created);
      if service.Failure? {
        call, event, notice := None, LoginFailed, ErrorBox(ParseAuthError(service.error));
      } else {
        call := Some(SignIn(Strip(email), password));
        if reply.Success? {
          user := Some(reply.value);
          event, notice := LoginSucceeded(reply.value), Toast("Logged in");
        } else {
          event, notice := LoginFailed, ErrorBox(ParseAuthError(reply.error));
        }
      }
    }

    /** `do_signup`: create the account with the stripped email; the session is
        never touched, whatever the outcome. */
    method Signup(email: string, password: string, created: AppHandle, reply: Result<User, string>)
      returns (call: Option<ProviderCall>, event: SessionEvent, notice: Notice)
      requires Valid()
      modifies client
      ensures Valid()
      ensures call.Some? <==> Missing(client.config) == []
      ensures call.Some? ==> call.value == CreateUser(Strip(email), password)
      ensures event == SignupHandled
      ensures client.app == if old(client.app).Some? then old(client.app)
                            else if Missing(client.config) == [] then Some(created) else None
      ensures call.None? ==> notice == ErrorBox(ParseAuthError(MissingMessage(Missing(client.config))))
      ensures call.Some? && reply.Success? ==> notice == SuccessBox("Account created. You can login now.")
      ensures call.Some? && !reply.Success? ==> notice == ErrorBox(ParseAuthError(reply.error))
    {
      event := SignupHandled;
      var service := client.Auth(created);
      if service.Failure? {
        call, notice := None, ErrorBox(ParseAuthError(service.error));
      } else {
        call := Some(CreateUser(Strip(email), password));
        notice := if reply.Success? then SuccessBox("Account created. You can login now.") else ErrorBox(ParseAuthError(reply.error));
      }
    }

    /** `do_reset`: ask for a reset email to the stripped address; the session is
        never touched. */
    method Reset(email: string, created: AppHandle, reply: Outcome<string>)
      returns (call: Option<ProviderCall>, event: SessionEvent, notice: Notice)
      requires Valid()
      modifies client
      ensures Valid()
      ensures call.Some? <==> Missing(client.config) == []
      ensures call.Some? ==> call.value == SendResetEmail(Strip(email))
      ensures event == ResetHandled
      ensures client.app == if old(client.app).Some? then old(client.app)
                            else if Missing(client.config) == [] then Some(created) else None
      ensures call.None? ==> notice == ErrorBox(ParseAuthError(MissingMessage(Missing(client.config))))
      ensures call.Some? && reply.Pass? ==> notice == SuccessBox("Password reset email sent.")
      ensures call.Some? && !reply.Pass? ==> notice == ErrorBox(ParseAuthError(reply.error))
    {
      event := ResetHandled;
      var service := client.Auth(created);
      if service.Failure? {
        call, notice := None, ErrorBox(ParseAuthError(service.error));
      } else {
        call := Some(SendResetEmail(Strip(email)));
        notice := if reply.Pass? then SuccessBox("Password reset email sent.") else ErrorBox(ParseAuthError(reply.error));
      }
    }

    /** The "Send reset email" button: a blank address (empty after stripping) is
        refused with a warning before anything is asked of Firebase. */
    method ResetClicked(email: string, created: AppHandle, reply: Outcome<string>)
      returns (call: Option<ProviderCall>, event: SessionEvent, notice: Notice)
      requires Valid()
      modifies client
      ensures Valid()
      ensures Strip(email) == "" ==>
                call.None? && notice == WarningBox("Enter your email first.") && unchanged(client)
      ensures Strip(email) != "" ==> (call.Some? <==> Missing(client.config) == [])
      ensures call.Some? ==> call.value == SendResetEmail(Strip(email)) && Strip(email) != ""
      ensures Strip(email) != "" && call.None? ==>
                notice == ErrorBox(ParseAuthError(MissingMessage(Missing(client.config))))
      ensures call.Some? && reply.Pass? ==> notice == SuccessBox("Password reset email sent.")
      ensures call.Some? && reply.Fail? ==> notice == ErrorBox(ParseAuthError(reply.error))
      ensures event == ResetHandled
      ensures Strip(email) != "" ==> client.app == if old(client.app).Some? then old(client.app)
                            else if Missing(client.config) == [] then Some(created) else None
    {
      if Strip(email) == "" {
        return None, ResetHandled, WarningBox("Enter your email first.");
      }
      call, event, notice := Reset(email, created, reply);
    }

    /** The "Logout" button: the user slot is cleared, whatever it held. */
    method Logout() returns (event: SessionEvent, notice: Notice)
      modifies this`user
      ensures user == None
      ensures event == LoggedOut && user == NextUser(old(user), event)
      ensures notice == Toast("Logged out")
    {
      user := None;
      event, notice := LoggedOut, Toast("Logged out");
    }

    /** The search step: with a non-empty query (button or not) the results slot is
        replaced wholesale by what `fetch_tools` returns, errors giving the empty
        list; with an empty query nothing is fetched and the slot keeps its value. */
    method Search(query: string, findPressed: bool, reply: BackendReply)
      returns (fetched: bool, notice: Option<Notice>)
      modifies this`results
      ensures fetched <==> query != ""
      ensures results == if fetched then FetchTools(reply).tools else old(results)
      ensures notice == if fetched && FetchTools(reply).error.Some?
                        then Some(ErrorBox(FetchTools(reply).error.value)) else None
    {
      fetched := ShouldFetch(query, findPressed);
      notice := None;
      if fetched {
        var r := FetchTools(reply);
        results := r.tools;
        if r.error.Some? {
          notice := Some(ErrorBox(r.error.value));
        }
      }
    }

    /** `render_tool_finder`: the logout button, then the search step, then the
        cards. A logout does not end the pass: the search still runs on a
        non-empty query, and the tool finder disappears only on the next rerun. */
    method ToolFinderPass(input: FinderInput, reply: BackendReply)
      returns (events: seq<SessionEvent>, fetched: bool, notices: seq<Notice>, grid: seq<seq<Cell>>)
      modifies this`user, this`results
      ensures user == Replay(old(user), events)
      ensures events == if input.logoutPressed then [LoggedOut] else []
      ensures notices == (if input.logoutPressed then [Toast("Logged out")] else []) +
                         (if fetched && FetchTools(reply).error.Some?
                          then [ErrorBox(FetchTools(reply).error.value)] else [])
      ensures fetched <==> input.query != ""
      ensures results == if fetched then FetchTools(reply).tools else old(results)
      ensures |grid| == 3
      ensures results == [] ==> forall c :: 0 <= c < 3 ==> grid[c] == [Placeholder, Placeholder]
      ensures results != [] ==> forall c :: 0 <= c < 3 ==> |grid[c]| == (|results| + 2 - c) / 3
      ensures forall i :: 0 <= i < |results| ==> i / 3 < |grid[i % 3]| && grid[i % 3][i / 3] == Card(results[i])
    {
      events, notices := [], [];
      if input.logoutPressed {
        var e, n := Logout();
        events, notices := [e], [n];
      }
      var shown;
      fetched, shown := Search(input.query, input.findPressed, reply);
      if shown.Some? {
        notices := notices + [shown.value];
      }
      grid := RenderResults(results);
    }

    /** The auth screen's handlers for one rerun. */
    method AuthPass(input: AuthInput, replies: Replies)
      returns (events: seq<SessionEvent>, calls: seq<ProviderCall>, notices: seq<Notice>)
      requires Valid()
      modifies this, client
      ensures Valid() && results == old(results)
      ensures user == Replay(old(user), events)
      ensures user != old(user) ==> input.LoginPressed? && replies.signIn.Success? && user == Some(replies.signIn.value)
      ensures input.NoPress? ==> events == [] && calls == [] && notices == [] && unchanged(client)
      ensures input.LoginPressed? ==>
                && events == [if Missing(client.config) == [] && replies.signIn.Success?
                              then LoginSucceeded(replies.signIn.value) else LoginFailed]
                && calls == if Missing(client.config) == [] then [SignIn(Strip(input.email), input.password)] else []
      ensures input.LoginPressed? && Missing(client.config) == [] ==>
                notices == [if replies.signIn.Success? then Toast("Logged in")
                            else ErrorBox(ParseAuthError(replies.signIn.error))]
      ensures input.SignupPressed? ==>
                && events == [SignupHandled]
                && calls == if Missing(client.config) == [] then [CreateUser(Strip(input.email), input.password)] else []
      ensures input.SignupPressed? && Missing(client.config) == [] ==>
                notices == [if replies.signUp.Success? then SuccessBox("Account created. You can login now.")
                            else ErrorBox(ParseAuthError(replies.signUp.error))]
      ensures input.ResetPressed? && Strip(input.email) == "" ==>
                && events == [ResetHandled] && calls == []
                && notices == [WarningBox("Enter your email first.")] && unchanged(client)
      ensures input.ResetPressed? && Strip(input.email) != "" ==>
                && events == [ResetHandled]
                && calls == if Missing(client.config) == [] then [SendResetEmail(Strip(input.email))] else []
      ensures input.ResetPressed? && Strip(input.email) != "" && Missing(client.config) == [] ==>
                notices == [if replies.resetMail.Pass? then SuccessBox("Password reset email sent.")
                            else ErrorBox(ParseAuthError(replies.resetMail.error))]
      ensures (input.LoginPressed? || input.SignupPressed? || (input.ResetPressed? && Strip(input.email) != ""))
              && Missing(client.config) != [] ==>
                notices == [ErrorBox(ParseAuthError(MissingMessage(Missing(client.config))))]
      ensures (input.LoginPressed? || input.SignupPressed? || (input.ResetPressed? && Strip(input.email) != "")) ==>
                client.app == if old(client.app).Some? then old(client.app)
                              else if Missing(client.config) == [] then Some(replies.created) else None
    {
      events, calls, notices := [], [], [];
      if input.LoginPressed? {
        var call, e, n := Login(input.email, input.password, replies.created, replies.signIn);
        events, calls, notices := [e], if call.Some? then [call.value] else [], [n];
      } else if input.SignupPressed? {
        var call, e, n := Signup(input.email, input.password, replies.created, replies.signUp);
        events, calls, notices := [e], if call.Some? then [call.value] else [], [n];
      } else if input.ResetPressed? {
        var call, e, n := ResetClicked(input.email, replies.created, replies.resetMail);
        events, calls, notices := [e], if call.Some? then [call.value] else [], [n];
      }
    }

    /** One rerun of the script: the screen is chosen from the user slot as it
        stands when the script starts; only that screen's widgets can be pressed. */
    method Rerun(authInput: AuthInput, finderInput: FinderInput, replies: Replies)
      returns (screen: Screen, events: seq<SessionEvent>, calls: seq<ProviderCall>, fetched: bool, notices: seq<Notice>)
      requires Valid()
      modifies this, client
      ensures Valid()
      ensures screen == Route(old(user))
      ensures user == Replay(old(user), events)
      ensures screen == AuthScreen ==> !fetched && results == old(results)
      ensures screen == AuthScreen ==>
                user == if authInput.LoginPressed? && Missing(client.config) == [] && replies.signIn.Success?
                        then Some(replies.signIn.value) else None
      ensures screen == ToolFinder ==> calls == [] && unchanged(client)
      ensures screen == ToolFinder ==> (fetched <==> finderInput.query != "")
      ensures screen == ToolFinder ==> user == if finderInput.logoutPressed then None else old(user)
      ensures screen == ToolFinder ==> events == if finderInput.logoutPressed then [LoggedOut] else []
      ensures screen == AuthScreen ==>
                events == match authInput
                          case NoPress => []
                          case LoginPressed(_, _) =>
                            [if Missing(client.config) == [] && replies.signIn.Success?
                             then LoginSucceeded(replies.signIn.value) else LoginFailed]
                          case SignupPressed(_, _) => [SignupHandled]
                          case ResetPressed(_) => [ResetHandled]
      ensures screen == ToolFinder ==> results == if fetched then FetchTools(replies.backend).tools else old(results)
    {
      screen := Route(user);
      if screen == AuthScreen {
        events, calls, notices := AuthPass(authInput, replies);
        fetched := false;
      } else {
        var grid;
        calls := [];
        events, fetched, notices, grid := ToolFinderPass(finderInput, replies.backend);
      }
    }
  }
}
