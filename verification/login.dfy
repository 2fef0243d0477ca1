/** The admin page's login gate: an in-memory "authenticated" flag mirrored by
    an `isAdmin` entry in the tab's session store. */
module Login {
  import opened Wrappers

  /** The shared secret the entered password is compared with. */
  const AdminPassword: string := "mansajadmin"

  /** The value written to the session store on a successful login. */
  const SessionFlagValue: string := "true"

  /** `isAuthenticated` and the session store's `isAdmin` entry. */
  datatype Gate = Gate(isAuthenticated: bool, sessionFlag: Option<string>)

  /** JavaScript truthiness of a possibly-missing string: present and non-empty. */
  predicate Truthy(v: Option<string>) {
    v.Some? && v.value != ""
  }

  /** The flag and the session entry tell the same story. */
  predicate Consistent(g: Gate) {
    g.isAuthenticated <==> Truthy(g.sessionFlag)
  }

  /** On page load the tab is authenticated exactly when a non-empty session
      flag survives from earlier in the session. */
  function Initial(sessionFlag: Option<string>): (g: Gate)
    ensures g.sessionFlag == sessionFlag
    ensures Consistent(g)
  {
    Gate(Truthy(sessionFlag), sessionFlag)
  }

  /** The right password authenticates and sets the session flag; any other
      password is rejected (with an alert) and changes nothing. */
  function LoginAttempt(g: Gate, password: string): (r: Gate)
    ensures password == AdminPassword ==> r.isAuthenticated && r.sessionFlag == Some(SessionFlagValue)
    ensures password != AdminPassword ==> r == g
  {
    if password == AdminPassword then Gate(true, Some(SessionFlagValue)) else g
  }

  /** Logout clears both the flag and the session entry. */
  function Logout(g: Gate): (r: Gate)
    ensures !r.isAuthenticated && r.sessionFlag.None?
  {
    Gate(false, None)
  }

  /** Login and logout keep the flag and the session entry in step. */
  lemma TransitionsKeepConsistent(g: Gate, password: string)
    requires Consistent(g)
    ensures Consistent(LoginAttempt(g, password))
    ensures Consistent(Logout(g))
  {
  }

  /** What the admin page can receive: a login-form submission or a logout. */
  datatype GateEvent = Attempt(password: string) | SignOut

  function Step(g: Gate, e: GateEvent): Gate {
    match e
    case Attempt(p) => LoginAttempt(g, p)
    case SignOut => Logout(g)
  }

  /** The gate after a sequence of events, oldest first. */
  function Run(g: Gate, es: seq<GateEvent>): Gate
    decreases |es|
  {
    if |es| == 0 then g else Step(Run(g, es[..|es| - 1]), es[|es| - 1])
  }

  /** Some correct login occurs and no logout follows it, or the tab started
      authenticated and never logged out. */
  predicate SignedInAfter(g: Gate, es: seq<GateEvent>) {
    || (exists i :: 0 <= i < |es| && es[i] == Attempt(AdminPassword)
          && forall j :: i < j < |es| ==> es[j] != SignOut)
    || (g.isAuthenticated && forall j :: 0 <= j < |es| ==> es[j] != SignOut)
  }

  /** After any run of submissions and logouts, the tab is authenticated
      exactly when a correct password was entered (or the session was already
      authenticated) and no logout came after it. Wrong passwords never matter. */
  lemma {:induction false} RunAuthenticatedIff(g: Gate, es: seq<GateEvent>)
    ensures Run(g, es).isAuthenticated <==> SignedInAfter(g, es)
    decreases |es|
  {
    if |es| > 0 {
      var n := |es| - 1;
      var pre := es[..n];
      RunAuthenticatedIff(g, pre);
      assert forall j :: 0 <= j < n ==> pre[j] == es[j];
      var e := es[n];
      if e == SignOut {
        assert !Run(g, es).isAuthenticated;
      } else if e == Attempt(AdminPassword) {
        assert Run(g, es).isAuthenticated;
        assert es[n] == Attempt(AdminPassword);
      } else {
        assert Run(g, es) == Run(g, pre);
        if SignedInAfter(g, pre) {
          if exists i :: 0 <= i < |pre| && pre[i] == Attempt(AdminPassword)
               && forall j :: i < j < |pre| ==> pre[j] != SignOut {
            var i :| 0 <= i < |pre| && pre[i] == Attempt(AdminPassword)
              && forall j :: i < j < |pre| ==> pre[j] != SignOut;
            assert es[i] == Attempt(AdminPassword);
          }
        }
        if SignedInAfter(g, es) {
          if exists i :: 0 <= i < |es| && es[i] == Attempt(AdminPassword)
               && forall j :: i < j < |es| ==> es[j] != SignOut {
            var i :| 0 <= i < |es| && es[i] == Attempt(AdminPassword)
              && forall j :: i < j < |es| ==> es[j] != SignOut;
            assert i < n;
            assert pre[i] == Attempt(AdminPassword);
          }
        }
      }
    }
  }
}
