/** The page guard run before every matched request: pages behind the login
    send a visitor without a session to /login, the payment page is for
    ADMIN only and the checkout page for ADMIN and MANAGER. */
module Middleware {
  import opened Schema

  /** The session token the guard reads: none, or one with an optional role. */
  datatype Session = Session(role: Option<string>)

  datatype Decision = RedirectLogin | RedirectUnauthorized | Next

  /** The pages that need a session, matched as path prefixes. */
  const ProtectedPrefixes: seq<string> :=
    ["/dashboard", "/orders", "/restaurants", "/update-payment", "/profile", "/cart", "/checkout", "/place-order"]

  /** The path starts with one of `prefixes`. */
  predicate StartsWithAny(path: string, prefixes: seq<string>)
    decreases |prefixes|
  {
    |prefixes| > 0 && (prefixes[0] <= path || StartsWithAny(path, prefixes[1..]))
  }

  predicate Protected(path: string) {
    StartsWithAny(path, ProtectedPrefixes)
  }

  /** The path needs the ADMIN role. */
  predicate AdminOnly(path: string) {
    "/update-payment" <= path
  }

  /** The path needs the ADMIN or MANAGER role. */
  predicate StaffOnly(path: string) {
    "/checkout" <= path
  }

  /** `token?.role`, undefined without a session. */
  function RoleOf(token: Option<Session>): Option<string> {
    if token.Some? then token.value.role else None
  }

  /** The guard's decision: the login check first, then the two role checks. */
  function Decide(path: string, token: Option<Session>): (d: Decision)
    ensures d == RedirectLogin <==> token.None? && Protected(path)
    ensures d == RedirectUnauthorized <==>
              && (token.Some? || !Protected(path))
              && ((AdminOnly(path) && RoleOf(token) != Some(Admin)) ||
                  (StaffOnly(path) && RoleOf(token) != Some(Admin) && RoleOf(token) != Some(Manager)))
    ensures d == Next <==>
              && (token.Some? || !Protected(path))
              && (AdminOnly(path) ==> RoleOf(token) == Some(Admin))
              && (StaffOnly(path) ==> RoleOf(token) in {Some(Admin), Some(Manager)})
  {
    if Protected(path) && token.None? then RedirectLogin
    else if AdminOnly(path) && RoleOf(token) != Some(Admin) then RedirectUnauthorized
    else if StaffOnly(path) && RoleOf(token) != Some(Admin) && RoleOf(token) != Some(Manager) then RedirectUnauthorized
    else Next
  }

  /** A path is protected exactly when one of the eight prefixes starts it. */
  lemma ProtectedMeansPrefix(path: string)
    ensures Protected(path) <==> exists i :: 0 <= i < |ProtectedPrefixes| && ProtectedPrefixes[i] <= path
  {
    StartsWithAnyMeans(path, ProtectedPrefixes);
  }

  lemma {:induction false} StartsWithAnyMeans(path: string, prefixes: seq<string>)
    ensures StartsWithAny(path, prefixes) <==> exists i :: 0 <= i < |prefixes| && prefixes[i] <= path
  {
    if StartsWithAny(path, prefixes) {
      StartsWithAnyWitness(path, prefixes);
    } else {
      forall i | 0 <= i < |prefixes| ensures !(prefixes[i] <= path) {
        if prefixes[i] <= path {
          StartsWithAnyHolds(path, prefixes, i);
        }
      }
    }
  }

  lemma {:induction false} StartsWithAnyWitness(path: string, prefixes: seq<string>)
    requires StartsWithAny(path, prefixes)
    ensures exists i :: 0 <= i < |prefixes| && prefixes[i] <= path
    decreases |prefixes|
  {
    if !(prefixes[0] <= path) {
      StartsWithAnyWitness(path, prefixes[1..]);
      var i :| 0 <= i < |prefixes[1..]| && prefixes[1..][i] <= path;
      assert prefixes[i + 1] <= path;
    }
  }

  lemma {:induction false} StartsWithAnyHolds(path: string, prefixes: seq<string>, i: nat)
    requires i < |prefixes| && prefixes[i] <= path
    ensures StartsWithAny(path, prefixes)
    decreases i
  {
    if i > 0 {
      StartsWithAnyHolds(path, prefixes[1..], i - 1);
    }
  }

  /** Both role-gated pages are behind the login, so a visitor without a
      session is sent to /login there, never to /unauthorized. */
  lemma {:induction false} NoSessionNeverUnauthorized(path: string)
    ensures Decide(path, None) != RedirectUnauthorized
  {
    if AdminOnly(path) {
      StartsWithAnyHolds(path, ProtectedPrefixes, 3);
    } else if StaffOnly(path) {
      StartsWithAnyHolds(path, ProtectedPrefixes, 6);
    }
  }

  /** Matching is by prefix: "/cartx" and "/checkout-old" are guarded like
      "/cart" and "/checkout". */
  lemma PrefixMatchExamples()
    ensures Decide("/cartx", None) == RedirectLogin
    ensures Decide("/checkout-old", Some(Session(Some(Member)))) == RedirectUnauthorized
    ensures Decide("/update-payment/x", Some(Session(Some(Manager)))) == RedirectUnauthorized
    ensures Decide("/", None) == Next
  {
    assert "/cart" <= "/cartx";
    assert "/checkout" <= "/checkout-old";
    assert "/update-payment" <= "/update-payment/x";
    assert !Protected("/");
  }
}
