/**
 * `ProtectedRoute`: renders its children when `localStorage` holds a truthy
 * `token` and otherwise redirects to the login route `/`. It reads storage
 * and nothing else, so it is a function of the storage map.
 */
module Guard {
  import opened Js
  import opened Api
  import opened Session

  /** What the route renders: a redirect or the wrapped children, untouched. */
  datatype Route<T> = Redirect(to: string) | Render(children: T)

  function ProtectedRoute<T>(storage: map<string, string>, children: T): (r: Route<T>)
    ensures r.Render? <==> TokenKey in storage && storage[TokenKey] != ""
    ensures r.Render? ==> r.children == children
    ensures r.Redirect? ==> r.to == "/"
  {
    if !TruthyText(Lookup(storage, TokenKey)) then Redirect("/") else Render(children)
  }

  /** The decision depends on the `token` entry only, never on `userId`, `name` or any other key. */
  lemma GuardReadsOnlyToken<T>(m1: map<string, string>, m2: map<string, string>, children: T)
    requires Lookup(m1, TokenKey) == Lookup(m2, TokenKey)
    ensures ProtectedRoute(m1, children) == ProtectedRoute(m2, children)
  {
  }

  /** An empty token is as good as none: the check is falsiness, not presence. */
  lemma GuardRejectsEmptyToken<T>(m: map<string, string>, children: T)
    ensures ProtectedRoute(m[TokenKey := ""], children) == Redirect("/")
  {
  }

  /** After logout the guard always redirects, whatever else storage holds. */
  lemma GuardAfterLogout<T>(m: map<string, string>, children: T)
    ensures ProtectedRoute(StoreLogout(m), children) == Redirect("/")
  {
  }

  /** After a login the guard lets the user through exactly when the server sent a non-empty token. */
  lemma GuardAfterLogin<T>(m: map<string, string>, user: User, token: string, children: T)
    ensures ProtectedRoute(StoreLogin(m, user, token), children) ==
            (if token == "" then Redirect("/") else Render(children))
  {
  }
}
