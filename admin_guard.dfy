/** The route guard of `admin.guard.ts`, which lets only an admin session into the admin pages. */
module AdminGuard {
  import opened Wrappers
  import opened Persistence
  import opened Auth

  /** The guard's answer for the user `getCurrentUser` found, and the redirect it makes. */
  datatype Decision = Decision(allowed: bool, nav: Nav)

  function Decide(currentUser: Option<User>): (d: Decision)
    ensures d.allowed <==> currentUser.Some? && currentUser.value.role == "admin"
    ensures d.allowed ==> d.nav == NoNav
    ensures !d.allowed ==> d.nav == Navigate(["/forbidden"])
  {
    if currentUser.Some? && currentUser.value.role == "admin" then Decision(true, NoNav)
    else Decision(false, Navigate(["/forbidden"]))
  }

  /** Without a session, or with a customer session, the guard refuses and redirects. */
  lemma NonAdminRefused(u: User)
    requires u.role == "customer"
    ensures Decide(None) == Decision(false, Navigate(["/forbidden"]))
    ensures Decide(Some(u)) == Decision(false, Navigate(["/forbidden"]))
  {
  }

  /** `adminGuard`: ask the auth service for the current user, then decide. */
  method CanActivate(auth: AuthService) returns (d: Decision)
    modifies auth, auth.storage
    ensures d == Decide(ResolveUser(old(auth.currentUser),
                                    ReadStored(auth.browser, old(auth.storage.entries), CurrentUserKey, auth.userCodec)))
    ensures auth.currentUser == ResolveUser(old(auth.currentUser),
                                            ReadStored(auth.browser, old(auth.storage.entries), CurrentUserKey, auth.userCodec))
    ensures auth.storage.entries == LookupEntries(auth.browser, old(auth.currentUser), old(auth.storage.entries), auth.userCodec)
    ensures auth.users == old(auth.users)
  {
    var currentUser := auth.GetCurrentUser();
    if currentUser.Some? && currentUser.value.role == "admin" {
      return Decision(true, NoNav);
    }
    d := Decision(false, Navigate(["/forbidden"]));
  }
}
