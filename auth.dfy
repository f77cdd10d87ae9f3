/**
 * The user list and the session of `auth.service.ts`. The list is loaded like the other stores
 * (key `users`); the logged-in user is held in memory and mirrored under `currentUser`. Storage is
 * reached through the platform wrapper, which reads nothing and writes nothing outside a browser.
 */
module Auth {
  import opened Wrappers
  import opened Text
  import opened Records
  import opened Persistence

  datatype User = User(
    id: int, username: string, email: string, password: string, fullName: string, role: string,
    avatar: string, phone: Option<string>, address: Option<string>, createdAt: string)

  /** What the `login` Observable emits. */
  datatype LoginResult = LoginResult(success: bool, user: Option<User>, message: Option<string>)

  const UsersKey := "users"
  const CurrentUserKey := "currentUser"
  const InvalidCredentials := "Invalid email or password"

  /** The `find` condition of `login`: the email matches ignoring case, the password exactly. */
  predicate Matches(u: User, email: string, password: string) {
    Lower(u.email) == Lower(email) && u.password == password
  }

  /** The user `login` picks: the first one whose credentials match. */
  function Authenticate(users: seq<User>, email: string, password: string): (r: Option<User>)
    ensures r.Some? <==> exists i :: 0 <= i < |users| && Matches(users[i], email, password)
    ensures r.Some? ==> exists k :: 0 <= k < |users| && users[k] == r.value && Matches(users[k], email, password) &&
                                    forall j :: 0 <= j < k ==> !Matches(users[j], email, password)
  {
    match FirstIndex(users, (u: User) => Matches(u, email, password))
    case None => None
    case Some(k) => Some(users[k])
  }

  /** The email comparison ignores case on both sides. */
  lemma AuthenticateIgnoresEmailCase(users: seq<User>, email: string, password: string)
    ensures Authenticate(users, Lower(email), password) == Authenticate(users, email, password)
  {
    LowerIdempotent(email);
  }

  /** Where a successful login goes: `/admin` for the admin role, the home route otherwise. */
  function LoginNavigation(u: User): (nav: Nav)
    ensures nav == Navigate(["/admin"]) <==> u.role == "admin"
    ensures nav == Navigate([""]) <==> u.role != "admin"
  {
    Navigate(if u.role == "admin" then ["/admin"] else [""])
  }

  /** `getCurrentUser`: the user in memory, else the parsed stored session, else nobody. */
  function ResolveUser(current: Option<User>, stored: Stored<User>): (u: Option<User>)
    ensures current.Some? ==> u == current
    ensures current.None? ==> (u.Some? <==> stored.Parsed?)
    ensures current.None? && stored.Parsed? ==> u == Some(stored.value)
  {
    if current.Some? then current
    else match stored
      case Parsed(v) => Some(v)
      case _ => None
  }

  /** `loadCurrentUser` in a browser: a parsed session is restored, a corrupt one is deleted. */
  function RestoreSession(entries: map<string, string>, codec: Codec<User>): (r: (Option<User>, map<string, string>))
    ensures r.0.Some? <==> ReadStored(true, entries, CurrentUserKey, codec).Parsed?
    ensures ReadStored(true, entries, CurrentUserKey, codec).Parsed? ==>
              r.0 == Some(ReadStored(true, entries, CurrentUserKey, codec).value)
    ensures r.1 ==if ReadStored(true, entries, CurrentUserKey, codec).Corrupt? then entries - {CurrentUserKey} else entries
  {
    match ReadStored(true, entries, CurrentUserKey, codec)
    case Parsed(v) => (Some(v), entries)
    case Corrupt => (None, entries - {CurrentUserKey})
    case Absent => (None, entries)
  }

  /**
   * The storage `getCurrentUser` leaves behind: with nobody in memory, a corrupt stored session is
   * removed; every other case leaves storage as it was.
   */
  function LookupEntries(browser: bool, current: Option<User>, entries: map<string, string>, codec: Codec<User>): (r: map<string, string>)
    ensures r.Keys <= entries.Keys && forall k :: k in r ==> r[k] == entries[k]
    ensures forall k :: k in entries && k != CurrentUserKey ==> k in r
    ensures CurrentUserKey !in r <==> CurrentUserKey !in entries || (current.None? && ReadStored(browser, entries, CurrentUserKey, codec).Corrupt?)
  {
    if current.None? && ReadStored(browser, entries, CurrentUserKey, codec).Corrupt? then entries - {CurrentUserKey} else entries
  }

  class AuthService {
    const browser: bool
    const storage: LocalStorage
    const usersCodec: Codec<seq<User>>
    const userCodec: Codec<User>
    /** The value of `usersSubject`. */
    var users: seq<User>
    /** The value of `currentUserSubject`. */
    var currentUser: Option<User>

    /** In a browser `loadUsers` then `loadCurrentUser`; elsewhere only `loadUsersFromJson`. */
    constructor(browser: bool, storage: LocalStorage, usersCodec: Codec<seq<User>>, userCodec: Codec<User>,
                seed: Option<seq<User>>, writeOk: bool)
      modifies storage
      ensures this.browser == browser && this.storage == storage
      ensures this.usersCodec == usersCodec && this.userCodec == userCodec
      ensures var loaded := Load(browser, UsersKey, old(storage.entries), usersCodec, seed, writeOk, false);
              users == loaded.items &&
              (currentUser, storage.entries) == (if browser then RestoreSession(loaded.entries, userCodec) else (None, loaded.entries))
    {
      var loaded := LoadInto(storage, browser, UsersKey, usersCodec, seed, writeOk, false);
      var restored: Option<User> := None;
      if browser {
        var data := storage.GetItem(CurrentUserKey);
        if data.Some? && data.value != "" {
          var parsed := userCodec.decode(data.value);
          if parsed.Some? {
            restored := parsed;
          } else {
            storage.RemoveItem(CurrentUserKey);
          }
        }
      }
      this.browser := browser;
      this.storage := storage;
      this.usersCodec := usersCodec;
      this.userCodec := userCodec;
      users := loaded;
      currentUser := restored;
    }

    /**
     * `login`: on a match the user becomes the current user, is stored under `currentUser` (when
     * the write succeeds) and the router moves on; otherwise nothing changes and the result
     * carries the fixed message.
     */
    method Login(email: string, password: string, writeOk: bool) returns (result: LoginResult, nav: Nav)
      modifies this, storage
      ensures users == old(users)
      ensures match Authenticate(old(users), email, password)
              case None =>
                result == LoginResult(false, None, Some(InvalidCredentials)) && nav == NoNav &&
                currentUser == old(currentUser) && storage.entries == old(storage.entries)
              case Some(u) =>
                result == LoginResult(true, Some(u), None) && nav == LoginNavigation(u) &&
                currentUser == Some(u) &&
                storage.entries == Written(old(storage.entries), CurrentUserKey, userCodec.encode(u), browser && writeOk)
    {
      var user := Find(users, (u: User) => Matches(u, email, password));
      if user.Some? {
        var u := user.value;
        currentUser := Some(u);
        if browser {
          var _ := storage.SetItem(CurrentUserKey, userCodec.encode(u), writeOk);
        }
        if u.role == "admin" {
          nav := Navigate(["/admin"]);
        } else {
          nav := Navigate([""]);
        }
        result := LoginResult(true, Some(u), None);
      } else {
        result := LoginResult(false, None, Some(InvalidCredentials));
        nav := NoNav;
      }
    }

    /** `logout`: the stored session is removed, nobody is current, and the router goes to `/login`. */
    method Logout() returns (nav: Nav)
      modifies this, storage
      ensures currentUser == None && users == old(users)
      ensures storage.entries == if browser then old(storage.entries) - {CurrentUserKey} else old(storage.entries)
      ensures nav == Navigate(["/login"])
    {
      if browser {
        storage.RemoveItem(CurrentUserKey);
      }
      currentUser := None;
      nav := Navigate(["/login"]);
    }

    /**
     * `getCurrentUser`: a user in memory is returned without reading storage; otherwise a parsed
     * session is cached and returned, and a corrupt one is removed.
     */
    method GetCurrentUser() returns (u: Option<User>)
      modifies this, storage
      ensures var stored := ReadStored(browser, old(storage.entries), CurrentUserKey, userCodec);
              u == ResolveUser(old(currentUser), stored) && currentUser == u &&
              storage.entries == LookupEntries(browser, old(currentUser), old(storage.entries), userCodec)
      ensures users == old(users)
    {
      if currentUser.Some? {
        return currentUser;
      }
      if browser {
        var data := storage.GetItem(CurrentUserKey);
        if data.Some? && data.value != "" {
          var parsed := userCodec.decode(data.value);
          if parsed.Some? {
            currentUser := parsed;
            return parsed;
          }
          storage.RemoveItem(CurrentUserKey);
        }
      }
      u := None;
    }

    /** `isLoggedIn`: `getCurrentUser` finds somebody. */
    method IsLoggedIn() returns (loggedIn: bool)
      modifies this, storage
      ensures var stored := ReadStored(browser, old(storage.entries), CurrentUserKey, userCodec);
              (loggedIn <==> ResolveUser(old(currentUser), stored).Some?) &&
              currentUser == ResolveUser(old(currentUser), stored) &&
              storage.entries == LookupEntries(browser, old(currentUser), old(storage.entries), userCodec)
      ensures currentUser.Some? == loggedIn && users == old(users)
    {
      var u := GetCurrentUser();
      loggedIn := u.Some?;
    }

    /** `isAdmin`: `getCurrentUser` finds somebody whose role is `admin`. */
    method IsAdmin() returns (admin: bool)
      modifies this, storage
      ensures var u := ResolveUser(old(currentUser), ReadStored(browser, old(storage.entries), CurrentUserKey, userCodec));
              (admin <==> u.Some? && u.value.role == "admin") && currentUser == u
      ensures storage.entries == LookupEntries(browser, old(currentUser), old(storage.entries), userCodec)
      ensures users == old(users)
    {
      var u := GetCurrentUser();
      admin := u.Some? && u.value.role == "admin";
    }

    /**
     * `refreshCurrentUser`: the stored session replaces the one in memory; an absent or corrupt
     * value leaves nobody current, and unlike `getCurrentUser` the corrupt value is not removed.
     */
    method RefreshCurrentUser()
      modifies this
      ensures var stored := ReadStored(browser, storage.entries, CurrentUserKey, userCodec);
              currentUser == if stored.Parsed? then Some(stored.value) else None
      ensures users == old(users)
    {
      var data := if browser then storage.GetItem(CurrentUserKey) else None;
      if data.Some? && data.value != "" {
        var parsed := userCodec.decode(data.value);
        currentUser := parsed;
      } else {
        currentUser := None;
      }
    }
  }

  /**
   * A successful login whose write succeeds is remembered: even with nothing in memory, the next
   * lookup of the current user finds the same user in storage.
   */
  lemma {:induction false} LoginIsRemembered(entries: map<string, string>, codec: Codec<User>, u: User)
    requires Lawful(codec)
    ensures ResolveUser(None, ReadStored(true, Written(entries, CurrentUserKey, codec.encode(u), true), CurrentUserKey, codec)) == Some(u)
  {
    ReadWritten(entries, CurrentUserKey, codec, u);
  }
}
