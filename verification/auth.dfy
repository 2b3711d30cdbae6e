/**
 * The user table of auth.py: users with a password hash and a role, the
 * signed-in user, and the account operations. SHA-256 is a function the
 * manager is given (nothing is assumed of it, not even injectivity), the
 * clock is a parameter, and users.json is not read or written: the users
 * it held are a constructor parameter.
 */
module Auth {
  import opened Wrappers

  class User {
    const username: string
    var passwordHash: string
    var role: string
    const fullName: string
    const createdAt: string
    var lastLogin: Option<string>

    /** `User(username, password_hash, role, full_name)`: the full name defaults to the user name. */
    constructor(username: string, passwordHash: string, role: string, fullName: string, now: string)
      ensures this.username == username && this.passwordHash == passwordHash && this.role == role
      ensures this.fullName == (if fullName == "" then username else fullName)
      ensures createdAt == now && lastLogin == None
    {
      this.username := username;
      this.passwordHash := passwordHash;
      this.role := role;
      this.fullName := if fullName == "" then username else fullName;
      this.createdAt := now;
      this.lastLogin := None;
    }

    /** `is_admin` */
    function IsAdmin(): (b: bool)
      reads this
      ensures b <==> role == "admin"
    {
      role == "admin"
    }
  }

  class AuthManager {
    /** `_hash_password` */
    const hash: string -> string
    var users: map<string, User>
    var current: User?

    /**
     * `AuthManager(data_dir)` after `load_users`: when no user was loaded,
     * the default administrator "admin" with password "admin" is created.
     */
    constructor(hash: string -> string, loaded: map<string, User>, now: string)
      ensures this.hash == hash && current == null
      ensures loaded != map[] ==> users == loaded
      ensures loaded == map[] ==> users.Keys == {"admin"} && fresh(users["admin"])
      ensures loaded == map[] ==>
        var admin := users["admin"];
        admin.username == "admin" && admin.passwordHash == hash("admin") && admin.role == "admin"
        && admin.fullName == "Administrator" && admin.lastLogin == None
    {
      this.hash := hash;
      current := null;
      if loaded == map[] {
        var admin := new User("admin", hash("admin"), "admin", "Administrator", now);
        users := map["admin" := admin];
      } else {
        users := loaded;
      }
    }

    /** `is_logged_in` */
    function IsLoggedIn(): (b: bool)
      reads this
      ensures b <==> current != null
    {
      current != null
    }

    /** `AuthManager.is_admin`: someone is signed in and that user is an administrator. */
    function IsAdmin(): (b: bool)
      reads this, current
      ensures b <==> current != null && current.role == "admin"
    {
      current != null && current.IsAdmin()
    }

    /** `authenticate`: success signs the user in and stamps the login time; failure changes nothing. */
    method Authenticate(username: string, password: string, now: string) returns (ok: bool)
      modifies this`current, if username in users then {users[username]} else {}
      ensures ok <==> username in users && old(users[username].passwordHash) == hash(password)
      ensures ok ==> current == users[username] && users[username].lastLogin == Some(now)
      ensures !ok ==> current == old(current)
      ensures username in users ==> users[username].passwordHash == old(users[username].passwordHash)
      ensures !ok && username in users ==> users[username].lastLogin == old(users[username].lastLogin)
      ensures username in users ==> users[username].role == old(users[username].role)
    {
      if username in users && users[username].passwordHash == hash(password) {
        var user := users[username];
        current := user;
        user.lastLogin := Some(now);
        return true;
      }
      return false;
    }

    /** `logout` */
    method Logout()
      modifies this`current
      ensures current == null && !IsLoggedIn()
    {
      current := null;
    }

    /** `add_user`: a new name gets a fresh user with the hashed password; a taken name changes nothing. */
    method AddUser(username: string, password: string, role: string, fullName: string, now: string) returns (ok: bool)
      modifies this`users
      ensures ok <==> username !in old(users)
      ensures !ok ==> users == old(users)
      ensures ok ==> users.Keys == old(users).Keys + {username} && fresh(users[username])
      ensures ok ==> forall k :: k in old(users) ==> users[k] == old(users)[k]
      ensures ok ==>
        var u := users[username];
        u.username == username && u.passwordHash == hash(password) && u.role == role
        && u.fullName == (if fullName == "" then username else fullName) && u.lastLogin == None
    {
      if username in users {
        return false;
      }
      var user := new User(username, hash(password), role, fullName, now);
      users := users[username := user];
      return true;
    }

    /** `delete_user`: an unknown user and the signed-in user cannot be deleted; otherwise exactly that user goes. */
    method DeleteUser(username: string) returns (ok: bool)
      modifies this`users
      ensures ok <==> username in old(users) && !(current != null && current.username == username)
      ensures ok ==> users == old(users) - {username}
      ensures !ok ==> users == old(users)
    {
      if username !in users {
        return false;
      }
      if current != null && current.username == username {
        return false;
      }
      users := users - {username};
      return true;
    }

    /** `change_password`: only with the right old password does the stored hash become that of the new one. */
    method ChangePassword(username: string, oldPassword: string, newPassword: string) returns (ok: bool)
      modifies if username in users then {users[username]} else {}
      ensures ok <==> username in users && old(users[username].passwordHash) == hash(oldPassword)
      ensures ok ==> users[username].passwordHash == hash(newPassword)
      ensures !ok && username in users ==> users[username].passwordHash == old(users[username].passwordHash)
      ensures username in users ==> users[username].role == old(users[username].role)
      ensures username in users ==> users[username].lastLogin == old(users[username].lastLogin)
    {
      if username !in users {
        return false;
      }
      var user := users[username];
      if user.passwordHash != hash(oldPassword) {
        return false;
      }
      user.passwordHash := hash(newPassword);
      return true;
    }

    /** `reset_password`: an administrator sets a new password without the old one. */
    method ResetPassword(username: string, newPassword: string) returns (ok: bool)
      modifies if username in users then {users[username]} else {}
      ensures ok <==> username in users
      ensures ok ==> users[username].passwordHash == hash(newPassword) && users[username].role == old(users[username].role)
      ensures ok ==> users[username].lastLogin == old(users[username].lastLogin)
    {
      if username !in users {
        return false;
      }
      var user := users[username];
      user.passwordHash := hash(newPassword);
      return true;
    }

    /** `update_user_role` */
    method UpdateUserRole(username: string, newRole: string) returns (ok: bool)
      modifies if username in users then {users[username]} else {}
      ensures ok <==> username in users
      ensures ok ==> users[username].role == newRole && users[username].passwordHash == old(users[username].passwordHash)
      ensures ok ==> users[username].lastLogin == old(users[username].lastLogin)
    {
      if username !in users {
        return false;
      }
      var user := users[username];
      user.role := newRole;
      return true;
    }
  }

  /**
   * After a password change the new password signs the user in. (The old
   * one is refused too unless it hashes to the same value, which nothing
   * here rules out.)
   */
  method ChangeThenSignIn(m: AuthManager, username: string, oldPassword: string, newPassword: string, now: string)
    returns (changed: bool, signedIn: bool)
    modifies m`current, if username in m.users then {m.users[username]} else {}
    ensures m.users == old(m.users)
    ensures changed <==> username in old(m.users) && old(m.users[username].passwordHash) == m.hash(oldPassword)
    ensures changed ==> signedIn && m.current == m.users[username]
  {
    changed := m.ChangePassword(username, oldPassword, newPassword);
    signedIn := m.Authenticate(username, newPassword, now);
  }
}
