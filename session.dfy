/**
 * The session as it lives in `localStorage`: three string entries written on
 * login and two of them removed on logout. This module states the storage
 * transitions; the pages perform them with `Browser.SetItem`/`RemoveItem`.
 */
module Session {
  import opened Js
  import opened Api
  import opened Browser

  const TokenKey: string := "token"
  const UserIdKey: string := "userId"
  const NameKey: string := "name"

  /** The three writes of a successful login, in the order the login page makes them. */
  function LoginWrites(user: User, token: string): seq<Effect> {
    [SetItem(TokenKey, token), SetItem(UserIdKey, IntToString(user.id)), SetItem(NameKey, user.name)]
  }

  /** The two removals of logout, in order. */
  function LogoutWrites(): seq<Effect> {
    [RemoveItem(TokenKey), RemoveItem(UserIdKey)]
  }

  /** The storage after a successful login. */
  function StoreLogin(m: map<string, string>, user: User, token: string): (r: map<string, string>)
    ensures r.Keys == m.Keys + {TokenKey, UserIdKey, NameKey}
    ensures r[TokenKey] == token && r[UserIdKey] == IntToString(user.id) && r[NameKey] == user.name
    ensures forall k :: k in m && k != TokenKey && k != UserIdKey && k != NameKey ==> r[k] == m[k]
  {
    m[TokenKey := token][UserIdKey := IntToString(user.id)][NameKey := user.name]
  }

  /** The storage after logout: `token` and `userId` gone, everything else, `name` included, kept. */
  function StoreLogout(m: map<string, string>): (r: map<string, string>)
    ensures r.Keys == m.Keys - {TokenKey, UserIdKey}
    ensures forall k :: k in r ==> r[k] == m[k]
  {
    m - {TokenKey, UserIdKey}
  }

  /** Performing the login writes one after another reaches `StoreLogin`. */
  lemma ReplayLoginWrites(m: map<string, string>, user: User, token: string)
    ensures Replay(m, LoginWrites(user, token)) == StoreLogin(m, user, token)
  {
    var w := LoginWrites(user, token);
    assert w == [w[0]] + [w[1]] + [w[2]];
    ReplayAppend(m, [w[0]] + [w[1]], [w[2]]);
    ReplayAppend(m, [w[0]], [w[1]]);
  }

  /** Performing the logout removals one after another reaches `StoreLogout`. */
  lemma ReplayLogoutWrites(m: map<string, string>)
    ensures Replay(m, LogoutWrites()) == StoreLogout(m)
  {
    var w := LogoutWrites();
    assert w == [w[0]] + [w[1]];
    ReplayAppend(m, [w[0]], [w[1]]);
  }

  function Lookup(m: map<string, string>, key: string): Option<string> {
    if key in m then Some(m[key]) else None
  }

  /** `Number(localStorage.getItem('userId'))`, the id the event page takes as the current user's. */
  function StoredUserId(m: map<string, string>): (r: JsNumber)
    ensures UserIdKey !in m ==> r == Num(0)
    ensures UserIdKey in m && m[UserIdKey] == "" ==> r == Num(0)
    ensures r.Num? && r.n != 0 ==> UserIdKey in m
  {
    NumberOf(Lookup(m, UserIdKey))
  }

  /** `localStorage.getItem('name') || 'Usuario'`, the greeting name of the event page. */
  function UserName(m: map<string, string>): (r: string)
    ensures r != ""
    ensures r == "Usuario" || (NameKey in m && r == m[NameKey])
    ensures NameKey in m && m[NameKey] != "" ==> r == m[NameKey]
  {
    if TruthyText(Lookup(m, NameKey)) then m[NameKey] else "Usuario"
  }

  /** After a login the event page reads back exactly the id of the user who logged in. */
  lemma LoginStoresUserId(m: map<string, string>, user: User, token: string)
    ensures StoredUserId(StoreLogin(m, user, token)) == Num(user.id)
    ensures Truthy(StoredUserId(StoreLogin(m, user, token))) <==> user.id != 0
  {
    NumberOfIntToString(user.id);
  }

  /** After logout no user id is stored, so the page sees `Number(null)`, which is 0 and falsy. */
  lemma LogoutClearsUserId(m: map<string, string>)
    ensures StoredUserId(StoreLogout(m)) == Num(0)
    ensures !Truthy(StoredUserId(StoreLogout(m)))
  {
  }

  /** Logging out twice is the same as logging out once. */
  lemma LogoutIdempotent(m: map<string, string>)
    ensures StoreLogout(StoreLogout(m)) == StoreLogout(m)
  {
  }

  /** Logout after login leaves the name of the user who logged in, and nothing of the token or id. */
  lemma LogoutAfterLogin(m: map<string, string>, user: User, token: string)
    ensures StoreLogout(StoreLogin(m, user, token)) == (m - {TokenKey, UserIdKey})[NameKey := user.name]
  {
  }
}
